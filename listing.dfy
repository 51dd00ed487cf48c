/** `list_voices`: the names of the voice files in the voices directory, sorted. */
module VoiceListing {
  import opened Exceptions
  import Paths

  /** What scanning the voices directory produced: `scandir` itself raised, or it gave some
      entry names in directory order, possibly ending with an exception that stopped the
      iteration after them. */
  datatype Scan = ScanFails(exc: Exc) | Scanned(entries: seq<string>, failure: Option<Exc>)

  /** The entry names the loop saw before the scan ended, normally or by an exception. */
  function EntriesSeen(scan: Scan): (r: seq<string>)
  {
    match scan
    case ScanFails(_) => []
    case Scanned(entries, _) => entries
  }

  const VOICE_SUFFIX := ".pt"

  predicate IsVoiceFile(name: string)
  {
    Paths.EndsWith(name, VOICE_SUFFIX)
  }

  /** `entry.name[:-3]`. */
  function StripSuffix(name: string): (r: string)
    requires |name| >= 3
  {
    name[..|name| - 3]
  }

  /** The loop's `voices`: the `.pt` entries with the suffix removed, in directory order. */
  function VoiceNames(entries: seq<string>): (r: seq<string>)
    ensures |r| <= |entries|
  {
    if entries == [] then []
    else
      var init := VoiceNames(entries[..|entries| - 1]);
      var name := entries[|entries| - 1];
      if IsVoiceFile(name) then init + [StripSuffix(name)] else init
  }

  /** A name is listed exactly when some entry is a voice file with that name before its suffix. */
  lemma {:induction false} VoiceNamesMembers(entries: seq<string>, x: string)
    ensures x in VoiceNames(entries)
            <==> exists k :: 0 <= k < |entries| && IsVoiceFile(entries[k]) && StripSuffix(entries[k]) == x
  {
    if entries != [] {
      var n := |entries|;
      var init := entries[..n - 1];
      VoiceNamesMembers(init, x);
      assert forall k :: 0 <= k < n - 1 ==> init[k] == entries[k];
      if exists k :: 0 <= k < |entries| && IsVoiceFile(entries[k]) && StripSuffix(entries[k]) == x {
        var k :| 0 <= k < |entries| && IsVoiceFile(entries[k]) && StripSuffix(entries[k]) == x;
        if k < n - 1 {
          assert IsVoiceFile(init[k]) && StripSuffix(init[k]) == x;
        }
      }
    }
  }

  // ---------------------------------------------------------------------------------------
  // `sorted`: Python's string order, code point by code point.

  /** `a <= b` on Python strings: lexicographic on code points, a prefix first. */
  predicate Precedes(a: string, b: string)
    decreases |a|
  {
    a == [] || (b != [] && (a[0] < b[0] || (a[0] == b[0] && Precedes(a[1..], b[1..]))))
  }

  lemma {:induction false} PrecedesReflexive(a: string)
    ensures Precedes(a, a)
    decreases |a|
  {
    if a != [] {
      PrecedesReflexive(a[1..]);
    }
  }

  lemma {:induction false} PrecedesTotal(a: string, b: string)
    ensures Precedes(a, b) || Precedes(b, a)
    decreases |a|
  {
    if a != [] && b != [] && a[0] == b[0] {
      PrecedesTotal(a[1..], b[1..]);
    }
  }

  lemma {:induction false} PrecedesTransitive(a: string, b: string, c: string)
    requires Precedes(a, b) && Precedes(b, c)
    ensures Precedes(a, c)
    decreases |a|
  {
    if a != [] && a[0] == b[0] && b[0] == c[0] {
      PrecedesTransitive(a[1..], b[1..], c[1..]);
    }
  }

  lemma {:induction false} PrecedesAntisymmetric(a: string, b: string)
    requires Precedes(a, b) && Precedes(b, a)
    ensures a == b
    decreases |a|
  {
    if a != [] {
      PrecedesAntisymmetric(a[1..], b[1..]);
      assert a == [a[0]] + a[1..] && b == [b[0]] + b[1..];
    }
  }

  predicate Sorted(s: seq<string>)
  {
    forall i, j :: 0 <= i < j < |s| ==> Precedes(s[i], s[j])
  }

  /** Inserting `x` into a sorted list before the first element it precedes. */
  function Insert(x: string, s: seq<string>): (r: seq<string>)
    ensures multiset(r) == multiset(s) + multiset{x}
  {
    if s == [] then [x]
    else if Precedes(x, s[0]) then [x] + s
    else
      assert s == [s[0]] + s[1..];
      [s[0]] + Insert(x, s[1..])
  }

  lemma {:induction false} InsertSorted(x: string, s: seq<string>)
    requires Sorted(s)
    ensures Sorted(Insert(x, s))
  {
    if s != [] {
      if Precedes(x, s[0]) {
        forall j | 0 < j < |s| ensures Precedes(x, s[j]) {
          PrecedesTransitive(x, s[0], s[j]);
        }
      } else {
        InsertSorted(x, s[1..]);
        HeadPrecedesInsert(x, s);
      }
    }
  }

  /** When `x` goes after the head, the head precedes everything it is inserted among. */
  lemma HeadPrecedesInsert(x: string, s: seq<string>)
    requires Sorted(s) && s != [] && !Precedes(x, s[0])
    ensures forall j :: 0 <= j < |Insert(x, s[1..])| ==> Precedes(s[0], Insert(x, s[1..])[j])
  {
    var t := s[1..];
    PrecedesTotal(x, s[0]);
    var r := Insert(x, t);
    forall y | y in r ensures Precedes(s[0], y) {
      assert y in multiset(r);
      if y != x {
        assert y in multiset(t);
        var k :| 0 <= k < |t| && t[k] == y;
        assert s[k + 1] == y;
      }
    }
    assert forall j :: 0 <= j < |r| ==> r[j] in r;
  }

  /** `sorted(names)`, as insertion sort. */
  function SortNames(names: seq<string>): (r: seq<string>)
    ensures multiset(r) == multiset(names)
  {
    if names == [] then []
    else
      var n := |names|;
      assert names == names[..n - 1] + [names[n - 1]];
      Insert(names[n - 1], SortNames(names[..n - 1]))
  }

  lemma {:induction false} SortNamesSorted(names: seq<string>)
    ensures Sorted(SortNames(names))
  {
    if names != [] {
      var n := |names|;
      SortNamesSorted(names[..n - 1]);
      InsertSorted(names[n - 1], SortNames(names[..n - 1]));
    }
  }

  /** A list of strings has one sorted order: two sorted lists with the same elements are equal,
      so the result does not depend on how it was sorted. */
  lemma {:induction false} SortedUnique(a: seq<string>, b: seq<string>)
    requires Sorted(a) && Sorted(b) && multiset(a) == multiset(b)
    ensures a == b
    decreases |a|
  {
    assert |a| == |multiset(a)| == |multiset(b)| == |b|;
    if a != [] {
      SortedHeadIsLeast(a, b[0]);
      SortedHeadIsLeast(b, a[0]);
      PrecedesAntisymmetric(a[0], b[0]);
      TailsAgree(a, b);
      SortedTail(a);
      SortedTail(b);
      SortedUnique(a[1..], b[1..]);
      assert a == [a[0]] + a[1..] && b == [b[0]] + b[1..];
    }
  }

  /** The head of a sorted list precedes each of its elements. */
  lemma SortedHeadIsLeast(a: seq<string>, x: string)
    requires Sorted(a) && x in multiset(a)
    ensures Precedes(a[0], x)
  {
    var i :| 0 <= i < |a| && a[i] == x;
    if i == 0 {
      PrecedesReflexive(x);
    } else {
      assert Precedes(a[0], a[i]);
    }
  }

  lemma TailsAgree(a: seq<string>, b: seq<string>)
    requires a != [] && b != [] && a[0] == b[0] && multiset(a) == multiset(b)
    ensures multiset(a[1..]) == multiset(b[1..])
  {
    assert a == [a[0]] + a[1..];
    assert b == [b[0]] + b[1..];
    assert multiset(a) == multiset{a[0]} + multiset(a[1..]);
    assert multiset(b) == multiset{a[0]} + multiset(b[1..]);
    assert multiset(a[1..]) == multiset(a) - multiset{a[0]};
  }

  lemma SortedTail(a: seq<string>)
    requires Sorted(a) && a != []
    ensures Sorted(a[1..])
  {
    var t := a[1..];
    forall i, j | 0 <= i < j < |t| ensures Precedes(t[i], t[j]) {
      assert t[i] == a[i + 1] && t[j] == a[j + 1];
    }
  }

  // ---------------------------------------------------------------------------------------
  // The whole call.

  /** `list_voices`: collect the `.pt` names while the scan lasts, swallow whatever ends it, and
      return the names sorted. It never raises. */
  method ListVoices(scan: Scan) returns (voices: seq<string>)
    ensures Sorted(voices)
    ensures multiset(voices) == multiset(VoiceNames(EntriesSeen(scan)))
  {
    voices := [];
    var entries := EntriesSeen(scan);
    for i := 0 to |entries|
      invariant voices == VoiceNames(entries[..i])
    {
      assert entries[..i + 1][..i] == entries[..i];
      var name := entries[i];
      if Paths.EndsWith(name, VOICE_SUFFIX) {
        voices := voices + [name[..|name| - 3]];
      }
    }
    assert entries[..|entries|] == entries;
    SortNamesSorted(voices);
    voices := SortNames(voices);
  }

  /** The listing holds exactly the voice files' names, each without its suffix. */
  lemma ListingMembers(scan: Scan, voices: seq<string>, x: string)
    requires Sorted(voices) && multiset(voices) == multiset(VoiceNames(EntriesSeen(scan)))
    ensures var es := EntriesSeen(scan);
            x in voices <==> exists k :: 0 <= k < |es| && IsVoiceFile(es[k]) && StripSuffix(es[k]) == x
  {
    assert x in voices <==> x in multiset(voices);
    VoiceNamesMembers(EntriesSeen(scan), x);
  }

  /** The listing is `sorted` of the collected names, whatever sorted list satisfies the
      listing's contract. */
  lemma ListingIsSortedNames(scan: Scan, voices: seq<string>)
    requires Sorted(voices) && multiset(voices) == multiset(VoiceNames(EntriesSeen(scan)))
    ensures voices == SortNames(VoiceNames(EntriesSeen(scan)))
  {
    SortNamesSorted(VoiceNames(EntriesSeen(scan)));
    SortedUnique(voices, SortNames(VoiceNames(EntriesSeen(scan))));
  }

  /** When `scandir` itself fails the listing is empty. */
  lemma ScanFailureListsNothing(scan: Scan, voices: seq<string>)
    requires scan.ScanFails?
    requires multiset(voices) == multiset(VoiceNames(EntriesSeen(scan)))
    ensures voices == []
  {
    assert |voices| == |multiset(voices)|;
  }
}
