/** The memo on `_load_voice`: `functools.lru_cache` keyed by the exact path string, holding at
    most `n_cache_voices` voices and evicting the least recently used one. */
module VoiceCache {
  import opened Exceptions
  import opened VoiceFiles

  /** A cached call: the path it was called with and the voice it returned. */
  datatype Entry = Entry(path: string, voice: Loaded)

  /** The position of the entry for `path`, `|entries|` when there is none. */
  function IndexOf(entries: seq<Entry>, path: string): (r: nat)
    ensures r <= |entries|
    ensures r < |entries| ==> entries[r].path == path
    ensures forall i :: 0 <= i < r ==> entries[i].path != path
  {
    if entries == [] then 0
    else if entries[0].path == path then 0
    else 1 + IndexOf(entries[1..], path)
  }

  predicate DistinctPaths(entries: seq<Entry>)
  {
    forall i, j :: 0 <= i < j < |entries| ==> entries[i].path != entries[j].path
  }

  /** Every cached voice is what the store holds under its path now. */
  predicate Coherent(entries: seq<Entry>, files: Files)
  {
    forall i :: 0 <= i < |entries| ==> entries[i].path in files && files[entries[i].path] == Readable(entries[i].voice)
  }

  /** One call: what it returns, the cache afterwards (least recently used first), and whether
      it read the file. */
  datatype Lookup = Lookup(result: Result<Loaded>, entries: seq<Entry>, readFile: bool)

  /** A call of the cached `_load_voice(path)` on a cache of the given capacity. A hit
      returns the remembered voice and makes it the most recently used; a miss loads the
      file, and a voice that loaded is remembered, evicting the least recently used entry of a
      full cache. A load that raises is not remembered, and a cache of capacity 0 remembers
      nothing. */
  function CacheStep(capacity: nat, entries: seq<Entry>, files: Files, path: string): (r: Lookup)
    ensures r.readFile <==> forall k :: 0 <= k < |entries| ==> entries[k].path != path
    ensures r.readFile ==> r.result == LoadFile(files, path)
    ensures |r.entries| <= |entries| + 1
  {
    var i := IndexOf(entries, path);
    if i < |entries| then
      Lookup(Ok(entries[i].voice), entries[..i] + entries[i + 1..] + [entries[i]], false)
    else match LoadFile(files, path)
      case Raised(e) => Lookup(Raised(e), entries, true)
      case Ok(voice) =>
        if capacity == 0 then Lookup(Ok(voice), entries, true)
        else if |entries| < capacity then Lookup(Ok(voice), entries + [Entry(path, voice)], true)
        else Lookup(Ok(voice), entries[1..] + [Entry(path, voice)], true)
  }

  /** The cache never holds more voices than its capacity. */
  lemma CacheStepKeepsBound(capacity: nat, entries: seq<Entry>, files: Files, path: string)
    requires |entries| <= capacity
    ensures |CacheStep(capacity, entries, files, path).entries| <= capacity
  {
  }

  /** The cache holds at most one entry per path. */
  lemma CacheStepKeepsDistinct(capacity: nat, entries: seq<Entry>, files: Files, path: string)
    requires DistinctPaths(entries)
    ensures DistinctPaths(CacheStep(capacity, entries, files, path).entries)
  {
    var i := IndexOf(entries, path);
    if i < |entries| {
      MoveToBackKeepsDistinct(entries, i);
    } else if LoadFile(files, path).Ok? && capacity > 0 {
      var rest := if |entries| < capacity then entries else entries[1..];
      assert forall k :: 0 <= k < |rest| ==> rest[k] == entries[if |entries| < capacity then k else k + 1];
      AppendNewKeepsDistinct(rest, Entry(path, LoadFile(files, path).value));
    }
  }

  /** Moving an entry to the back keeps the paths distinct. */
  lemma MoveToBackKeepsDistinct(entries: seq<Entry>, i: nat)
    requires i < |entries| && DistinctPaths(entries)
    ensures DistinctPaths(entries[..i] + entries[i + 1..] + [entries[i]])
  {
    var moved := entries[..i] + entries[i + 1..] + [entries[i]];
    forall a, b | 0 <= a < b < |moved| ensures moved[a].path != moved[b].path {
      var ia := if a < i then a else a + 1;
      var ib := if b == |moved| - 1 then i else if b < i then b else b + 1;
      assert moved[a] == entries[ia] && moved[b] == entries[ib] && ia != ib;
    }
  }

  /** Appending an entry for a new path keeps the paths distinct. */
  lemma AppendNewKeepsDistinct(rest: seq<Entry>, e: Entry)
    requires DistinctPaths(rest)
    requires forall k :: 0 <= k < |rest| ==> rest[k].path != e.path
    ensures DistinctPaths(rest + [e])
  {
    var grown := rest + [e];
    forall a, b | 0 <= a < b < |grown| ensures grown[a].path != grown[b].path {
      assert grown[a] == rest[a];
      if b < |rest| {
        assert grown[b] == rest[b];
      }
    }
  }

  /** The memo is transparent while it agrees with the store: a call returns what loading the
      file returns, and the cache still agrees with the store afterwards. */
  lemma MemoTransparent(capacity: nat, entries: seq<Entry>, files: Files, path: string)
    requires Coherent(entries, files)
    ensures CacheStep(capacity, entries, files, path).result == LoadFile(files, path)
    ensures Coherent(CacheStep(capacity, entries, files, path).entries, files)
  {
    var i := IndexOf(entries, path);
    if i < |entries| {
      var moved := entries[..i] + entries[i + 1..] + [entries[i]];
      forall a | 0 <= a < |moved| ensures moved[a].path in files && files[moved[a].path] == Readable(moved[a].voice) {
        var ia := if a == |moved| - 1 then i else if a < i then a else a + 1;
        assert moved[a] == entries[ia];
      }
    } else if LoadFile(files, path).Ok? && capacity > 0 {
      var rest := if |entries| < capacity then entries else entries[1..];
      var grown := rest + [Entry(path, LoadFile(files, path).value)];
      forall a | 0 <= a < |grown| ensures grown[a].path in files && files[grown[a].path] == Readable(grown[a].voice) {
        if a < |rest| {
          assert |entries| < capacity ==> grown[a] == entries[a];
          assert |entries| >= capacity ==> grown[a] == entries[a + 1];
        }
      }
    }
  }

  /** A hit does not touch the store and makes the entry the most recently used. */
  lemma HitSkipsStore(capacity: nat, entries: seq<Entry>, files: Files, path: string, i: nat)
    requires i < |entries| && entries[i].path == path && DistinctPaths(entries)
    ensures var r := CacheStep(capacity, entries, files, path);
            && r.result == Ok(entries[i].voice) && !r.readFile
            && |r.entries| == |entries| && r.entries[|entries| - 1] == entries[i]
  {
    assert IndexOf(entries, path) == i;
  }

  /** A miss on a full cache that loads evicts the least recently used entry. */
  lemma MissEvictsLeastRecent(capacity: nat, entries: seq<Entry>, files: Files, path: string)
    requires 0 < capacity == |entries|
    requires forall i :: 0 <= i < |entries| ==> entries[i].path != path
    requires LoadFile(files, path).Ok?
    ensures CacheStep(capacity, entries, files, path) == Lookup(LoadFile(files, path), entries[1..] + [Entry(path, LoadFile(files, path).value)], true)
  {
  }

  /** A load that raises is not remembered. */
  lemma FailureNotCached(capacity: nat, entries: seq<Entry>, files: Files, path: string)
    requires forall i :: 0 <= i < |entries| ==> entries[i].path != path
    requires LoadFile(files, path).Raised?
    ensures CacheStep(capacity, entries, files, path) == Lookup(LoadFile(files, path), entries, true)
  {
  }

  /** A cache of capacity 0 reads the file on every call and never fills. */
  lemma ZeroCapacityCachesNothing(entries: seq<Entry>, files: Files, path: string)
    requires entries == []
    ensures CacheStep(0, entries, files, path) == Lookup(LoadFile(files, path), [], true)
  {
  }

  /** The memo is keyed by the path string only: once a path is cached, a call returns the
      remembered voice even if the file under that path has since been replaced. */
  lemma KeyedByPathOnly(capacity: nat, entries: seq<Entry>, files: Files, path: string, replacement: StoredFile)
    requires exists i :: 0 <= i < |entries| && entries[i].path == path
    ensures var i := IndexOf(entries, path);
            CacheStep(capacity, entries, files[path := replacement], path).result == Ok(entries[i].voice)
  {
  }

  /** The cache object behind the decorator. */
  class Cache {
    const capacity: nat
    var entries: seq<Entry>

    predicate Valid()
      reads this
    {
      |entries| <= capacity && DistinctPaths(entries)
    }

    constructor(capacity: nat)
      ensures this.capacity == capacity && entries == [] && Valid()
    {
      this.capacity := capacity;
      entries := [];
    }

    /** A call of the cached `_load_voice(path)`. */
    method Load(files: Files, path: string) returns (r: Result<Loaded>)
      requires Valid()
      modifies this
      ensures Valid()
      ensures r == CacheStep(capacity, old(entries), files, path).result
      ensures entries == CacheStep(capacity, old(entries), files, path).entries
    {
      CacheStepKeepsBound(capacity, entries, files, path);
      CacheStepKeepsDistinct(capacity, entries, files, path);
      var i := IndexOf(entries, path);
      if i < |entries| {
        var hit := entries[i];
        entries := entries[..i] + entries[i + 1..] + [hit];
        return Ok(hit.voice);
      }
      r := LoadFile(files, path);
      if r.Ok? && capacity > 0 {
        if |entries| == capacity {
          entries := entries[1..];
        }
        entries := entries + [Entry(path, r.value)];
      }
    }
  }
}
