/** `combine_voices`: average several stored voices into a new voice file named after them. */
module VoiceCombination {
  import opened Exceptions
  import opened VoiceFiles
  import opened Collaborators
  import Paths

  const TOO_FEW_VOICES := "At least 2 voices are required for combination"
  /** What `torch.stack` raises on tensors of different sizes. */
  const UNEQUAL_SIZES := "stack expects each tensor to be equal size"

  /** What one call did: its outcome, the voice store afterwards, and how often `cleanup` ran. */
  datatype CombineRun = CombineRun(result: Result<string>, files: Files, cleanups: nat)

  // ---------------------------------------------------------------------------------------
  // The name of the combined voice.

  /** `"_".join(names)`. */
  function JoinNames(names: seq<string>): (r: string)
    decreases |names|
  {
    if names == [] then ""
    else if |names| == 1 then names[0]
    else names[0] + "_" + JoinNames(names[1..])
  }

  /** `s.split("_")`: the pieces between separators, always at least one. */
  function SplitNames(s: string): (r: seq<string>)
    ensures |r| >= 1
    decreases |s|
  {
    if s == [] then [""]
    else
      var rest := SplitNames(s[1..]);
      if s[0] == '_' then [""] + rest else [[s[0]] + rest[0]] + rest[1..]
  }

  predicate NoSeparator(name: string)
  {
    forall k :: 0 <= k < |name| ==> name[k] != '_'
  }

  /** A piece without a separator is glued to the first piece of what follows it. */
  lemma {:induction false} SplitPrefix(a: string, t: string)
    requires NoSeparator(a)
    ensures SplitNames(a + t) == [a + SplitNames(t)[0]] + SplitNames(t)[1..]
    decreases |a|
  {
    var st := SplitNames(t);
    if a == [] {
      assert a + t == t && a + st[0] == st[0];
      assert st == [st[0]] + st[1..];
    } else {
      assert a[0] != '_';
      assert (a + t)[0] == a[0] && (a + t)[1..] == a[1..] + t;
      SplitPrefix(a[1..], t);
      var rest := SplitNames(a[1..] + t);
      assert rest[0] == a[1..] + st[0] && rest[1..] == st[1..];
      assert [a[0]] + (a[1..] + st[0]) == a + st[0];
    }
  }

  /** The combined name determines the voices it was formed from when no voice name contains
      the separator: splitting it gives the names back, in order. */
  lemma {:induction false} JoinSplitRoundTrip(names: seq<string>)
    requires |names| >= 1
    requires forall i :: 0 <= i < |names| ==> NoSeparator(names[i])
    ensures SplitNames(JoinNames(names)) == names
    decreases |names|
  {
    if |names| == 1 {
      SplitPrefix(names[0], "");
      assert names[0] + "" == names[0];
    } else {
      var tail := JoinNames(names[1..]);
      JoinSplitRoundTrip(names[1..]);
      assert names[0] + "_" + tail == names[0] + ("_" + tail);
      SplitPrefix(names[0], "_" + tail);
      assert ("_" + tail)[1..] == tail;
      assert SplitNames("_" + tail) == [""] + names[1..];
      assert names[0] + "" == names[0];
    }
  }

  /** With a separator inside a voice name the combined name no longer determines the voices:
      two different requests save to the same name. */
  lemma JoinNamesCollide()
    ensures JoinNames(["a_b", "c"]) == JoinNames(["a", "b_c"]) == "a_b_c"
  {
  }

  // ---------------------------------------------------------------------------------------
  // `torch.mean(torch.stack(t_voices), dim=0)`, on reals.

  /** The position of the first loaded object that is not a tensor, `|loaded|` if there is none. */
  function FirstNonTensor(loaded: seq<Loaded>): (r: nat)
    ensures r <= |loaded|
    ensures forall i :: 0 <= i < r ==> loaded[i].Tensor?
    ensures r < |loaded| ==> loaded[r].NonTensor?
  {
    if loaded == [] then 0
    else if loaded[0].NonTensor? then 0
    else 1 + FirstNonTensor(loaded[1..])
  }

  /** `torch.stack`: every loaded object must be a tensor (the first that is not raises a
      `TypeError` naming its position and type), and all must be of one size. */
  function Stack(loaded: seq<Loaded>): (r: Result<seq<seq<real>>>)
    requires |loaded| >= 1
    ensures r.Ok? <==> (forall i :: 0 <= i < |loaded| ==> loaded[i].Tensor?)
                       && (forall i :: 0 <= i < |loaded| ==> |loaded[i].values| == |loaded[0].values|)
    ensures r.Ok? ==> |r.value| == |loaded| && forall i :: 0 <= i < |loaded| ==> r.value[i] == loaded[i].values
    ensures r.Raised? ==> r.exc.cls != ValueError
    ensures r.Raised? ==> (r.exc.cls == OtherError <==> exists i :: 0 <= i < |loaded| && loaded[i].NonTensor?)
    ensures r.Raised? && r.exc.cls != OtherError ==> r.exc == Exc(RuntimeError, UNEQUAL_SIZES)
  {
    var i := FirstNonTensor(loaded);
    if i < |loaded| then
      Raised(Exc(OtherError, "expected Tensor as element " + IndexText(i) + " in argument 0, but got " + loaded[i].typeName))
    else if exists j :: 0 <= j < |loaded| && |loaded[j].values| != |loaded[0].values| then
      Raised(Exc(RuntimeError, UNEQUAL_SIZES))
    else
      Ok(seq(|loaded|, j requires 0 <= j < |loaded| => loaded[j].values))
  }

  /** The decimal digits of a position, as it appears in a message. */
  function IndexText(n: nat): (r: string)
    decreases n
  {
    if n < 10 then ["0123456789"[n]] else IndexText(n / 10) + ["0123456789"[n % 10]]
  }

  /** The sum of column `k` of the first `n` rows. */
  function ColumnSum(rows: seq<seq<real>>, k: nat, n: nat): (r: real)
    requires n <= |rows|
    requires forall i :: 0 <= i < |rows| ==> k < |rows[i]|
  {
    if n == 0 then 0.0 else ColumnSum(rows, k, n - 1) + rows[n - 1][k]
  }

  /** A column sum of `n` entries in `[lo, hi]` lies in `[n * lo, n * hi]`. */
  lemma {:induction false} ColumnSumBounds(rows: seq<seq<real>>, k: nat, n: nat, lo: real, hi: real)
    requires n <= |rows|
    requires forall i :: 0 <= i < |rows| ==> k < |rows[i]|
    requires forall i :: 0 <= i < n ==> lo <= rows[i][k] <= hi
    ensures (n as real) * lo <= ColumnSum(rows, k, n) <= (n as real) * hi
  {
    if n > 0 {
      var m := n - 1;
      ColumnSumBounds(rows, k, m, lo, hi);
      assert ColumnSum(rows, k, n) == ColumnSum(rows, k, m) + rows[m][k];
      assert (n as real) * lo == (m as real) * lo + lo && (n as real) * hi == (m as real) * hi + hi;
    }
  }

  /** The element-wise mean of rows of one width. */
  function Mean(rows: seq<seq<real>>): (r: seq<real>)
    requires |rows| >= 1
    requires forall i :: 0 <= i < |rows| ==> |rows[i]| == |rows[0]|
    ensures |r| == |rows[0]|
  {
    seq(|rows[0]|, k requires 0 <= k < |rows[0]| => ColumnSum(rows, k, |rows|) / (|rows| as real))
  }

  /** The sum of `n` copies of one value. */
  lemma {:induction false} ColumnSumOfCopies(rows: seq<seq<real>>, k: nat, n: nat, x: real)
    requires n <= |rows|
    requires forall i :: 0 <= i < |rows| ==> k < |rows[i]| && rows[i][k] == x
    ensures ColumnSum(rows, k, n) == (n as real) * x
  {
    if n > 0 {
      ColumnSumOfCopies(rows, k, n - 1, x);
    }
  }

  /** Averaging copies of one voice gives that voice back. */
  lemma MeanOfCopies(rows: seq<seq<real>>, v: seq<real>)
    requires |rows| >= 1
    requires forall i :: 0 <= i < |rows| ==> rows[i] == v
    ensures Mean(rows) == v
  {
    assert |Mean(rows)| == |v|;
    forall k | 0 <= k < |v| ensures Mean(rows)[k] == v[k] {
      ColumnSumOfCopies(rows, k, |rows|, v[k]);
      DivideCopies(|rows|, v[k], ColumnSum(rows, k, |rows|));
      assert Mean(rows)[k] == ColumnSum(rows, k, |rows|) / (|rows| as real);
    }
  }

  lemma DivideCopies(n: nat, x: real, sum: real)
    requires n > 0 && sum == (n as real) * x
    ensures sum / (n as real) == x
  {
  }

  /** The combined voice lies between the smallest and the largest value of the voices. */
  lemma MeanWithinBounds(rows: seq<seq<real>>, lo: real, hi: real)
    requires |rows| >= 1
    requires forall i :: 0 <= i < |rows| ==> |rows[i]| == |rows[0]|
    requires forall i, k :: 0 <= i < |rows| && 0 <= k < |rows[i]| ==> lo <= rows[i][k] <= hi
    ensures forall k :: 0 <= k < |Mean(rows)| ==> lo <= Mean(rows)[k] <= hi
  {
    forall k | 0 <= k < |rows[0]| ensures lo <= Mean(rows)[k] <= hi {
      ColumnSumBounds(rows, k, |rows|, lo, hi);
      DivideBounds(|rows|, lo, hi, ColumnSum(rows, k, |rows|));
    }
  }

  lemma DivideBounds(n: nat, lo: real, hi: real, sum: real)
    requires n > 0 && (n as real) * lo <= sum <= (n as real) * hi
    ensures lo <= sum / (n as real) <= hi
  {
  }

  /** Two voices `[2, 2]` and `[4, 4]` average to `[3, 3]`. */
  lemma MeanOfTwo()
    ensures Mean([[2.0, 2.0], [4.0, 4.0]]) == [3.0, 3.0]
  {
    var rows := [[2.0, 2.0], [4.0, 4.0]];
    assert ColumnSum(rows, 0, 2) == 6.0;
    assert ColumnSum(rows, 1, 2) == 6.0;
  }

  // ---------------------------------------------------------------------------------------
  // The whole call.

  /** The load loop on the voices `vs`: every file is loaded in order, and the first failure
      is re-raised as a `ValueError` naming the voice. */
  function LoadAll(env: Env, vs: seq<string>): (r: Result<seq<Loaded>>)
    ensures r.Ok? ==> |r.value| == |vs|
  {
    if vs == [] then Ok([])
    else match LoadAll(env, vs[..|vs| - 1])
      case Raised(e) => Raised(e)
      case Ok(loaded) =>
        var v := vs[|vs| - 1];
        match LoadFile(env.files, VoiceFile(env.voicesDir, v))
        case Raised(e) => Raised(Exc(ValueError, "Failed to load voice " + v + ": " + e.message))
        case Ok(t) => Ok(loaded + [t])
  }

  /** The outer handler: `ValueError` and `RuntimeError` propagate unchanged, every other
      exception becomes a `RuntimeError`. */
  function Rewrap(e: Exc): (r: Exc)
    ensures r.cls != OtherError
    ensures e.cls != OtherError ==> r == e
  {
    if e.cls == OtherError then Exc(RuntimeError, "Error combining voices: " + e.message) else e
  }

  /** Where the combined voice is saved. */
  function CombinedPath(env: Env, name: string): (r: string)
  {
    VoiceFile(env.voicesDir, name)
  }

  /** The `try` block after loading: stack and average the voices, then save the mean under
      the joined name, with `cleanup` in the save's `finally`. */
  function SaveRunOf(env: Env, name: string, loaded: seq<Loaded>): (r: CombineRun)
    requires |loaded| >= 1
    ensures r.cleanups == if Stack(loaded).Ok? then 1 else 0
    ensures r.result.Raised? ==> r.files == env.files && r.result.exc.cls != OtherError
    ensures r.result.Ok? ==> Stack(loaded).Ok? && r.result == Ok(name)
                             && r.files == env.files[CombinedPath(env, name) := Readable(Tensor(Mean(Stack(loaded).value)))]
  {
    match Stack(loaded)
    case Raised(e) => CombineRun(Raised(Rewrap(e)), env.files, 0)
    case Ok(rows) =>
      var path := CombinedPath(env, name);
      match env.saveFault(path)
      case Some(e) =>
        CombineRun(Raised(Exc(RuntimeError, "Failed to save combined voice to " + path + ": " + e.message)), env.files, 1)
      case None => CombineRun(Ok(name), env.files[path := Readable(Tensor(Mean(rows)))], 1)
  }

  /** What `combine_voices(voices)` does. */
  function CombineRunOf(env: Env, voices: seq<string>): (r: CombineRun)
    ensures r.cleanups <= 1
    ensures r.files != env.files ==> r.result.Ok?
    ensures r.result.Ok? ==> r.result == Ok(JoinNames(voices)) && r.cleanups == 1
                             && r.files.Keys == env.files.Keys + {CombinedPath(env, JoinNames(voices))}
  {
    if |voices| < 2 then CombineRun(Raised(Exc(ValueError, TOO_FEW_VOICES)), env.files, 0)
    else match LoadAll(env, voices)
      case Raised(e) => CombineRun(Raised(e), env.files, 0)
      case Ok(loaded) => SaveRunOf(env, JoinNames(voices), loaded)
  }

  /** `combine_voices`, with its load loop appending to `t_voices` and `v_name`. */
  method CombineVoices(env: Env, voices: seq<string>) returns (run: CombineRun)
    ensures run == CombineRunOf(env, voices)
  {
    if |voices| < 2 {
      return CombineRun(Raised(Exc(ValueError, TOO_FEW_VOICES)), env.files, 0);
    }
    var tVoices: seq<Loaded> := [];
    var vName: seq<string> := [];
    for i := 0 to |voices|
      invariant LoadAll(env, voices[..i]) == Ok(tVoices)
      invariant vName == voices[..i]
    {
      var voice := voices[i];
      var voicepack := LoadFile(env.files, VoiceFile(env.voicesDir, voice));
      LoadAllExtend(env, voices, i, tVoices);
      if voicepack.Raised? {
        LoadStopsAtFailure(env, voices, i + 1);
        RunAfterLoading(env, voices);
        return CombineRun(Raised(Exc(ValueError, "Failed to load voice " + voice + ": " + voicepack.exc.message)), env.files, 0);
      }
      tVoices := tVoices + [voicepack.value];
      vName := vName + [voice];
    }
    assert voices[..|voices|] == voices;
    run := SaveCombined(env, JoinNames(vName), tVoices);
    RunAfterLoading(env, voices);
  }

  /** The `try` block after loading: a failed stack never reaches the save, so `cleanup` runs
      exactly when stacking succeeds; a failed save raises a `RuntimeError` naming the path;
      a successful one stores the element-wise mean under the joined name. */
  method SaveCombined(env: Env, f: string, tVoices: seq<Loaded>) returns (run: CombineRun)
    requires |tVoices| >= 1
    ensures run.cleanups == if Stack(tVoices).Ok? then 1 else 0
    ensures Stack(tVoices).Raised? ==> run.result == Raised(Rewrap(Stack(tVoices).exc))
    ensures var path := CombinedPath(env, f);
            Stack(tVoices).Ok? && env.saveFault(path).Some? ==>
              run.result == Raised(Exc(RuntimeError, "Failed to save combined voice to " + path + ": " + env.saveFault(path).value.message))
              && run.files == env.files
    ensures var path := CombinedPath(env, f);
            Stack(tVoices).Ok? && env.saveFault(path).None? ==>
              run.result == Ok(f) && run.files == env.files[path := Readable(Tensor(Mean(Stack(tVoices).value)))]
    ensures run == SaveRunOf(env, f, tVoices)
  {
    var stacked := Stack(tVoices);
    if stacked.Raised? {
      return CombineRun(Raised(Rewrap(stacked.exc)), env.files, 0);
    }
    var v := Mean(stacked.value);
    var combinedPath := CombinedPath(env, f);
    var fault := env.saveFault(combinedPath);
    var cleanups := 1;
    if fault.Some? {
      return CombineRun(Raised(Exc(RuntimeError, "Failed to save combined voice to " + combinedPath + ": " + fault.value.message)), env.files, cleanups);
    }
    run := CombineRun(Ok(f), env.files[combinedPath := Readable(Tensor(v))], cleanups);
  }

  /** The call once the load loop is over: its error, or the save step on what it loaded. */
  lemma RunAfterLoading(env: Env, voices: seq<string>)
    requires |voices| >= 2
    ensures LoadAll(env, voices).Raised? ==> CombineRunOf(env, voices) == CombineRun(Raised(LoadAll(env, voices).exc), env.files, 0)
    ensures LoadAll(env, voices).Ok? ==> CombineRunOf(env, voices) == SaveRunOf(env, JoinNames(voices), LoadAll(env, voices).value)
  {
  }

  /** One more pass of the load loop. */
  lemma LoadAllExtend(env: Env, vs: seq<string>, i: nat, loaded: seq<Loaded>)
    requires i < |vs| && LoadAll(env, vs[..i]) == Ok(loaded)
    ensures var r := LoadFile(env.files, VoiceFile(env.voicesDir, vs[i]));
            LoadAll(env, vs[..i + 1])
            == if r.Ok? then Ok(loaded + [r.value])
               else Raised(Exc(ValueError, "Failed to load voice " + vs[i] + ": " + r.exc.message))
  {
    assert vs[..i + 1][..i] == vs[..i];
  }

  /** A failure in the load loop ends the loop: a prefix that fails makes the whole fail the
      same way. */
  lemma {:induction false} LoadStopsAtFailure(env: Env, vs: seq<string>, n: nat)
    requires n <= |vs| && LoadAll(env, vs[..n]).Raised?
    ensures LoadAll(env, vs) == LoadAll(env, vs[..n])
    decreases |vs| - n
  {
    if n < |vs| {
      assert vs[..n + 1][..n] == vs[..n];
      LoadStopsAtFailure(env, vs, n + 1);
    } else {
      assert vs[..n] == vs;
    }
  }

  /** The loop loads every voice when each file loads. */
  lemma {:induction false} LoadAllSucceeds(env: Env, vs: seq<string>)
    requires forall i :: 0 <= i < |vs| ==> LoadFile(env.files, VoiceFile(env.voicesDir, vs[i])).Ok?
    ensures LoadAll(env, vs).Ok?
    ensures forall i :: 0 <= i < |vs| ==> LoadAll(env, vs).value[i] == LoadFile(env.files, VoiceFile(env.voicesDir, vs[i])).value
  {
    if vs != [] {
      var init := vs[..|vs| - 1];
      assert forall i :: 0 <= i < |init| ==> init[i] == vs[i];
      LoadAllSucceeds(env, init);
    }
  }

  /** The loop fails at the first voice that does not load, naming it, whatever follows. */
  lemma {:induction false} LoadAllFailsAtFirst(env: Env, vs: seq<string>, i: nat)
    requires i < |vs|
    requires forall j :: 0 <= j < i ==> LoadFile(env.files, VoiceFile(env.voicesDir, vs[j])).Ok?
    requires LoadFile(env.files, VoiceFile(env.voicesDir, vs[i])).Raised?
    ensures LoadAll(env, vs)
            == Raised(Exc(ValueError, "Failed to load voice " + vs[i] + ": "
                                      + LoadFile(env.files, VoiceFile(env.voicesDir, vs[i])).exc.message))
  {
    var before := vs[..i];
    assert forall j :: 0 <= j < |before| ==> before[j] == vs[j];
    LoadAllSucceeds(env, before);
    assert vs[..i + 1][..i] == before;
    LoadStopsAtFailure(env, vs, i + 1);
  }

  /** Fewer than two voices are refused before anything is loaded or saved. */
  lemma TooFewVoices(env: Env, voices: seq<string>)
    requires |voices| < 2
    ensures CombineRunOf(env, voices) == CombineRun(Raised(Exc(ValueError, TOO_FEW_VOICES)), env.files, 0)
  {
  }

  /** A voice that does not load ends the call with a `ValueError` naming the first such
      voice; nothing is saved and `cleanup` does not run. */
  lemma LoadFailureNamesVoice(env: Env, voices: seq<string>, i: nat)
    requires 2 <= |voices| && i < |voices|
    requires forall j :: 0 <= j < i ==> LoadFile(env.files, VoiceFile(env.voicesDir, voices[j])).Ok?
    requires LoadFile(env.files, VoiceFile(env.voicesDir, voices[i])).Raised?
    ensures var run := CombineRunOf(env, voices);
            && run.result == Raised(Exc(ValueError, "Failed to load voice " + voices[i] + ": "
                                                    + LoadFile(env.files, VoiceFile(env.voicesDir, voices[i])).exc.message))
            && run.files == env.files && run.cleanups == 0
  {
    LoadAllFailsAtFirst(env, voices, i);
  }

  /** The exceptions `combine_voices` lets out are only ever `ValueError` or `RuntimeError`. */
  lemma RaisesOnlyOwnClasses(env: Env, voices: seq<string>)
    requires CombineRunOf(env, voices).result.Raised?
    ensures CombineRunOf(env, voices).result.exc.cls != OtherError
  {
    if |voices| >= 2 {
      LoadAllClass(env, voices);
    }
  }

  lemma {:induction false} LoadAllClass(env: Env, vs: seq<string>)
    ensures LoadAll(env, vs).Raised? ==> LoadAll(env, vs).exc.cls == ValueError
  {
    if vs != [] {
      LoadAllClass(env, vs[..|vs| - 1]);
    }
  }

  /** `cleanup` runs exactly when a save was attempted, whether it succeeded or not. */
  lemma CleanupIffSaveAttempted(env: Env, voices: seq<string>)
    ensures var run := CombineRunOf(env, voices);
            run.cleanups == (if |voices| >= 2 && LoadAll(env, voices).Ok? && Stack(LoadAll(env, voices).value).Ok? then 1 else 0)
  {
  }

  /** A save that fails raises a `RuntimeError` naming the path; `cleanup` still runs and the
      store is unchanged. */
  lemma SaveFailureNamesPath(env: Env, voices: seq<string>)
    requires |voices| >= 2 && LoadAll(env, voices).Ok? && Stack(LoadAll(env, voices).value).Ok?
    requires env.saveFault(CombinedPath(env, JoinNames(voices))).Some?
    ensures var run := CombineRunOf(env, voices);
            var path := CombinedPath(env, JoinNames(voices));
            && run.result == Raised(Exc(RuntimeError, "Failed to save combined voice to " + path + ": "
                                                      + env.saveFault(path).value.message))
            && run.files == env.files && run.cleanups == 1
  {
    RunAfterLoading(env, voices);
    var loaded := LoadAll(env, voices).value;
    assert CombineRunOf(env, voices) == SaveRunOf(env, JoinNames(voices), loaded);
  }

  /** The values of the voices' tensors, in input order. */
  function VoiceRows(env: Env, voices: seq<string>): (r: seq<seq<real>>)
    requires forall i :: 0 <= i < |voices| ==> LoadFile(env.files, VoiceFile(env.voicesDir, voices[i])).Ok?
    requires forall i :: 0 <= i < |voices| ==> LoadFile(env.files, VoiceFile(env.voicesDir, voices[i])).value.Tensor?
    ensures |r| == |voices|
  {
    seq(|voices|, i requires 0 <= i < |voices| => LoadFile(env.files, VoiceFile(env.voicesDir, voices[i])).value.values)
  }

  /** On success the call returns the voices' names joined by `_` in input order, and the
      element-wise mean of their tensors is stored as `<name>.pt` in the voices directory,
      where the voice lookup now finds it; no other file is added, changed or removed. */
  lemma CombineSucceeds(env: Env, voices: seq<string>, width: nat)
    requires |voices| >= 2
    requires forall i :: 0 <= i < |voices| ==> LoadFile(env.files, VoiceFile(env.voicesDir, voices[i])).Ok?
    requires forall i :: 0 <= i < |voices| ==> LoadFile(env.files, VoiceFile(env.voicesDir, voices[i])).value.Tensor?
    requires forall i :: 0 <= i < |voices| ==> |LoadFile(env.files, VoiceFile(env.voicesDir, voices[i])).value.values| == width
    requires env.saveFault(CombinedPath(env, JoinNames(voices))).None?
    ensures var run := CombineRunOf(env, voices);
            var name := JoinNames(voices);
            var path := VoiceFile(env.voicesDir, name);
            && run.result == Ok(name) && run.cleanups == 1
            && VoicePath(env.voicesDir, run.files, name) == Some(path)
            && run.files[path] == Readable(Tensor(Mean(VoiceRows(env, voices))))
            && |run.files[path].content.values| == width
            && run.files.Keys == env.files.Keys + {path}
            && (forall p :: p in env.files && p != path ==> run.files[p] == env.files[p])
  {
    var name := JoinNames(voices);
    var path := VoiceFile(env.voicesDir, name);
    var mean := Mean(VoiceRows(env, voices));
    SuccessfulRun(env, voices, width);
    StoredUnder(env.files, path, Readable(Tensor(mean)), CombineRunOf(env, voices).files);
  }

  /** A store with one file written: the file is there and found, and nothing else moved. */
  lemma StoredUnder(files: Files, path: string, f: StoredFile, after: Files)
    requires after == files[path := f]
    ensures path in after && after[path] == f
    ensures after.Keys == files.Keys + {path}
    ensures forall p :: p in files && p != path ==> after[p] == files[p]
  {
  }

  /** The run of a successful call: the joined name, the mean of the voices stored under it,
      and one cleanup. */
  lemma SuccessfulRun(env: Env, voices: seq<string>, width: nat)
    requires |voices| >= 2
    requires forall i :: 0 <= i < |voices| ==> LoadFile(env.files, VoiceFile(env.voicesDir, voices[i])).Ok?
    requires forall i :: 0 <= i < |voices| ==> LoadFile(env.files, VoiceFile(env.voicesDir, voices[i])).value.Tensor?
    requires forall i :: 0 <= i < |voices| ==> |LoadFile(env.files, VoiceFile(env.voicesDir, voices[i])).value.values| == width
    requires env.saveFault(CombinedPath(env, JoinNames(voices))).None?
    ensures |Mean(VoiceRows(env, voices))| == width
    ensures CombineRunOf(env, voices)
            == CombineRun(Ok(JoinNames(voices)),
                          env.files[VoiceFile(env.voicesDir, JoinNames(voices)) := Readable(Tensor(Mean(VoiceRows(env, voices))))], 1)
  {
    var rows := VoiceRows(env, voices);
    LoadAllSucceeds(env, voices);
    var loaded := LoadAll(env, voices).value;
    LoadedRows(env, voices, loaded, rows, width);
    RunAfterLoading(env, voices);
    SaveOfStacked(env, JoinNames(voices), loaded, rows);
  }

  /** The loaded voices stack into their rows, all of the common width. */
  lemma LoadedRows(env: Env, voices: seq<string>, loaded: seq<Loaded>, rows: seq<seq<real>>, width: nat)
    requires |voices| >= 1 && |loaded| == |voices|
    requires forall i :: 0 <= i < |voices| ==> LoadFile(env.files, VoiceFile(env.voicesDir, voices[i])).Ok?
    requires forall i :: 0 <= i < |voices| ==> LoadFile(env.files, VoiceFile(env.voicesDir, voices[i])).value.Tensor?
    requires forall i :: 0 <= i < |voices| ==> |LoadFile(env.files, VoiceFile(env.voicesDir, voices[i])).value.values| == width
    requires forall i :: 0 <= i < |voices| ==> loaded[i] == LoadFile(env.files, VoiceFile(env.voicesDir, voices[i])).value
    requires rows == VoiceRows(env, voices)
    ensures Stack(loaded) == Ok(rows) && |Mean(rows)| == width
  {
    assert forall i :: 0 <= i < |loaded| ==> loaded[i].Tensor? && |loaded[i].values| == width;
    StackOfLoaded(loaded, width);
    assert forall i :: 0 <= i < |rows| ==> rows[i] == loaded[i].values;
    assert Stack(loaded).value == rows;
  }

  /** The save step on voices that stack: the mean is stored under the joined name. */
  lemma SaveOfStacked(env: Env, name: string, loaded: seq<Loaded>, rows: seq<seq<real>>)
    requires |loaded| >= 1 && Stack(loaded) == Ok(rows)
    requires env.saveFault(CombinedPath(env, name)).None?
    ensures SaveRunOf(env, name, loaded)
            == CombineRun(Ok(name), env.files[VoiceFile(env.voicesDir, name) := Readable(Tensor(Mean(rows)))], 1)
  {
  }

  lemma StackOfLoaded(loaded: seq<Loaded>, width: nat)
    requires |loaded| >= 1
    requires forall i :: 0 <= i < |loaded| ==> loaded[i].Tensor? && |loaded[i].values| == width
    ensures Stack(loaded).Ok? && |Mean(Stack(loaded).value)| == width
  {
  }

  /** The voices `a` holding `[2, 2]` and `b` holding `[4, 4]` combine into `a_b`, which holds
      `[3, 3]`. */
  lemma CombineTwoExample(env: Env)
    requires env.voicesDir == "v"
    requires env.files == map["v/a.pt" := Readable(Tensor([2.0, 2.0])), "v/b.pt" := Readable(Tensor([4.0, 4.0]))]
    requires env.saveFault("v/a_b.pt").None?
    ensures var run := CombineRunOf(env, ["a", "b"]);
            && run.result == Ok("a_b") && run.cleanups == 1
            && run.files == env.files["v/a_b.pt" := Readable(Tensor([3.0, 3.0]))]
  {
    var voices := ["a", "b"];
    assert VoiceFile("v", "a") == "v/a.pt";
    assert VoiceFile("v", "b") == "v/b.pt";
    assert JoinNames(voices) == "a_b";
    assert VoiceFile("v", "a_b") == "v/a_b.pt";
    SuccessfulRun(env, voices, 2);
    assert VoiceRows(env, voices) == [[2.0, 2.0], [4.0, 4.0]];
    MeanOfTwo();
  }

  /** A loaded object that is not a tensor makes `torch.stack` raise a `TypeError` naming the
      first such position, and the outer handler turns it into a `RuntimeError`; nothing is
      saved and `cleanup` does not run. */
  lemma NonTensorIsWrapped(env: Env, voices: seq<string>, i: nat)
    requires |voices| >= 2 && LoadAll(env, voices).Ok?
    requires i < |voices| && LoadAll(env, voices).value[i].NonTensor?
    ensures var loaded := LoadAll(env, voices).value;
            var k := FirstNonTensor(loaded);
            && k < |loaded|
            && var cause := "expected Tensor as element " + IndexText(k) + " in argument 0, but got " + loaded[k].typeName;
               CombineRunOf(env, voices) == CombineRun(Raised(Exc(RuntimeError, "Error combining voices: " + cause)), env.files, 0)
  {
    RunAfterLoading(env, voices);
    var loaded := LoadAll(env, voices).value;
    var k := FirstNonTensor(loaded);
    assert k < |loaded|;
    var e := Exc(OtherError, "expected Tensor as element " + IndexText(k) + " in argument 0, but got " + loaded[k].typeName);
    assert Stack(loaded) == Raised(e);
    assert SaveRunOf(env, JoinNames(voices), loaded) == CombineRun(Raised(Rewrap(e)), env.files, 0);
  }

  /** Tensors of different sizes make `torch.stack` raise a `RuntimeError`, which the outer
      handler lets through unchanged; nothing is saved and `cleanup` does not run. */
  lemma UnequalSizesPassThrough(env: Env, voices: seq<string>, i: nat)
    requires |voices| >= 2 && LoadAll(env, voices).Ok?
    requires forall j :: 0 <= j < |voices| ==> LoadAll(env, voices).value[j].Tensor?
    requires i < |voices| && |LoadAll(env, voices).value[i].values| != |LoadAll(env, voices).value[0].values|
    ensures CombineRunOf(env, voices) == CombineRun(Raised(Exc(RuntimeError, UNEQUAL_SIZES)), env.files, 0)
  {
    RunAfterLoading(env, voices);
    var loaded := LoadAll(env, voices).value;
    assert CombineRunOf(env, voices) == SaveRunOf(env, JoinNames(voices), loaded);
  }
}
