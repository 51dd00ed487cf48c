/** Whole-utterance synthesis: `_generate_audio` and `_generate_audio_internal`. */
module Stitched {
  import opened Exceptions
  import opened VoiceFiles
  import opened Collaborators

  const NO_CHUNKS_PROCESSED := "No chunks were processed successfully"
  const NO_AUDIO_GENERATED := "No audio chunks were generated successfully"

  /** One call of `_generate_audio` or `_generate_audio_internal` as the collaborators see it:
      the value returned (`None` only from the unstitched branch) or the exception raised, the
      chunks handed to the tokenizing step, the token sequences handed to the model, and the
      `verbose` flag of every `cleanup` call in order. */
  datatype Run = Run(
    result: Result<Option<Samples>>,
    tokenizeAttempts: seq<string>,
    synthesisCalls: seq<Tokens>,
    cleanups: seq<bool>
  )

  /** `chunks_data`: the chunks whose tokenizing succeeds, with their tokens, in order. */
  function TokenizedChunks(env: Env, voice: string, chunks: seq<string>): (r: seq<(string, Tokens)>)
    ensures |r| <= |chunks|
  {
    if chunks == [] then []
    else
      var init := TokenizedChunks(env, voice, chunks[..|chunks| - 1]);
      var chunk := chunks[|chunks| - 1];
      match TokenizeStep(env, voice, chunk)
      case Raised(_) => init
      case Ok(tokens) => init + [(chunk, tokens)]
  }

  /** `audio_chunks`: the buffers of the pairs whose synthesis returns one, in order. */
  function GeneratedAudio(env: Env, voicepack: Loaded, speed: real, pairs: seq<(string, Tokens)>): (r: seq<Samples>)
    ensures |r| <= |pairs|
  {
    if pairs == [] then []
    else
      var init := GeneratedAudio(env, voicepack, speed, pairs[..|pairs| - 1]);
      match env.generateFromTokens(pairs[|pairs| - 1].1, voicepack, speed)
      case Ok(Some(audio)) => init + [audio]
      case _ => init
  }

  function TokensOf(pairs: seq<(string, Tokens)>): (r: seq<Tokens>)
    ensures |r| == |pairs|
  {
    seq(|pairs|, i requires 0 <= i < |pairs| => pairs[i].1)
  }

  /** The stitched branch after validation: the two collect-and-skip phases, each with its
      own zero-survivor error, then in-order concatenation. */
  function StitchedRun(env: Env, voice: string, speed: real, p: Prepared): (r: Run)
    ensures r.cleanups == []
    ensures r.tokenizeAttempts == env.splitText(p.text)
    ensures |r.synthesisCalls| <= |r.tokenizeAttempts|
    ensures r.result.Ok? ==> r.result.value.Some?
  {
    var chunks := env.splitText(p.text);
    var pairs := TokenizedChunks(env, voice, chunks);
    if pairs == [] then Run(Raised(Exc(ValueError, NO_CHUNKS_PROCESSED)), chunks, [], [])
    else
      var audio := GeneratedAudio(env, p.voicepack, speed, pairs);
      if audio == [] then Run(Raised(Exc(ValueError, NO_AUDIO_GENERATED)), chunks, TokensOf(pairs), [])
      else Run(Ok(Some(Concat(audio))), chunks, TokensOf(pairs), [])
  }

  /** The unstitched branch after validation: one tokenize and one synthesis call on the whole
      text, no skipping and no `None` check, then a verbose cleanup. */
  function UnstitchedRun(env: Env, voice: string, speed: real, p: Prepared): (r: Run)
    ensures r.cleanups == if r.result.Ok? then [true] else []
    ensures r.tokenizeAttempts == [p.text]
  {
    match TokenizeStep(env, voice, p.text)
    case Raised(e) => Run(Raised(e), [p.text], [], [])
    case Ok(tokens) =>
      match env.generateFromTokens(tokens, p.voicepack, speed)
      case Raised(e) => Run(Raised(e), [p.text], [tokens], [])
      case Ok(audio) => Run(Ok(audio), [p.text], [tokens], [true])
  }

  /** The run `_generate_audio_internal` produces: validation, then one of the two branches. */
  function InternalRun(env: Env, text: string, voice: string, speed: real, stitchLongOutput: bool): (r: Run)
    ensures Prepare(env, text, voice, EMPTY_AFTER_PREPROCESSING).Raised? ==>
              r == Run(Raised(Prepare(env, text, voice, EMPTY_AFTER_PREPROCESSING).exc), [], [], [])
    ensures |r.synthesisCalls| <= |r.tokenizeAttempts|
    ensures r.cleanups == if !stitchLongOutput && r.result.Ok? then [true] else []
    ensures r.result.Ok? && r.result.value.None? ==> !stitchLongOutput
  {
    match Prepare(env, text, voice, EMPTY_AFTER_PREPROCESSING)
    case Raised(e) => Run(Raised(e), [], [], [])
    case Ok(p) => if stitchLongOutput then StitchedRun(env, voice, speed, p) else UnstitchedRun(env, voice, speed, p)
  }

  /** `_generate_audio_internal` (processing time left out). */
  method GenerateAudioInternal(env: Env, text: string, voice: string, speed: real, stitchLongOutput: bool)
    returns (run: Run)
    ensures run == InternalRun(env, text, voice, speed, stitchLongOutput)
  {
    var prepared := Prepare(env, text, voice, EMPTY_AFTER_PREPROCESSING);
    if prepared.Raised? {
      return Run(Raised(prepared.exc), [], [], []);
    }
    if stitchLongOutput {
      run := StitchChunks(env, voice, speed, prepared.value);
    } else {
      run := SynthesizeWhole(env, voice, speed, prepared.value);
    }
  }

  /** The `stitch_long_output` branch of `_generate_audio_internal`. */
  method StitchChunks(env: Env, voice: string, speed: real, p: Prepared) returns (run: Run)
    ensures run == StitchedRun(env, voice, speed, p)
  {
    var chunks := env.splitText(p.text);
    var chunksData: seq<(string, Tokens)> := [];
    for i := 0 to |chunks|
      invariant chunksData == TokenizedChunks(env, voice, chunks[..i])
    {
      assert chunks[..i + 1][..i] == chunks[..i];
      var tokenized := TokenizeStep(env, voice, chunks[i]);
      if tokenized.Ok? {
        chunksData := chunksData + [(chunks[i], tokenized.value)];
      }
    }
    assert chunks[..|chunks|] == chunks;
    if chunksData == [] {
      return Run(Raised(Exc(ValueError, NO_CHUNKS_PROCESSED)), chunks, [], []);
    }
    var audioChunks: seq<Samples> := [];
    var calls: seq<Tokens> := [];
    for i := 0 to |chunksData|
      invariant audioChunks == GeneratedAudio(env, p.voicepack, speed, chunksData[..i])
      invariant calls == TokensOf(chunksData[..i])
    {
      assert chunksData[..i + 1][..i] == chunksData[..i];
      var tokens := chunksData[i].1;
      var chunkAudio := env.generateFromTokens(tokens, p.voicepack, speed);
      calls := calls + [tokens];
      if chunkAudio.Ok? && chunkAudio.value.Some? {
        audioChunks := audioChunks + [chunkAudio.value.value];
      }
    }
    assert chunksData[..|chunksData|] == chunksData;
    if audioChunks == [] {
      return Run(Raised(Exc(ValueError, NO_AUDIO_GENERATED)), chunks, calls, []);
    }
    var audio;
    if |audioChunks| > 1 {
      audio := Concat(audioChunks);
    } else {
      audio := audioChunks[0];
      ConcatSingle(audio);
      assert audioChunks == [audio];
    }
    run := Run(Ok(Some(audio)), chunks, calls, []);
  }

  /** The unstitched branch of `_generate_audio_internal`: the whole text is tokenized once
      and synthesized once; the model's answer is returned as it is, `None` included, and a
      verbose `cleanup` follows exactly when synthesis returns. */
  method SynthesizeWhole(env: Env, voice: string, speed: real, p: Prepared) returns (run: Run)
    ensures run.tokenizeAttempts == [p.text]
    ensures var tokenized := TokenizeStep(env, voice, p.text);
            tokenized.Raised? ==> run.result == Raised(tokenized.exc) && run.synthesisCalls == []
    ensures var tokenized := TokenizeStep(env, voice, p.text);
            tokenized.Ok? ==> run.synthesisCalls == [tokenized.value]
                              && run.result == env.generateFromTokens(tokenized.value, p.voicepack, speed)
    ensures run.cleanups == if run.result.Ok? then [true] else []
    ensures run == UnstitchedRun(env, voice, speed, p)
  {
    var tokenized := TokenizeStep(env, voice, p.text);
    if tokenized.Raised? {
      return Run(Raised(tokenized.exc), [p.text], [], []);
    }
    var audio := env.generateFromTokens(tokenized.value, p.voicepack, speed);
    if audio.Raised? {
      return Run(Raised(audio.exc), [p.text], [tokenized.value], []);
    }
    run := Run(Ok(audio.value), [p.text], [tokenized.value], [true]);
  }

  /** `_generate_audio`: the internal run followed by the `cleanup()` of the `finally`, which
      runs whether the internal call returned or raised. */
  method GenerateAudio(env: Env, text: string, voice: string, speed: real, stitchLongOutput: bool)
    returns (run: Run)
    ensures run == AudioRun(env, text, voice, speed, stitchLongOutput)
  {
    run := GenerateAudioInternal(env, text, voice, speed, stitchLongOutput);
    run := run.(cleanups := run.cleanups + [false]);
  }

  /** The run of `_generate_audio`: `InternalRun` with the final `cleanup()` appended. */
  function AudioRun(env: Env, text: string, voice: string, speed: real, stitchLongOutput: bool): (r: Run)
    ensures |r.cleanups| >= 1 && !r.cleanups[|r.cleanups| - 1]
    ensures |r.synthesisCalls| <= |r.tokenizeAttempts|
    ensures r.result.Ok? && r.result.value.None? ==> !stitchLongOutput
  {
    var internal := InternalRun(env, text, voice, speed, stitchLongOutput);
    internal.(cleanups := internal.cleanups + [false])
  }

  // ---------------------------------------------------------------------------------------
  // What the stitched path promises.

  /** `chunks_data` is empty exactly when every chunk fails to tokenize. */
  lemma {:induction false} TokenizedEmptyIff(env: Env, voice: string, chunks: seq<string>)
    ensures TokenizedChunks(env, voice, chunks) == [] <==>
            forall i :: 0 <= i < |chunks| ==> TokenizeStep(env, voice, chunks[i]).Raised?
  {
    if chunks != [] {
      var n := |chunks|;
      TokenizedEmptyIff(env, voice, chunks[..n - 1]);
      assert forall i :: 0 <= i < n - 1 ==> chunks[..n - 1][i] == chunks[i];
    }
  }

  /** The two skip phases together keep exactly the chunks that survive both steps. */
  lemma {:induction false} GeneratedOfTokenized(env: Env, voice: string, voicepack: Loaded, speed: real, chunks: seq<string>)
    ensures GeneratedAudio(env, voicepack, speed, TokenizedChunks(env, voice, chunks))
            == SurvivingAudio(env, voice, voicepack, speed, chunks)
  {
    if chunks != [] {
      var n := |chunks|;
      var init := TokenizedChunks(env, voice, chunks[..n - 1]);
      GeneratedOfTokenized(env, voice, voicepack, speed, chunks[..n - 1]);
      match TokenizeStep(env, voice, chunks[n - 1])
      case Raised(_) =>
      case Ok(tokens) =>
        var pairs := init + [(chunks[n - 1], tokens)];
        assert pairs[..|pairs| - 1] == init;
    }
  }

  /** With stitching, a successful result is the in-order concatenation of exactly the
      surviving chunks' buffers; it succeeds exactly when some chunk survives. */
  lemma StitchedOutputIsSurvivors(env: Env, text: string, voice: string, speed: real)
    requires Prepare(env, text, voice, EMPTY_AFTER_PREPROCESSING).Ok?
    ensures var p := Prepare(env, text, voice, EMPTY_AFTER_PREPROCESSING).value;
            var survivors := SurvivingAudio(env, voice, p.voicepack, speed, env.splitText(p.text));
            var run := AudioRun(env, text, voice, speed, true);
            && (run.result.Ok? <==> survivors != [])
            && (run.result.Ok? ==> run.result.value == Some(Concat(survivors)))
            && run.tokenizeAttempts == env.splitText(p.text)
  {
    var p := Prepare(env, text, voice, EMPTY_AFTER_PREPROCESSING).value;
    var chunks := env.splitText(p.text);
    GeneratedOfTokenized(env, voice, p.voicepack, speed, chunks);
  }

  /** When every chunk fails to tokenize the request fails with the first zero-survivor
      error and the model is never called. */
  lemma AllTokenizeFailures(env: Env, text: string, voice: string, speed: real)
    requires Prepare(env, text, voice, EMPTY_AFTER_PREPROCESSING).Ok?
    requires var chunks := env.splitText(Prepare(env, text, voice, EMPTY_AFTER_PREPROCESSING).value.text);
             forall i :: 0 <= i < |chunks| ==> TokenizeStep(env, voice, chunks[i]).Raised?
    ensures AudioRun(env, text, voice, speed, true).result == Raised(Exc(ValueError, NO_CHUNKS_PROCESSED))
    ensures AudioRun(env, text, voice, speed, true).synthesisCalls == []
  {
    var p := Prepare(env, text, voice, EMPTY_AFTER_PREPROCESSING).value;
    TokenizedEmptyIff(env, voice, env.splitText(p.text));
  }

  /** When some chunk tokenizes but no synthesis returns audio, the request fails with the
      second zero-survivor error after calling the model once per tokenized chunk. */
  lemma NoAudioFailure(env: Env, text: string, voice: string, speed: real)
    requires Prepare(env, text, voice, EMPTY_AFTER_PREPROCESSING).Ok?
    requires var p := Prepare(env, text, voice, EMPTY_AFTER_PREPROCESSING).value;
             var chunks := env.splitText(p.text);
             && (exists i :: 0 <= i < |chunks| && TokenizeStep(env, voice, chunks[i]).Ok?)
             && SurvivingAudio(env, voice, p.voicepack, speed, chunks) == []
    ensures var p := Prepare(env, text, voice, EMPTY_AFTER_PREPROCESSING).value;
            var run := AudioRun(env, text, voice, speed, true);
            && run.result == Raised(Exc(ValueError, NO_AUDIO_GENERATED))
            && run.synthesisCalls == TokensOf(TokenizedChunks(env, voice, env.splitText(p.text)))
            && run.synthesisCalls != []
  {
    var p := Prepare(env, text, voice, EMPTY_AFTER_PREPROCESSING).value;
    var chunks := env.splitText(p.text);
    TokenizedEmptyIff(env, voice, chunks);
    GeneratedOfTokenized(env, voice, p.voicepack, speed, chunks);
  }

  /** A single surviving buffer is the result as it is. */
  lemma SingleSurvivorUnchanged(env: Env, text: string, voice: string, speed: real, audio: Samples)
    requires Prepare(env, text, voice, EMPTY_AFTER_PREPROCESSING).Ok?
    requires var p := Prepare(env, text, voice, EMPTY_AFTER_PREPROCESSING).value;
             SurvivingAudio(env, voice, p.voicepack, speed, env.splitText(p.text)) == [audio]
    ensures AudioRun(env, text, voice, speed, true).result == Ok(Some(audio))
  {
    StitchedOutputIsSurvivors(env, text, voice, speed);
    ConcatSingle(audio);
  }

  /** Validation comes first: a request that fails validation tokenizes nothing, calls the
      model never, and raises the validation error. */
  lemma ValidationFirst(env: Env, text: string, voice: string, speed: real, stitchLongOutput: bool)
    requires Prepare(env, text, voice, EMPTY_AFTER_PREPROCESSING).Raised?
    ensures var run := AudioRun(env, text, voice, speed, stitchLongOutput);
            && run.result == Raised(Prepare(env, text, voice, EMPTY_AFTER_PREPROCESSING).exc)
            && run.tokenizeAttempts == [] && run.synthesisCalls == []
  {
  }

  /** `cleanup` runs on every exit: once (the `finally`) for a stitched run and for every
      failing run, twice (verbose first) for a successful unstitched run. */
  lemma CleanupCounts(env: Env, text: string, voice: string, speed: real, stitchLongOutput: bool)
    ensures var run := AudioRun(env, text, voice, speed, stitchLongOutput);
            run.cleanups == if !stitchLongOutput && run.result.Ok? then [true, false] else [false]
  {
  }

  /** The unstitched branch has no `None` check: a model returning `None` yields `None`. */
  lemma UnstitchedPassesNone(env: Env, text: string, voice: string, speed: real)
    requires Prepare(env, text, voice, EMPTY_AFTER_PREPROCESSING).Ok?
    requires var p := Prepare(env, text, voice, EMPTY_AFTER_PREPROCESSING).value;
             var tokenized := TokenizeStep(env, voice, p.text);
             tokenized.Ok? && env.generateFromTokens(tokenized.value, p.voicepack, speed) == Ok(None)
    ensures AudioRun(env, text, voice, speed, false).result == Ok(None)
    ensures AudioRun(env, text, voice, speed, false).tokenizeAttempts
            == [Prepare(env, text, voice, EMPTY_AFTER_PREPROCESSING).value.text]
  {
  }
}
