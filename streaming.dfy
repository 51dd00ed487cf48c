/** Streaming synthesis: `generate_audio_stream`. The asynchronous generator becomes a method
    that returns everything the consumer received, together with the calls it made of the
    audio converter; a consumer that stops early is given by how many items it takes. */
module Streaming {
  import opened Exceptions
  import opened VoiceFiles
  import opened Collaborators
  import Stitched

  const TEXT_IS_EMPTY := "Text is empty"

  /** One call of `AudioService.convert_audio`: the chunk's position in the chunker's
      sequence, its audio, the two framing flags passed, and what the call returned or raised. */
  datatype ConvertCall = ConvertCall(chunk: nat, audio: Samples, isFirst: bool, isLast: bool, outcome: Result<Bytes>)

  /** A validated stream: the collaborators, the voice and its loaded pack, the speed and
      format, the chunker's sequence, and how many items the consumer takes before closing the
      generator (`None`: it drains the stream). */
  datatype StreamRequest = StreamRequest(
    env: Env, voice: string, voicepack: Loaded, speed: real, format: string,
    chunks: seq<string>, takes: Option<nat>
  )

  /** The generator's state between chunks: convert calls so far, `is_first`,
      `chunks_processed`, and whether the consumer has closed the generator. */
  datatype StreamState = StreamState(converts: seq<ConvertCall>, isFirst: bool, processed: nat, closed: bool)

  /** The audio handed to the converter, in call order: what the stream's normalizer has seen. */
  function Audios(calls: seq<ConvertCall>): (r: seq<Samples>)
    ensures |r| == |calls|
  {
    if calls == [] then [] else Audios(calls[..|calls| - 1]) + [calls[|calls| - 1].audio]
  }

  /** The byte strings the generator yields: the successful conversions, in order. */
  function Yielded(calls: seq<ConvertCall>): (r: seq<Bytes>)
    ensures |r| <= |calls|
  {
    if calls == [] then []
    else
      var init := Yielded(calls[..|calls| - 1]);
      match calls[|calls| - 1].outcome
      case Ok(bytes) => init + [bytes]
      case Raised(_) => init
  }

  predicate NoneYielded(calls: seq<ConvertCall>)
  {
    Yielded(calls) == []
  }

  /** Nothing has been yielded exactly when every conversion so far raised. */
  lemma {:induction false} NoneYieldedIff(calls: seq<ConvertCall>)
    ensures NoneYielded(calls) <==> forall k :: 0 <= k < |calls| ==> calls[k].outcome.Raised?
  {
    if calls != [] {
      var n := |calls|;
      NoneYieldedIff(calls[..n - 1]);
      assert forall k :: 0 <= k < n - 1 ==> calls[..n - 1][k] == calls[k];
    }
  }

  /** One pass of the `while` body on chunk `i`: tokenize and synthesize; on audio, convert
      with the current `is_first` and with `is_last` exactly when no chunk follows; on a
      successful conversion, yield, then either the consumer closes the generator (and
      `is_first = False` is never reached) or `is_first` is cleared. Every exception and a
      `None` result only skip the chunk. */
  function Step(rq: StreamRequest, s: StreamState, i: nat): (r: StreamState)
    requires i < |rq.chunks|
  {
    if s.closed then s
    else
      var s1 := s.(processed := s.processed + 1);
      match ChunkAudio(rq.env, rq.voice, rq.voicepack, rq.speed, rq.chunks[i])
      case None => s1
      case Some(audio) =>
        var isLast := i == |rq.chunks| - 1;
        var outcome := rq.env.convertAudio(Audios(s.converts), audio, SAMPLE_RATE, rq.format, s.isFirst, isLast);
        var calls := s.converts + [ConvertCall(i, audio, s.isFirst, isLast, outcome)];
        if outcome.Raised? then s1.(converts := calls)
        else if rq.takes == Some(|Yielded(calls)|) then s1.(converts := calls, closed := true)
        else s1.(converts := calls, isFirst := false)
  }

  /** One pass of the loop body on an open generator counts the chunk and adds at most one
      converter call; on a closed one it does nothing; `is_first` never comes back once
      cleared. */
  lemma StepShape(rq: StreamRequest, s: StreamState, i: nat)
    requires i < |rq.chunks|
    ensures var r := Step(rq, s, i);
            && (s.closed ==> r == s)
            && (!s.closed ==> r.processed == s.processed + 1)
            && |s.converts| <= |r.converts| <= |s.converts| + 1
            && (!s.isFirst ==> !r.isFirst)
  {
  }

  /** The reference fold never processes more chunks than it is given, makes at most one
      converter call per chunk, and stops short only once the consumer has closed it. */
  lemma FoldBounds(rq: StreamRequest, n: nat)
    requires n <= |rq.chunks|
    ensures var r := Fold(rq, n);
            && r.processed <= n && |r.converts| <= r.processed
            && (r.closed || r.processed == n)
  {
    FoldBoundsOf(rq, n, Fold(rq, n));
  }

  /** The induction behind `FoldBounds`, with the state of the fold after `n` chunks given as
      `r`. */
  lemma {:induction false} FoldBoundsOf(rq: StreamRequest, n: nat, r: StreamState)
    requires n <= |rq.chunks| && r == Fold(rq, n)
    ensures r.processed <= n && |r.converts| <= r.processed && (r.closed || r.processed == n)
  {
    if n > 0 {
      var before := Fold(rq, n - 1);
      FoldBoundsOf(rq, n - 1, before);
      FoldPrev(rq, n, before, r);
      StepShape(rq, before, n - 1);
    }
  }

  /** One pass of the loop body never rewrites the calls already made: it keeps them and adds
      at most one call, for the chunk it is on. */
  lemma StepKeepsEarlierCalls(rq: StreamRequest, s: StreamState, i: nat)
    requires i < |rq.chunks|
    ensures var r := Step(rq, s, i);
            && r.converts[..|s.converts|] == s.converts
            && (|r.converts| > |s.converts| ==> r.converts[|s.converts|].chunk == i && !s.closed)
  {
  }

  /** The reference stream: the `while` body applied to the first `n` chunks in order. */
  function Fold(rq: StreamRequest, n: nat): (r: StreamState)
    requires n <= |rq.chunks|
  {
    if n == 0 then StreamState([], true, 0, false) else Step(rq, Fold(rq, n - 1), n - 1)
  }

  /** Everything one stream did: the items the consumer received, the converter calls, the
      final `chunks_processed`, the exception it ended with, and how often `cleanup` ran. */
  datatype StreamRun = StreamRun(
    yielded: seq<Bytes>, converts: seq<ConvertCall>, chunksProcessed: nat,
    raised: Option<Exc>, cleanups: nat
  )

  /** The stream after validation. */
  function RequestOf(env: Env, text: string, voice: string, speed: real, format: string, takes: Option<nat>): (r: StreamRequest)
    requires Prepare(env, text, voice, TEXT_IS_EMPTY).Ok?
  {
    var p := Prepare(env, text, voice, TEXT_IS_EMPTY).value;
    StreamRequest(env, voice, p.voicepack, speed, format, env.splitText(p.text), takes)
  }

  /** What `generate_audio_stream` does for a consumer that takes `takes` items. A generator
      that is closed before it is first resumed runs none of its body, not even the `finally`;
      otherwise validation errors end it before any chunk, and `cleanup` runs once at the end. */
  function StreamRunOf(env: Env, text: string, voice: string, speed: real, format: string, takes: Option<nat>): (r: StreamRun)
    ensures r.cleanups == if takes == Some(0) then 0 else 1
    ensures r.raised.Some? <==> takes != Some(0) && Prepare(env, text, voice, TEXT_IS_EMPTY).Raised?
    ensures r.raised.Some? ==> r.yielded == [] && r.converts == [] && r.chunksProcessed == 0
    ensures |r.yielded| <= |r.converts| <= r.chunksProcessed
  {
    if takes == Some(0) then StreamRun([], [], 0, None, 0)
    else match Prepare(env, text, voice, TEXT_IS_EMPTY)
      case Raised(e) => StreamRun([], [], 0, Some(e), 1)
      case Ok(_) =>
        var rq := RequestOf(env, text, voice, speed, format, takes);
        var s := Fold(rq, |rq.chunks|);
        FoldBounds(rq, |rq.chunks|);
        StreamRun(Yielded(s.converts), s.converts, s.processed, None, 1)
  }

  /** `next(chunk_gen, None)` on a generator that has produced `pos` chunks: the next chunk
      and the new position, or `None` and the same position once the chunks are exhausted. */
  method NextChunk(chunks: seq<string>, pos: nat) returns (chunk: Option<string>, pos': nat)
    requires pos <= |chunks|
    ensures pos' <= |chunks|
    ensures pos < |chunks| ==> chunk == Some(chunks[pos]) && pos' == pos + 1
    ensures pos == |chunks| ==> chunk == None && pos' == pos
  {
    if pos < |chunks| {
      chunk, pos' := Some(chunks[pos]), pos + 1;
    } else {
      chunk, pos' := None, pos;
    }
  }

  /** `generate_audio_stream`: validation, then the chunk loop, with `cleanup` in the
      `finally` once the generator has started. */
  method GenerateAudioStream(env: Env, text: string, voice: string, speed: real, format: string, takes: Option<nat>)
    returns (run: StreamRun)
    ensures run == StreamRunOf(env, text, voice, speed, format, takes)
  {
    if takes == Some(0) {
      return StreamRun([], [], 0, None, 0);
    }
    var prepared := Prepare(env, text, voice, TEXT_IS_EMPTY);
    if prepared.Raised? {
      return StreamRun([], [], 0, Some(prepared.exc), 1);
    }
    var p := prepared.value;
    var rq := StreamRequest(env, voice, p.voicepack, speed, format, env.splitText(p.text), takes);
    assert rq == RequestOf(env, text, voice, speed, format, takes);
    var st, yielded := StreamChunks(rq);
    RunOfFold(env, text, voice, speed, format, takes, st);
    run := StreamRun(yielded, st.converts, st.processed, None, 1);
  }

  /** The `while` loop of `generate_audio_stream`, peeking one chunk ahead of the chunk
      generator so that the last chunk is known when it is converted. It returns the state the
      loop ends in and the items the consumer received. */
  method StreamChunks(rq: StreamRequest) returns (st: StreamState, yielded: seq<Bytes>)
    ensures st == Fold(rq, |rq.chunks|)
    ensures yielded == Yielded(st.converts)
  {
    var chunks := rq.chunks;
    var isFirst := true;
    var chunksProcessed := 0;
    var converts: seq<ConvertCall> := [];
    var history: seq<Samples> := [];
    yielded := [];
    var current, pos := NextChunk(chunks, 0);
    while current.Some?
      invariant pos <= |chunks|
      invariant current.Some? ==> chunksProcessed < |chunks| && pos == chunksProcessed + 1 && current.value == chunks[chunksProcessed]
      invariant current.None? ==> chunksProcessed == |chunks|
      invariant Fold(rq, chunksProcessed) == StreamState(converts, isFirst, chunksProcessed, false)
      invariant history == Audios(converts)
      invariant yielded == Yielded(converts)
      decreases |chunks| - chunksProcessed
    {
      var next;
      next, pos := NextChunk(chunks, pos);
      var index := chunksProcessed;
      FoldNext(rq, index, StreamState(converts, isFirst, index, false));
      var closed;
      isFirst, converts, history, yielded, closed := ProcessChunk(rq, index, current.value, next.None?, isFirst, converts, history, yielded);
      chunksProcessed := chunksProcessed + 1;
      if closed {
        st := StreamState(converts, isFirst, chunksProcessed, true);
        FoldStaysClosed(rq, chunksProcessed, |chunks|);
        return;
      }
      current := next;
    }
    st := StreamState(converts, isFirst, chunksProcessed, false);
  }

  /** The run of a validated stream is read off the reference fold over all chunks. */
  lemma RunOfFold(env: Env, text: string, voice: string, speed: real, format: string, takes: Option<nat>, st: StreamState)
    requires takes != Some(0) && Prepare(env, text, voice, TEXT_IS_EMPTY).Ok?
    requires var rq := RequestOf(env, text, voice, speed, format, takes); Fold(rq, |rq.chunks|) == st
    ensures StreamRunOf(env, text, voice, speed, format, takes) == StreamRun(Yielded(st.converts), st.converts, st.processed, None, 1)
  {
  }

  /** One pass of the loop body on chunk `index`: synthesize it; on audio, convert it with the
      current flags and the normalizer's history, and on a successful conversion yield the
      bytes, after which the consumer either closes the generator or `is_first` is cleared. */
  method ProcessChunk(rq: StreamRequest, index: nat, chunk: string, isLast: bool, isFirst: bool,
                      converts: seq<ConvertCall>, history: seq<Samples>, yielded: seq<Bytes>)
    returns (isFirst': bool, converts': seq<ConvertCall>, history': seq<Samples>, yielded': seq<Bytes>, closed: bool)
    requires index < |rq.chunks| && chunk == rq.chunks[index] && (isLast <==> index == |rq.chunks| - 1)
    requires history == Audios(converts) && yielded == Yielded(converts)
    ensures StreamState(converts', isFirst', index + 1, closed) == Step(rq, StreamState(converts, isFirst, index, false), index)
    ensures history' == Audios(converts') && yielded' == Yielded(converts')
  {
    ghost var before := StreamState(converts, isFirst, index, false);
    isFirst', converts', history', yielded', closed := isFirst, converts, history, yielded, false;
    var chunkAudio := SynthesizeChunk(rq.env, rq.voice, rq.voicepack, rq.speed, chunk);
    if chunkAudio.None? {
      StepSkips(rq, before, index);
      return;
    }
    var audio := chunkAudio.value;
    var chunkBytes := rq.env.convertAudio(history, audio, SAMPLE_RATE, rq.format, isFirst, isLast);
    var call := ConvertCall(index, audio, isFirst, isLast, chunkBytes);
    StepConverts(rq, before, index, call);
    AudiosAppend(converts, call);
    YieldedAppend(converts, call);
    converts' := converts + [call];
    history' := history + [audio];
    if chunkBytes.Ok? {
      yielded' := yielded + [chunkBytes.value];
      if rq.takes == Some(|yielded'|) {
        closed := true;
        return;
      }
      isFirst' := false;
    }
  }

  /** The `try` block's first half: tokenize the chunk and synthesize it; the chunk has audio
      exactly when tokenizing succeeds and the model returns a buffer, and the audio is that
      buffer; every exception and a `None` from the model leave the chunk without audio. */
  method SynthesizeChunk(env: Env, voice: string, voicepack: Loaded, speed: real, chunk: string)
    returns (audio: Option<Samples>)
    ensures var tokenized := TokenizeStep(env, voice, chunk);
            audio.Some? <==> tokenized.Ok? && env.generateFromTokens(tokenized.value, voicepack, speed).Ok?
                             && env.generateFromTokens(tokenized.value, voicepack, speed).value.Some?
    ensures var tokenized := TokenizeStep(env, voice, chunk);
            audio.Some? ==> audio.value == env.generateFromTokens(tokenized.value, voicepack, speed).value.value
    ensures audio == ChunkAudio(env, voice, voicepack, speed, chunk)
  {
    var tokenized := TokenizeStep(env, voice, chunk);
    if tokenized.Raised? {
      return None;
    }
    var generated := env.generateFromTokens(tokenized.value, voicepack, speed);
    if generated.Raised? {
      return None;
    }
    audio := generated.value;
  }

  /** The loop body on a chunk without audio only counts the chunk. */
  lemma StepSkips(rq: StreamRequest, s: StreamState, i: nat)
    requires i < |rq.chunks| && !s.closed
    requires ChunkAudio(rq.env, rq.voice, rq.voicepack, rq.speed, rq.chunks[i]).None?
    ensures Step(rq, s, i) == s.(processed := s.processed + 1)
  {
  }

  /** The loop body on a chunk with audio, given the converter call it makes. */
  lemma StepConverts(rq: StreamRequest, s: StreamState, i: nat, call: ConvertCall)
    requires i < |rq.chunks| && !s.closed
    requires ChunkAudio(rq.env, rq.voice, rq.voicepack, rq.speed, rq.chunks[i]) == Some(call.audio)
    requires call.chunk == i && call.isFirst == s.isFirst && (call.isLast <==> i == |rq.chunks| - 1)
    requires call.outcome == rq.env.convertAudio(Audios(s.converts), call.audio, SAMPLE_RATE, rq.format, s.isFirst, call.isLast)
    ensures Step(rq, s, i)
            == if call.outcome.Raised? then StreamState(s.converts + [call], s.isFirst, s.processed + 1, false)
               else if rq.takes == Some(|Yielded(s.converts)| + 1) then StreamState(s.converts + [call], s.isFirst, s.processed + 1, true)
               else StreamState(s.converts + [call], false, s.processed + 1, false)
  {
    YieldedAppend(s.converts, call);
  }

  /** The reference fold advances by one pass of the loop body. */
  lemma FoldNext(rq: StreamRequest, n: nat, s: StreamState)
    requires n < |rq.chunks| && Fold(rq, n) == s
    ensures Fold(rq, n + 1) == Step(rq, s, n)
  {
  }

  /** The fold has either processed all `n` chunks or been closed by the consumer. */
  lemma FoldReached(rq: StreamRequest, n: nat, r: StreamState)
    requires n <= |rq.chunks| && r == Fold(rq, n)
    ensures r.closed || r.processed == n
  {
    FoldBoundsOf(rq, n, r);
  }

  /** The fold after `n` chunks is one pass of the loop body after the fold on `n - 1`. */
  lemma FoldPrev(rq: StreamRequest, n: nat, before: StreamState, s: StreamState)
    requires 0 < n <= |rq.chunks| && before == Fold(rq, n - 1) && s == Fold(rq, n)
    ensures s == Step(rq, before, n - 1)
  {
  }

  /** Once the consumer has closed the generator nothing more happens. */
  lemma {:induction false} FoldStaysClosed(rq: StreamRequest, m: nat, n: nat)
    requires m <= n <= |rq.chunks|
    requires Fold(rq, m).closed
    ensures Fold(rq, n) == Fold(rq, m)
  {
    if m < n {
      FoldStaysClosed(rq, m, n - 1);
    }
  }

  // ---------------------------------------------------------------------------------------
  // What the stream promises, as properties of every prefix of the chunk sequence.

  /** A converter call made after the calls `before`: it is for a surviving chunk and carries
      that chunk's audio, `is_last_chunk` exactly for the final chunk, `is_first_chunk` exactly
      when nothing has been yielded yet, and its outcome is the converter's answer to those
      arguments and to the normalizer's history. */
  predicate CallFits(rq: StreamRequest, before: seq<ConvertCall>, call: ConvertCall)
  {
    && call.chunk < |rq.chunks|
    && ChunkAudio(rq.env, rq.voice, rq.voicepack, rq.speed, rq.chunks[call.chunk]) == Some(call.audio)
    && (call.isLast <==> call.chunk == |rq.chunks| - 1)
    && (call.isFirst <==> NoneYielded(before))
    && call.outcome == rq.env.convertAudio(Audios(before), call.audio, SAMPLE_RATE, rq.format, call.isFirst, call.isLast)
  }

  /** Every call fits the calls made before it. */
  predicate CallsFit(rq: StreamRequest, calls: seq<ConvertCall>)
  {
    forall j {:trigger CallFits(rq, calls[..j], calls[j])} :: 0 <= j < |calls| ==> CallFits(rq, calls[..j], calls[j])
  }

  /** The facts the `while` loop keeps about the converter calls made so far. */
  predicate Traced(rq: StreamRequest, s: StreamState)
  {
    && s.processed <= |rq.chunks|
    && CallsFit(rq, s.converts)
    && CallsOrdered(s)
    && Audios(s.converts) == SurvivingAudio(rq.env, rq.voice, rq.voicepack, rq.speed, rq.chunks[..s.processed])
    && FlagsTraced(rq, s)
  }

  /** The calls are for chunks already processed, in strictly increasing chunk order. */
  predicate CallsOrdered(s: StreamState)
  {
    && (forall j :: 0 <= j < |s.converts| ==> s.converts[j].chunk < s.processed)
    && (forall j, k :: 0 <= j < k < |s.converts| ==> s.converts[j].chunk < s.converts[k].chunk)
  }

  /** `is_first` is set exactly while nothing has been yielded, and the generator is closed
      exactly when the consumer has taken what it asked for. */
  predicate FlagsTraced(rq: StreamRequest, s: StreamState)
  {
    && (!s.closed ==> (s.isFirst <==> NoneYielded(s.converts)))
    && (s.closed ==> rq.takes == Some(|Yielded(s.converts)|))
    && (!s.closed && rq.takes.Some? ==> |Yielded(s.converts)| < rq.takes.value)
  }

  lemma YieldedAppend(calls: seq<ConvertCall>, call: ConvertCall)
    ensures Yielded(calls + [call]) == if call.outcome.Ok? then Yielded(calls) + [call.outcome.value] else Yielded(calls)
  {
    assert (calls + [call])[..|calls|] == calls;
  }

  /** Appending a call that fits keeps every earlier call fitting. */
  lemma AppendFits(rq: StreamRequest, calls: seq<ConvertCall>, call: ConvertCall)
    requires CallsFit(rq, calls)
    requires CallFits(rq, calls, call)
    ensures CallsFit(rq, calls + [call])
  {
    var calls' := calls + [call];
    assert calls'[..|calls|] == calls;
    forall j | 0 <= j < |calls'| ensures CallFits(rq, calls'[..j], calls'[j]) {
      if j < |calls| {
        assert calls'[..j] == calls[..j];
        assert CallFits(rq, calls[..j], calls[j]);
      }
    }
  }

  /** Appending a call for chunk `i` after calls for earlier chunks keeps the chunks increasing. */
  lemma AppendOrdered(calls: seq<ConvertCall>, call: ConvertCall, i: nat)
    requires forall j :: 0 <= j < |calls| ==> calls[j].chunk < i
    requires forall j, k :: 0 <= j < k < |calls| ==> calls[j].chunk < calls[k].chunk
    requires call.chunk == i
    ensures var calls' := calls + [call];
            && (forall j :: 0 <= j < |calls'| ==> calls'[j].chunk < i + 1)
            && (forall j, k :: 0 <= j < k < |calls'| ==> calls'[j].chunk < calls'[k].chunk)
  {
  }

  /** The surviving audio of one more chunk. */
  lemma SurvivorsStep(rq: StreamRequest, i: nat)
    requires i < |rq.chunks|
    ensures var env, voice, voicepack, speed := rq.env, rq.voice, rq.voicepack, rq.speed;
            SurvivingAudio(env, voice, voicepack, speed, rq.chunks[..i + 1])
            == SurvivingAudio(env, voice, voicepack, speed, rq.chunks[..i])
               + match ChunkAudio(env, voice, voicepack, speed, rq.chunks[i])
                 case None => []
                 case Some(audio) => [audio]
  {
    assert rq.chunks[..i + 1][..i] == rq.chunks[..i];
  }

  lemma AudiosAppend(calls: seq<ConvertCall>, call: ConvertCall)
    ensures Audios(calls + [call]) == Audios(calls) + [call.audio]
  {
    assert (calls + [call])[..|calls|] == calls;
  }

  /** One pass of the loop body on a chunk that yields no audio keeps `Traced`. */
  lemma SkipTraced(rq: StreamRequest, s: StreamState, i: nat)
    requires i < |rq.chunks| && !s.closed && s.processed == i && Traced(rq, s)
    requires ChunkAudio(rq.env, rq.voice, rq.voicepack, rq.speed, rq.chunks[i]).None?
    ensures Traced(rq, s.(processed := i + 1))
  {
    SurvivorsStep(rq, i);
  }

  /** Appending a fitting call to a traced state, with the new flag state and closing state
      the loop body gives, is again traced. */
  lemma AppendTraced(rq: StreamRequest, s: StreamState, i: nat, call: ConvertCall, isFirst: bool, closed: bool)
    requires i < |rq.chunks| && !s.closed && s.processed == i && Traced(rq, s)
    requires call.chunk == i && CallFits(rq, s.converts, call)
    requires ChunkAudio(rq.env, rq.voice, rq.voicepack, rq.speed, rq.chunks[i]) == Some(call.audio)
    requires var calls := s.converts + [call];
             && (!closed ==> (isFirst <==> NoneYielded(calls)))
             && (closed ==> rq.takes == Some(|Yielded(calls)|))
             && (!closed && rq.takes.Some? ==> |Yielded(calls)| < rq.takes.value)
    ensures Traced(rq, StreamState(s.converts + [call], isFirst, i + 1, closed))
  {
    var calls := s.converts + [call];
    var t := StreamState(calls, isFirst, i + 1, closed);
    AppendFits(rq, s.converts, call);
    AppendOrdered(s.converts, call, i);
    AudiosAppend(s.converts, call);
    SurvivorsStep(rq, i);
    assert Audios(t.converts) == SurvivingAudio(rq.env, rq.voice, rq.voicepack, rq.speed, rq.chunks[..t.processed]);
  }

  /** One pass of the loop body on a chunk with audio keeps `Traced`. */
  lemma ConvertTraced(rq: StreamRequest, s: StreamState, i: nat, audio: Samples)
    requires i < |rq.chunks| && !s.closed && s.processed == i && Traced(rq, s)
    requires ChunkAudio(rq.env, rq.voice, rq.voicepack, rq.speed, rq.chunks[i]) == Some(audio)
    ensures Traced(rq, Step(rq, s, i))
  {
    var t := Step(rq, s, i);
    var isLast := i == |rq.chunks| - 1;
    var outcome := rq.env.convertAudio(Audios(s.converts), audio, SAMPLE_RATE, rq.format, s.isFirst, isLast);
    var call := ConvertCall(i, audio, s.isFirst, isLast, outcome);
    var calls := s.converts + [call];
    YieldedAppend(s.converts, call);
    if outcome.Raised? {
      assert t == StreamState(calls, s.isFirst, i + 1, false);
      AppendTraced(rq, s, i, call, s.isFirst, false);
    } else if rq.takes == Some(|Yielded(calls)|) {
      assert t == StreamState(calls, s.isFirst, i + 1, true);
      AppendTraced(rq, s, i, call, s.isFirst, true);
    } else {
      assert t == StreamState(calls, false, i + 1, false);
      if rq.takes.Some? {
        var k := rq.takes.value;
        assert |Yielded(s.converts)| < k;
        assert |Yielded(calls)| != k;
      }
      AppendTraced(rq, s, i, call, false, false);
    }
  }

  /** One pass of the loop body keeps `Traced`. */
  lemma StepTraced(rq: StreamRequest, s: StreamState, i: nat)
    requires i < |rq.chunks| && !s.closed && s.processed == i && Traced(rq, s)
    ensures Traced(rq, Step(rq, s, i))
    ensures Step(rq, s, i).closed || Step(rq, s, i).processed == i + 1
  {
    match ChunkAudio(rq.env, rq.voice, rq.voicepack, rq.speed, rq.chunks[i])
    case None => SkipTraced(rq, s, i);
    case Some(audio) => ConvertTraced(rq, s, i, audio);
  }

  /** The stream's reference run keeps `Traced` on every prefix, and it only ends early when
      the consumer closes it. */
  lemma FoldFacts(rq: StreamRequest, n: nat)
    requires n <= |rq.chunks| && rq.takes != Some(0)
    ensures Traced(rq, Fold(rq, n))
    ensures Fold(rq, n).closed || Fold(rq, n).processed == n
  {
    var s := Fold(rq, n);
    FoldTraced(rq, n, s);
    FoldBounds(rq, n);
  }

  /** The induction behind `FoldFacts`, with the state of the fold after `n` chunks given as
      `s`. */
  lemma {:induction false} FoldTraced(rq: StreamRequest, n: nat, s: StreamState)
    requires n <= |rq.chunks| && rq.takes != Some(0) && s == Fold(rq, n)
    ensures Traced(rq, s)
    decreases n, 1
  {
    if n == 0 {
      InitialTraced(rq, s);
    } else {
      var before := Fold(rq, n - 1);
      FoldPrev(rq, n, before, s);
      BeforeFacts(rq, n, before);
      StepTracedTo(rq, n, before, s);
    }
  }

  /** The state before the pass on chunk `n - 1` is traced and reached that chunk. */
  lemma {:induction false} BeforeFacts(rq: StreamRequest, n: nat, before: StreamState)
    requires 0 < n <= |rq.chunks| && rq.takes != Some(0) && before == Fold(rq, n - 1)
    ensures Traced(rq, before) && (before.closed || before.processed == n - 1)
    decreases n, 0
  {
    FoldReached(rq, n - 1, before);
    FoldTraced(rq, n - 1, before);
  }

  /** Before any chunk the stream is traced. */
  lemma InitialTraced(rq: StreamRequest, s: StreamState)
    requires rq.takes != Some(0) && s == Fold(rq, 0)
    ensures Traced(rq, s)
  {
    assert rq.chunks[..0] == [];
    TracedTransfer(rq, StreamState([], true, 0, false), s);
  }

  lemma TracedTransfer(rq: StreamRequest, a: StreamState, b: StreamState)
    requires a == b && Traced(rq, a)
    ensures Traced(rq, b)
  {
  }

  /** The pass on chunk `n - 1` keeps `Traced`, whether or not the generator was closed. */
  lemma StepTracedTo(rq: StreamRequest, n: nat, before: StreamState, s: StreamState)
    requires 0 < n <= |rq.chunks| && (before.closed || before.processed == n - 1) && Traced(rq, before)
    requires s == Step(rq, before, n - 1)
    ensures Traced(rq, s)
  {
    if before.closed {
      TracedTransfer(rq, before, s);
    } else {
      StepTraced(rq, before, n - 1);
      TracedTransfer(rq, Step(rq, before, n - 1), s);
    }
  }

  /** Every converter call of the reference run fits the calls made before it. */
  lemma FoldCallFits(rq: StreamRequest, j: nat)
    requires rq.takes != Some(0)
    requires j < |Fold(rq, |rq.chunks|).converts|
    ensures var s := Fold(rq, |rq.chunks|); CallFits(rq, s.converts[..j], s.converts[j])
  {
    var s := Fold(rq, |rq.chunks|);
    FoldFacts(rq, |rq.chunks|);
    assert CallFits(rq, s.converts[..j], s.converts[j]);
  }

  /** A consumer that drains the stream sees every chunk processed, and the converter is
      handed exactly the surviving chunks' audio, in order. */
  lemma DrainedStreamVisitsAll(rq: StreamRequest)
    requires rq.takes == None
    ensures var s := Fold(rq, |rq.chunks|);
            && !s.closed && s.processed == |rq.chunks|
            && Audios(s.converts) == SurvivingAudio(rq.env, rq.voice, rq.voicepack, rq.speed, rq.chunks)
  {
    FoldFacts(rq, |rq.chunks|);
    assert rq.chunks[..|rq.chunks|] == rq.chunks;
  }

  /** `is_first_chunk` is true exactly on the calls made before anything was yielded; so of the
      yielded items, exactly the first was converted with it. */
  lemma FirstFlagOnFirstYield(rq: StreamRequest, j: nat)
    requires rq.takes != Some(0)
    requires var s := Fold(rq, |rq.chunks|); j < |s.converts| && s.converts[j].outcome.Ok?
    ensures var s := Fold(rq, |rq.chunks|);
            s.converts[j].isFirst <==> forall k :: 0 <= k < j ==> s.converts[k].outcome.Raised?
  {
    var s := Fold(rq, |rq.chunks|);
    FoldCallFits(rq, j);
    NoneYieldedIff(s.converts[..j]);
    assert forall k :: 0 <= k < j ==> s.converts[..j][k] == s.converts[k];
  }

  /** `is_last_chunk` is true exactly for the final chunk of the chunker's sequence. */
  lemma LastFlagIsFinalChunk(rq: StreamRequest, j: nat)
    requires rq.takes != Some(0)
    requires j < |Fold(rq, |rq.chunks|).converts|
    ensures var c := Fold(rq, |rq.chunks|).converts[j]; c.isLast <==> c.chunk == |rq.chunks| - 1
  {
    FoldCallFits(rq, j);
  }

  /** If the final chunk yields no audio, no conversion is ever flagged as last. */
  lemma FailedFinalChunkMeansNoLastFlag(rq: StreamRequest)
    requires rq.takes != Some(0) && |rq.chunks| > 0
    requires ChunkAudio(rq.env, rq.voice, rq.voicepack, rq.speed, rq.chunks[|rq.chunks| - 1]).None?
    ensures var s := Fold(rq, |rq.chunks|); forall j :: 0 <= j < |s.converts| ==> !s.converts[j].isLast
  {
    var s := Fold(rq, |rq.chunks|);
    forall j | 0 <= j < |s.converts| ensures !s.converts[j].isLast {
      FoldCallFits(rq, j);
    }
  }

  /** A one-chunk stream whose chunk survives converts it once, as both first and last. */
  lemma SingleChunkBothFlags(rq: StreamRequest, audio: Samples)
    requires |rq.chunks| == 1
    requires ChunkAudio(rq.env, rq.voice, rq.voicepack, rq.speed, rq.chunks[0]) == Some(audio)
    ensures Fold(rq, 1).converts
            == [ConvertCall(0, audio, true, true, rq.env.convertAudio([], audio, SAMPLE_RATE, rq.format, true, true))]
  {
    assert Audios([]) == [];
  }

  /** The items yielded are the successful conversions, in chunk order: each comes from a
      surviving chunk, and the chunks of successive items strictly increase. */
  lemma YieldsInChunkOrder(rq: StreamRequest, j: nat, k: nat)
    requires rq.takes != Some(0)
    requires var s := Fold(rq, |rq.chunks|); j < k < |s.converts|
    ensures var s := Fold(rq, |rq.chunks|);
            && s.converts[j].chunk < s.converts[k].chunk < |rq.chunks|
            && ChunkAudio(rq.env, rq.voice, rq.voicepack, rq.speed, rq.chunks[s.converts[k].chunk]) == Some(s.converts[k].audio)
  {
    var s := Fold(rq, |rq.chunks|);
    FoldFacts(rq, |rq.chunks|);
    assert CallFits(rq, s.converts[..k], s.converts[k]);
  }

  /** The consumer never receives more than it asked for. */
  lemma {:induction false} YieldedAtMostTaken(rq: StreamRequest, n: nat)
    requires n <= |rq.chunks| && rq.takes.Some? && rq.takes.value > 0
    ensures |Yielded(Fold(rq, n).converts)| <= rq.takes.value
  {
    FoldFacts(rq, n);
  }

  // ---------------------------------------------------------------------------------------
  // The whole stream.

  /** Validation comes first: a stream that fails validation yields nothing, processes no
      chunk, raises the validation error and cleans up once. */
  lemma StreamValidationFirst(env: Env, text: string, voice: string, speed: real, format: string, takes: Option<nat>)
    requires takes != Some(0) && Prepare(env, text, voice, TEXT_IS_EMPTY).Raised?
    ensures var run := StreamRunOf(env, text, voice, speed, format, takes);
            run == StreamRun([], [], 0, Some(Prepare(env, text, voice, TEXT_IS_EMPTY).exc), 1)
  {
  }

  /** After validation the stream never raises; a consumer that drains it sees every chunk
      processed (`chunks_processed` is the sequence length), and `cleanup` runs exactly once. */
  lemma StreamCompletes(env: Env, text: string, voice: string, speed: real, format: string)
    requires Prepare(env, text, voice, TEXT_IS_EMPTY).Ok?
    ensures var run := StreamRunOf(env, text, voice, speed, format, None);
            && run.raised == None && run.cleanups == 1
            && run.chunksProcessed == |RequestOf(env, text, voice, speed, format, None).chunks|
  {
    DrainedStreamVisitsAll(RequestOf(env, text, voice, speed, format, None));
  }

  /** Concatenation equivalence: the audio a drained stream converts, concatenated, is the
      audio the stitched path returns for the same request, and the stream yields nothing
      exactly when the stitched path finds no surviving chunk. */
  lemma StreamMatchesStitched(env: Env, text: string, voice: string, speed: real, format: string)
    requires Prepare(env, text, voice, TEXT_IS_EMPTY).Ok?
    ensures var rq := RequestOf(env, text, voice, speed, format, None);
            var s := Fold(rq, |rq.chunks|);
            var stitched := Stitched.AudioRun(env, text, voice, speed, true);
            && (stitched.result.Ok? <==> s.converts != [])
            && (stitched.result.Ok? ==> stitched.result.value == Some(Concat(Audios(s.converts))))
  {
    var rq := RequestOf(env, text, voice, speed, format, None);
    DrainedStreamVisitsAll(rq);
    assert Prepare(env, text, voice, EMPTY_AFTER_PREPROCESSING).Ok?;
    Stitched.StitchedOutputIsSurvivors(env, text, voice, speed);
  }
}
