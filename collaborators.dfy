/** The collaborators the synthesis orchestration calls, as deterministic oracles, and the
    steps both synthesis paths share: validation and the per-chunk tokenize/synthesize step. */
module Collaborators {
  import opened Exceptions
  import opened VoiceFiles

  type Tokens = seq<int>
  /** One audio buffer: the samples the model generated for one chunk. */
  type Samples = seq<int>
  type Bytes = seq<bv8>

  /** The sample rate every converted chunk is declared at. */
  const SAMPLE_RATE := 24000

  /** The collaborators of `TTSService`, fixed for one request.
      - `normalizeText`: `normalize_text`;
      - `splitText`: the chunks `chunker.split_text` produces, in order;
      - `processText`: `TTSModel.process_text(chunk, voice[0])`, keeping only the tokens;
      - `generateFromTokens`: `TTSModel.generate_from_tokens`, `None` as `Ok(None)`;
      - `convertAudio`: `AudioService.convert_audio(audio, rate, format, is_first_chunk,
        normalizer, is_last_chunk)`; the stream's normalizer is given as the audio of all
        earlier calls of the same stream, which is all it has seen;
      - `loadVoice`: `_load_voice` as the request sees it through its cache;
      - `saveFault`: whether `torch.save` to a path raises. */
  datatype Env = Env(
    voicesDir: string,
    files: Files,
    normalizeText: string -> string,
    splitText: string -> seq<string>,
    processText: (string, char) -> Result<Tokens>,
    generateFromTokens: (Tokens, Loaded, real) -> Result<Option<Samples>>,
    convertAudio: (seq<Samples>, Samples, int, string, bool, bool) -> Result<Bytes>,
    loadVoice: string -> Result<Loaded>,
    saveFault: string -> Option<Exc>
  )

  const EMPTY_AFTER_PREPROCESSING := "Text is empty after preprocessing"

  /** What validation hands on to chunk processing. */
  datatype Prepared = Prepared(text: string, voicePath: string, voicepack: Loaded)

  /** The validation both paths start with, in its order: empty text (with the path's own
      message), empty normalized text, a voice without a file, then loading the voice, whose
      exception propagates unchanged. */
  function Prepare(env: Env, text: string, voice: string, emptyTextMessage: string): (r: Result<Prepared>)
    ensures text == "" ==> r == Raised(Exc(ValueError, emptyTextMessage))
    ensures text != "" && env.normalizeText(text) == "" ==> r == Raised(Exc(ValueError, EMPTY_AFTER_PREPROCESSING))
    ensures text != "" && env.normalizeText(text) != "" && VoiceFile(env.voicesDir, voice) !in env.files ==>
              r == Raised(Exc(ValueError, "Voice not found: " + voice))
    ensures text != "" && env.normalizeText(text) != "" && VoiceFile(env.voicesDir, voice) in env.files
            && env.loadVoice(VoiceFile(env.voicesDir, voice)).Raised? ==>
              r == Raised(env.loadVoice(VoiceFile(env.voicesDir, voice)).exc)
    ensures r.Ok? <==> text != "" && env.normalizeText(text) != "" && VoiceFile(env.voicesDir, voice) in env.files
                       && env.loadVoice(VoiceFile(env.voicesDir, voice)).Ok?
    ensures r.Ok? ==> r.value == Prepared(env.normalizeText(text), VoiceFile(env.voicesDir, voice),
                                          env.loadVoice(VoiceFile(env.voicesDir, voice)).value)
  {
    if text == "" then Raised(Exc(ValueError, emptyTextMessage))
    else
      var normalized := env.normalizeText(text);
      if normalized == "" then Raised(Exc(ValueError, EMPTY_AFTER_PREPROCESSING))
      else match VoicePath(env.voicesDir, env.files, voice)
        case None => Raised(Exc(ValueError, "Voice not found: " + voice))
        case Some(path) =>
          match env.loadVoice(path)
          case Raised(e) => Raised(e)
          case Ok(voicepack) => Ok(Prepared(normalized, path, voicepack))
  }

  /** `TTSModel.process_text(chunk, voice[0])`: indexing an empty voice name raises before the
      model is called. */
  function TokenizeStep(env: Env, voice: string, chunk: string): (r: Result<Tokens>)
    ensures voice == "" ==> r == Raised(INDEX_ERROR)
    ensures voice != "" ==> r == env.processText(chunk, voice[0])
  {
    if voice == "" then Raised(INDEX_ERROR) else env.processText(chunk, voice[0])
  }

  /** The audio a chunk contributes when it is processed on its own: tokenizing succeeds and
      synthesis neither raises nor returns `None`. */
  function ChunkAudio(env: Env, voice: string, voicepack: Loaded, speed: real, chunk: string): (r: Option<Samples>)
    ensures r.Some? <==> TokenizeStep(env, voice, chunk).Ok?
                         && env.generateFromTokens(TokenizeStep(env, voice, chunk).value, voicepack, speed).Ok?
                         && env.generateFromTokens(TokenizeStep(env, voice, chunk).value, voicepack, speed).value.Some?
  {
    match TokenizeStep(env, voice, chunk)
    case Raised(_) => None
    case Ok(tokens) =>
      match env.generateFromTokens(tokens, voicepack, speed)
      case Raised(_) => None
      case Ok(audio) => audio
  }

  /** The audio of the surviving chunks, in chunk order: the reference both paths are
      compared with. */
  function SurvivingAudio(env: Env, voice: string, voicepack: Loaded, speed: real, chunks: seq<string>): (r: seq<Samples>)
    ensures |r| <= |chunks|
  {
    if chunks == [] then []
    else
      var init := SurvivingAudio(env, voice, voicepack, speed, chunks[..|chunks| - 1]);
      match ChunkAudio(env, voice, voicepack, speed, chunks[|chunks| - 1])
      case None => init
      case Some(audio) => init + [audio]
  }

  /** An empty voice name makes every chunk fail, whatever the model does. */
  lemma {:induction false} EmptyVoiceSurvivesNothing(env: Env, voicepack: Loaded, speed: real, chunks: seq<string>)
    ensures SurvivingAudio(env, "", voicepack, speed, chunks) == []
  {
    if chunks != [] {
      EmptyVoiceSurvivesNothing(env, voicepack, speed, chunks[..|chunks| - 1]);
    }
  }

  /** Concatenation of buffers in order (`np.concatenate`). */
  function Concat(buffers: seq<Samples>): (r: Samples)
    ensures buffers == [] ==> r == []
    ensures forall k :: 0 <= k < |buffers| ==> |buffers[k]| <= |r|
  {
    if buffers == [] then [] else Concat(buffers[..|buffers| - 1]) + buffers[|buffers| - 1]
  }

  /** Stitching is gap-free and overlap-free: buffer `k` occupies the samples right after those
      of the buffers before it. */
  lemma {:induction false} ConcatPlacesBuffers(buffers: seq<Samples>, k: nat)
    requires k < |buffers|
    ensures |Concat(buffers[..k])| + |buffers[k]| <= |Concat(buffers)|
    ensures Concat(buffers)[|Concat(buffers[..k])|..|Concat(buffers[..k])| + |buffers[k]|] == buffers[k]
  {
    var n := |buffers|;
    assert buffers[..n - 1] == buffers[..n][..n - 1];
    if k == n - 1 {
      assert Concat(buffers) == Concat(buffers[..k]) + buffers[k];
    } else {
      ConcatPlacesBuffers(buffers[..n - 1], k);
      assert buffers[..n - 1][..k] == buffers[..k];
      assert buffers[..n - 1][k] == buffers[k];
      var left := Concat(buffers[..n - 1]);
      assert Concat(buffers) == left + buffers[n - 1];
      var lo := |Concat(buffers[..k])|;
      assert Concat(buffers)[lo..lo + |buffers[k]|] == left[lo..lo + |buffers[k]|];
    }
  }

  /** A single buffer is returned as it is. */
  lemma ConcatSingle(buffer: Samples)
    ensures Concat([buffer]) == buffer
  {
    assert [buffer][..0] == [];
  }
}
