# TTSService orchestration, modelled in Dafny

This project models `TTSService` of Kokoro-FastAPI (api/src/services/tts_service.py). The
service turns text into speech by orchestrating collaborators it does not define: the
text normalizer, the chunker, the neural model's tokenize and synthesize operations, the
audio converter with its per-stream normalizer, and the store of voice files.

The model fixes each collaborator as a deterministic oracle. They are the function-typed
fields of `Collaborators.Env`. Python exceptions are values (`Exceptions.Exc`: a class and
its message), so every outcome of a call is an `Ok` or a `Raised`. Operations with loops,
`try` blocks or state are Dafny methods that follow the source; straight-line lookups such
as `_get_voice_path` are functions (`VoicePath`). The synthesis, streaming, combination and
cache methods are each proved equal to a reference function, `list_voices` is proved sorted
and a permutation of what it scanned, and the singleton constructor `New` and the lookahead
`NextChunk` state their results directly. The lemmas state what the service promises about
the reference functions, over every choice of collaborators.

- `paths.dfy`, `voice_files.dfy`: `os.path.join` and the voice store. The store is a map
  from path to file content, and `_get_voice_path` looks a voice up in it.
- `collaborators.dfy`: the oracle environment, the validation shared by both synthesis
  paths, and the per-chunk tokenize and synthesize step.
- `stitched.dfy`: `_generate_audio` and `_generate_audio_internal`, in both branches.
- `streaming.dfy`: `generate_audio_stream`. The consumer is given by how many items it
  takes before closing the generator (`None` means it drains the stream).
- `combine.dfy`: `combine_voices`. `torch.stack` and `torch.mean` are computed on reals.
- `listing.dfy`: `list_voices`, with Python's string order and `sorted`.
- `voice_cache.dfy`: the `lru_cache` memo on `_load_voice`.
- `service.dfy`: the construct-once singleton.

Behaviour worth noting:

- The streaming path catches every exception a chunk raises (line 182), tokenize
  included. The chunk is skipped and the stream goes on.
- A successful unstitched run calls `cleanup` twice: `cleanup(verbose=True)` at line 113,
  then the `finally` at line 49.
- `is_first_chunk` is cleared only after a successful yield (line 177), so it goes to the
  first chunk that converts.
- `combine_voices` re-raises a `ValueError` or `RuntimeError` from stacking or saving
  unchanged. Only other exception classes are wrapped.
- A stream closed before it is first resumed runs none of its body, so `cleanup` does not
  run. This is how Python async generators behave.

## Model

| member | source | states |
|---|---|---|
| `Paths.Join` | api/src/services/tts_service.py:38 | `os.path.join`: the result ends with the name; an absolute name replaces the directory; otherwise the result starts with the directory, and when the directory is not empty a separator sits right before the name |
| `Paths.JoinInjective` | api/src/services/tts_service.py:38 | two relative names give the same path under one directory only if they are equal |
| `VoiceFiles.VoicePath` | api/src/services/tts_service.py:36-39 | the voice path is `Some` exactly when `VOICES_DIR/<voice>.pt` exists; then that path is in the store and ends with `<voice>.pt` |
| `VoiceFiles.VoicePathUnderDir` | api/src/services/tts_service.py:38 | for a relative name and a directory without a trailing separator, the path is `dir + "/" + voice + ".pt"` |
| `VoiceFiles.AbsoluteVoiceEscapesDir` | api/src/services/tts_service.py:38 | an absolute voice name makes `os.path.join` drop the voices directory, so the looked-up path is the name plus `.pt` |
| `VoiceFiles.LoadFile` | api/src/services/tts_service.py:216-218 | `torch.load` succeeds exactly on an existing readable file and returns its content; a missing file raises `FileNotFoundError`, which the model has as an exception of a class the service does not name (`OtherError`) |
| `Collaborators.Prepare` | api/src/services/tts_service.py:59-72 | validation order: empty text, then empty normalized text, then a missing voice file, each a `ValueError` with its message; then the voice load, whose exception propagates; `Ok` exactly when all pass, carrying normalized text, path and voicepack |
| `Collaborators.TokenizeStep` | api/src/services/tts_service.py:80 | `process_text(chunk, voice[0])`; an empty voice name raises `IndexError` before the model is called |
| `Collaborators.ChunkAudio` | api/src/services/tts_service.py:159-164 | a chunk has audio exactly when tokenizing succeeds and synthesis neither raises nor returns `None` |
| `Collaborators.SurvivingAudio` | api/src/services/tts_service.py:75-106 | the surviving chunks' buffers in chunk order; never more buffers than chunks |
| `Collaborators.EmptyVoiceSurvivesNothing` | api/src/services/tts_service.py:80 | with an empty voice name no chunk survives, whatever the model does |
| `Collaborators.Concat` | api/src/services/tts_service.py:106 | `np.concatenate`: no buffers give no samples, and the result is at least as long as every buffer; `ConcatPlacesBuffers` and `ConcatSingle` state where each buffer lands |
| `Collaborators.ConcatPlacesBuffers` | api/src/services/tts_service.py:106 | `np.concatenate` places buffer `k` right after the buffers before it, with no gap and no overlap |
| `Collaborators.ConcatSingle` | api/src/services/tts_service.py:106 | concatenating a single buffer gives that buffer |
| `Stitched.TokenizedChunks` | api/src/services/tts_service.py:77-84 | `chunks_data` keeps at most one pair per chunk |
| `Stitched.GeneratedAudio` | api/src/services/tts_service.py:90-100 | `audio_chunks` keeps at most one buffer per tokenized chunk |
| `Stitched.StitchedRun` | api/src/services/tts_service.py:75-106 | the stitched branch tokenizes every chunk the chunker gives and calls no `cleanup` itself |
| `Stitched.UnstitchedRun` | api/src/services/tts_service.py:107-113 | the unstitched branch tokenizes the whole text once; it calls `cleanup(verbose=True)` exactly when synthesis returns |
| `Stitched.GenerateAudioInternal` | api/src/services/tts_service.py:51-119 | the method's run (result, tokenize and synthesis calls, cleanups) is the reference run: validation, then the chosen branch |
| `Stitched.StitchChunks` | api/src/services/tts_service.py:75-106 | the two `for` loops build `chunks_data` and `audio_chunks` as the reference filters do, with the zero-survivor errors and the single-buffer case |
| `Stitched.InternalRun` | api/src/services/tts_service.py:51-119 | `_generate_audio_internal`: a validation failure is raised with nothing tokenized, synthesized or cleaned up; never more model calls than tokenize attempts; `cleanup(verbose=True)` exactly on a successful unstitched run; only the unstitched branch can return `None`. `ValidationFirst`, `StitchedOutputIsSurvivors` and `UnstitchedPassesNone` state the rest |
| `Stitched.SynthesizeWhole` | api/src/services/tts_service.py:107-113 | the unstitched branch tokenizes exactly the whole normalized text once; a tokenize exception is raised with no model call; otherwise the model is called once on those tokens and its answer is the result unchecked, `None` included; `cleanup(verbose=True)` runs exactly when synthesis returns |
| `Stitched.AudioRun` | api/src/services/tts_service.py:41-49 | `_generate_audio`: the last cleanup is always the plain one of the `finally`, on every exit; never more model calls than tokenize attempts; `CleanupCounts` gives the exact cleanup sequence |
| `Stitched.GenerateAudio` | api/src/services/tts_service.py:41-49 | `_generate_audio` is the internal run followed by one plain `cleanup()` |
| `Stitched.TokenizedEmptyIff` | api/src/services/tts_service.py:77-87 | `chunks_data` is empty exactly when every chunk fails to tokenize |
| `Stitched.GeneratedOfTokenized` | api/src/services/tts_service.py:77-103 | the two skip loops together keep exactly the chunks whose tokenize and synthesis both succeed with audio |
| `Stitched.StitchedOutputIsSurvivors` | api/src/services/tts_service.py:75-106 | with stitching the call succeeds exactly when some chunk survives, and then returns the in-order concatenation of exactly the survivors' buffers |
| `Stitched.AllTokenizeFailures` | api/src/services/tts_service.py:86-87 | when every chunk fails to tokenize the call raises "No chunks were processed successfully" and never calls the model |
| `Stitched.NoAudioFailure` | api/src/services/tts_service.py:89-103 | when chunks tokenize but none yields audio the call raises "No audio chunks were generated successfully", after one model call per tokenized chunk |
| `Stitched.SingleSurvivorUnchanged` | api/src/services/tts_service.py:106 | one surviving buffer is returned as it is |
| `Stitched.ValidationFirst` | api/src/services/tts_service.py:59-72 | a validation failure is raised with nothing tokenized and no model call, in both branches |
| `Stitched.CleanupCounts` | api/src/services/tts_service.py:45-49 | `cleanup` runs on every exit: once for every stitched or failing run, verbose then plain (lines 113 and 49) for a successful unstitched run |
| `Stitched.UnstitchedPassesNone` | api/src/services/tts_service.py:107-115 | the unstitched branch has no `None` check: a model returning `None` makes the call return `None` |
| `Streaming.Audios` | api/src/services/tts_service.py:167-174 | the normalizer history has one buffer per converter call |
| `Streaming.Yielded` | api/src/services/tts_service.py:176 | the items yielded are at most one per converter call |
| `Streaming.NoneYieldedIff` | api/src/services/tts_service.py:171-177 | nothing has been yielded exactly when every conversion so far raised |
| `Streaming.NextChunk` | api/src/services/tts_service.py:150-153 | `next(chunk_gen, None)` gives the next chunk and advances, or `None` at the end |
| `Streaming.GenerateAudioStream` | api/src/services/tts_service.py:121-191 | the method's run (items, converter calls, `chunks_processed`, exception, cleanups) is the reference run: validation, then the chunk loop, then `cleanup` once |
| `Streaming.StreamChunks` | api/src/services/tts_service.py:145-185 | the lookahead `while` loop ends in the state of the reference fold over all chunks, and the items it yields are the successful conversions |
| `Streaming.ProcessChunk` | api/src/services/tts_service.py:153-185 | one pass of the loop body is one step of the reference fold, and it keeps the normalizer history and the yielded items in step with the converter calls |
| `Streaming.SynthesizeChunk` | api/src/services/tts_service.py:159-164 | a chunk has audio exactly when tokenizing succeeds and the model returns a value that is not `None`, and that audio is the model's answer on the chunk's tokens; an exception from either call leaves the chunk without audio |
| `Streaming.StepShape` | api/src/services/tts_service.py:152-185 | `Step`, one pass of the `while` body: a closed generator does nothing; otherwise one more chunk is processed, at most one converter call is added, and `is_first_chunk` never comes back once cleared |
| `Streaming.StepKeepsEarlierCalls` | api/src/services/tts_service.py:159-177 | `Step` keeps the earlier converter calls and adds at most one, for the chunk it processes, only on an open generator |
| `Streaming.FoldBounds` | api/src/services/tts_service.py:150-185 | `Fold`, the `while` loop over the first `n` chunks: at most `n` chunks are processed, at most one converter call each, and the loop only stops short of `n` when the consumer closes the generator; `FoldFacts` states the flags and the audio of every call |
| `Streaming.StreamRunOf` | api/src/services/tts_service.py:121-191 | `generate_audio_stream`: one cleanup unless the consumer closes the generator before it starts; an exception exactly when validation fails, and then nothing yielded or processed; never more items than converter calls, nor calls than chunks processed. `RunOfFold` reads the rest off `Fold` |
| `Streaming.RunOfFold` | api/src/services/tts_service.py:121-191 | a validated stream's run is read off the fold over all its chunks, with one cleanup |
| `Streaming.FoldStaysClosed` | api/src/services/tts_service.py:176 | once the consumer closes the generator nothing more happens |
| `Streaming.FoldFacts` | api/src/services/tts_service.py:145-185 | every converter call is for a surviving chunk, with the flags and normalizer history the loop passes; calls are in strictly increasing chunk order; the converted audio is exactly the surviving audio so far; the fold only stops early when the consumer closes it |
| `Streaming.DrainedStreamVisitsAll` | api/src/services/tts_service.py:149-185 | a drained stream processes every chunk (`chunks_processed` is the sequence length) and converts exactly the surviving chunks' audio, in order |
| `Streaming.FirstFlagOnFirstYield` | api/src/services/tts_service.py:171-177 | a call carries `is_first_chunk` exactly when every earlier conversion raised; so exactly the first yielded item was converted with it |
| `Streaming.LastFlagIsFinalChunk` | api/src/services/tts_service.py:173 | a call carries `is_last_chunk` exactly when its chunk is the final element of the chunk sequence |
| `Streaming.FailedFinalChunkMeansNoLastFlag` | api/src/services/tts_service.py:173 | when the final chunk yields no audio, no conversion is flagged as last |
| `Streaming.SingleChunkBothFlags` | api/src/services/tts_service.py:145-176 | a surviving single chunk is converted once, with both flags true and an empty normalizer history |
| `Streaming.YieldsInChunkOrder` | api/src/services/tts_service.py:152-185 | conversions come in strictly increasing chunk order, each from a surviving chunk carrying its audio |
| `Streaming.YieldedAtMostTaken` | api/src/services/tts_service.py:176 | the consumer never receives more items than it takes |
| `Streaming.StreamValidationFirst` | api/src/services/tts_service.py:130-143 | a validation failure ends the stream before any chunk: nothing yielded, no chunk processed, the error raised, one cleanup |
| `Streaming.StreamCompletes` | api/src/services/tts_service.py:152-191 | after validation a drained stream raises nothing, processes every chunk and cleans up once; zero survivors give an empty stream, not an error |
| `Streaming.StreamMatchesStitched` | api/src/services/tts_service.py:75-185 | the audio a drained stream converts, concatenated, is the stitched path's result, and the stitched path fails exactly when the stream converts nothing |
| `VoiceCombination.JoinNames` | api/src/services/tts_service.py:226 | `"_".join(names)`, the name of the combined voice |
| `VoiceCombination.JoinSplitRoundTrip` | api/src/services/tts_service.py:226 | when no voice name contains `_`, splitting the combined name gives the voices back in input order |
| `VoiceCombination.JoinNamesCollide` | api/src/services/tts_service.py:226 | with `_` inside names, two different requests get the same combined name |
| `VoiceCombination.Stack` | api/src/services/tts_service.py:227 | `torch.stack` succeeds exactly on tensors of one size and keeps them in order; it never raises a `ValueError`; it raises a `TypeError` (an exception class the service does not name) exactly when some element is not a tensor, and otherwise the `RuntimeError` for unequal sizes |
| `VoiceCombination.Mean` | api/src/services/tts_service.py:227 | the element-wise mean has the voices' width |
| `VoiceCombination.MeanWithinBounds` | api/src/services/tts_service.py:227 | when every value of every voice lies in `[lo, hi]`, so does every value of their element-wise mean |
| `VoiceCombination.MeanOfCopies` | api/src/services/tts_service.py:227 | averaging copies of one voice gives that voice |
| `VoiceCombination.MeanOfTwo` | api/src/services/tts_service.py:227 | `[2, 2]` and `[4, 4]` average to `[3, 3]` |
| `VoiceCombination.LoadAll` | api/src/services/tts_service.py:213-222 | a successful load loop loads one voice per name |
| `VoiceCombination.Rewrap` | api/src/services/tts_service.py:242-245 | the outer handler lets `ValueError` and `RuntimeError` through unchanged and turns every other exception into a `RuntimeError` |
| `VoiceCombination.SaveRunOf` | api/src/services/tts_service.py:224-245 | the `try` block after loading: `cleanup` once exactly when stacking succeeds; every exception leaves the store unchanged and is a `ValueError` or `RuntimeError`; success returns the joined name and stores the mean of the stacked voices under it |
| `VoiceCombination.CombineRunOf` | api/src/services/tts_service.py:204-245 | `combine_voices`: at most one cleanup; the store changes only on success, which returns the joined name after one cleanup and adds exactly the combined path to the store's paths. `CombineSucceeds`, `SaveFailureNamesPath`, `RaisesOnlyOwnClasses` and the failure lemmas state the rest |
| `VoiceCombination.CombineVoices` | api/src/services/tts_service.py:204-245 | the method's run (result, store afterwards, cleanups) is the reference run |
| `VoiceCombination.SaveCombined` | api/src/services/tts_service.py:224-245 | `cleanup` runs once exactly when stacking succeeds; a stacking failure is raised through the outer handler's rewrapping; a save fault raises the `RuntimeError` naming the path with the store unchanged; otherwise the joined name is returned and the mean of the stacked voices is stored under the combined path |
| `VoiceCombination.RunAfterLoading` | api/src/services/tts_service.py:213-245 | after the load loop the call either raises the loop's error, unsaved and with no cleanup, or runs the save step |
| `VoiceCombination.LoadAllFailsAtFirst` | api/src/services/tts_service.py:213-222 | the load loop fails at the first voice that does not load, with a `ValueError` naming it and carrying the cause's message |
| `VoiceCombination.TooFewVoices` | api/src/services/tts_service.py:206-207 | fewer than two names raise a `ValueError`, with nothing loaded, saved or cleaned up |
| `VoiceCombination.LoadFailureNamesVoice` | api/src/services/tts_service.py:213-222 | a voice that does not load ends the call with a `ValueError` naming the first such voice; nothing is saved and `cleanup` does not run |
| `VoiceCombination.RaisesOnlyOwnClasses` | api/src/services/tts_service.py:242-245 | every exception the call lets out is a `ValueError` or a `RuntimeError` |
| `VoiceCombination.CleanupIffSaveAttempted` | api/src/services/tts_service.py:231-238 | `cleanup` runs exactly once when a save is attempted, whether it fails or not, and otherwise never |
| `VoiceCombination.SaveFailureNamesPath` | api/src/services/tts_service.py:231-236 | a failed save raises a `RuntimeError` naming the path; the store is unchanged and `cleanup` runs |
| `VoiceCombination.CombineSucceeds` | api/src/services/tts_service.py:224-240 | when every voice loads as a tensor of one width and the save succeeds, the call returns the names joined by `_` in input order, runs `cleanup` once, and stores under `<name>.pt` exactly the element-wise mean of the loaded voices, where the voice lookup now finds it; the store gains that one path and every other file is unchanged |
| `VoiceCombination.CombineTwoExample` | api/src/services/tts_service.py:204-240 | voices `a` = `[2, 2]` and `b` = `[4, 4]` combine into `a_b`, stored as `[3, 3]` under `v/a_b.pt`, with one cleanup |
| `VoiceCombination.NonTensorIsWrapped` | api/src/services/tts_service.py:227-245 | a loaded voice that is not a tensor makes stacking raise a `TypeError`, which the outer handler wraps into "Error combining voices: …"; nothing is saved and `cleanup` does not run |
| `VoiceCombination.UnequalSizesPassThrough` | api/src/services/tts_service.py:227-245 | tensors of unequal sizes make stacking raise a `RuntimeError`, which the outer handler lets through unchanged; nothing is saved and `cleanup` does not run |
| `VoiceListing.VoiceNames` | api/src/services/tts_service.py:252-254 | the loop collects at most one name per directory entry |
| `VoiceListing.VoiceNamesMembers` | api/src/services/tts_service.py:252-254 | a name is collected exactly when some entry ends with `.pt` and is that name plus the suffix |
| `VoiceListing.PrecedesTotal` | api/src/services/tts_service.py:257 | Python's string order is total |
| `VoiceListing.PrecedesTransitive` | api/src/services/tts_service.py:257 | Python's string order is transitive |
| `VoiceListing.PrecedesAntisymmetric` | api/src/services/tts_service.py:257 | Python's string order is antisymmetric |
| `VoiceListing.Insert` | api/src/services/tts_service.py:257 | insertion adds exactly one copy of the name |
| `VoiceListing.InsertSorted` | api/src/services/tts_service.py:257 | inserting into a sorted list keeps it sorted |
| `VoiceListing.SortNames` | api/src/services/tts_service.py:257 | `sorted` returns a permutation of its input |
| `VoiceListing.SortNamesSorted` | api/src/services/tts_service.py:257 | `sorted` returns a sorted list |
| `VoiceListing.SortedUnique` | api/src/services/tts_service.py:257 | two sorted lists with the same elements are equal, so the listing is determined by what was collected |
| `VoiceListing.ListVoices` | api/src/services/tts_service.py:247-257 | the listing is sorted and a permutation of the `.pt` names, suffix stripped, that the scan produced before it ended; the call never raises |
| `VoiceListing.ListingMembers` | api/src/services/tts_service.py:249-257 | the listing contains exactly the entry names ending in `.pt` with the suffix removed |
| `VoiceListing.ListingIsSortedNames` | api/src/services/tts_service.py:257 | the listing is `sorted` of the collected names |
| `VoiceListing.ScanFailureListsNothing` | api/src/services/tts_service.py:250-256 | when `scandir` itself fails the listing is empty |
| `VoiceCache.IndexOf` | api/src/services/tts_service.py:31-32 | a cache lookup is keyed by the exact path string |
| `VoiceCache.CacheStep` | api/src/services/tts_service.py:31-34 | one call of the cached `_load_voice`: the file is read exactly when the path is not cached, and then the result is what `torch.load` gives; the cache grows by at most one entry. The lemmas below state hits, eviction and the bound |
| `VoiceCache.CacheStepKeepsBound` | api/src/services/tts_service.py:31 | the cache never holds more voices than its capacity |
| `VoiceCache.CacheStepKeepsDistinct` | api/src/services/tts_service.py:31 | the cache holds at most one entry per path |
| `VoiceCache.MemoTransparent` | api/src/services/tts_service.py:31-34 | while the cache agrees with the store, a cached call returns what `torch.load` returns, and the cache still agrees afterwards |
| `VoiceCache.HitSkipsStore` | api/src/services/tts_service.py:31 | a hit does not read the store and makes the entry the most recently used |
| `VoiceCache.MissEvictsLeastRecent` | api/src/services/tts_service.py:31 | a miss on a full cache evicts the least recently used entry |
| `VoiceCache.FailureNotCached` | api/src/services/tts_service.py:31-34 | a load that raises is not remembered |
| `VoiceCache.ZeroCapacityCachesNothing` | api/src/services/tts_service.py:31 | a cache of capacity 0 reads the file on every call and stays empty |
| `VoiceCache.KeyedByPathOnly` | api/src/services/tts_service.py:31-32 | once a path is cached, a call returns the remembered voice even after the file under that path has been replaced |
| `VoiceCache.Cache.Load` | api/src/services/tts_service.py:31-34 | a call of the cached `_load_voice` returns and leaves the cache as the reference step says, and keeps the bound and the distinct paths |
| `Service.TTSServiceClass.New` | api/src/services/tts_service.py:24-28 | the first construction creates the instance with `output_dir`; every later one returns the same instance with its `output_dir` untouched |
| `Service.ConstructTwice` | api/src/services/tts_service.py:24-28 | two constructions give one instance whose `output_dir` is the first call's |

## Left out

- Timing (`time.time()`, `processing_time`), logging and `log_gpu_memory` are left out. They have no effect on control flow, so the methods return no processing time.
- `async` suspension is left out. A stream is a method that returns everything the consumer received. A consumer that stops early is given by how many items it takes. Concurrent use of the cache is not modelled.
- The collaborators are oracles: `normalize_text`, `chunker.split_text`, `TTSModel.process_text`, `TTSModel.generate_from_tokens`, `AudioService.convert_audio` and `AudioNormalizer`, `torch.save` and `cleanup`. These live in files that are not part of this model. Only the token sequence of `process_text` is kept; its phonemes are unused.
- The normalizer is given to the converter as the audio of all earlier converter calls of the stream, including calls that raised. Its loudness arithmetic and the header bytes are not modelled.
- Exceptions raised by the chunker (while producing the chunk list or by `next` on the generator) are not modelled. The chunk sequence is a plain list of strings.
- `normalize_text` (lines 61 and 133), `cleanup()` (lines 49, 113, 191 and 238) and `AudioNormalizer()` (line 128) never raise in the model. Their exceptions, which the source re-raises after its cleanup (lines 119 and 189), are not modelled.
- VoiceCombination.SaveFailureNamesPath: states that a failed save leaves the store unchanged. This holds only because the `saveFault` oracle writes nothing; a real `torch.save` (line 232) may have created a partial file at the combined path before it raised.
- Floating point is left out. Voice tensors are flat sequences of reals, and the mean is exact real division. Tensor shapes beyond one length and `map_location` are not modelled.
- The messages of exceptions raised inside `torch` are placeholders. The messages the service builds itself are modelled exactly.
- `_save_audio` and `_audio_to_bytes` are not modelled. They are WAV writers that the core operations do not call.
- api/src/main.py is not part of this model.
- `os.path.exists` is modelled as membership of the store map. A directory named `<voice>.pt` is not distinguished from a file.
- The cache capacity is a parameter. The configuration that sets `n_cache_voices` is not part of this model; the comment at line 31 says it is 8.
- The synthesis paths see `_load_voice` as the oracle `loadVoice`, as one request sees it through the cache. How the cache and the store combine across requests is stated only by the `VoiceCache` lemmas.
