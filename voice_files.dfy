/** The voice store: a directory of `<name>.pt` files holding voice embeddings, and the
    service's lookup of a voice's file (`_get_voice_path`). */
module VoiceFiles {
  import opened Exceptions
  import Paths

  /** What `torch.load` returns for a voice file: a tensor (flattened to its values) or some
      other object, named by its Python type. */
  datatype Loaded = Tensor(values: seq<real>) | NonTensor(typeName: string)

  /** A file of the store: one that loads, or one whose load raises. */
  datatype StoredFile = Readable(content: Loaded) | Unreadable(fault: Exc)

  /** The file system as far as the service sees it: existing paths and their contents. */
  type Files = map<string, StoredFile>

  const VOICE_SUFFIX := ".pt"

  /** `os.path.join(VOICES_DIR, f"{voice}.pt")`. */
  function VoiceFile(voicesDir: string, voice: string): (r: string)
  {
    Paths.Join(voicesDir, voice + VOICE_SUFFIX)
  }

  /** `_get_voice_path`: the voice's file when it exists, otherwise `None`. */
  function VoicePath(voicesDir: string, files: Files, voice: string): (r: Option<string>)
    ensures r.Some? <==> VoiceFile(voicesDir, voice) in files
    ensures r.Some? ==> r.value in files && Paths.EndsWith(r.value, voice + VOICE_SUFFIX)
  {
    var path := VoiceFile(voicesDir, voice);
    if path in files then Some(path) else None
  }

  /** For a relative voice name the path is the directory, a separator where one is missing,
      then `<voice>.pt`. */
  lemma VoicePathUnderDir(voicesDir: string, files: Files, voice: string)
    requires voicesDir != "" && voicesDir[|voicesDir| - 1] != '/'
    requires !Paths.IsAbsolute(voice)
    requires VoicePath(voicesDir, files, voice).Some?
    ensures VoicePath(voicesDir, files, voice).value == voicesDir + "/" + voice + ".pt"
  {
    var name := voice + VOICE_SUFFIX;
    assert !Paths.IsAbsolute(name) by {
      if voice == "" { assert name[0] == '.'; } else { assert name[0] == voice[0]; }
    }
    assert VoiceFile(voicesDir, voice) == voicesDir + "/" + name;
  }

  /** A voice name that starts with `/` escapes the voices directory: its file is the name plus
      `.pt`, whatever the directory is. */
  lemma AbsoluteVoiceEscapesDir(voicesDir: string, voice: string)
    requires Paths.IsAbsolute(voice)
    ensures VoiceFile(voicesDir, voice) == voice + VOICE_SUFFIX
  {
    assert (voice + VOICE_SUFFIX)[0] == voice[0];
  }

  /** `torch.load(path)` on the store: a missing file raises `FileNotFoundError`. */
  function LoadFile(files: Files, path: string): (r: Result<Loaded>)
    ensures r.Ok? <==> path in files && files[path].Readable?
    ensures r.Ok? ==> r.value == files[path].content
    ensures path !in files ==> r.Raised? && r.exc.cls == OtherError
  {
    if path !in files then Raised(Exc(OtherError, "[Errno 2] No such file or directory: '" + path + "'"))
    else match files[path]
      case Readable(content) => Ok(content)
      case Unreadable(fault) => Raised(fault)
  }
}
