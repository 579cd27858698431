/** The part of the host filesystem the handlers touch: regular files as a map from path to
    contents, directories as a set of paths, and the `generated_audio` artifact store inside it. */
module Storage {
  import opened Strings

  newtype byte = x: int | 0 <= x < 256

  type Files = map<string, seq<byte>>

  /** Directory holding the generated replies, created at start-up. */
  const ARTIFACT_DIR := "generated_audio"

  function ArtifactPath(filename: string): string
  {
    ARTIFACT_DIR + "/" + filename
  }

  /** The directory part of `path`: the text before its last '/', or "" when it has none
      (the working directory, or the root for an absolute path). */
  function ParentDir(path: string): (d: string)
    ensures d <= path
    ensures d != "" ==> path == d + "/" + LastSegment(path, '/')
    ensures d == "" ==> path == LastSegment(path, '/') || path == "/" + LastSegment(path, '/')
  {
    LastSegmentSpec(path, '/');
    var base := LastSegment(path, '/');
    if |base| == |path| then "" else path[..|path| - |base| - 1]
  }

  /** Whether `open(path, "wb")` succeeds: the name is not empty and does not end in '/', no
      directory has that name, and the directory it would live in exists. */
  predicate Writable(dirs: set<string>, path: string)
  {
    LastSegment(path, '/') != "" && path !in dirs
    && (ParentDir(path) == "" || ParentDir(path) in dirs)
  }

  /** Reply of the artifact lookup endpoint: the file's bytes, or an error status and detail. */
  datatype FileReply = FileBody(content: seq<byte>) | FileError(status: nat, detail: string)

  const NOT_FOUND_DETAIL := "File not found."

  /** `GET /generated_audio/{filename}`: `os.path.exists` holds for files and directories alike;
      serving a directory makes the file response fail while it is sent, which the server
      answers with a bare 500. */
  function GetAudioFile(files: Files, dirs: set<string>, filename: string): (r: FileReply)
    ensures r.FileBody? <==> ArtifactPath(filename) in files
    ensures r.FileBody? ==> r.content == files[ArtifactPath(filename)]
    ensures (r == FileError(404, NOT_FOUND_DETAIL))
        <==> (ArtifactPath(filename) !in files && ArtifactPath(filename) !in dirs)
    ensures (ArtifactPath(filename) !in files && ArtifactPath(filename) in dirs)
        ==> r == FileError(500, "Internal Server Error")
  {
    var path := ArtifactPath(filename);
    if path in files || path in dirs then
      if path in files then FileBody(files[path]) else FileError(500, "Internal Server Error")
    else
      FileError(404, NOT_FOUND_DETAIL)
  }
}
