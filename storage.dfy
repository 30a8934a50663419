/** The image-upload step shared by the project form (`uploadImage`) and the
    profile page (`uploadAvatar`): with no chosen file nothing is uploaded;
    otherwise the object is stored under a random name that keeps the file
    name's extension, and the public URL of the stored object is returned.
    The storage service is not modelled: its answer is the `UploadOutcome`
    parameter, and `Math.random()`'s text is the `nonce` parameter. */
module Storage {
  import opened Js
  import Text

  /** A file the user picked in a file input; only its name is used. */
  datatype File = File(name: string)

  /** What the storage service answers to one upload. */
  datatype UploadOutcome = UploadRejected | Stored(publicUrl: string)

  /** The result of the upload step: no file chosen, or the object path that
      was tried and, when the upload went through, the URL to save. */
  datatype UploadResult =
    | NoFile
    | Uploaded(path: string, url: string)
    | UploadFailed(path: string)

  /** `name.split('.').pop()`: the text after the last `.`, or the whole
      name when it has no `.`. */
  function FileExtension(name: string): (ext: string)
    ensures '.' !in ext
    ensures |ext| <= |name| && name[|name| - |ext|..] == ext
    ensures '.' !in name ==> ext == name
    ensures '.' in name ==> |ext| < |name| && name[|name| - |ext| - 1] == '.'
  {
    var parts := Text.Split(name, '.');
    Text.LastPiece(name, '.');
    parts[|parts| - 1]
  }

  /** The object path `${prefix}${Math.random()}.${fileExt}`. */
  function ObjectPath(prefix: string, nonce: string, fileName: string): (path: string)
    ensures var ext := FileExtension(fileName);
      |path| == |prefix| + |nonce| + 1 + |ext|
      && path[..|prefix|] == prefix
      && path[|path| - |ext| - 1..] == "." + ext
  {
    prefix + nonce + "." + FileExtension(fileName)
  }

  /** One run of the upload step for the file `file` (if any). */
  function Upload(file: Option<File>, prefix: string, nonce: string, outcome: UploadOutcome): (r: UploadResult)
    ensures r.NoFile? <==> file.None?
    ensures file.Some? ==> !r.NoFile? && r.path == ObjectPath(prefix, nonce, file.value.name)
    ensures r.Uploaded? <==> file.Some? && outcome.Stored?
    ensures r.Uploaded? ==> r.url == outcome.publicUrl
  {
    match file
    case None => NoFile
    case Some(f) =>
      var path := ObjectPath(prefix, nonce, f.name);
      match outcome
      case UploadRejected => UploadFailed(path)
      case Stored(url) => Uploaded(path, url)
  }
}
