/** The upload endpoint's naming rule: a fresh stored name keeping the original extension. */
module Upload {
  import opened Wrappers
  import opened Schemas
  import opened Strings

  /** The text after the last '.', or "bin" when there is none. */
  function FileExtension(filename: string): (ext: string)
    ensures (forall k :: 0 <= k < |filename| ==> filename[k] != '.') ==> ext == "bin"
    ensures (exists k :: 0 <= k < |filename| && filename[k] == '.') ==>
              (forall k :: 0 <= k < |ext| ==> ext[k] != '.') && |ext| < |filename|
              && filename[|filename| - |ext| - 1] == '.' && ext == filename[|filename| - |ext|..]
  {
    match FindLast(filename, '.')
    case None => "bin"
    case Some(k) => filename[k + 1..]
  }

  datatype UploadResult = UploadResult(url: string, filename: string)

  const UploadDir: string := "static/uploads"

  /** The name the file is stored under, from a fresh identifier. */
  function StoredName(filename: string, uuid: string): string {
    uuid + "." + FileExtension(filename)
  }

  /**
   * The upload: the file is written under its stored name (a write error
   * becomes a 500 with the error's text); the reply is the public URL and
   * the original name.
   */
  function UploadFile(filename: string, uuid: string, writeError: Option<string>): (r: Result<UploadResult, ApiError>)
    ensures writeError.Some? ==> r == Failure(ApiError(500, writeError.value))
    ensures writeError.None? ==>
              r.Success? && r.value.filename == filename
              && r.value.url == "/static/uploads/" + uuid + "." + FileExtension(filename)
  {
    match writeError
    case Some(e) => Failure(ApiError(500, e))
    case None => Success(UploadResult("/static/uploads/" + StoredName(filename, uuid), filename))
  }

  /** A name with an extension keeps it. */
  lemma StoredNameKeepsExtension(stem: string, ext: string, uuid: string)
    requires forall k :: 0 <= k < |ext| ==> ext[k] != '.'
    ensures StoredName(stem + "." + ext, uuid) == uuid + "." + ext
  {
    var f := stem + "." + ext;
    assert f[|stem|] == '.';
    assert FindLast(f, '.') == Some(|stem|);
    assert f[|stem| + 1..] == ext;
  }

  /** A name without a dot is stored as .bin. */
  lemma StoredNameWithoutDotIsBin(filename: string, uuid: string)
    requires forall k :: 0 <= k < |filename| ==> filename[k] != '.'
    ensures StoredName(filename, uuid) == uuid + ".bin"
  {
  }
}
