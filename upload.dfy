/** The file upload of src/api/foo.ts: the MIME-type table, the generated file name, and which
    request `uploadFile` makes on the H5 and the native targets. Fetching the file, building the
    form data and sending it are host I/O; the blob's MIME type and the upload response are
    inputs. */
module Upload {
  import opened Values
  import TokenStore
  import Interceptor

  const UploadPath := "/system/upload-file"
  const DefaultMime := "image/jpeg"
  const DefaultExtension := "jpg"
  const UnsupportedError := "H5 端仅支持 blob URL 或 base64 数据上传"

  /** The extensions the table can produce. */
  predicate KnownExtension(ext: string)
  {
    ext in {"jpg", "png", "gif", "webp", "bmp", "svg"}
  }

  /** The types the table lists. */
  const ListedMimes := {"image/jpeg", "image/jpg", "image/png", "image/gif", "image/webp",
                        "image/bmp", "image/svg+xml"}

  /** `getFileExtension`: the table lookup, `jpg` for any other type. */
  function FileExtension(mime: string): (ext: string)
    ensures KnownExtension(ext)
    ensures mime in {"image/jpeg", "image/jpg"} ==> ext == "jpg"
    ensures mime == "image/png" ==> ext == "png"
    ensures mime == "image/gif" ==> ext == "gif"
    ensures mime == "image/webp" ==> ext == "webp"
    ensures mime == "image/bmp" ==> ext == "bmp"
    ensures mime == "image/svg+xml" ==> ext == "svg"
    ensures mime !in ListedMimes ==> ext == DefaultExtension
  {
    if mime == "image/jpeg" || mime == "image/jpg" then "jpg"
    else if mime == "image/png" then "png"
    else if mime == "image/gif" then "gif"
    else if mime == "image/webp" then "webp"
    else if mime == "image/bmp" then "bmp"
    else if mime == "image/svg+xml" then "svg"
    else DefaultExtension
  }

  /** `blob.type || 'image/jpeg'`. */
  function EffectiveMime(blobType: string): (m: string)
    ensures m != ""
    ensures blobType != "" ==> m == blobType
    ensures blobType == "" ==> FileExtension(m) == "jpg"
  {
    if blobType == "" then DefaultMime else blobType
  }

  /** `generateFileName`: `${baseName}.${extension}`, with no uniqueness suffix. */
  function FileName(baseName: string, extension: string): (r: string)
    ensures |r| == |baseName| + 1 + |extension|
    ensures baseName <= r && r[|baseName|] == '.' && r[|baseName| + 1..] == extension
  {
    baseName + "." + extension
  }

  /** Splits a name at its last `.`: the part before it and the part after. */
  function SplitAtLastDot(name: string): (r: (string, string))
    requires '.' in name
    ensures r.0 + "." + r.1 == name
    ensures '.' !in r.1
    decreases |name|
  {
    if name[|name| - 1] == '.' then (name[..|name| - 1], "")
    else
      var init := name[..|name| - 1];
      assert name == init + [name[|name| - 1]];
      var r := SplitAtLastDot(init);
      (r.0, r.1 + [name[|name| - 1]])
  }

  lemma {:induction false} SplitAtLastDotOf(base: string, ext: string)
    requires '.' !in ext
    ensures SplitAtLastDot(base + "." + ext) == (base, ext)
    decreases |ext|
  {
    var name := base + "." + ext;
    if ext == [] {
      assert name[..|name| - 1] == base;
    } else {
      var init := ext[..|ext| - 1];
      assert name[..|name| - 1] == base + "." + init;
      assert name[|name| - 1] == ext[|ext| - 1];
      SplitAtLastDotOf(base, init);
      assert init + [ext[|ext| - 1]] == ext;
    }
  }

  /** A generated name splits back, at its last dot, into the base name and the extension,
      whatever dots the base name holds. */
  lemma FileNameRoundTrip(baseName: string, mime: string)
    ensures var ext := FileExtension(mime);
            SplitAtLastDot(FileName(baseName, ext)) == (baseName, ext)
  {
    var ext := FileExtension(mime);
    assert '.' !in ext;
    SplitAtLastDotOf(baseName, ext);
  }

  /** The request `uploadFile` makes. */
  datatype Plan =
    | FetchUpload(url: string, authorization: string, fileName: string, mime: string, field: string)
    | Unsupported(error: string)
    | NativeUpload(url: string, filePath: string, field: string)

  /** The accepted H5 paths: a blob URL or a data URL. */
  predicate H5Readable(filePath: string)
  {
    StartsWith(filePath, "blob:") || StartsWith(filePath, "data:")
  }

  /** H5 builds: a blob or data URL is posted with `fetch` to the absolute upload address, as
      field `file` named after `name` (default `file`) and the blob's type, with the Authorization header chosen
      like the interceptor's; any other path is refused. Native builds hand the path to
      `uni.uploadFile` with the relative address (the interceptor completes it) and field
      `file`, and do not use `name`. */
  function UploadPlan(isH5: bool, baseUrl: string, filePath: string, name: Option<string>, blobType: string,
                      info: TokenStore.TokenInfo): (p: Plan)
    ensures isH5 && !H5Readable(filePath) ==> p == Unsupported(UnsupportedError)
    ensures isH5 && H5Readable(filePath) ==>
              p.FetchUpload? && p.url == baseUrl + UploadPath && p.field == "file"
              && p.authorization == Interceptor.Authorization(info)
              && p.mime == EffectiveMime(blobType)
              && p.fileName == FileName(ArgOr(name, "file"), FileExtension(EffectiveMime(blobType)))
    ensures !isH5 ==> p == NativeUpload(UploadPath, filePath, "file")
  {
    if isH5 then
      if StartsWith(filePath, "blob:") || StartsWith(filePath, "data:") then
        var mimeType := if blobType != "" then blobType else DefaultMime;
        var auth := if info.Double? then "Bearer " + info.accessToken else "Bearer " + info.token;
        var baseName := if name.Some? then name.value else "file";
        FetchUpload(baseUrl + UploadPath, auth, baseName + "." + FileExtension(mimeType), mimeType, "file")
      else
        Unsupported(UnsupportedError)
    else
      NativeUpload(UploadPath, filePath, "file")
  }

  /** On native targets the plan does not depend on `name`, nor on the token record: the form
      field is the constant `file` whatever name the caller passes, and the credentials are left
      to the interceptor. */
  lemma NativeIgnoresName(baseUrl: string, filePath: string, name1: Option<string>, name2: Option<string>, blobType: string,
                          info1: TokenStore.TokenInfo, info2: TokenStore.TokenInfo)
    ensures UploadPlan(false, baseUrl, filePath, name1, blobType, info1)
            == UploadPlan(false, baseUrl, filePath, name2, blobType, info2)
  {
  }

  /** The H5 upload's result: the parsed JSON when the response is ok, else an error naming
      the status. */
  function H5Result(ok: bool, status: int, statusText: string, json: Val): (r: Fate<Val>)
    ensures r.Fulfilled? <==> ok
    ensures ok ==> r.value == json
    ensures !ok ==> r == Rejected(Some("上传失败: " + IntToString(status) + " " + statusText))
  {
    if ok then Fulfilled(json) else Rejected(Some("上传失败: " + IntToString(status) + " " + statusText))
  }
}
