/** File acceptance and download: the MIME whitelist and size limit applied
    to an upload, the classification of a MIME type, and the handling of a
    `Range` request header on download, a restricted form of the single
    `bytes=first-last` byte-range-spec of section 2.1 of RFC 7233 answered
    with the 206 status and Content-Range header of sections 4.1 and 4.2 of
    RFC 7233. Only the metadata records are modelled; the bytes live in a
    blob store. */
module FileService {
  import opened Common
  import opened Schema
  import opened Decimal
  import opened Persistence

  predicate StartsWith(s: string, prefix: string)
  {
    |prefix| <= |s| && s[..|prefix|] == prefix
  }

  /** 'image' for an `image/` type, 'video' for a `video/` type, 'file' otherwise. */
  function DetermineFileType(mimetype: string): (t: FileType)
    ensures t == ImageFile <==> StartsWith(mimetype, "image/")
    ensures t == VideoFile <==> StartsWith(mimetype, "video/")
    ensures t == GenericFile <==> !StartsWith(mimetype, "image/") && !StartsWith(mimetype, "video/")
  {
    if StartsWith(mimetype, "image/") then ImageFile
    else if StartsWith(mimetype, "video/") then VideoFile
    else GenericFile
  }

  const ImageTypes: seq<string> := ["image/jpeg", "image/png", "image/gif"]
  const VideoTypes: seq<string> := ["video/mp4", "video/mpeg", "video/webm"]
  const DocumentTypes: seq<string> := [
    "application/pdf",
    "text/plain",
    "application/msword",
    "application/" + "vnd.openxmlformats-officedocument.wordprocessingml.document"
  ]

  /** 100 MiB. */
  const MaxSize: nat := 100 * 1024 * 1024

  predicate IsAllowedType(mimetype: string)
  {
    mimetype in ImageTypes || mimetype in VideoTypes || mimetype in DocumentTypes
  }

  /** Every whitelisted type falls in the category of the list it is in. */
  lemma WhitelistCategories()
    ensures forall m :: m in ImageTypes ==> DetermineFileType(m) == ImageFile
    ensures forall m :: m in VideoTypes ==> DetermineFileType(m) == VideoFile
    ensures forall m :: m in DocumentTypes ==> DetermineFileType(m) == GenericFile
  {
    forall m | m in DocumentTypes ensures DetermineFileType(m) == GenericFile {
      assert m == DocumentTypes[0] || m == DocumentTypes[1] || m == DocumentTypes[2] || m == DocumentTypes[3];
      assert m[..6][0] == m[0] && (m[0] == 'a' || m[0] == 't');
    }
  }

  /** What the upload middleware hands over: `hasContent` says whether the
      file came with a stream or a buffer. */
  datatype Upload = Upload(originalname: string, mimetype: string, size: nat, hasContent: bool)

  /** The checks of an upload, in order: the type, the size, then the
      presence of content. On success, the file's category. */
  function CheckUpload(u: Upload): (r: Result<FileType>)
    ensures r.Ok? <==> IsAllowedType(u.mimetype) && u.size <= MaxSize && u.hasContent
    ensures !IsAllowedType(u.mimetype) ==> r == Err(BadRequest("Unsupported file type: " + u.mimetype))
    ensures IsAllowedType(u.mimetype) && u.size > MaxSize ==>
      r == Err(BadRequest("File too large. Max size: 100MB"))
    ensures IsAllowedType(u.mimetype) && u.size <= MaxSize && !u.hasContent ==>
      r == Err(BadRequest("File stream or buffer is unavailable"))
    ensures r.Ok? && u.mimetype in ImageTypes ==> r.value == ImageFile
    ensures r.Ok? && u.mimetype in VideoTypes ==> r.value == VideoFile
    ensures r.Ok? && u.mimetype in DocumentTypes ==> r.value == GenericFile
  {
    var t := DetermineFileType(u.mimetype);
    if !IsAllowedType(u.mimetype) then Err(BadRequest("Unsupported file type: " + u.mimetype))
    else if u.size > MaxSize then Err(BadRequest("File too large. Max size: 100MB"))
    else if !u.hasContent then Err(BadRequest("File stream or buffer is unavailable"))
    else WhitelistCategories(); Ok(t)
  }

  /** The metadata record written for an accepted upload. */
  function StoredDoc(u: Upload, t: FileType): FileDoc
  {
    FileDoc(u.originalname, u.size, t, u.mimetype)
  }

  /** `uploadFile`: checks the upload and, when it is accepted, writes its
      metadata record under the freshly generated `fileId`. */
  method UploadFile(db: Store, u: Upload, fileId: Id) returns (r: Result<Id>)
    modifies db
    ensures r.Ok? <==> CheckUpload(u).Ok?
    ensures r.Ok? ==> (r.value == fileId
      && db.Snapshot() == old(db.Snapshot()).(files := old(db.files)[fileId := StoredDoc(u, CheckUpload(u).value)]))
    ensures r.Err? ==> r.error == CheckUpload(u).error && db.Snapshot() == old(db.Snapshot())
  {
    var check := CheckUpload(u);
    if check.Err? {
      return Err(check.error);
    }
    db.files := db.files[fileId := StoredDoc(u, check.value)];
    r := Ok(fileId);
  }

  /** `deleteFile`: removes the record; an id without a record is no error. */
  method DeleteFile(db: Store, fileId: Id)
    modifies db
    ensures db.Snapshot() == old(db.Snapshot()).(files := old(db.files) - {fileId})
  {
    db.files := db.files - {fileId};
  }

  /** The two capture groups of `/^bytes=(\d+)-(\d*)$/`, or None when the
      header does not match. */
  function MatchRange(h: string): (r: Option<(string, string)>)
    ensures r.Some? ==> (h == "bytes=" + r.value.0 + "-" + r.value.1
      && |r.value.0| > 0 && AllDigits(r.value.0) && AllDigits(r.value.1))
  {
    if !StartsWith(h, "bytes=") then None
    else
      var rest := h[6..];
      var i := DashIndex(rest);
      if i == |rest| then None
      else
        var first, last := rest[..i], rest[i + 1..];
        assert h == "bytes=" + first + "-" + last by {
          assert h == h[..6] + rest;
          assert rest == first + "-" + last;
        }
        if |first| > 0 && AllDigits(first) && AllDigits(last) then Some((first, last)) else None
  }

  /** The index of the first '-', or |s| when there is none. */
  function DashIndex(s: string): (i: nat)
    ensures i <= |s|
    ensures i < |s| ==> s[i] == '-'
    ensures forall k :: 0 <= k < i ==> s[k] != '-'
  {
    if s == [] then 0 else if s[0] == '-' then 0 else 1 + DashIndex(s[1..])
  }

  /** Every header the regular expression accepts is matched, with its groups. */
  lemma MatchRangeComplete(first: string, last: string)
    requires |first| > 0 && AllDigits(first) && AllDigits(last)
    ensures MatchRange("bytes=" + first + "-" + last) == Some((first, last))
  {
    var h := "bytes=" + first + "-" + last;
    var rest := first + "-" + last;
    assert h[..6] == "bytes=" && h[6..] == rest;
    assert forall k :: 0 <= k < |first| ==> rest[k] == first[k] && first[k] != '-';
    assert rest[|first|] == '-';
    DashIndexIs(rest, |first|);
    assert rest[..|first|] == first && rest[|first| + 1..] == last;
  }

  lemma {:induction false} DashIndexIs(s: string, i: nat)
    requires i < |s| && s[i] == '-'
    requires forall k :: 0 <= k < i ==> s[k] != '-'
    ensures DashIndex(s) == i
  {
    if i > 0 {
      DashIndexIs(s[1..], i - 1);
    }
  }

  /** A suffix range `bytes=-N` never matches. */
  lemma SuffixRangeRejected(suffix: string)
    ensures MatchRange("bytes=-" + suffix) == None
  {
    var h := "bytes=-" + suffix;
    assert h[..6] == "bytes=";
    assert h[6..][0] == '-';
  }

  /** The first-byte-pos and the optional last-byte-pos of a range request. */
  datatype RangeSpec = RangeSpec(first: nat, last: Option<nat>)

  /** The match of the header read as numbers; an empty second group means
      the last position was omitted. */
  function ParseRange(h: string): (r: Option<RangeSpec>)
  {
    match MatchRange(h)
    case None => None
    case Some((a, b)) => Some(RangeSpec(Value(a), if b == "" then None else Some(Value(b))))
  }

  /** A header written from two numbers is read back as those numbers. */
  lemma ParseRangeRoundTrip(first: nat, last: Option<nat>)
    ensures ParseRange("bytes=" + Show(first) + "-" + (if last.Some? then Show(last.value) else ""))
         == Some(RangeSpec(first, last))
  {
    var b := if last.Some? then Show(last.value) else "";
    MatchRangeComplete(Show(first), b);
    ValueShow(first);
    if last.Some? { ValueShow(last.value); }
  }

  datatype Header = Header(name: string, value: string)

  /** What `getFileStream` sets on the response, and the half-open byte
      interval [streamFrom, streamTo) it streams from the blob. */
  datatype Reply = Reply(status: nat, headers: seq<Header>, streamFrom: nat, streamTo: nat)

  /** The Content-Range value `bytes first-last/size`. */
  function ContentRange(first: nat, last: nat, size: nat): string
  {
    "bytes " + Show(first) + "-" + Show(last) + "/" + Show(size)
  }

  /** The range checks: the last position defaults to size - 1, and a first
      position at or past the size, a last position at or past the size, or
      a first position past the last are rejected (not clamped). */
  function ResolveRange(spec: RangeSpec, size: nat, mimetype: string): (r: Result<Reply>)
    ensures r.Ok? <==> spec.first < size && (spec.last.Some? ==> spec.first <= spec.last.value < size)
    ensures r.Err? ==> r.error == BadRequest("Invalid range")
    ensures r.Ok? ==> var last := if spec.last.Some? then spec.last.value else size - 1;
      && r.value.status == 206
      && r.value.streamFrom == spec.first && r.value.streamTo == last + 1 <= size
      && Header("Content-Range", ContentRange(spec.first, last, size)) in r.value.headers
      && Header("Content-Length", Show(last + 1 - spec.first)) in r.value.headers
  {
    var start := spec.first;
    var end: int := if spec.last.Some? then spec.last.value else size - 1;
    if start >= size || end >= size || start > end then Err(BadRequest("Invalid range"))
    else
      var chunkSize := end - start + 1;
      Ok(Reply(206, [
        Header("Content-Range", ContentRange(start, end, size)),
        Header("Accept-Ranges", "bytes"),
        Header("Content-Length", Show(chunkSize)),
        Header("Content-Type", mimetype),
        Header("Content-Disposition", "inline")
      ], start, end + 1))
  }

  /** `getFileStream`: the file's record must exist; without a Range header
      (or with an empty one) the whole file is sent. */
  function GetFileStream(d: Db, fileId: Id, range: Option<string>): (r: Result<Reply>)
    ensures fileId !in d.files <==> r == Err(NotFound("File not found"))
    ensures fileId in d.files && !Truthy(range) ==> (r.Ok? && r.value.status == 200
      && r.value.streamFrom == 0 && r.value.streamTo == d.files[fileId].length)
    ensures fileId in d.files && Truthy(range) && MatchRange(range.value).None? ==>
      r == Err(BadRequest("Invalid range header"))
    ensures r.Ok? && Truthy(range) ==> (r.value.status == 206
      && r.value.streamFrom < r.value.streamTo <= d.files[fileId].length)
    ensures fileId in d.files && d.files[fileId].length == 0 && Truthy(range) ==> r.Err?
  {
    if fileId !in d.files then Err(NotFound("File not found"))
    else
      var file := d.files[fileId];
      if Truthy(range) then
        match ParseRange(range.value)
        case None => Err(BadRequest("Invalid range header"))
        case Some(spec) => ResolveRange(spec, file.length, file.mimetype)
      else
        Ok(Reply(200, [
          Header("Content-Length", Show(file.length)),
          Header("Content-Type", file.mimetype),
          Header("Content-Disposition", "inline")
        ], 0, file.length))
  }

  /** Asking again for the range a 206 reply announced in its Content-Range
      yields the same reply. */
  lemma RangeReplyRepeatable(d: Db, fileId: Id, range: string)
    requires fileId in d.files && range != ""
    requires GetFileStream(d, fileId, Some(range)).Ok?
    ensures var reply := GetFileStream(d, fileId, Some(range)).value;
      var again := "bytes=" + Show(reply.streamFrom) + "-" + Show(reply.streamTo - 1);
      GetFileStream(d, fileId, Some(again)) == GetFileStream(d, fileId, Some(range))
  {
    var file := d.files[fileId];
    var spec := ParseRange(range).value;
    StreamOfParsed(d, fileId, range, spec);
    var reply := ResolveRange(spec, file.length, file.mimetype).value;
    var last := if spec.last.Some? then spec.last.value else file.length - 1;
    assert reply.streamFrom == spec.first && reply.streamTo - 1 == last;
    ParseRangeRoundTrip(reply.streamFrom, Some(reply.streamTo - 1));
    StreamOfParsed(d, fileId, "bytes=" + Show(reply.streamFrom) + "-" + Show(reply.streamTo - 1),
                   RangeSpec(spec.first, Some(last)));
    ResolveExplicitLast(spec, file.length, file.mimetype);
  }

  /** A non-empty header that parses is answered by resolving its range. */
  lemma StreamOfParsed(d: Db, fileId: Id, h: string, spec: RangeSpec)
    requires fileId in d.files && h != "" && ParseRange(h) == Some(spec)
    ensures GetFileStream(d, fileId, Some(h)) == ResolveRange(spec, d.files[fileId].length, d.files[fileId].mimetype)
  {
  }

  /** Writing out the default last position does not change the reply. */
  lemma ResolveExplicitLast(spec: RangeSpec, size: nat, mimetype: string)
    requires ResolveRange(spec, size, mimetype).Ok?
    ensures var last := if spec.last.Some? then spec.last.value else size - 1;
      ResolveRange(RangeSpec(spec.first, Some(last)), size, mimetype) == ResolveRange(spec, size, mimetype)
  {
  }
}
