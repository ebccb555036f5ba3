/** The HTTP layer of the file endpoints: the JWT guard, query-string
    defaulting for the listing, the upload's size limit, missing-file check,
    stored file name and `folderId` parsing, and the headers of the preview
    and the download. */
module FilesApi {
  import opened Outcomes
  import opened Js
  import opened Store
  import opened Files

  // ---------------------------------------------------------------------------
  // Query strings

  /** `s ? parseInt(s) : undefined` for an optional query or body field. */
  function OptionalInt(s: Option<string>): (r: JsInt)
    ensures r == Undefined <==> s == None || s == Some("")
    ensures s.Some? && s.value != "" ==> r == ParseInt(s.value)
  {
    if s.Some? && s.value != "" then ParseInt(s.value) else Undefined
  }

  /** The filters `findAll` hands the service: search and type as given, ids
      parsed, page 1 and limit 20 when the field is absent or empty. */
  function ListQuery(search: Option<string>, fileType: Option<string>, folderId: Option<string>,
                     tagId: Option<string>, page: Option<string>, limit: Option<string>): (q: ListFilters)
    ensures q.search == search && q.fileType == fileType
    ensures q.folderId == OptionalInt(folderId) && q.tagId == OptionalInt(tagId)
    ensures q.page == (if page.Some? && page.value != "" then ParseInt(page.value) else Num(1))
    ensures q.limit == (if limit.Some? && limit.value != "" then ParseInt(limit.value) else Num(20))
  {
    ListFilters(search, fileType, OptionalInt(folderId), OptionalInt(tagId),
                if page.Some? && page.value != "" then ParseInt(page.value) else Num(1),
                if limit.Some? && limit.value != "" then ParseInt(limit.value) else Num(20))
  }

  /** With no query string at all: every filter off, the first page of 20. */
  lemma ListQueryDefaults()
    ensures ListQuery(None, None, None, None, None, None) == ListFilters(None, None, Undefined, Undefined, Num(1), Num(20))
  {
  }

  /** Numbers the client wrote with `String(n)` reach the service unchanged. */
  lemma ListQueryNumbers(folderId: int, tagId: int, page: int, limit: int)
    ensures var q := ListQuery(None, None, Some(Show(folderId)), Some(Show(tagId)), Some(Show(page)), Some(Show(limit)));
      q.folderId == Num(folderId) && q.tagId == Num(tagId) && q.page == Num(page) && q.limit == Num(limit)
  {
    ParseIntShow(folderId);
    ParseIntShow(tagId);
    ParseIntShow(page);
    ParseIntShow(limit);
    ShowNonEmpty(folderId);
    ShowNonEmpty(tagId);
    ShowNonEmpty(page);
    ShowNonEmpty(limit);
  }

  lemma ShowNonEmpty(n: int)
    ensures Show(n) != ""
  {
  }

  // ---------------------------------------------------------------------------
  // path.extname, as Node's POSIX implementation computes it

  /** Index of the last `c` in `s`, or -1. */
  function LastIndex(s: string, c: char): (i: int)
    ensures -1 <= i < |s|
    ensures i >= 0 ==> s[i] == c && c !in s[i + 1..]
    ensures i == -1 ==> c !in s
  {
    if s == [] then -1
    else if s[|s| - 1] == c then |s| - 1
    else
      var i := LastIndex(s[..|s| - 1], c);
      assert s == s[..|s| - 1] + [s[|s| - 1]];
      assert i >= 0 ==> s[i + 1..] == s[..|s| - 1][i + 1..] + [s[|s| - 1]];
      i
  }

  /** Drops the trailing separators `extname` ignores. */
  function TrimTrailingSlashes(s: string): (r: string)
    ensures |r| <= |s| && r == s[..|r|]
    ensures r == [] || r[|r| - 1] != '/'
    ensures '/' !in s ==> r == s
  {
    if s != [] && s[|s| - 1] == '/' then TrimTrailingSlashes(s[..|s| - 1]) else s
  }

  /** The last path segment. */
  function LastSegment(s: string): (r: string)
    ensures '/' !in r
    ensures '/' !in s ==> r == s
  {
    s[LastIndex(s, '/') + 1..]
  }

  /** `extname(path)`: from the last `.` of the last segment to its end; empty
      when the segment has no dot, starts with its only dot, or is `..`. */
  function ExtName(path: string): (e: string)
    ensures e == [] || (e[0] == '.' && '.' !in e[1..] && '/' !in e)
  {
    var b := LastSegment(TrimTrailingSlashes(path));
    var d := LastIndex(b, '.');
    if d <= 0 || b == ".." then [] else b[d..]
  }

  lemma {:induction false} ShowNatChars(n: nat)
    ensures forall i :: 0 <= i < |ShowNat(n)| ==> '0' <= ShowNat(n)[i] <= '9'
    decreases n
  {
    if n >= 10 {
      ShowNatChars(n / 10);
    }
  }

  /** A printed number has neither a dot nor a slash. */
  lemma ShowPlain(n: int)
    ensures '.' !in Show(n) && '/' !in Show(n)
  {
    ShowNatChars(if n < 0 then -n else n);
    var digits := ShowNat(if n < 0 then -n else n);
    assert Show(n) == (if n < 0 then "-" else "") + digits;
  }

  lemma NotInConcat(a: string, b: string, c: char)
    requires c !in a && c !in b
    ensures c !in a + b
  {
    assert forall i :: 0 <= i < |a + b| ==> (a + b)[i] == if i < |a| then a[i] else b[i - |a|];
  }

  /** For a name without separators, `extname` works on the whole name. */
  lemma ExtNameOfSegment(s: string)
    requires '/' !in s
    ensures var d := LastIndex(s, '.');
      ExtName(s) == if d <= 0 || s == ".." then [] else s[d..]
  {
  }

  /** Appending a dot-started, dot-free tail to a dot-free prefix puts the last dot where the tail starts. */
  lemma LastDotAtTail(p: string, e: string)
    requires '.' !in p && e != [] && e[0] == '.' && '.' !in e[1..]
    ensures LastIndex(p + e, '.') == |p|
  {
    var s := p + e;
    var d := LastIndex(s, '.');
    assert s[|p|] == '.';
  }

  /** A name made of two printed numbers, a dash and an extension keeps that
      extension and has no separator. */
  lemma StoredNameKeepsExtension(now: int, rand: int, originalname: string)
    ensures var stored := Show(now) + "-" + Show(rand) + ExtName(originalname);
      ExtName(stored) == ExtName(originalname) && '/' !in stored
  {
    var p := Show(now) + "-" + Show(rand);
    var e := ExtName(originalname);
    ShowPlain(now);
    ShowPlain(rand);
    NotInConcat(Show(now), "-", '.');
    NotInConcat(Show(now), "-", '/');
    NotInConcat(Show(now) + "-", Show(rand), '.');
    NotInConcat(Show(now) + "-", Show(rand), '/');
    NotInConcat(p, e, '/');
    ExtNameOfSegment(p + e);
    if e == [] {
      assert p + e == p;
    } else {
      LastDotAtTail(p, e);
      assert (p + e)[|p|..] == e;
    }
  }

  /** The name multer stores an upload under: the time, a dash, a random
      number and the client's extension; the clock and the random number are
      parameters. It keeps the extension and, having no separator, stays in
      the upload directory. */
  function StoredName(now: int, rand: int, originalname: string): (r: string)
    ensures ExtName(r) == ExtName(originalname)
    ensures '/' !in r
  {
    StoredNameKeepsExtension(now, rand, originalname);
    Show(now) + "-" + Show(rand) + ExtName(originalname)
  }

  // ---------------------------------------------------------------------------
  // Response headers

  /** `contentTypes[file.type] || 'application/octet-stream'`. */
  function ContentType(fileType: string): (c: string)
    ensures fileType == "image" ==> c == "image/jpeg"
    ensures fileType == "pdf" ==> c == "application/pdf"
    ensures fileType == "video" ==> c == "video/mp4"
    ensures fileType == "audio" ==> c == "audio/mpeg"
    ensures fileType !in {"image", "pdf", "video", "audio"} ==> c == "application/octet-stream"
  {
    match fileType
    case "image" => "image/jpeg"
    case "pdf" => "application/pdf"
    case "video" => "video/mp4"
    case "audio" => "audio/mpeg"
    case _ => "application/octet-stream"
  }

  /** For every stored type the preview's content type agrees with the MIME
      family the type was derived from. */
  lemma ContentTypeOfUpload(mimetype: string)
    ensures var t := GetFileType(mimetype);
      && (StartsWith(mimetype, "image/") ==> StartsWith(ContentType(t), "image/"))
      && (StartsWith(mimetype, "video/") && !StartsWith(mimetype, "image/") ==> StartsWith(ContentType(t), "video/"))
      && (mimetype == "application/pdf" ==> ContentType(t) == mimetype)
      && (t == "document" || t == "other" ==> ContentType(t) == "application/octet-stream")
  {
    GetFileTypeRules(mimetype);
    if StartsWith(mimetype, "image/") {
      assert StartsWith("image/jpeg", "image/");
    }
    if StartsWith(mimetype, "video/") {
      assert StartsWith("video/mp4", "video/");
    }
  }

  datatype Headers = Headers(contentType: string, contentDisposition: string, allowOrigin: Option<string>)

  const MaxUploadBytes: int := 10 * 1024 * 1024

  /** What the JWT guard lets through: the caller's id, or nothing without a valid token. */
  type Caller = Option<int>

  /** The request got past the guard, multer's size limit and the missing-file check. */
  predicate Admitted(caller: Caller, file: Option<Upload>) {
    caller.Some? && file.Some? && file.value.size <= MaxUploadBytes
  }

  class FilesController {
    const service: FilesService

    constructor (service: FilesService)
      ensures this.service == service
    {
      this.service := service;
    }

    /** `GET /files/:id/view`: no guard, the public lookup, inline with the type's content type. */
    method ViewFile(id: int) returns (r: Result<Headers>)
      ensures id !in service.db.files ==> r == Fail(NotFound, "File not found")
      ensures id in service.db.files ==>
        var f := service.db.files[id];
        r == Ok(Headers(ContentType(f.fileType), "inline; filename=\"" + f.name + "\"", Some("*")))
    {
      var file := service.FindOnePublic(id);
      if file.Fail? {
        return Fail(file.status, file.message);
      }
      var f := file.value;
      r := Ok(Headers(ContentType(f.fileType), "inline; filename=\"" + f.name + "\"", Some("*")));
    }

    /** `GET /files/:id/download`: guarded, owner-checked, always an octet-stream attachment. */
    method DownloadFile(id: int, caller: Caller) returns (r: Result<Headers>)
      ensures caller == None ==> r == Fail(Unauthorized, "Unauthorized")
      ensures caller.Some? ==>
        var userId := caller.value;
        && (id !in service.db.files ==> r == Fail(NotFound, "File not found"))
        && (id in service.db.files && service.db.files[id].ownerId != userId ==>
              r == Fail(Forbidden, "You do not have access to this file"))
        && (id in service.db.files && service.db.files[id].ownerId == userId ==>
              r == Ok(Headers("application/octet-stream", "attachment; filename=\"" + service.db.files[id].name + "\"", None)))
    {
      if caller == None {
        return Fail(Unauthorized, "Unauthorized");
      }
      var file := service.FindOne(id, caller.value);
      if file.Fail? {
        return Fail(file.status, file.message);
      }
      r := Ok(Headers("application/octet-stream", "attachment; filename=\"" + file.value.name + "\"", None));
    }

    /** `GET /files/:id`: guarded, then the service's owner-checked lookup. */
    method FindOne(id: int, caller: Caller) returns (r: Result<File>)
      ensures caller == None ==> r == Fail(Unauthorized, "Unauthorized")
      ensures caller.Some? ==>
        var userId := caller.value;
        && (id !in service.db.files ==> r == Fail(NotFound, "File not found"))
        && (id in service.db.files && service.db.files[id].ownerId != userId ==>
              r == Fail(Forbidden, "You do not have access to this file"))
        && (id in service.db.files && service.db.files[id].ownerId == userId ==> r == Ok(service.db.files[id]))
    {
      if caller == None {
        return Fail(Unauthorized, "Unauthorized");
      }
      r := service.FindOne(id, caller.value);
    }

    /** `DELETE /files/:id`: guarded, then the service's owner-checked delete. */
    method Remove(id: int, caller: Caller, unlinked: bool) returns (r: Result<string>)
      requires service.db.Valid()
      modifies service.db
      ensures service.db.Valid()
      ensures caller == None ==> r == Fail(Unauthorized, "Unauthorized")
      ensures r.Fail? ==> unchanged(service.db)
      ensures caller.Some? && id !in old(service.db.files) ==> r == Fail(NotFound, "File not found")
      ensures caller.Some? && id in old(service.db.files) && old(service.db.files)[id].ownerId != caller.value ==>
        r == Fail(Forbidden, "You do not have access to this file")
      ensures r.Ok? <==> caller.Some? && id in old(service.db.files) && old(service.db.files)[id].ownerId == caller.value
      ensures r.Ok? ==>
        && r.value == "File deleted successfully"
        && service.db.files == old(service.db.files) - {id}
        && service.db.fileTags == (set l | l in old(service.db.fileTags) && l.fileId != id)
        && service.db.users == old(service.db.users) && service.db.folders == old(service.db.folders)
        && service.db.tags == old(service.db.tags)
    {
      if caller == None {
        return Fail(Unauthorized, "Unauthorized");
      }
      r := service.Remove(id, caller.value, unlinked);
    }

    /** `POST /files/:fileId/tags/:tagId`: guarded, then the service's tagging. */
    method AddTag(fileId: int, tagId: int, caller: Caller) returns (r: Result<TagLink>)
      requires service.db.Valid()
      modifies service.db
      ensures service.db.Valid()
      ensures caller == None ==> r == Fail(Unauthorized, "Unauthorized")
      ensures r.Fail? ==> unchanged(service.db)
      ensures caller.Some? && fileId !in old(service.db.files) ==> r == Fail(NotFound, "File not found")
      ensures caller.Some? && fileId in old(service.db.files) && old(service.db.files)[fileId].ownerId != caller.value ==>
        r == Fail(Forbidden, "You do not have access to this file")
      ensures r.Ok? <==> caller.Some? && fileId in old(service.db.files) && old(service.db.files)[fileId].ownerId == caller.value
                         && tagId in old(service.db.tags) && old(service.db.tags)[tagId].ownerId == caller.value
      ensures r.Ok? ==>
        && service.db.fileTags == old(service.db.fileTags) + {FileTag(fileId, tagId)}
        && service.db.users == old(service.db.users) && service.db.folders == old(service.db.folders)
        && service.db.tags == old(service.db.tags) && service.db.files == old(service.db.files)
    {
      if caller == None {
        return Fail(Unauthorized, "Unauthorized");
      }
      r := service.AddTag(fileId, tagId, caller.value);
    }

    /** `DELETE /files/:fileId/tags/:tagId`: guarded, then the service's untagging. */
    method RemoveTag(fileId: int, tagId: int, caller: Caller) returns (r: Result<string>)
      requires service.db.Valid()
      modifies service.db
      ensures service.db.Valid()
      ensures caller == None ==> r == Fail(Unauthorized, "Unauthorized")
      ensures r.Fail? ==> unchanged(service.db)
      ensures caller.Some? && fileId !in old(service.db.files) ==> r == Fail(NotFound, "File not found")
      ensures caller.Some? && fileId in old(service.db.files) && old(service.db.files)[fileId].ownerId != caller.value ==>
        r == Fail(Forbidden, "You do not have access to this file")
      ensures r.Ok? <==> caller.Some? && fileId in old(service.db.files) && old(service.db.files)[fileId].ownerId == caller.value
                         && FileTag(fileId, tagId) in old(service.db.fileTags)
      ensures r.Ok? ==>
        && service.db.fileTags == old(service.db.fileTags) - {FileTag(fileId, tagId)}
        && service.db.users == old(service.db.users) && service.db.folders == old(service.db.folders)
        && service.db.tags == old(service.db.tags) && service.db.files == old(service.db.files)
    {
      if caller == None {
        return Fail(Unauthorized, "Unauthorized");
      }
      r := service.RemoveTag(fileId, tagId, caller.value);
    }

    /** `GET /files`: guarded; the query string becomes the service's filters. */
    method FindAll(caller: Caller, search: Option<string>, fileType: Option<string>, folderId: Option<string>,
                   tagId: Option<string>, page: Option<string>, limit: Option<string>) returns (r: Result<FileList>)
      requires ListQuery(search, fileType, folderId, tagId, page, limit).limit.Num?
      requires ListQuery(search, fileType, folderId, tagId, page, limit).limit.n > 0
      ensures caller == None ==> r == Fail(Unauthorized, "Unauthorized")
      ensures caller.Some? ==>
        r == ListPage(service.db.files, service.db.nextFileId, service.db.fileTags, caller.value,
                      ListQuery(search, fileType, folderId, tagId, page, limit))
    {
      if caller == None {
        return Fail(Unauthorized, "Unauthorized");
      }
      var q := ListQuery(search, fileType, folderId, tagId, page, limit);
      r := service.FindAll(caller.value, q);
    }

    /** `POST /files/upload`: the guard, then multer's size limit, then the
        missing-file check, then the service with the parsed `folderId`. */
    method UploadFile(caller: Caller, file: Option<Upload>, folderId: Option<string>, now: int, mailSent: bool)
      returns (r: Result<File>)
      requires service.db.Valid()
      modifies service.db
      ensures service.db.Valid()
      ensures caller == None ==> r == Fail(Unauthorized, "Unauthorized") && unchanged(service.db)
      ensures caller.Some? && file.Some? && file.value.size > MaxUploadBytes ==>
        r == Fail(PayloadTooLarge, "File too large") && unchanged(service.db)
      ensures caller.Some? && file == None ==> r == Fail(BadRequest, "No file uploaded") && unchanged(service.db)
      ensures var id := OptionalInt(folderId);
        Admitted(caller, file) && id.Truthy() && id.n !in old(service.db.folders) ==> r == Fail(NotFound, "Folder not found")
      ensures var id := OptionalInt(folderId);
        Admitted(caller, file) && id.Truthy() && id.n in old(service.db.folders) && old(service.db.folders)[id.n].ownerId != caller.value ==>
          r == Fail(Forbidden, "You do not have access to this folder")
      ensures var id := OptionalInt(folderId);
        Admitted(caller, file) && (id == NaN || id == Num(0)) ==> r == Fail(InternalError, InternalErrorMessage)
      ensures r.Fail? ==> unchanged(service.db)
      ensures var id := OptionalInt(folderId);
        r.Ok? <==> (Admitted(caller, file)
                    && (id == Undefined || (id.Truthy() && id.n in old(service.db.folders) && old(service.db.folders)[id.n].ownerId == caller.value)))
      ensures r.Ok? ==>
        && r.value == File(old(service.db.nextFileId), file.value.originalname, GetFileType(file.value.mimetype),
                           file.value.size, file.value.path, caller.value, FolderColumn(OptionalInt(folderId)), now)
        && service.db.files == old(service.db.files)[r.value.id := r.value]
        && service.db.nextFileId == old(service.db.nextFileId) + 1
        && service.db.users == old(service.db.users) && service.db.folders == old(service.db.folders)
        && service.db.tags == old(service.db.tags) && service.db.fileTags == old(service.db.fileTags)
        && service.db.nextUserId == old(service.db.nextUserId) && service.db.nextFolderId == old(service.db.nextFolderId)
        && service.db.nextTagId == old(service.db.nextTagId)
      ensures Admitted(caller, file) && (folderId == None || folderId == Some("")) ==> r.Ok?
    {
      if caller == None {
        return Fail(Unauthorized, "Unauthorized");
      }
      if file.Some? && file.value.size > MaxUploadBytes {
        return Fail(PayloadTooLarge, "File too large");
      }
      if file == None {
        return Fail(BadRequest, "No file uploaded");
      }
      r := service.UploadFile(file.value, caller.value, OptionalInt(folderId), now, mailSent);
    }
  }
}
