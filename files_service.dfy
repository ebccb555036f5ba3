/** The file service: MIME classification, the owner-scoped listing with its
    filters and pagination, the owner-checked and the public lookup, upload,
    delete, and attaching and detaching tags. */
module Files {
  import opened Outcomes
  import opened Js
  import opened Store
  import opened Ownership
  import Sorting

  // ---------------------------------------------------------------------------
  // getFileType

  const FileTypes: set<string> := {"image", "pdf", "video", "audio", "document", "other"}

  predicate LooksLikeDocument(mimetype: string) {
    Includes(mimetype, "document") || Includes(mimetype, "word") || Includes(mimetype, "sheet") || Includes(mimetype, "text")
  }

  /** The stored `type` of an upload, chosen from its declared MIME type by the
      first rule that applies. */
  function GetFileType(mimetype: string): (t: string)
    ensures t in FileTypes
  {
    if StartsWith(mimetype, "image/") then "image"
    else if mimetype == "application/pdf" then "pdf"
    else if StartsWith(mimetype, "video/") then "video"
    else if StartsWith(mimetype, "audio/") then "audio"
    else if LooksLikeDocument(mimetype) then "document"
    else "other"
  }

  /** Each class is characterised by its own test; the earlier tests win, so a
      document-like `image/...` type is still an image. */
  lemma GetFileTypeRules(m: string)
    ensures GetFileType(m) == "image" <==> StartsWith(m, "image/")
    ensures GetFileType(m) == "pdf" <==> m == "application/pdf"
    ensures GetFileType(m) == "video" <==> StartsWith(m, "video/")
    ensures GetFileType(m) == "audio" <==> StartsWith(m, "audio/")
    ensures GetFileType(m) == "document" <==>
      !StartsWith(m, "image/") && !StartsWith(m, "video/") && !StartsWith(m, "audio/")
      && m != "application/pdf" && LooksLikeDocument(m)
    ensures GetFileType(m) == "other" <==>
      !StartsWith(m, "image/") && !StartsWith(m, "video/") && !StartsWith(m, "audio/")
      && m != "application/pdf" && !LooksLikeDocument(m)
  {
    var pdf := "application/pdf";
    assert !StartsWith(pdf, "image/") && !StartsWith(pdf, "video/") && !StartsWith(pdf, "audio/") by {
      assert pdf[0] == 'a' && pdf[1] == 'p';
    }
    if StartsWith(m, "video/") {
      assert m[0] == 'v';
      assert !StartsWith(m, "image/");
    }
    if StartsWith(m, "audio/") {
      assert m[0] == 'a' && m[1] == 'u';
      assert !StartsWith(m, "image/") && !StartsWith(m, "video/");
    }
  }

  /** Common MIME types and the class each one gets. */
  lemma GetFileTypeExamples()
    ensures GetFileType("image/png") == "image"
    ensures GetFileType("application/pdf") == "pdf"
    ensures GetFileType("video/mp4") == "video"
    ensures GetFileType("audio/mpeg") == "audio"
  {
    assert StartsWith("image/png", "image/");
    assert "application/pdf"[0] == 'a' && !StartsWith("application/pdf", "image/");
    assert "video/mp4"[0] == 'v' && StartsWith("video/mp4", "video/");
    assert "audio/mpeg"[0] == 'a' && "audio/mpeg"[1] == 'u' && StartsWith("audio/mpeg", "audio/");
  }

  /** `text/plain` is not a media prefix, and it contains "text": a document. */
  lemma TextPlainIsDocument()
    ensures GetFileType("text/plain") == "document"
  {
    var m := "text/plain";
    assert m[0] == 't';
    assert !StartsWith(m, "image/") && !StartsWith(m, "video/") && !StartsWith(m, "audio/");
    assert m != "application/pdf";
    assert StartsWith(m, "text");
    assert Includes(m, "text");
  }

  // ---------------------------------------------------------------------------
  // findAll: filters and pagination

  /** The listing query after the controller has filled in its defaults;
      `search` and `fileType` are `undefined` (None) when absent. */
  datatype ListFilters = ListFilters(search: Option<string>, fileType: Option<string>,
                                     folderId: JsInt, tagId: JsInt, page: JsInt, limit: JsInt)

  datatype Pagination = Pagination(page: int, limit: int, total: int, totalPages: int)
  datatype FileList = FileList(files: seq<File>, pagination: Pagination)

  /** The `where` object handed to the database. */
  datatype Where = Where(ownerId: int, nameContains: Option<string>, fileType: Option<string>,
                         folderId: Option<int>, someTagId: Option<int>)

  /** How the database evaluates a `where` object on one row. */
  predicate Satisfies(f: File, w: Where, links: set<FileTag>) {
    && f.ownerId == w.ownerId
    && (w.nameContains.Some? ==> Includes(f.name, w.nameContains.value))
    && (w.fileType.Some? ==> f.fileType == w.fileType.value)
    && (w.folderId.Some? ==> f.folderId == w.folderId)
    && (w.someTagId.Some? ==> FileTag(f.id, w.someTagId.value) in links)
  }

  function WhereHolds(w: Where, links: set<FileTag>): File -> bool {
    (f: File) => Satisfies(f, w, links)
  }

  /** `findMany({ where })` before ordering: the rows that satisfy `w`, in id order. */
  function Query(rows: seq<File>, w: Where, links: set<FileTag>): seq<File> {
    Keep(rows, WhereHolds(w, links))
  }

  predicate Given(s: Option<string>) { s.Some? && s.value != "" }

  /** What the listing promises the caller: only the caller's files, and each
      filter that is truthy holds; a falsy filter constrains nothing. */
  predicate Selected(f: File, userId: int, q: ListFilters, links: set<FileTag>) {
    && f.ownerId == userId
    && (Given(q.search) ==> Includes(f.name, q.search.value))
    && (Given(q.fileType) ==> f.fileType == q.fileType.value)
    && (q.folderId.Truthy() ==> f.folderId == Some(q.folderId.n))
    && (q.tagId.Truthy() ==> FileTag(f.id, q.tagId.n) in links)
  }

  function SelectedBy(userId: int, q: ListFilters, links: set<FileTag>): File -> bool {
    (f: File) => Selected(f, userId, q, links)
  }

  /** The files a listing selects, in id order. */
  function Selection(rows: seq<File>, userId: int, q: ListFilters, links: set<FileTag>): seq<File> {
    Keep(rows, SelectedBy(userId, q, links))
  }

  /** Every file the listing selects, newest first. */
  function Listing(files: map<int, File>, next: int, links: set<FileTag>, userId: int, q: ListFilters): seq<File> {
    Sorting.Sort(Selection(Rows(files, next), userId, q, links), NewerOrSame(FileCreated))
  }

  /** The `where` object `findAll` builds from the filters. */
  lemma WhereMeansSelected(w: Where, userId: int, q: ListFilters, links: set<FileTag>)
    requires w.ownerId == userId
    requires w.nameContains == (if Given(q.search) then q.search else None)
    requires w.fileType == (if Given(q.fileType) then q.fileType else None)
    requires w.folderId == (if q.folderId.Truthy() then Some(q.folderId.n) else None)
    requires w.someTagId == (if q.tagId.Truthy() then Some(q.tagId.n) else None)
    ensures forall f :: Satisfies(f, w, links) == Selected(f, userId, q, links)
  {
  }

  lemma QueryIsSelection(rows: seq<File>, w: Where, links: set<FileTag>, userId: int, q: ListFilters)
    requires forall f :: Satisfies(f, w, links) == Selected(f, userId, q, links)
    ensures Query(rows, w, links) == Selection(rows, userId, q, links)
  {
    KeepAgree(rows, WhereHolds(w, links), SelectedBy(userId, q, links));
  }

  lemma SelectionMembers(rows: seq<File>, userId: int, q: ListFilters, links: set<FileTag>, f: File)
    ensures f in Selection(rows, userId, q, links) <==> f in rows && Selected(f, userId, q, links)
  {
    KeepMembers(rows, SelectedBy(userId, q, links), f);
  }

  /** A file is listed exactly when it is in the table and is selected. */
  lemma ListingMembers(files: map<int, File>, next: int, links: set<FileTag>, userId: int, q: ListFilters, f: File)
    requires forall k :: k in files ==> 0 <= k < next
    ensures f in Listing(files, next, links, userId, q) <==>
      (exists k :: k in files && files[k] == f) && Selected(f, userId, q, links)
  {
    var rows := Rows(files, next);
    Sorting.SortSameElements(Selection(rows, userId, q, links), NewerOrSame(FileCreated), f);
    SelectionMembers(rows, userId, q, links, f);
    RowsComplete(files, next, f);
  }

  /** The listing is ordered by `createdAt`, newest first. */
  lemma ListingNewestFirst(files: map<int, File>, next: int, links: set<FileTag>, userId: int, q: ListFilters)
    ensures var s := Listing(files, next, links, userId, q);
      forall i, j :: 0 <= i < j < |s| ==> s[i].createdAt >= s[j].createdAt
  {
    NewestFirstIsPreorder(FileCreated);
    var s := Listing(files, next, links, userId, q);
    Sorting.SortSorted(Selection(Rows(files, next), userId, q, links), NewerOrSame(FileCreated));
    forall i, j | 0 <= i < j < |s|
      ensures s[i].createdAt >= s[j].createdAt
    {
      assert Sorting.Sorted(s, NewerOrSame(FileCreated));
      assert NewerOrSame(FileCreated)(s[i], s[j]);
      assert FileCreated(s[i]) >= FileCreated(s[j]);
    }
  }

  /** `total` counts every selected file of the table, not just one page. */
  lemma ListingTotal(files: map<int, File>, next: int, links: set<FileTag>, userId: int, q: ListFilters)
    requires forall k :: k in files ==> 0 <= k < next
    ensures |Listing(files, next, links, userId, q)| == |set k | k in files && Selected(files[k], userId, q, links)|
  {
    KeepRowsCount(files, next, SelectedBy(userId, q, links));
    assert KeptIds(files, next, SelectedBy(userId, q, links)) == set k | k in files && Selected(files[k], userId, q, links);
  }

  function Min(a: int, b: int): int { if a <= b then a else b }

  /** `skip`/`take`: at most `take` rows, starting after the first `skip`. */
  function Window<T>(s: seq<T>, skip: int, take: int): (w: seq<T>)
    requires skip >= 0 && take >= 0
    ensures |w| <= take
    ensures |w| == if skip >= |s| then 0 else Min(take, |s| - skip)
    ensures forall i :: 0 <= i < |w| ==> w[i] == s[skip + i]
  {
    if skip >= |s| then [] else s[skip..Min(skip + take, |s|)]
  }

  /** `Math.ceil(total / limit)` for a non-negative total and a positive limit. */
  function CeilDiv(total: nat, limit: int): (pages: nat)
    requires limit > 0
  {
    (total + limit - 1) / limit
  }

  /** The page count is the least number of pages of `limit` rows holding `total` rows. */
  lemma CeilDivBounds(total: nat, limit: int)
    requires limit > 0
    ensures CeilDiv(total, limit) * limit >= total
    ensures total > 0 ==> (CeilDiv(total, limit) - 1) * limit < total
    ensures total == 0 <==> CeilDiv(total, limit) == 0
  {
    var p := CeilDiv(total, limit);
    var rem := (total + limit - 1) % limit;
    assert total + limit - 1 == p * limit + rem;
    assert 0 <= rem < limit;
    assert p * limit - limit == (p - 1) * limit;
  }

  /** `skip`: the rows before page `page` (from 1) of `limit` rows, `(page - 1) * limit`. */
  function Skip(page: int, limit: int): nat
    requires page >= 1 && limit > 0
  {
    (page - 1) * limit
  }

  lemma MulMonotonic(a: int, b: int, c: int)
    requires a <= b && c > 0
    ensures a * c <= b * c
  {
    assert b * c - a * c == (b - a) * c;
  }

  /** Page `p` (1-based) of a listing is non-empty exactly when `p` is at most the page count. */
  lemma PageNonEmpty(s: seq<File>, page: int, limit: int)
    requires page >= 1 && limit > 0
    ensures Window(s, Skip(page, limit), limit) != [] <==> page <= CeilDiv(|s|, limit)
  {
    CeilDivBounds(|s|, limit);
    var p := CeilDiv(|s|, limit);
    var skip := Skip(page, limit);
    assert Window(s, skip, limit) != [] <==> skip < |s|;
    if page <= p {
      MulMonotonic(page - 1, p - 1, limit);
    } else {
      MulMonotonic(p, page - 1, limit);
    }
  }

  /** 25 matching files, 20 per page: the second page holds the last 5 and there are 2 pages. */
  lemma PaginationExample(s: seq<File>)
    requires |s| == 25
    ensures Window(s, Skip(2, 20), 20) == s[20..]
    ensures |Window(s, Skip(2, 20), 20)| == 5 && CeilDiv(|s|, 20) == 2
  {
  }

  /** The answer of the listing for filters `q`: one page of the caller's
      matching files with the pagination block, or the database's refusal of a
      page that is not a positive number. */
  function ListPage(files: map<int, File>, next: int, links: set<FileTag>, userId: int, q: ListFilters): (r: Result<FileList>)
    requires q.limit.Num? && q.limit.n > 0
    ensures r.Fail? <==> !(q.page.Num? && q.page.n >= 1)
    ensures r.Fail? ==> r == Fail(InternalError, InternalErrorMessage)
    ensures r.Ok? ==>
      var found, page, limit := Listing(files, next, links, userId, q), q.page.n, q.limit.n;
      && |r.value.files| == (if Skip(page, limit) >= |found| then 0 else Min(limit, |found| - Skip(page, limit)))
      && (forall i :: 0 <= i < |r.value.files| ==> Skip(page, limit) + i < |found| && r.value.files[i] == found[Skip(page, limit) + i])
      && (r.value.files != [] <==> page <= CeilDiv(|found|, limit))
      && r.value.pagination == Pagination(page, limit, |found|, CeilDiv(|found|, limit))
  {
    if !(q.page.Num? && q.page.n >= 1) then Fail(InternalError, InternalErrorMessage)
    else
      Ok(PageOf(Listing(files, next, links, userId, q), q.page.n, q.limit.n))
  }

  /** Page `page` (from 1) of `limit` rows of `found`, with the pagination block over all of `found`. */
  function PageOf(found: seq<File>, page: int, limit: int): (p: FileList)
    requires page >= 1 && limit > 0
    ensures |p.files| == if Skip(page, limit) >= |found| then 0 else Min(limit, |found| - Skip(page, limit))
    ensures forall i :: 0 <= i < |p.files| ==> Skip(page, limit) + i < |found| && p.files[i] == found[Skip(page, limit) + i]
    ensures p.files != [] <==> page <= CeilDiv(|found|, limit)
    ensures p.pagination == Pagination(page, limit, |found|, CeilDiv(|found|, limit))
  {
    PageNonEmpty(found, page, limit);
    FileList(Window(found, Skip(page, limit), limit), Pagination(page, limit, |found|, CeilDiv(|found|, limit)))
  }

  // ---------------------------------------------------------------------------
  // Uploads

  /** What multer hands the service: the client's file name, the declared MIME
      type, the byte count and the path it stored the bytes under. */
  datatype Upload = Upload(originalname: string, mimetype: string, size: int, path: string)

  const InternalErrorMessage: string := "Internal server error"

  /** The `folderId` column written for a parsed body field: `undefined` leaves it null. */
  function FolderColumn(folderId: JsInt): Option<int> {
    if folderId.Num? then Some(folderId.n) else None
  }

  /** The page `findAll` assembles from the rows the built `where` object
      selects is the listing's page. */
  lemma QueryPage(files: map<int, File>, next: int, links: set<FileTag>, userId: int, q: ListFilters, w: Where)
    requires q.limit.Num? && q.limit.n > 0 && q.page.Num? && q.page.n >= 1
    requires w.ownerId == userId
    requires w.nameContains == (if Given(q.search) then q.search else None)
    requires w.fileType == (if Given(q.fileType) then q.fileType else None)
    requires w.folderId == (if q.folderId.Truthy() then Some(q.folderId.n) else None)
    requires w.someTagId == (if q.tagId.Truthy() then Some(q.tagId.n) else None)
    ensures var page, limit := q.page.n, q.limit.n;
      var found := Listing(files, next, links, userId, q);
      && Sorting.Sort(Query(Rows(files, next), w, links), NewerOrSame(FileCreated)) == found
      && ListPage(files, next, links, userId, q) == Ok(PageOf(found, page, limit))
      && PageOf(found, page, limit)
         == FileList(Window(found, Skip(page, limit), limit), Pagination(page, limit, |found|, CeilDiv(|found|, limit)))
  {
    WhereMeansSelected(w, userId, q, links);
    QueryIsSelection(Rows(files, next), w, links, userId, q);
  }

  /** The `where` object `findAll` builds field by field: the owner, then each filter that is truthy. */
  method BuildWhere(userId: int, filters: ListFilters) returns (w: Where)
    ensures w.ownerId == userId
    ensures w.nameContains == (if Given(filters.search) then filters.search else None)
    ensures w.fileType == (if Given(filters.fileType) then filters.fileType else None)
    ensures w.folderId == (if filters.folderId.Truthy() then Some(filters.folderId.n) else None)
    ensures w.someTagId == (if filters.tagId.Truthy() then Some(filters.tagId.n) else None)
  {
    w := Where(userId, None, None, None, None);
    if Given(filters.search) {
      w := w.(nameContains := filters.search);
    }
    if Given(filters.fileType) {
      w := w.(fileType := filters.fileType);
    }
    if filters.folderId.Truthy() {
      w := w.(folderId := Some(filters.folderId.n));
    }
    if filters.tagId.Truthy() {
      w := w.(someTagId := Some(filters.tagId.n));
    }
  }

  class FilesService {
    const db: Db

    constructor (db: Db)
      ensures this.db == db
    {
      this.db := db;
    }

    /** The caller's files that pass every truthy filter, newest first, cut to one page. */
    method FindAll(userId: int, filters: ListFilters) returns (r: Result<FileList>)
      requires filters.limit.Num? && filters.limit.n > 0
      ensures !(filters.page.Num? && filters.page.n >= 1) ==> r == Fail(InternalError, InternalErrorMessage)
      ensures filters.page.Num? && filters.page.n >= 1 ==>
        var found := Listing(db.files, db.nextFileId, db.fileTags, userId, filters);
        var page, limit := filters.page.n, filters.limit.n;
        && r.Ok?
        && r.value.files == Window(found, Skip(page, limit), limit)
        && r.value.pagination == Pagination(page, limit, |found|, CeilDiv(|found|, limit))
      ensures r == ListPage(db.files, db.nextFileId, db.fileTags, userId, filters)
    {
      var where := BuildWhere(userId, filters);
      if !(filters.page.Num? && filters.page.n >= 1) {
        // a NaN or negative `skip` is refused by the database
        return Fail(InternalError, InternalErrorMessage);
      }
      var page, limit := filters.page.n, filters.limit.n;
      var matching := Query(Rows(db.files, db.nextFileId), where, db.fileTags);
      QueryPage(db.files, db.nextFileId, db.fileTags, userId, filters, where);
      r := Ok(PageOf(Sorting.Sort(matching, NewerOrSame(FileCreated)), page, limit));
    }

    /** The owner-checked lookup: NotFound for a missing id, then Forbidden for another owner. */
    method FindOne(id: int, userId: int) returns (r: Result<File>)
      ensures id !in db.files ==> r == Fail(NotFound, "File not found")
      ensures id in db.files && db.files[id].ownerId != userId ==> r == Fail(Forbidden, "You do not have access to this file")
      ensures id in db.files && db.files[id].ownerId == userId ==> r == Ok(db.files[id])
    {
      r := Guard(db.files, FileOwner, id, userId, FileRow);
    }

    /** The public lookup behind the unauthenticated preview: NotFound only, no owner check. */
    method FindOnePublic(id: int) returns (r: Result<File>)
      ensures id !in db.files ==> r == Fail(NotFound, "File not found")
      ensures id in db.files ==> r == Ok(db.files[id])
    {
      if id !in db.files {
        return Fail(NotFound, NotFoundMessage(FileRow));
      }
      r := Ok(db.files[id]);
    }

    /** Records an upload. A truthy `folderId` must name a folder of the caller;
        a `folderId` of 0 or NaN skips that check and the insert then fails.
        Whether the notification mail went out does not change the outcome. */
    method UploadFile(file: Upload, userId: int, folderId: JsInt, now: int, mailSent: bool) returns (r: Result<File>)
      requires db.Valid()
      modifies db
      ensures db.Valid()
      ensures folderId.Truthy() && folderId.n !in old(db.folders) ==> r == Fail(NotFound, "Folder not found")
      ensures folderId.Truthy() && folderId.n in old(db.folders) && old(db.folders)[folderId.n].ownerId != userId ==>
        r == Fail(Forbidden, "You do not have access to this folder")
      ensures folderId == NaN || folderId == Num(0) ==> r == Fail(InternalError, InternalErrorMessage)
      ensures r.Fail? ==> unchanged(db)
      ensures r.Ok? <==> folderId == Undefined || (folderId.Truthy() && folderId.n in old(db.folders) && old(db.folders)[folderId.n].ownerId == userId)
      ensures r.Ok? ==>
        && r.value == File(old(db.nextFileId), file.originalname, GetFileType(file.mimetype), file.size, file.path,
                           userId, FolderColumn(folderId), now)
        && db.files == old(db.files)[r.value.id := r.value]
        && db.nextFileId == old(db.nextFileId) + 1
        && db.users == old(db.users) && db.folders == old(db.folders) && db.tags == old(db.tags)
        && db.fileTags == old(db.fileTags)
        && db.nextUserId == old(db.nextUserId) && db.nextFolderId == old(db.nextFolderId) && db.nextTagId == old(db.nextTagId)
    {
      var fileType := GetFileType(file.mimetype);
      if folderId.Truthy() {
        var folder := Guard(db.folders, FolderOwner, folderId.n, userId, FolderRow);
        if folder.Fail? {
          return Fail(folder.status, folder.message);
        }
      }
      if folderId == NaN || folderId == Num(0) {
        // not an integer, or a foreign key no folder matches: the insert fails
        return Fail(InternalError, InternalErrorMessage);
      }
      var created := File(db.nextFileId, file.originalname, fileType, file.size, file.path,
                          userId, FolderColumn(folderId), now);
      db.files := db.files[created.id := created];
      db.nextFileId := db.nextFileId + 1;
      r := Ok(created);
    }

    /** Deletes a file of the caller. The row goes even when unlinking the bytes
        on disk failed; its FileTag rows go with it. */
    method Remove(id: int, userId: int, unlinked: bool) returns (r: Result<string>)
      requires db.Valid()
      modifies db
      ensures db.Valid()
      ensures id !in old(db.files) ==> r == Fail(NotFound, "File not found")
      ensures id in old(db.files) && old(db.files)[id].ownerId != userId ==> r == Fail(Forbidden, "You do not have access to this file")
      ensures r.Fail? ==> unchanged(db)
      ensures r.Ok? <==> id in old(db.files) && old(db.files)[id].ownerId == userId
      ensures r.Ok? ==>
        && r.value == "File deleted successfully"
        && db.files == old(db.files) - {id}
        && db.fileTags == (set l | l in old(db.fileTags) && l.fileId != id)
        && db.users == old(db.users) && db.folders == old(db.folders) && db.tags == old(db.tags)
        && db.nextUserId == old(db.nextUserId) && db.nextFolderId == old(db.nextFolderId)
        && db.nextTagId == old(db.nextTagId) && db.nextFileId == old(db.nextFileId)
    {
      var file := FindOne(id, userId);
      if file.Fail? {
        return Fail(file.status, file.message);
      }
      db.files := db.files - {id};
      db.fileTags := set l | l in db.fileTags && l.fileId != id;
      r := Ok("File deleted successfully");
    }

    /** Tags a file. The file must be the caller's (NotFound, then Forbidden);
        the tag must exist and be the caller's, and is reported NotFound
        otherwise. An existing pair is returned as it is and nothing is added. */
    method AddTag(fileId: int, tagId: int, userId: int) returns (r: Result<TagLink>)
      requires db.Valid()
      modifies db
      ensures db.Valid()
      ensures fileId !in old(db.files) ==> r == Fail(NotFound, "File not found")
      ensures fileId in old(db.files) && old(db.files)[fileId].ownerId != userId ==> r == Fail(Forbidden, "You do not have access to this file")
      ensures (fileId in old(db.files) && old(db.files)[fileId].ownerId == userId
               && !(tagId in old(db.tags) && old(db.tags)[tagId].ownerId == userId)) ==> r == Fail(NotFound, "Tag not found")
      ensures r.Fail? ==> unchanged(db)
      ensures FileTag(fileId, tagId) in old(db.fileTags) ==> unchanged(db)
      ensures r.Ok? <==> fileId in old(db.files) && old(db.files)[fileId].ownerId == userId
                         && tagId in old(db.tags) && old(db.tags)[tagId].ownerId == userId
      ensures r.Ok? ==>
        && db.fileTags == old(db.fileTags) + {FileTag(fileId, tagId)}
        && r.value == (if FileTag(fileId, tagId) in old(db.fileTags) then TagLink(fileId, tagId, None)
                       else TagLink(fileId, tagId, Some(old(db.tags)[tagId])))
        && db.users == old(db.users) && db.folders == old(db.folders) && db.tags == old(db.tags) && db.files == old(db.files)
        && db.nextUserId == old(db.nextUserId) && db.nextFolderId == old(db.nextFolderId)
        && db.nextTagId == old(db.nextTagId) && db.nextFileId == old(db.nextFileId)
    {
      var file := FindOne(fileId, userId);
      if file.Fail? {
        return Fail(file.status, file.message);
      }
      if !(tagId in db.tags && db.tags[tagId].ownerId == userId) {
        return Fail(NotFound, NotFoundMessage(TagRow));
      }
      var link := FileTag(fileId, tagId);
      if link in db.fileTags {
        return Ok(TagLink(fileId, tagId, None));
      }
      db.fileTags := db.fileTags + {link};
      r := Ok(TagLink(fileId, tagId, Some(db.tags[tagId])));
    }

    /** Untags a file. Only the file's owner is checked; deleting a pair that
        does not exist is a database error the service does not catch. */
    method RemoveTag(fileId: int, tagId: int, userId: int) returns (r: Result<string>)
      requires db.Valid()
      modifies db
      ensures db.Valid()
      ensures fileId !in old(db.files) ==> r == Fail(NotFound, "File not found")
      ensures fileId in old(db.files) && old(db.files)[fileId].ownerId != userId ==> r == Fail(Forbidden, "You do not have access to this file")
      ensures fileId in old(db.files) && old(db.files)[fileId].ownerId == userId && FileTag(fileId, tagId) !in old(db.fileTags) ==>
        r == Fail(InternalError, InternalErrorMessage)
      ensures r.Fail? ==> unchanged(db)
      ensures r.Ok? <==> fileId in old(db.files) && old(db.files)[fileId].ownerId == userId && FileTag(fileId, tagId) in old(db.fileTags)
      ensures r.Ok? ==>
        && r.value == "Tag removed successfully"
        && db.fileTags == old(db.fileTags) - {FileTag(fileId, tagId)}
        && db.users == old(db.users) && db.folders == old(db.folders) && db.tags == old(db.tags) && db.files == old(db.files)
        && db.nextUserId == old(db.nextUserId) && db.nextFolderId == old(db.nextFolderId)
        && db.nextTagId == old(db.nextTagId) && db.nextFileId == old(db.nextFileId)
    {
      var file := FindOne(fileId, userId);
      if file.Fail? {
        return Fail(file.status, file.message);
      }
      var link := FileTag(fileId, tagId);
      if link !in db.fileTags {
        return Fail(InternalError, InternalErrorMessage);
      }
      db.fileTags := db.fileTags - {link};
      r := Ok("Tag removed successfully");
    }
  }

  /** The join row `addTag` answers with; only a newly created one includes its tag. */
  datatype TagLink = TagLink(fileId: int, tagId: int, tag: Option<Tag>)
}
