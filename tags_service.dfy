/** The tag service: create with a per-owner name check, the owner's listing
    by name with file counts, the owner-checked lookup with the tagged files,
    and delete. */
module Tags {
  import opened Outcomes
  import opened Store
  import opened Ownership
  import Sorting

  /** A tag row with its `_count.files`. */
  datatype TagSummary = TagSummary(tag: Tag, fileCount: nat)
  /** A tag row with the files it is attached to and its `_count.files`. */
  datatype TagDetail = TagDetail(tag: Tag, files: set<File>, fileCount: nat)

  function TagOwnedBy(userId: int): Tag -> bool {
    (t: Tag) => t.ownerId == userId
  }

  /** `_count.files`: the number of FileTag rows of the tag. */
  function TagFileCount(links: set<FileTag>, tagId: int): nat {
    |set l | l in links && l.tagId == tagId|
  }

  /** The files the tag is attached to. */
  function TaggedFiles(files: map<int, File>, links: set<FileTag>, tagId: int): set<File> {
    set l | l in links && l.tagId == tagId && l.fileId in files :: files[l.fileId]
  }

  /** Whether the caller already has a tag of that name: `findFirst({ where: { name, ownerId } })`. */
  predicate NameTaken(tags: map<int, Tag>, name: string, userId: int) {
    exists id :: id in tags && tags[id].name == name && tags[id].ownerId == userId
  }

  /** `findMany({ where: { ownerId }, orderBy: { name: 'asc' } })` on tags. */
  function TagListing(tags: map<int, Tag>, next: int, userId: int): seq<Tag> {
    Sorting.Sort(Keep(Rows(tags, next), TagOwnedBy(userId)), ByName)
  }

  /** The listing holds exactly the caller's tags. */
  lemma TagListingMembers(tags: map<int, Tag>, next: int, userId: int, t: Tag)
    requires forall k :: k in tags ==> 0 <= k < next
    ensures t in TagListing(tags, next, userId) <==>
      (exists k :: k in tags && tags[k] == t) && t.ownerId == userId
  {
    Sorting.SortSameElements(Keep(Rows(tags, next), TagOwnedBy(userId)), ByName, t);
    KeepMembers(Rows(tags, next), TagOwnedBy(userId), t);
    RowsComplete(tags, next, t);
  }

  /** The listing is in ascending name order. */
  lemma TagListingByName(tags: map<int, Tag>, next: int, userId: int)
    ensures var s := TagListing(tags, next, userId);
      forall i, j :: 0 <= i < j < |s| ==> LexLe(s[i].name, s[j].name)
  {
    ByNameIsPreorder();
    Sorting.SortSorted(Keep(Rows(tags, next), TagOwnedBy(userId)), ByName);
    var s := TagListing(tags, next, userId);
    forall i, j | 0 <= i < j < |s|
      ensures LexLe(s[i].name, s[j].name)
    {
      assert Sorting.Sorted(s, ByName);
      assert ByName(s[i], s[j]);
    }
  }

  /** Distinct arguments of an injective map give distinct images. */
  lemma {:induction false} InjectiveImageSize(links: set<FileTag>, files: map<int, File>)
    requires forall l :: l in links ==> l.fileId in files
    requires forall a, b :: a in links && b in links && files[a.fileId] == files[b.fileId] ==> a == b
    ensures |set l | l in links :: files[l.fileId]| == |links|
    decreases |links|
  {
    if links != {} {
      var x :| x in links;
      var rest := links - {x};
      InjectiveImageSize(rest, files);
      var image := set l | l in links :: files[l.fileId];
      var restImage := set l | l in rest :: files[l.fileId];
      assert image == restImage + {files[x.fileId]};
      assert files[x.fileId] !in restImage;
    }
  }

  /** In a consistent store the listed files and `_count.files` agree. */
  lemma TaggedFilesCount(files: map<int, File>, nextFile: int, tags: map<int, Tag>, links: set<FileTag>, tagId: int)
    requires Keyed(files, nextFile, FileId) && LinksOwned(links, files, tags)
    ensures |TaggedFiles(files, links, tagId)| == TagFileCount(links, tagId)
  {
    var mine := set l | l in links && l.tagId == tagId;
    forall a, b | a in mine && b in mine && files[a.fileId] == files[b.fileId]
      ensures a == b
    {
      assert files[a.fileId].id == a.fileId && files[b.fileId].id == b.fileId;
    }
    InjectiveImageSize(mine, files);
    assert TaggedFiles(files, links, tagId) == set l | l in mine :: files[l.fileId];
  }

  class TagsService {
    const db: Db

    constructor (db: Db)
      ensures this.db == db
    {
      this.db := db;
    }

    /** Creates a tag of the caller, unless the caller already has one of that name. */
    method Create(name: string, userId: int, now: int) returns (r: Result<Tag>)
      requires db.Valid()
      modifies db
      ensures db.Valid()
      ensures r.Fail? <==> NameTaken(old(db.tags), name, userId)
      ensures r.Fail? ==> r == Fail(Conflict, "Tag with this name already exists") && unchanged(db)
      ensures r.Ok? ==>
        && r.value == Tag(old(db.nextTagId), name, userId, now)
        && db.tags == old(db.tags)[r.value.id := r.value] && db.nextTagId == old(db.nextTagId) + 1
        && db.users == old(db.users) && db.folders == old(db.folders) && db.files == old(db.files) && db.fileTags == old(db.fileTags)
        && db.nextUserId == old(db.nextUserId) && db.nextFolderId == old(db.nextFolderId) && db.nextFileId == old(db.nextFileId)
    {
      if exists id :: id in db.tags && db.tags[id].name == name && db.tags[id].ownerId == userId {
        return Fail(Conflict, "Tag with this name already exists");
      }
      var created := Tag(db.nextTagId, name, userId, now);
      db.tags := db.tags[created.id := created];
      db.nextTagId := db.nextTagId + 1;
      r := Ok(created);
    }

    /** The caller's tags in name order, each with the number of its files. */
    method FindAll(userId: int) returns (r: seq<TagSummary>)
      ensures var s := TagListing(db.tags, db.nextTagId, userId);
        && |r| == |s|
        && forall i :: 0 <= i < |r| ==> r[i] == TagSummary(s[i], TagFileCount(db.fileTags, s[i].id))
    {
      var s := TagListing(db.tags, db.nextTagId, userId);
      var links := db.fileTags;
      r := seq(|s|, i requires 0 <= i < |s| => TagSummary(s[i], TagFileCount(links, s[i].id)));
    }

    /** The owner-checked lookup, with the files the tag is attached to. */
    method FindOne(id: int, userId: int) returns (r: Result<TagDetail>)
      ensures id !in db.tags ==> r == Fail(NotFound, "Tag not found")
      ensures id in db.tags && db.tags[id].ownerId != userId ==> r == Fail(Forbidden, "You do not have access to this tag")
      ensures id in db.tags && db.tags[id].ownerId == userId ==>
        r == Ok(TagDetail(db.tags[id], TaggedFiles(db.files, db.fileTags, id), TagFileCount(db.fileTags, id)))
    {
      var tag := Guard(db.tags, TagOwner, id, userId, TagRow);
      if tag.Fail? {
        return Fail(tag.status, tag.message);
      }
      r := Ok(TagDetail(tag.value, TaggedFiles(db.files, db.fileTags, id), TagFileCount(db.fileTags, id)));
    }

    /** Deletes a tag of the caller; its FileTag rows go with it and every file stays. */
    method Remove(id: int, userId: int) returns (r: Result<string>)
      requires db.Valid()
      modifies db
      ensures db.Valid()
      ensures id !in old(db.tags) ==> r == Fail(NotFound, "Tag not found")
      ensures id in old(db.tags) && old(db.tags)[id].ownerId != userId ==> r == Fail(Forbidden, "You do not have access to this tag")
      ensures r.Fail? ==> unchanged(db)
      ensures r.Ok? <==> id in old(db.tags) && old(db.tags)[id].ownerId == userId
      ensures r.Ok? ==>
        && r.value == "Tag deleted successfully"
        && db.tags == old(db.tags) - {id}
        && db.fileTags == (set l | l in old(db.fileTags) && l.tagId != id)
        && db.users == old(db.users) && db.folders == old(db.folders) && db.files == old(db.files)
        && db.nextUserId == old(db.nextUserId) && db.nextFolderId == old(db.nextFolderId)
        && db.nextTagId == old(db.nextTagId) && db.nextFileId == old(db.nextFileId)
    {
      var tag := Guard(db.tags, TagOwner, id, userId, TagRow);
      if tag.Fail? {
        return Fail(tag.status, tag.message);
      }
      db.tags := db.tags - {id};
      db.fileTags := set l | l in db.fileTags && l.tagId != id;
      r := Ok("Tag deleted successfully");
    }
  }
}
