/** The folder service: create, the owner's listing with file counts, the
    owner-checked lookup with the folder's files, rename, delete, and moving a
    file into a folder. */
module Folders {
  import opened Outcomes
  import opened Store
  import opened Ownership
  import Sorting

  /** A folder row with its `_count.files`. */
  datatype FolderSummary = FolderSummary(folder: Folder, fileCount: nat)
  /** A folder row with its files, newest first, and its `_count.files`. */
  datatype FolderDetail = FolderDetail(folder: Folder, files: seq<File>, fileCount: nat)
  /** What `remove` answers. */
  datatype Deleted = Deleted(message: string, filesDeleted: nat)

  function OwnedBy(userId: int): Folder -> bool {
    (f: Folder) => f.ownerId == userId
  }

  function InFolder(folderId: int): File -> bool {
    (f: File) => f.folderId == Some(folderId)
  }

  /** `_count.files`: the number of files whose folder is `folderId`. */
  function FileCount(files: map<int, File>, folderId: int): nat {
    |set k | k in files && files[k].folderId == Some(folderId)|
  }

  /** `findMany({ where: { ownerId }, orderBy: { createdAt: 'desc' } })` on folders. */
  function FolderListing(folders: map<int, Folder>, next: int, userId: int): seq<Folder> {
    Sorting.Sort(Keep(Rows(folders, next), OwnedBy(userId)), NewerOrSame(FolderCreated))
  }

  /** The `files` relation of one folder, `orderBy: { createdAt: 'desc' }`. */
  function FolderFiles(files: map<int, File>, next: int, folderId: int): seq<File> {
    Sorting.Sort(Keep(Rows(files, next), InFolder(folderId)), NewerOrSame(FileCreated))
  }

  /** The listing holds exactly the caller's folders. */
  lemma FolderListingMembers(folders: map<int, Folder>, next: int, userId: int, f: Folder)
    requires forall k :: k in folders ==> 0 <= k < next
    ensures f in FolderListing(folders, next, userId) <==>
      (exists k :: k in folders && folders[k] == f) && f.ownerId == userId
  {
    Sorting.SortSameElements(Keep(Rows(folders, next), OwnedBy(userId)), NewerOrSame(FolderCreated), f);
    KeepMembers(Rows(folders, next), OwnedBy(userId), f);
    RowsComplete(folders, next, f);
  }

  lemma FolderListingNewestFirst(folders: map<int, Folder>, next: int, userId: int)
    ensures var s := FolderListing(folders, next, userId);
      forall i, j :: 0 <= i < j < |s| ==> s[i].createdAt >= s[j].createdAt
  {
    NewestFirstIsPreorder(FolderCreated);
    Sorting.SortSorted(Keep(Rows(folders, next), OwnedBy(userId)), NewerOrSame(FolderCreated));
    var s := FolderListing(folders, next, userId);
    forall i, j | 0 <= i < j < |s|
      ensures s[i].createdAt >= s[j].createdAt
    {
      assert Sorting.Sorted(s, NewerOrSame(FolderCreated));
      assert NewerOrSame(FolderCreated)(s[i], s[j]);
      assert FolderCreated(s[i]) >= FolderCreated(s[j]);
    }
  }

  /** The folder's files are exactly the files whose folder it is. */
  lemma FolderFilesMembers(files: map<int, File>, next: int, folderId: int, f: File)
    requires forall k :: k in files ==> 0 <= k < next
    ensures f in FolderFiles(files, next, folderId) <==>
      (exists k :: k in files && files[k] == f) && f.folderId == Some(folderId)
  {
    Sorting.SortSameElements(Keep(Rows(files, next), InFolder(folderId)), NewerOrSame(FileCreated), f);
    KeepMembers(Rows(files, next), InFolder(folderId), f);
    RowsComplete(files, next, f);
  }

  lemma FolderFilesNewestFirst(files: map<int, File>, next: int, folderId: int)
    ensures var s := FolderFiles(files, next, folderId);
      forall i, j :: 0 <= i < j < |s| ==> s[i].createdAt >= s[j].createdAt
  {
    NewestFirstIsPreorder(FileCreated);
    Sorting.SortSorted(Keep(Rows(files, next), InFolder(folderId)), NewerOrSame(FileCreated));
    var s := FolderFiles(files, next, folderId);
    forall i, j | 0 <= i < j < |s|
      ensures s[i].createdAt >= s[j].createdAt
    {
      assert Sorting.Sorted(s, NewerOrSame(FileCreated));
      assert NewerOrSame(FileCreated)(s[i], s[j]);
      assert FileCreated(s[i]) >= FileCreated(s[j]);
    }
  }

  /** The `files` relation and `_count.files` agree: the count is the number of files listed. */
  lemma FolderFilesCount(files: map<int, File>, next: int, folderId: int)
    requires forall k :: k in files ==> 0 <= k < next
    ensures |FolderFiles(files, next, folderId)| == FileCount(files, folderId)
  {
    KeepRowsCount(files, next, InFolder(folderId));
    assert KeptIds(files, next, InFolder(folderId)) == set k | k in files && files[k].folderId == Some(folderId);
  }

  /** The files left when a folder's files are deleted with it. */
  function DropFolderFiles(files: map<int, File>, folderId: int): (r: map<int, File>)
    ensures forall k :: k in r <==> k in files && files[k].folderId != Some(folderId)
    ensures forall k :: k in r ==> r[k] == files[k]
  {
    map k | k in files && files[k].folderId != Some(folderId) :: files[k]
  }

  /** The files after a folder's files have had their folder set to null. */
  function DetachFolderFiles(files: map<int, File>, folderId: int): (r: map<int, File>)
    ensures r.Keys == files.Keys
    ensures forall k :: k in r ==> r[k].folderId == (if files[k].folderId == Some(folderId) then None else files[k].folderId)
    ensures forall k :: k in r ==> r[k] == files[k].(folderId := r[k].folderId)
  {
    map k | k in files :: if files[k].folderId == Some(folderId) then files[k].(folderId := None) else files[k]
  }

  /** The links whose file is still there. */
  function LinksOfFiles(links: set<FileTag>, files: map<int, File>): (r: set<FileTag>)
    ensures forall l :: l in r <==> l in links && l.fileId in files
  {
    set l | l in links && l.fileId in files
  }

  /** Either rule leaves a consistent store once the folder is gone. */
  lemma RemovalKeepsStore(files: map<int, File>, folders: map<int, Folder>, tags: map<int, Tag>, links: set<FileTag>,
                          nextFile: int, folderId: int, rule: FolderDeleteRule)
    requires Keyed(files, nextFile, FileId) && FoldersOwned(files, folders) && LinksOwned(links, files, tags)
    ensures var files', links' := if rule == CascadeFiles then DropFolderFiles(files, folderId) else DetachFolderFiles(files, folderId),
                                  if rule == CascadeFiles then LinksOfFiles(links, DropFolderFiles(files, folderId)) else links;
      && Keyed(files', nextFile, FileId)
      && FoldersOwned(files', folders - {folderId})
      && LinksOwned(links', files', tags)
      && forall k :: k in files' ==> files'[k].folderId != Some(folderId)
  {
  }

  class FoldersService {
    const db: Db

    constructor (db: Db)
      ensures this.db == db
    {
      this.db := db;
    }

    /** Creates a folder of the caller with the next id. */
    method Create(name: string, userId: int, now: int) returns (r: Folder)
      requires db.Valid()
      modifies db
      ensures db.Valid()
      ensures r == Folder(old(db.nextFolderId), name, userId, now)
      ensures db.folders == old(db.folders)[r.id := r] && db.nextFolderId == old(db.nextFolderId) + 1
      ensures db.users == old(db.users) && db.tags == old(db.tags) && db.files == old(db.files) && db.fileTags == old(db.fileTags)
      ensures db.nextUserId == old(db.nextUserId) && db.nextTagId == old(db.nextTagId) && db.nextFileId == old(db.nextFileId)
    {
      r := Folder(db.nextFolderId, name, userId, now);
      db.folders := db.folders[r.id := r];
      db.nextFolderId := db.nextFolderId + 1;
    }

    /** The caller's folders, newest first, each with the number of its files. */
    method FindAll(userId: int) returns (r: seq<FolderSummary>)
      ensures var s := FolderListing(db.folders, db.nextFolderId, userId);
        && |r| == |s|
        && forall i :: 0 <= i < |r| ==> r[i] == FolderSummary(s[i], FileCount(db.files, s[i].id))
    {
      var s := FolderListing(db.folders, db.nextFolderId, userId);
      var files := db.files;
      r := seq(|s|, i requires 0 <= i < |s| => FolderSummary(s[i], FileCount(files, s[i].id)));
    }

    /** The owner-checked lookup, with the folder's files newest first. */
    method FindOne(id: int, userId: int) returns (r: Result<FolderDetail>)
      ensures id !in db.folders ==> r == Fail(NotFound, "Folder not found")
      ensures id in db.folders && db.folders[id].ownerId != userId ==> r == Fail(Forbidden, "You do not have access to this folder")
      ensures id in db.folders && db.folders[id].ownerId == userId ==>
        r == Ok(FolderDetail(db.folders[id], FolderFiles(db.files, db.nextFileId, id), FileCount(db.files, id)))
    {
      var folder := Guard(db.folders, FolderOwner, id, userId, FolderRow);
      if folder.Fail? {
        return Fail(folder.status, folder.message);
      }
      r := Ok(FolderDetail(folder.value, FolderFiles(db.files, db.nextFileId, id), FileCount(db.files, id)));
    }

    /** Renames a folder of the caller; nothing else about it changes. */
    method Update(id: int, name: string, userId: int) returns (r: Result<Folder>)
      requires db.Valid()
      modifies db
      ensures db.Valid()
      ensures id !in old(db.folders) ==> r == Fail(NotFound, "Folder not found")
      ensures id in old(db.folders) && old(db.folders)[id].ownerId != userId ==> r == Fail(Forbidden, "You do not have access to this folder")
      ensures r.Fail? ==> unchanged(db)
      ensures r.Ok? <==> id in old(db.folders) && old(db.folders)[id].ownerId == userId
      ensures r.Ok? ==>
        && r.value == old(db.folders)[id].(name := name)
        && db.folders == old(db.folders)[id := r.value]
        && db.users == old(db.users) && db.tags == old(db.tags) && db.files == old(db.files) && db.fileTags == old(db.fileTags)
        && db.nextUserId == old(db.nextUserId) && db.nextFolderId == old(db.nextFolderId)
        && db.nextTagId == old(db.nextTagId) && db.nextFileId == old(db.nextFileId)
    {
      var folder := Guard(db.folders, FolderOwner, id, userId, FolderRow);
      if folder.Fail? {
        return Fail(folder.status, folder.message);
      }
      var renamed := folder.value.(name := name);
      db.folders := db.folders[id := renamed];
      r := Ok(renamed);
    }

    /** Deletes a folder of the caller and reports how many files it held. Its
        files then follow the store's rule: deleted with their FileTag rows,
        or kept with no folder. */
    method Remove(id: int, userId: int) returns (r: Result<Deleted>)
      requires db.Valid()
      modifies db
      ensures db.Valid()
      ensures id !in old(db.folders) ==> r == Fail(NotFound, "Folder not found")
      ensures id in old(db.folders) && old(db.folders)[id].ownerId != userId ==> r == Fail(Forbidden, "You do not have access to this folder")
      ensures r.Fail? ==> unchanged(db)
      ensures r.Ok? <==> id in old(db.folders) && old(db.folders)[id].ownerId == userId
      ensures r.Ok? ==>
        && r.value == Deleted("Folder deleted successfully", FileCount(old(db.files), id))
        && db.folders == old(db.folders) - {id}
        && (forall k :: k in db.files ==> db.files[k].folderId != Some(id))
        && db.users == old(db.users) && db.tags == old(db.tags)
        && db.nextUserId == old(db.nextUserId) && db.nextFolderId == old(db.nextFolderId)
        && db.nextTagId == old(db.nextTagId) && db.nextFileId == old(db.nextFileId)
      ensures r.Ok? && db.onFolderDelete == CascadeFiles ==>
        db.files == DropFolderFiles(old(db.files), id) && db.fileTags == LinksOfFiles(old(db.fileTags), db.files)
      ensures r.Ok? && db.onFolderDelete == SetFolderNull ==>
        db.files == DetachFolderFiles(old(db.files), id) && db.fileTags == old(db.fileTags)
    {
      var folder := Guard(db.folders, FolderOwner, id, userId, FolderRow);
      if folder.Fail? {
        return Fail(folder.status, folder.message);
      }
      var filesDeleted := FileCount(db.files, id);
      RemovalKeepsStore(db.files, db.folders, db.tags, db.fileTags, db.nextFileId, id, db.onFolderDelete);
      db.folders := db.folders - {id};
      if db.onFolderDelete == CascadeFiles {
        db.files := DropFolderFiles(db.files, id);
        db.fileTags := LinksOfFiles(db.fileTags, db.files);
      } else {
        db.files := DetachFolderFiles(db.files, id);
      }
      r := Ok(Deleted("Folder deleted successfully", filesDeleted));
    }

    /** Moves a file of the caller into a folder of the caller. The folder is
        checked before the file; only the file's `folderId` changes. */
    method MoveFile(folderId: int, fileId: int, userId: int) returns (r: Result<File>)
      requires db.Valid()
      modifies db
      ensures db.Valid()
      ensures folderId !in old(db.folders) ==> r == Fail(NotFound, "Folder not found")
      ensures folderId in old(db.folders) && old(db.folders)[folderId].ownerId != userId ==>
        r == Fail(Forbidden, "You do not have access to this folder")
      ensures folderId in old(db.folders) && old(db.folders)[folderId].ownerId == userId && fileId !in old(db.files) ==>
        r == Fail(NotFound, "File not found")
      ensures folderId in old(db.folders) && old(db.folders)[folderId].ownerId == userId
              && fileId in old(db.files) && old(db.files)[fileId].ownerId != userId ==>
        r == Fail(Forbidden, "You do not have access to this file")
      ensures r.Fail? ==> unchanged(db)
      ensures r.Ok? <==> folderId in old(db.folders) && old(db.folders)[folderId].ownerId == userId
                         && fileId in old(db.files) && old(db.files)[fileId].ownerId == userId
      ensures r.Ok? ==>
        && r.value == old(db.files)[fileId].(folderId := Some(folderId))
        && db.files == old(db.files)[fileId := r.value]
        && db.users == old(db.users) && db.folders == old(db.folders) && db.tags == old(db.tags) && db.fileTags == old(db.fileTags)
        && db.nextUserId == old(db.nextUserId) && db.nextFolderId == old(db.nextFolderId)
        && db.nextTagId == old(db.nextTagId) && db.nextFileId == old(db.nextFileId)
    {
      var folder := Guard(db.folders, FolderOwner, folderId, userId, FolderRow);
      if folder.Fail? {
        return Fail(folder.status, folder.message);
      }
      var file := Guard(db.files, FileOwner, fileId, userId, FileRow);
      if file.Fail? {
        return Fail(file.status, file.message);
      }
      var moved := file.value.(folderId := Some(folderId));
      db.files := db.files[fileId := moved];
      r := Ok(moved);
    }
  }
}
