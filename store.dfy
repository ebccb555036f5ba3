/** The database the services share, as an in-memory store: one map per table
    from the auto-incremented id to the row, the `(fileId, tagId)` join table as
    a set of pairs, and the next id of each table. */
module Store {
  import opened Outcomes
  import Sorting

  datatype User = User(id: int, email: string, password: string, name: string, role: string, createdAt: int)
  datatype Folder = Folder(id: int, name: string, ownerId: int, createdAt: int)
  datatype Tag = Tag(id: int, name: string, ownerId: int, createdAt: int)
  /** `fileType` is the stored `type` column; `folderId` is nullable. */
  datatype File = File(id: int, name: string, fileType: string, size: int, path: string,
                       ownerId: int, folderId: Option<int>, createdAt: int)
  datatype FileTag = FileTag(fileId: int, tagId: int)

  /** What the schema does to a folder's files when the folder is deleted. The
      schema is not part of this model, so the store is given the rule. */
  datatype FolderDeleteRule = CascadeFiles | SetFolderNull

  function UserId(u: User): int { u.id }
  function FolderId(f: Folder): int { f.id }
  function TagId(t: Tag): int { t.id }
  function FileId(f: File): int { f.id }
  function FolderOwner(f: Folder): int { f.ownerId }
  function TagOwner(t: Tag): int { t.ownerId }
  function FileOwner(f: File): int { f.ownerId }

  // ---------------------------------------------------------------------------
  // Invariants of the tables

  /** Every key is an id already handed out, and each row carries its own key. */
  ghost predicate Keyed<T>(m: map<int, T>, next: int, idOf: T -> int) {
    forall id :: id in m ==> 1 <= id < next && idOf(m[id]) == id
  }

  /** `email` is a unique column. */
  ghost predicate UniqueEmails(users: map<int, User>) {
    forall a, b :: a in users && b in users && users[a].email == users[b].email ==> a == b
  }

  /** No owner has two tags with the same name. */
  ghost predicate UniqueTagNames(tags: map<int, Tag>) {
    forall a, b :: a in tags && b in tags && tags[a].ownerId == tags[b].ownerId && tags[a].name == tags[b].name ==> a == b
  }

  /** A file's folder exists and belongs to the file's owner. */
  ghost predicate FoldersOwned(files: map<int, File>, folders: map<int, Folder>) {
    forall id :: id in files && files[id].folderId.Some? ==>
      files[id].folderId.value in folders && folders[files[id].folderId.value].ownerId == files[id].ownerId
  }

  /** A FileTag links an existing file and an existing tag of the same owner. */
  ghost predicate LinksOwned(links: set<FileTag>, files: map<int, File>, tags: map<int, Tag>) {
    forall l :: l in links ==> l.fileId in files && l.tagId in tags && files[l.fileId].ownerId == tags[l.tagId].ownerId
  }

  // ---------------------------------------------------------------------------
  // Reading a table in id order

  /** The rows whose id is below `n`, in ascending id order: the order in which
      the database hands rows to `orderBy` before sorting. */
  function Rows<T>(m: map<int, T>, n: int): seq<T>
    decreases n
  {
    if n <= 0 then [] else Rows(m, n - 1) + (if n - 1 in m then [m[n - 1]] else [])
  }

  /** A row is listed exactly when some id below `n` holds it. */
  lemma {:induction false} RowsMembership<T>(m: map<int, T>, n: int, x: T)
    ensures x in Rows(m, n) <==> exists k :: 0 <= k < n && k in m && m[k] == x
    decreases n
  {
    if n > 0 {
      RowsMembership(m, n - 1, x);
    }
  }

  /** When every key lies below `n`, the listing holds exactly the table's rows. */
  lemma RowsComplete<T>(m: map<int, T>, n: int, x: T)
    requires forall k :: k in m ==> 0 <= k < n
    ensures x in Rows(m, n) <==> exists k :: k in m && m[k] == x
  {
    RowsMembership(m, n, x);
  }

  /** The rows of `s` that satisfy `p`, in their order: a `where` clause. */
  function Keep<T>(s: seq<T>, p: T -> bool): (r: seq<T>)
    ensures |r| <= |s|
  {
    if s == [] then []
    else Keep(s[..|s| - 1], p) + (if p(s[|s| - 1]) then [s[|s| - 1]] else [])
  }

  lemma {:induction false} KeepMembers<T>(s: seq<T>, p: T -> bool, x: T)
    ensures x in Keep(s, p) <==> x in s && p(x)
  {
    if s != [] {
      KeepMembers(s[..|s| - 1], p, x);
      assert s == s[..|s| - 1] + [s[|s| - 1]];
    }
  }

  /** Two tests that agree on every row keep the same rows. */
  lemma {:induction false} KeepAgree<T>(s: seq<T>, p: T -> bool, q: T -> bool)
    requires forall x :: p(x) == q(x)
    ensures Keep(s, p) == Keep(s, q)
  {
    if s != [] {
      KeepAgree(s[..|s| - 1], p, q);
    }
  }

  /** The ids below `n` whose row satisfies `p`. */
  function KeptIds<T>(m: map<int, T>, n: int, p: T -> bool): set<int> {
    set k | k in m && k < n && p(m[k])
  }

  lemma {:induction false} KeepAppend<T>(a: seq<T>, b: seq<T>, p: T -> bool)
    requires |b| <= 1
    ensures Keep(a + b, p) == Keep(a, p) + Keep(b, p)
  {
    if b != [] {
      assert (a + b)[..|a + b| - 1] == a;
      assert Keep(b, p) == Keep([], p) + (if p(b[0]) then [b[0]] else []);
    } else {
      assert a + b == a;
    }
  }

  lemma KeptIdsStep<T>(m: map<int, T>, n: int, p: T -> bool)
    requires n > 0
    ensures |KeptIds(m, n, p)| == |KeptIds(m, n - 1, p)| + (if n - 1 in m && p(m[n - 1]) then 1 else 0)
  {
    var now, before := KeptIds(m, n, p), KeptIds(m, n - 1, p);
    if n - 1 in m && p(m[n - 1]) {
      assert now == before + {n - 1};
    } else {
      assert now == before;
    }
  }

  /** Filtering the id-ordered rows keeps one row per matching id. */
  lemma {:induction false} KeepRowsCount<T>(m: map<int, T>, n: int, p: T -> bool)
    requires forall k :: k in m ==> 0 <= k
    ensures |Keep(Rows(m, n), p)| == |KeptIds(m, n, p)|
    decreases n
  {
    if n <= 0 {
      assert KeptIds(m, n, p) == {};
    } else {
      KeepRowsCount(m, n - 1, p);
      var tail := if n - 1 in m then [m[n - 1]] else [];
      KeepAppend(Rows(m, n - 1), tail, p);
      KeptIdsStep(m, n, p);
    }
  }

  /** Code-point order on strings, the order of `orderBy: { name: 'asc' }`. */
  predicate LexLe(a: string, b: string) {
    a == [] || (b != [] && (a[0] < b[0] || (a[0] == b[0] && LexLe(a[1..], b[1..]))))
  }

  lemma {:induction false} LexLeTotal(a: string, b: string)
    ensures LexLe(a, b) || LexLe(b, a)
  {
    if a != [] && b != [] && a[0] == b[0] {
      LexLeTotal(a[1..], b[1..]);
    }
  }

  lemma {:induction false} LexLeTransitive(a: string, b: string, c: string)
    requires LexLe(a, b) && LexLe(b, c)
    ensures LexLe(a, c)
  {
    if a != [] && b != [] && c != [] && a[0] == b[0] && b[0] == c[0] {
      LexLeTransitive(a[1..], b[1..], c[1..]);
    }
  }

  /** Names in ascending order is a comparator the sort can use. */
  lemma ByNameIsPreorder()
    ensures Sorting.TotalPreorder(ByName)
  {
    forall a: Tag, b: Tag ensures ByName(a, b) || ByName(b, a) {
      LexLeTotal(a.name, b.name);
    }
    forall a: Tag, b: Tag, c: Tag | ByName(a, b) && ByName(b, c) ensures ByName(a, c) {
      LexLeTransitive(a.name, b.name, c.name);
    }
  }

  function ByName(a: Tag, b: Tag): bool { LexLe(a.name, b.name) }

  /** Newest first, as `orderBy: { createdAt: 'desc' }` asks. */
  function NewerOrSame<T>(createdAt: T -> int): (T, T) -> bool {
    (a: T, b: T) => createdAt(a) >= createdAt(b)
  }

  function FileCreated(f: File): int { f.createdAt }
  function FolderCreated(f: Folder): int { f.createdAt }

  lemma NewestFirstIsPreorder<T(!new)>(createdAt: T -> int)
    ensures Sorting.TotalPreorder(NewerOrSame(createdAt))
  {
  }

  // ---------------------------------------------------------------------------
  // The store

  class Db {
    var users: map<int, User>
    var folders: map<int, Folder>
    var tags: map<int, Tag>
    var files: map<int, File>
    var fileTags: set<FileTag>
    var nextUserId: int
    var nextFolderId: int
    var nextTagId: int
    var nextFileId: int
    const onFolderDelete: FolderDeleteRule

    ghost predicate Valid()
      reads this
    {
      && 1 <= nextUserId && 1 <= nextFolderId && 1 <= nextTagId && 1 <= nextFileId
      && Keyed(users, nextUserId, UserId)
      && Keyed(folders, nextFolderId, FolderId)
      && Keyed(tags, nextTagId, TagId)
      && Keyed(files, nextFileId, FileId)
      && UniqueEmails(users)
      && UniqueTagNames(tags)
      && FoldersOwned(files, folders)
      && LinksOwned(fileTags, files, tags)
    }

    /** An empty database; auto-increment ids start at 1. */
    constructor (rule: FolderDeleteRule)
      ensures Valid()
      ensures users == map[] && folders == map[] && tags == map[] && files == map[] && fileTags == {}
      ensures nextUserId == 1 && nextFolderId == 1 && nextTagId == 1 && nextFileId == 1
      ensures onFolderDelete == rule
    {
      users, folders, tags, files, fileTags := map[], map[], map[], map[], {};
      nextUserId, nextFolderId, nextTagId, nextFileId := 1, 1, 1, 1;
      onFolderDelete := rule;
    }
  }
}
