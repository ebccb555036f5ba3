/** The ownership guard every service repeats: look the row up, answer
    NotFound when it is missing, then compare its owner with the caller and
    answer Forbidden on a mismatch. Written once, for any table. */
module Ownership {
  import opened Outcomes

  datatype Entity = FileRow | FolderRow | TagRow

  function Noun(e: Entity): string {
    match e
    case FileRow => "file"
    case FolderRow => "folder"
    case TagRow => "tag"
  }

  function NotFoundMessage(e: Entity): string {
    match e
    case FileRow => "File not found"
    case FolderRow => "Folder not found"
    case TagRow => "Tag not found"
  }

  function ForbiddenMessage(e: Entity): string {
    "You do not have access to this " + Noun(e)
  }

  /** The lookup-then-compare guard. Only a row that exists and belongs to
      `userId` gets through; absence is reported before a foreign owner. */
  function Guard<T>(table: map<int, T>, ownerOf: T -> int, id: int, userId: int, e: Entity): (r: Result<T>)
    ensures r.Ok? <==> id in table && ownerOf(table[id]) == userId
    ensures r.Ok? ==> r.value == table[id]
    ensures r == Fail(NotFound, NotFoundMessage(e)) <==> id !in table
    ensures r == Fail(Forbidden, ForbiddenMessage(e)) <==> id in table && ownerOf(table[id]) != userId
  {
    if id !in table then Fail(NotFound, NotFoundMessage(e))
    else if ownerOf(table[id]) != userId then Fail(Forbidden, ForbiddenMessage(e))
    else Ok(table[id])
  }

  /** The guard never lets a caller through to a row of another owner,
      whichever user asks. */
  lemma GuardSeparatesOwners<T>(table: map<int, T>, ownerOf: T -> int, id: int, a: int, b: int, e: Entity)
    requires a != b
    ensures !(Guard(table, ownerOf, id, a, e).Ok? && Guard(table, ownerOf, id, b, e).Ok?)
  {
  }
}
