/** The browser side of the files page: the client-side filter and sort the
    page applies to the fetched list, and the icon shown for each type. */
module FilesPage {
  import opened Outcomes
  import opened Js
  import Sorting
  import Store

  /** A file as the page receives it: `folderId` may be null, `tags` (the
      FileTag rows with their tag) may be missing, `createdAt` is the
      timestamp `new Date(createdAt).getTime()` reads. */
  datatype UiFile = UiFile(name: string, fileType: string, size: int, folderId: Option<int>,
                           tagIds: Option<seq<int>>, createdAt: int)

  /** The state of the page's four filter controls and its sort selector. */
  datatype View = View(searchQuery: string, filterType: string, filterFolder: string, filterTag: string, sortBy: string)

  // ---------------------------------------------------------------------------
  // filteredFiles: the filter

  predicate MatchesSearch(f: UiFile, query: string) {
    Includes(ToLower(f.name), ToLower(query))
  }

  predicate MatchesType(f: UiFile, filterType: string) {
    filterType == "all" || f.fileType == filterType
  }

  /** `"all"`, or `"none"` and a falsy `folderId`, or `folderId === parseInt(filter)`. */
  predicate MatchesFolder(f: UiFile, filterFolder: string) {
    || filterFolder == "all"
    || (filterFolder == "none" && (f.folderId == None || f.folderId == Some(0)))
    || (f.folderId.Some? && ParseInt(filterFolder) == Num(f.folderId.value))
  }

  /** `"all"`, or some FileTag of the file has the tag `parseInt(filter)`. */
  predicate MatchesTag(f: UiFile, filterTag: string) {
    || filterTag == "all"
    || (f.tagIds.Some? && exists i :: 0 <= i < |f.tagIds.value| && ParseInt(filterTag) == Num(f.tagIds.value[i]))
  }

  predicate Matches(f: UiFile, v: View) {
    MatchesSearch(f, v.searchQuery) && MatchesType(f, v.filterType)
    && MatchesFolder(f, v.filterFolder) && MatchesTag(f, v.filterTag)
  }

  function MatchesView(v: View): UiFile -> bool {
    (f: UiFile) => Matches(f, v)
  }

  /** `files.filter(...)`: the matching files in their order. */
  function FilterFiles(files: seq<UiFile>, v: View): seq<UiFile> {
    Store.Keep(files, MatchesView(v))
  }

  // ---------------------------------------------------------------------------
  // filteredFiles: the sort

  /** The comparator chosen by `sortBy`, as "may come first": `cmp(a, b) <= 0`.
      `collate` is `String.prototype.localeCompare`. */
  function Order(sortBy: string, collate: (string, string) -> int): (le: (UiFile, UiFile) -> bool)
    ensures sortBy == "name" ==> forall a, b :: le(a, b) == (collate(a.name, b.name) <= 0)
    ensures sortBy == "size" ==> forall a, b :: le(a, b) == (a.size >= b.size)
    ensures sortBy != "name" && sortBy != "size" ==> forall a, b :: le(a, b) == (a.createdAt >= b.createdAt)
    ensures sortBy != "name" ==> Sorting.TotalPreorder(le)
  {
    if sortBy == "name" then (a: UiFile, b: UiFile) => collate(a.name, b.name) <= 0
    else if sortBy == "size" then (a: UiFile, b: UiFile) => b.size - a.size <= 0
    else (a: UiFile, b: UiFile) => b.createdAt - a.createdAt <= 0
  }

  /** `filteredFiles`: filter, then a stable sort by the selected comparator. */
  function FilteredFiles(files: seq<UiFile>, v: View, collate: (string, string) -> int): (r: seq<UiFile>)
    ensures multiset(r) == multiset(FilterFiles(files, v))
    ensures forall i :: 0 <= i < |r| ==> r[i] in files && Matches(r[i], v)
  {
    var kept := FilterFiles(files, v);
    var r := Sorting.Sort(kept, Order(v.sortBy, collate));
    forall i | 0 <= i < |r|
      ensures r[i] in files && Matches(r[i], v)
    {
      assert r[i] in multiset(kept);
      FilterFilesMembers(files, v, r[i]);
    }
    r
  }

  // ---------------------------------------------------------------------------
  // Properties of filteredFiles

  lemma FilterFilesMembers(files: seq<UiFile>, v: View, f: UiFile)
    ensures f in FilterFiles(files, v) <==> f in files && Matches(f, v)
  {
    Store.KeepMembers(files, MatchesView(v), f);
  }

  /** A file is shown exactly when it was fetched and passes all four filters. */
  lemma FilteredMembers(files: seq<UiFile>, v: View, collate: (string, string) -> int, f: UiFile)
    ensures f in FilteredFiles(files, v, collate) <==>
      f in files && MatchesSearch(f, v.searchQuery) && MatchesType(f, v.filterType)
      && MatchesFolder(f, v.filterFolder) && MatchesTag(f, v.filterTag)
  {
    Sorting.SortSameElements(FilterFiles(files, v), Order(v.sortBy, collate), f);
    FilterFilesMembers(files, v, f);
  }

  lemma ToLowerIdempotent(s: string)
    ensures ToLower(ToLower(s)) == ToLower(s)
  {
  }

  /** Search ignores case: a query and its lower-case form show the same files. */
  lemma SearchIgnoresCase(f: UiFile, query: string)
    ensures MatchesSearch(f, query) == MatchesSearch(f, ToLower(query))
    ensures MatchesSearch(f, query) == MatchesSearch(f.(name := ToLower(f.name)), query)
  {
    ToLowerIdempotent(query);
    ToLowerIdempotent(f.name);
  }

  /** With every control at its initial value nothing is filtered out. */
  lemma {:induction false} InitialViewKeepsAll(files: seq<UiFile>, sortBy: string)
    ensures FilterFiles(files, View("", "all", "all", "all", sortBy)) == files
  {
    if files != [] {
      InitialViewKeepsAll(files[..|files| - 1], sortBy);
      IncludesEmpty(ToLower(files[|files| - 1].name));
      assert ToLower("") == "";
      assert files == files[..|files| - 1] + [files[|files| - 1]];
    }
  }

  /** Every file with no folder passes the `"none"` filter, and no file in a folder does (ids start at 1). */
  lemma NoneFolderFilter(f: UiFile)
    requires f.folderId.Some? ==> f.folderId.value >= 1
    ensures MatchesFolder(f, "none") <==> f.folderId == None
  {
    if f.folderId.Some? {
      var t := TrimStart("none");
      assert t == "none" by {
        assert !IsWhiteSpace('n');
      }
      assert DigitValue('n', 10) == -1;
      assert DigitPrefix("none", 10) == 0;
    }
  }

  /** "size": largest first. */
  lemma SizeSortNonIncreasing(files: seq<UiFile>, v: View, collate: (string, string) -> int)
    requires v.sortBy == "size"
    ensures var s := FilteredFiles(files, v, collate);
      forall i, j :: 0 <= i < j < |s| ==> s[i].size >= s[j].size
  {
    var le := Order(v.sortBy, collate);
    assert Sorting.TotalPreorder(le);
    Sorting.SortSorted(FilterFiles(files, v), le);
    var s := FilteredFiles(files, v, collate);
    assert s == Sorting.Sort(FilterFiles(files, v), le);
    forall i, j | 0 <= i < j < |s|
      ensures s[i].size >= s[j].size
    {
      assert Sorting.Sorted(s, le);
      assert le(s[i], s[j]);
    }
  }

  /** "date", and any other value: newest first. */
  lemma DateSortNonIncreasing(files: seq<UiFile>, v: View, collate: (string, string) -> int)
    requires v.sortBy != "size" && v.sortBy != "name"
    ensures var s := FilteredFiles(files, v, collate);
      forall i, j :: 0 <= i < j < |s| ==> s[i].createdAt >= s[j].createdAt
  {
    var le := Order(v.sortBy, collate);
    assert Sorting.TotalPreorder(le);
    Sorting.SortSorted(FilterFiles(files, v), le);
    var s := FilteredFiles(files, v, collate);
    assert s == Sorting.Sort(FilterFiles(files, v), le);
    forall i, j | 0 <= i < j < |s|
      ensures s[i].createdAt >= s[j].createdAt
    {
      assert Sorting.Sorted(s, le);
      assert le(s[i], s[j]);
    }
  }

  /** "name": in `localeCompare` order, for any collation that is consistent. */
  lemma NameSortOrdered(files: seq<UiFile>, v: View, collate: (string, string) -> int)
    requires v.sortBy == "name"
    requires forall a, b :: collate(a, b) <= 0 || collate(b, a) <= 0
    requires forall a, b, c :: collate(a, b) <= 0 && collate(b, c) <= 0 ==> collate(a, c) <= 0
    ensures var s := FilteredFiles(files, v, collate);
      forall i, j :: 0 <= i < j < |s| ==> collate(s[i].name, s[j].name) <= 0
  {
    var le := Order(v.sortBy, collate);
    assert Sorting.TotalPreorder(le) by {
      forall a: UiFile, b: UiFile ensures le(a, b) || le(b, a) {
        assert collate(a.name, b.name) <= 0 || collate(b.name, a.name) <= 0;
      }
      forall a: UiFile, b: UiFile, c: UiFile | le(a, b) && le(b, c) ensures le(a, c) {
        assert collate(a.name, b.name) <= 0 && collate(b.name, c.name) <= 0;
      }
    }
    Sorting.SortSorted(FilterFiles(files, v), le);
    var s := FilteredFiles(files, v, collate);
    assert s == Sorting.Sort(FilterFiles(files, v), le);
    forall i, j | 0 <= i < j < |s|
      ensures collate(s[i].name, s[j].name) <= 0
    {
      assert Sorting.Sorted(s, le);
      assert le(s[i], s[j]);
    }
  }

  // ---------------------------------------------------------------------------
  // getFileIcon

  const Paperclip: string := "\U{1F4CE}"

  /** `icons[type] || "📎"` over the object's own keys. */
  function FileIcon(fileType: string): (icon: string)
    ensures fileType == "image" ==> icon == "\U{1F5BC}\U{FE0F}"
    ensures fileType == "pdf" ==> icon == "\U{1F4C4}"
    ensures fileType == "video" ==> icon == "\U{1F3A5}"
    ensures fileType == "audio" ==> icon == "\U{1F3B5}"
    ensures fileType == "document" ==> icon == "\U{1F4DD}"
    ensures fileType !in {"image", "pdf", "video", "audio", "document"} ==> icon == Paperclip
  {
    match fileType
    case "image" => "\U{1F5BC}\U{FE0F}"
    case "pdf" => "\U{1F4C4}"
    case "video" => "\U{1F3A5}"
    case "audio" => "\U{1F3B5}"
    case "document" => "\U{1F4DD}"
    case _ => Paperclip
  }

  /** Each of the five known types has its own icon, distinct from the fallback. */
  lemma FileIconsDistinct(a: string, b: string)
    requires a in {"image", "pdf", "video", "audio", "document"}
    requires b in {"image", "pdf", "video", "audio", "document"}
    ensures FileIcon(a) != Paperclip
    ensures a != b ==> FileIcon(a) != FileIcon(b)
  {
  }
}
