# Digital-asset manager: a verified model of its core

This project models the core of a digital-asset manager, a NestJS and Prisma
backend with a Next.js frontend, in Dafny. Users register and log in, upload
files, group them in folders and label them with tags. Each file, folder and
tag belongs to one owner, and every service checks ownership before it reads
or writes.

The model covers:

- **The store.** The Prisma database becomes one class, `Store.Db`. It has a
  map per table, keyed by auto-increment id, and a set of `(fileId, tagId)`
  pairs for the join table. Its invariant `Valid()` says that:
  - every row carries its own key;
  - emails are unique;
  - tag names are unique per owner;
  - a file's folder exists and has the same owner as the file;
  - every FileTag links a file and a tag of the same owner.
- **The services.** `Files.FilesService`, `Folders.FoldersService`,
  `Tags.TagsService` and `Auth.AuthService` are classes over a shared `Db`.
  - Methods that write carry `modifies db` and state the whole new store.
  - Methods that only read state their answer through specification
    functions: `Files.Listing`, `Folders.FolderListing`, `Tags.TagListing`.
    Lemmas prove what those functions promise:
    - exactly the caller's rows;
    - every truthy filter holds;
    - newest first, or names in ascending order;
    - `total` counts every match;
    - `totalPages` is the least number of pages.
  - The ownership guard is written once (`Ownership.Guard`). It gives
    NotFound for a missing row before Forbidden for a foreign owner, and every
    service uses it before any write.
- **The HTTP layer of the file endpoints (`FilesApi`).** This covers:
  - the JWT guard on every route except the public preview;
  - query-string defaults;
  - `parseInt` of ids and pages;
  - the upload size limit and the missing-file check;
  - the name stored on disk, which keeps the extension;
  - the headers of the public preview and the owner-only download.
- **The files page (`FilesPage`).** The client-side filter and sort, and the
  icon for each type.
- **The request-body validators.** `Validation`, `RegisterDto`, `FolderDto`
  and `TagDto` model the length rules as class-validator measures them.

Ordering uses one stable insertion sort (`Sorting.Sort`). On the page it is
the browser's `Array.prototype.sort`, which is stable. For the database's
`orderBy` the rows reach it in id order, so rows with the same sort key come
out in id order; the database promises no particular order for them (see
"## Left out").

The JavaScript built-ins the code depends on are written out in `Js`:

- `parseInt` with no radix: leading white space, a sign, `0x`, and `NaN`;
- truthiness of `undefined`, `NaN` and `0`;
- `startsWith` and `includes`;
- ASCII `toLowerCase`;
- `String(n)`.

A Prisma error that Nest does not map reaches the client as HTTP 500 with
"Internal server error". The model treats these cases as such errors, as
`Fail(InternalError, "Internal server error")`:
- a foreign-key violation;
- deleting a row that does not exist;
- a negative `skip`;
- a `NaN` value in a query or an insert. This is an assumption about the
  database client (see "## Left out").

## Model

| member | source | states |
|---|---|---|
| Store.Db.constructor | backend/src/files/files.service.ts:9-12 | an empty store, with every id counter at 1, satisfies the store invariant: keyed rows, unique emails, unique tag names per owner, files in folders of their own owner, links between a file and a tag of the same owner |
| Ownership.Guard | backend/src/files/files.service.ts:169-175 | Ok exactly when the row exists and belongs to the caller, and then it is that row; NotFound with "<Entity> not found" exactly when the id is absent; Forbidden with "You do not have access to this <entity>" exactly when another user owns it |
| Ownership.GuardSeparatesOwners | backend/src/folders/folders.service.ts:60-66 | no row is let through to two different users |
| Files.GetFileType | backend/src/files/files.service.ts:271-285 | the type is always one of image, pdf, video, audio, document, other |
| Files.GetFileTypeRules | backend/src/files/files.service.ts:271-285 | each type holds exactly when its own test passes and no earlier test does: `image/` prefix, exactly `application/pdf`, `video/`, `audio/`, contains document/word/sheet/text, otherwise other |
| Files.GetFileTypeExamples | backend/src/files/files.service.ts:272-275 | image/png is image, application/pdf is pdf, video/mp4 is video, audio/mpeg is audio |
| Files.TextPlainIsDocument | backend/src/files/files.service.ts:276-282 | text/plain is a document |
| Files.WhereMeansSelected | backend/src/files/files.service.ts:78-103 | the `where` object built field by field from the truthy filters selects exactly the files the listing promises: the caller's, with each truthy filter holding and each falsy one ignored |
| Files.QueryIsSelection | backend/src/files/files.service.ts:109-112 | evaluating that `where` over the table gives the selection, in id order |
| Files.SelectionMembers | backend/src/files/files.service.ts:78-103 | a row is selected exactly when it is present and satisfies every truthy filter |
| Files.ListingMembers | backend/src/files/files.service.ts:75-131 | a file is listed exactly when it is in the table, belongs to the caller and passes every truthy filter |
| Files.ListingNewestFirst | backend/src/files/files.service.ts:113-115 | the listing is ordered by `createdAt`, newest first |
| Files.ListingTotal | backend/src/files/files.service.ts:130 | `total` counts every matching file of the table, not one page |
| Files.Window | backend/src/files/files.service.ts:106-112 | `skip`/`take` returns exactly min(`take`, rows left) rows, the ones that follow the first `skip` |
| Files.CeilDivBounds | backend/src/files/files.service.ts:139 | `Math.ceil(total / limit)` is the least page count whose pages hold `total` rows, and is 0 exactly for no rows |
| Files.PageNonEmpty | backend/src/files/files.service.ts:106-139 | page p (from 1) is non-empty exactly when p is at most `totalPages` |
| Files.PaginationExample | backend/src/files/files.service.ts:106-139 | 25 matches with limit 20: page 2 holds the last 5, and there are 2 pages |
| Files.BuildWhere | backend/src/files/files.service.ts:78-103 | the `where` object has the caller as owner and holds each filter exactly when it is truthy: the search as a name substring, the type, the folder id and a tag id |
| Files.ListPage | backend/src/files/files.service.ts:105-141 | InternalError exactly when the page is not a number of at least 1; otherwise min(`limit`, rows left) files, exactly the rows of the newest-first listing that follow the first `(page-1)*limit`, non-empty exactly when the page is at most `totalPages`, and the pagination block over the whole listing |
| Files.PageOf | backend/src/files/files.service.ts:105-141 | exactly min(`limit`, rows left after the first `(page-1)*limit`) rows, the ones that follow those, in order; non-empty exactly when `page` is at most `totalPages`; `total` and `totalPages` are taken over all rows |
| Files.FilesService.FindAll | backend/src/files/files.service.ts:75-142 | for a page that is a number of at least 1: Ok with the window `(page-1)*limit` of the newest-first listing, and `{page, limit, total, totalPages}`; otherwise the database refuses the `skip` |
| Files.FilesService.FindOne | backend/src/files/files.service.ts:144-178 | NotFound for an absent id, Forbidden for another owner, otherwise the file |
| Files.FilesService.FindOnePublic | backend/src/files/files.service.ts:180-190 | NotFound for an absent id, otherwise the file whoever asks |
| Files.FilesService.UploadFile | backend/src/files/files.service.ts:14-73 | a truthy `folderId` must name a folder of the caller (NotFound, then Forbidden, nothing written); `NaN` or 0 skips that check, and the insert is taken to fail; on success a new file with the next id, the original name, `GetFileType(mimetype)`, the caller as owner and the folder, with the id counter advanced and every other table unchanged; the mail outcome changes nothing |
| Files.FilesService.Remove | backend/src/files/files.service.ts:192-210 | the guard first (store unchanged on failure); on success the file and its FileTag rows are gone whether or not the bytes were unlinked, and nothing else changes |
| Files.FilesService.AddTag | backend/src/files/files.service.ts:212-252 | the file guard; a tag that is missing or foreign is NotFound; an existing pair is returned as it is with the store unchanged; otherwise the pair is added and returned with its tag |
| Files.FilesService.RemoveTag | backend/src/files/files.service.ts:254-269 | only the file's owner is checked; a pair that does not exist is a database error; otherwise exactly that pair is removed |
| Folders.FolderListingMembers | backend/src/folders/folders.service.ts:18-22 | the folder listing holds exactly the caller's folders |
| Folders.FolderListingNewestFirst | backend/src/folders/folders.service.ts:30-32 | folders are listed newest first |
| Folders.FolderFilesMembers | backend/src/folders/folders.service.ts:40-51 | a folder's `files` are exactly the files whose `folderId` is that folder |
| Folders.FolderFilesNewestFirst | backend/src/folders/folders.service.ts:48-50 | a folder's files are newest first |
| Folders.FolderFilesCount | backend/src/folders/folders.service.ts:52-56 | `_count.files` equals the number of files listed |
| Folders.DropFolderFiles | backend/src/folders/folders.service.ts:111-114 | under the cascade rule, exactly the files outside the folder stay, unchanged |
| Folders.DetachFolderFiles | backend/src/folders/folders.service.ts:111-114 | under the set-null rule, every file stays and only the deleted folder's files lose their folder |
| Folders.RemovalKeepsStore | backend/src/folders/folders.service.ts:111-116 | under either rule the store stays consistent, and no file refers to the deleted folder |
| Folders.FoldersService.Create | backend/src/folders/folders.service.ts:9-16 | a new folder with the next id, the given name and the caller as owner; nothing else changes |
| Folders.FoldersService.FindAll | backend/src/folders/folders.service.ts:18-34 | the caller's folders newest first, each with the number of its files |
| Folders.FoldersService.FindOne | backend/src/folders/folders.service.ts:36-69 | NotFound, then Forbidden; otherwise the folder with its files newest first and their count |
| Folders.FoldersService.Update | backend/src/folders/folders.service.ts:71-92 | NotFound, then Forbidden, with nothing written; on success only that folder's name changes |
| Folders.FoldersService.Remove | backend/src/folders/folders.service.ts:94-117 | NotFound, then Forbidden, with nothing written; on success the folder is gone, `filesDeleted` is the number of files it held before, and its files follow the store's delete rule |
| Folders.FoldersService.MoveFile | backend/src/folders/folders.service.ts:119-156 | folder NotFound, then folder Forbidden, then file NotFound, then file Forbidden, with nothing written; on success only that file's `folderId` changes, to the target |
| Tags.TagListingMembers | backend/src/tags/tags.service.ts:30-34 | the tag listing holds exactly the caller's tags |
| Tags.TagListingByName | backend/src/tags/tags.service.ts:42-44 | tags are listed in ascending name order |
| Tags.TaggedFilesCount | backend/src/tags/tags.service.ts:50-66 | in a consistent store, the number of files a tag lists equals its `_count.files` |
| Tags.TagsService.Create | backend/src/tags/tags.service.ts:9-28 | Conflict exactly when the caller already has a tag of that name (another user's tag does not block it), with nothing written; otherwise a new tag of the caller; per-owner names stay unique |
| Tags.TagsService.FindAll | backend/src/tags/tags.service.ts:30-46 | the caller's tags by name, each with its number of files |
| Tags.TagsService.FindOne | backend/src/tags/tags.service.ts:48-78 | NotFound, then Forbidden; otherwise the tag with the files it is attached to and their count |
| Tags.TagsService.Remove | backend/src/tags/tags.service.ts:80-98 | NotFound, then Forbidden, with nothing written; on success the tag and its FileTag rows are gone, and no other tag or file changes |
| Auth.WithoutPassword | backend/src/auth/auth.service.ts:49-50 | the returned user keeps id, email, name, role and createdAt and has no password |
| Auth.SessionFor | backend/src/auth/auth.service.ts:71-86 | the token signs `{sub: id, email, role}`; the user is `{id, email, name, role}` |
| Auth.AuthService.Register | backend/src/auth/auth.service.ts:17-51 | Conflict "Email already registered" exactly when the email is taken, with nothing written; otherwise a new user with the hashed password and role "user", returned without its password; the mail outcome changes nothing |
| Auth.AuthService.Login | backend/src/auth/auth.service.ts:53-87 | an unknown email and a wrong password both give Unauthorized "Invalid credentials"; a matching password gives the session for that user; the store is only read |
| Auth.AuthService.ValidateUser | backend/src/auth/auth.service.ts:90-107 | Unauthorized "User not found" for an absent id; otherwise the user without its password |
| Auth.LoginFailuresAlike | backend/src/auth/auth.service.ts:59-68 | with unique emails, login fails exactly when no user has that email and that password, and every failure is the same value |
| Auth.RegisteredUserCanLogIn | backend/src/auth/auth.service.ts:28-38 | after registering, the new user is the only one with that email and the password matches, given that bcrypt accepts its own hash |
| FilesApi.OptionalInt | backend/src/files/files.controller.ts:59 | `undefined` exactly when the field is missing or empty; otherwise `parseInt` of it |
| FilesApi.ListQuery | backend/src/files/files.controller.ts:74-81 | search and type pass through; ids are parsed or undefined; page defaults to 1 and limit to 20 when missing or empty |
| FilesApi.ListQueryDefaults | backend/src/files/files.controller.ts:77-80 | with no query string every filter is off, page is 1 and limit is 20 |
| FilesApi.ListQueryNumbers | backend/src/files/files.controller.ts:77-80 | numbers written with `String(n)` reach the service as those numbers |
| FilesApi.ExtName | backend/src/files/files.controller.ts:38 | the extension is empty, or a dot followed by neither a dot nor a separator |
| FilesApi.StoredName | backend/src/files/files.controller.ts:36-40 | the name stored on disk has the same extension as the client's file name, whatever the time and random number, and has no separator, so it stays in the upload directory |
| FilesApi.StoredNameKeepsExtension | backend/src/files/files.controller.ts:36-40 | a time, a dash, a random number and an extension make a name with that extension and no path separator |
| FilesApi.ContentType | backend/src/files/files.controller.ts:95-103 | image gives image/jpeg, pdf application/pdf, video video/mp4, audio audio/mpeg, anything else application/octet-stream |
| FilesApi.ContentTypeOfUpload | backend/src/files/files.controller.ts:95-103 | an image upload is previewed as an image and a video as a video, a PDF as itself, and documents and other files as octet-stream |
| FilesApi.FilesController.ViewFile | backend/src/files/files.controller.ts:84-109 | no guard: NotFound for an absent id, otherwise inline headers with the type's content type and `Access-Control-Allow-Origin: *` for any caller |
| FilesApi.FilesController.DownloadFile | backend/src/files/files.controller.ts:111-128 | Unauthorized without a token; then NotFound, then Forbidden; otherwise an octet-stream attachment |
| FilesApi.FilesController.FindOne | backend/src/files/files.controller.ts:130-134 | Unauthorized without a token; then NotFound, then Forbidden; otherwise the caller's file |
| FilesApi.FilesController.Remove | backend/src/files/files.controller.ts:136-140 | Unauthorized without a token; then NotFound, then Forbidden, with nothing written on any failure; Ok exactly for the caller's own file, and then that file and its FileTag rows are gone and users, folders and tags are unchanged |
| FilesApi.FilesController.AddTag | backend/src/files/files.controller.ts:142-150 | Unauthorized without a token; then NotFound, then Forbidden for the file, with nothing written on any failure; Ok exactly when the file and the tag are both the caller's, and then the link is present and the tables other than FileTag are unchanged |
| FilesApi.FilesController.RemoveTag | backend/src/files/files.controller.ts:152-160 | Unauthorized without a token; then NotFound, then Forbidden for the file, with nothing written on any failure; Ok exactly when the file is the caller's and carries the tag, and then only that link is gone |
| FilesApi.FilesController.FindAll | backend/src/files/files.controller.ts:63-82 | Unauthorized without a token; otherwise the service's page for the defaulted filters |
| FilesApi.FilesController.UploadFile | backend/src/files/files.controller.ts:30-61 | Unauthorized without a token, then PayloadTooLarge over 10 MiB, then BadRequest "No file uploaded", each with nothing written; then for the parsed `folderId`: NotFound or Forbidden for a missing or foreign folder, InternalError for `NaN` or 0, nothing written on any failure; Ok exactly when the parsed id is undefined or names a folder of the caller, and then the new file, the id counter advanced and every other table unchanged; a missing or empty `folderId` always uploads |
| FilesPage.FilterFilesMembers | frontend/app/dashboard/files/page.tsx:170-183 | a file passes the filter exactly when it was fetched and matches |
| FilesPage.FilteredMembers | frontend/app/dashboard/files/page.tsx:170-194 | a file is shown exactly when it was fetched and passes the search, type, folder and tag tests |
| FilesPage.FilteredFiles | frontend/app/dashboard/files/page.tsx:170-194 | the shown list is a rearrangement of the files that pass the filter, and every shown file was fetched and matches all four filters |
| FilesPage.Order | frontend/app/dashboard/files/page.tsx:184-194 | "name" puts a before b when `localeCompare` is at most 0, "size" when a is at least as large, anything else when a is at least as new; the size and date orders are total preorders |
| FilesPage.SearchIgnoresCase | frontend/app/dashboard/files/page.tsx:171-173 | lower-casing the query or the name does not change whether a file matches |
| FilesPage.InitialViewKeepsAll | frontend/app/dashboard/files/page.tsx:170-183 | an empty search with type, folder and tag on "all" keeps every file in order |
| FilesPage.NoneFolderFilter | frontend/app/dashboard/files/page.tsx:175-178 | with folder ids from 1, "none" keeps exactly the files without a folder |
| FilesPage.SizeSortNonIncreasing | frontend/app/dashboard/files/page.tsx:189-190 | "size" shows the largest first |
| FilesPage.DateSortNonIncreasing | frontend/app/dashboard/files/page.tsx:191-193 | "date", and any other value, shows the newest first |
| FilesPage.NameSortOrdered | frontend/app/dashboard/files/page.tsx:187-188 | "name" shows names in `localeCompare` order, for any consistent collation |
| FilesPage.FileIcon | frontend/app/dashboard/files/page.tsx:159-168 | the five known types map to their icons; every other string maps to the paperclip |
| FilesPage.FileIconsDistinct | frontend/app/dashboard/files/page.tsx:159-168 | the five icons differ from each other and from the paperclip |
| Validation.LengthErrors | backend/src/tags/dto/create-tag.dto.ts:4-6 | a value that is not a string fails all three checks; a string gets the minimum message exactly when it is too short and the maximum one exactly when it is too long; no message exactly when its length is within bounds |
| Validation.ZeroLengthSelectorsOnly | backend/src/tags/dto/create-tag.dto.ts:5 | a string measures 0 exactly when it holds only variation selectors |
| RegisterDto.RegisterErrors | backend/src/auth/dto/register.dto.ts:3-15 | a body is accepted exactly when the email passes the address check, the password is 8 to 100 long and the name 2 to 100 long |
| RegisterDto.RegisterBounds | backend/src/auth/dto/register.dto.ts:7-15 | "Password must be at least 8 characters long" exactly below 8, "Password is too long" exactly above 100, and the same for the name with 2 and 100 |
| FolderDto.CreateFolderErrors | backend/src/folders/dto/create-folder.dto.ts:3-8 | a name is accepted exactly when it is a string of length 1 to 100; "Folder name is required" exactly at length 0; "Folder name is too long" exactly above 100 |
| FolderDto.UpdateFolderErrors | backend/src/folders/dto/create-folder.dto.ts:10-14 | a new name is accepted exactly when it is a string of length 1 to 100 |
| FolderDto.SameRulesForCreateAndUpdate | backend/src/folders/dto/create-folder.dto.ts:3-14 | creating and renaming accept the same names with the same messages |
| TagDto.CreateTagErrors | backend/src/tags/dto/create-tag.dto.ts:3-7 | a name is accepted exactly when it is a string of length 1 to 50; a non-string gets "name must be a string"; "Tag name is required" exactly at length 0; "Tag name is too long (max 50 characters)" exactly above 50 |
| TagDto.SelectorsOnlyIsRequired | backend/src/tags/dto/create-tag.dto.ts:5 | a name made only of variation selectors counts as empty and is refused as missing |
| Js.ParseInt | backend/src/files/files.controller.ts:59 | never `undefined`; `NaN` for a blank string and for one whose first non-blank character is neither a sign nor a digit |
| Js.ParseIntShow | backend/src/files/files.controller.ts:77-80 | `parseInt(String(n))` is `n` for every integer |
| Js.IncludesAt | backend/src/files/files.service.ts:276-281 | `includes` holds exactly when the substring occurs at some position |
| Sorting.SortSorted | backend/src/files/files.service.ts:113-115 | the stable sort orders its output by any total preorder |
| Sorting.SortSameElements | backend/src/folders/folders.service.ts:30-32 | sorting keeps exactly the elements it was given |

## Left out

- Mail: the welcome mail and the upload notification are SMTP I/O. The model takes whether the mail was sent as a parameter (`mailSent`) and shows that the outcome does not depend on it.
- bcrypt and JWT: `hash`, `compare` and `sign` are function-valued fields of `Auth.Crypto`. The salt is a parameter. The token's 7-day expiry is library configuration.
- Disk and streams:
  - `existsSync`/`unlinkSync` on delete: `Files.FilesService.Remove` takes `unlinked` and deletes the row either way.
  - multer writes the upload to disk before the service runs, so a refused upload leaves its bytes on disk. This is not modelled.
  - `createReadStream` and `StreamableFile` are not modelled; the preview and download return only the headers.
  - `Date.now()` and `Math.random()` in the stored name are the parameters of `FilesApi.StoredName`.
- Included relations: the owner, folder and tag objects that `include` attaches to results are not modelled. Results carry the rows, plus the counts and files stated above.
- Concurrency: `Promise.all` in the file listing is modelled as two reads of the same store.
- Folder deletion: the schema that decides what happens to a folder's files is not part of this model. `Db.onFolderDelete` chooses between cascading and setting the folder to null, and `Folders.FoldersService.Remove` is proved under both. FileTag rows are taken to cascade with their file or tag.
- Owners as foreign keys: creating a row does not check that the caller exists as a user. The model assumes that the JWT guard only passes ids of existing users; the JWT strategy is not part of this model.
- Collation: `contains` on names is case-sensitive, and tag names sort in code-point order (`Store.LexLe`). A database with another collation would differ.
- `localeCompare` is the parameter `collate` of the page's name sort.
- Files.FilesService.FindAll: requires a positive numeric `limit`. With `limit` 0 the page count divides by zero, and with a negative `limit` Prisma takes rows from the end. Neither is modelled.
- FilesApi.FilesController.FindAll: carries the same positive-limit requirement on the parsed `limit`.
- Numbers: integers are unbounded. JavaScript numbers are exact only up to 2^53, and `parseInt` of longer digit strings loses precision. Timestamps are integers.
- Object-literal lookups: `icons[type]` and `contentTypes[file.type]` would also find names inherited from `Object.prototype`, such as "constructor". The model covers only the literal's own keys. Stored types always come from `Files.GetFileType`, which never returns such a name.
- Lower-casing: `toLowerCase` is modelled for ASCII letters only.
- Validation:
  - `@IsEmail` is the parameter `isEmail`;
  - `forbidNonWhitelisted` (unknown properties), the order of the messages and the response shape are not modelled;
  - lone UTF-16 surrogates cannot occur in the model's strings.
- Login body: the login DTO file is not part of this model, so `Auth.AuthService.Login` takes its email and password as given.
- Ties in `orderBy`: rows with the same `createdAt` are put in id order by the model. The database leaves their order unspecified, so it may differ, also between the pages of one listing.
- `NaN` in a query or an insert: the model takes a `NaN` `skip` and a `NaN` `folderId` to be refused by the database, as an internal error. What Prisma does with `NaN` depends on the client version. A client that sends it as null would store the file without a folder.
- Route ids: every `:id`, `:fileId` and `:tagId` of the file routes goes through `ParseIntPipe`, which answers a non-numeric id with 400 before any lookup. The model takes these ids as integers and does not model that 400 answer.
- Other code: the folders, tags and auth controllers only pass arguments through, except that they are guarded. Module wiring, the UI state and fetch code of the pages, and number formatting with floating point are not modelled.
