/** GET /filesystem: list the persistent directory and, when a
    `filenameIndex` is given, show the entry at that index if it is a
    readable file. Directory listing, `lstat` and `readFile` are inputs. */
module Filesystem {
  import opened Common

  const FILE_NOT_FOUND := "File not found."

  /** The `filenameIndex` query parameter as the comparison
      `index < items.length` sees it. */
  datatype IndexQuery =
    | NoIndex            // the parameter is absent
    | IndexValue(n: int) // the canonical decimal text of an integer
    | NotNumeric         // text that converts to NaN

  /** What the handler does after reading the directory. */
  datatype FileStep = ShowListing | ReadEntry(name: string) | FileNotFound

  /** The index check as written: a negative index passes
      `index < items.length`, and `items[index]` is then `undefined`; the
      result is `None` for that case, where `path.resolve` is handed
      `undefined` and throws inside the callback. */
  function SelectFileAsWritten(items: seq<string>, q: IndexQuery): (r: Option<FileStep>)
  {
    match q
    case NoIndex => Some(ShowListing)
    case NotNumeric => Some(FileNotFound)
    case IndexValue(n) =>
      if n < |items| then (if 0 <= n then Some(ReadEntry(items[n])) else None)
      else Some(FileNotFound)
  }

  /** The index check as evidently intended: only an index that names an
      entry leads to a read. */
  function SelectFile(items: seq<string>, q: IndexQuery): (r: FileStep)
    ensures r == ShowListing <==> q == NoIndex
    ensures r.ReadEntry? <==> q.IndexValue? && 0 <= q.n < |items|
    ensures r.ReadEntry? ==> r.name == items[q.n]
    ensures r == FileNotFound <==> q.NotNumeric? || (q.IndexValue? && !(0 <= q.n < |items|))
  {
    match q
    case NoIndex => ShowListing
    case NotNumeric => FileNotFound
    case IndexValue(n) => if 0 <= n < |items| then ReadEntry(items[n]) else FileNotFound
  }

  /** The two agree on every query except a negative index, where the code as
      written reads an entry that does not exist. */
  lemma AsWrittenDiffersOnlyOnNegativeIndex(items: seq<string>, q: IndexQuery)
    ensures SelectFileAsWritten(items, q) == None <==> q.IndexValue? && q.n < 0
    ensures SelectFileAsWritten(items, q) != None ==> SelectFileAsWritten(items, q) == Some(SelectFile(items, q))
  {
  }

  /** `?filenameIndex=-1` on a directory holding one file. */
  lemma NegativeIndexReachesUndefinedEntry()
    ensures SelectFileAsWritten(["notes.txt"], IndexValue(-1)) == None
    ensures SelectFile(["notes.txt"], IndexValue(-1)) == FileNotFound
  {
  }

  /** A filesystem operation the handler issues. */
  datatype FsCall = Lstat(name: string) | ReadFile(name: string)

  datatype FsHandled = FsHandled(response: Response, calls: seq<FsCall>)

  /** `if (!items) { items = []; }` */
  function Entries(found: Option<seq<string>>): seq<string>
  {
    if found.Some? then found.value else []
  }

  /** The page shown when the selected entry is not a regular file. */
  function NotAFileMessage(name: string): string
  {
    "Path (" + name + ") is not a file. Please only attempt to read files."
  }

  /** The whole GET /filesystem handler. `listing` is `readdir`'s reply (its
      value may be `undefined`), `stat` says whether the entry is a file. */
  function FilesystemHandler(listing: Reply<Option<seq<string>>>, q: IndexQuery, stat: Reply<bool>, read: Reply<string>): (h: FsHandled)
    ensures listing.Err? ==> h == FsHandled(ErrorPage(listing.detail), [])
    ensures forall name :: ReadFile(name) in h.calls <==>
      (&& listing.Ok?
       && SelectFile(Entries(listing.value), q) == ReadEntry(name)
       && stat == Ok(true))
    ensures listing.Ok? && q != NoIndex ==>
      (h.calls == [] <==> h.response == FilesystemPage(Entries(listing.value), Some(FILE_NOT_FOUND)))
    ensures listing.Ok? && q == NoIndex ==> h == FsHandled(FilesystemPage(Entries(listing.value), None), [])
    ensures listing.Ok? && SelectFile(Entries(listing.value), q) == FileNotFound ==>
      h == FsHandled(FilesystemPage(Entries(listing.value), Some(FILE_NOT_FOUND)), [])
    ensures listing.Ok? && SelectFile(Entries(listing.value), q).ReadEntry? ==>
      var name := SelectFile(Entries(listing.value), q).name;
      h.calls == [Lstat(name)] + (if stat == Ok(true) then [ReadFile(name)] else [])
    ensures listing.Ok? && SelectFile(Entries(listing.value), q).ReadEntry? ==>
      var name := SelectFile(Entries(listing.value), q).name;
      h.response == match stat
        case Err(detail) => ErrorPage(detail)
        case Ok(isFile) =>
          if !isFile then FilesystemPage(Entries(listing.value), Some(NotAFileMessage(name)))
          else if read.Ok? then FilePage(name, read.value)
          else ErrorPage(read.detail)
  {
    match listing
    case Err(detail) => FsHandled(ErrorPage(detail), [])
    case Ok(found) =>
      var items := Entries(found);
      match SelectFile(items, q)
      case ShowListing => FsHandled(FilesystemPage(items, None), [])
      case FileNotFound => FsHandled(FilesystemPage(items, Some(FILE_NOT_FOUND)), [])
      case ReadEntry(name) =>
        match stat
        case Err(detail) => FsHandled(ErrorPage(detail), [Lstat(name)])
        case Ok(isFile) =>
          if !isFile then
            FsHandled(FilesystemPage(items, Some(NotAFileMessage(name))), [Lstat(name)])
          else
            var calls := [Lstat(name), ReadFile(name)];
            match read
            case Err(detail) => FsHandled(ErrorPage(detail), calls)
            case Ok(contents) => FsHandled(FilePage(name, contents), calls)
  }
}
