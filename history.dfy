/** The conversation store: the transcript, the bookmarks and the saved sessions
    of one run, persisted together as one JSON object in one file. */
module History {
  import opened Results
  import opened JsonValue

  const HistoryKey: string := "history"
  const BookmarksKey: string := "bookmarks"
  const SessionsKey: string := "sessions"

  /** The file name used when no path is given, below the user's home directory. */
  const DefaultFileName: string := "/.context7_history.json"

  function DefaultPath(home: string): (p: string)
    ensures |p| == |home| + |DefaultFileName| && p[..|home|] == home && p[|home|..] == DefaultFileName
  {
    home + DefaultFileName
  }

  /** What a path may hold: a JSON document, or text the JSON decoder rejects. */
  datatype FileContent = Parsed(doc: Json) | Unparsable

  /** The three lists of a store, in the order the file lists them. */
  datatype Lists = Lists(history: seq<Json>, bookmarks: seq<Json>, sessions: seq<Json>)

  const NoLists: Lists := Lists([], [], [])

  /** Why a load raises instead of returning. */
  datatype LoadError =
    | NotAnObject           // the document is not an object: `data.get` does not exist
    | NonListValue(key: string)  // a key holds something other than a list

  /** How `load` ends: it returns, or an exception leaves it. */
  datatype LoadStatus = Returned | Raised(error: LoadError)

  /** The document `save` writes: one object with the three lists under their keys. */
  function Document(l: Lists): (doc: Json)
    ensures doc.JObject? && doc.fields.Keys == {HistoryKey, BookmarksKey, SessionsKey}
  {
    JObject(map[HistoryKey := JArray(l.history),
                BookmarksKey := JArray(l.bookmarks),
                SessionsKey := JArray(l.sessions)])
  }

  /** `data.get(key, [])`, where the value must be a list to fit a list field. */
  function ListAt(fields: map<string, Json>, key: string): (r: Result<seq<Json>, LoadError>)
    ensures key !in fields ==> r == Ok([])
    ensures key in fields && fields[key].JArray? ==> r == Ok(fields[key].items)
    ensures r.Err? ==> r.error == NonListValue(key)
  {
    if key !in fields then Ok([])
    else match fields[key]
      case JArray(items) => Ok(items)
      case _ => Err(NonListValue(key))
  }

  /** The lists a load leaves, given what the path holds (`None`: no file) and the
      lists before the load; an error means the load raised and changed nothing. */
  function ApplyLoad(file: Option<FileContent>, current: Lists): (r: Result<Lists, LoadError>)
    ensures r.Err? ==> file.Some? && file.value.Parsed?
    ensures r.Ok? && file.Some? && file.value.Parsed? ==> file.value.doc.JObject?
  {
    match file
    case None => Ok(current)
    case Some(Unparsable) => Ok(NoLists)
    case Some(Parsed(JObject(fields))) =>
      var h :- ListAt(fields, HistoryKey);
      var b :- ListAt(fields, BookmarksKey);
      var s :- ListAt(fields, SessionsKey);
      Ok(Lists(h, b, s))
    case Some(Parsed(_)) => Err(NotAnObject)
  }

  /** Loading what `save` wrote gives back the saved lists, in their order, whatever
      the store held before. */
  lemma LoadAfterSave(l: Lists, current: Lists)
    ensures ApplyLoad(Some(Parsed(Document(l))), current) == Ok(l)
  {
  }

  /** No file: the load returns and the lists stay as they were. */
  lemma LoadMissingFile(current: Lists)
    ensures ApplyLoad(None, current) == Ok(current)
  {
  }

  /** Unparsable content: the load returns with all three lists empty. */
  lemma LoadUnparsable(current: Lists)
    ensures ApplyLoad(Some(Unparsable), current) == Ok(NoLists)
  {
  }

  /** A parsed object replaces the lists rather than merging into them: each list is
      the one under its key, or empty when the key is absent. */
  lemma LoadObjectReplaces(fields: map<string, Json>, current: Lists)
    requires forall k :: k in fields && k in {HistoryKey, BookmarksKey, SessionsKey} ==> fields[k].JArray?
    ensures ApplyLoad(Some(Parsed(JObject(fields))), current)
         == Ok(Lists(if HistoryKey in fields then fields[HistoryKey].items else [],
                     if BookmarksKey in fields then fields[BookmarksKey].items else [],
                     if SessionsKey in fields then fields[SessionsKey].items else []))
  {
  }

  /** A document that is not an object (a legacy bare list, say) is not tolerated: the
      load raises and the lists stay as they were. */
  lemma LoadNonObjectRaises(doc: Json, current: Lists)
    requires !doc.JObject?
    ensures ApplyLoad(Some(Parsed(doc)), current) == Err(NotAnObject)
  {
  }

  /** A key holding something other than a list makes the model's load raise
      (where the source would store that value in the field). */
  lemma LoadNonListRaises(fields: map<string, Json>, key: string, current: Lists)
    requires key in {HistoryKey, BookmarksKey, SessionsKey}
    requires key in fields && !fields[key].JArray?
    ensures ApplyLoad(Some(Parsed(JObject(fields))), current).Err?
  {
  }

  /** `doc in bookmarks`: some bookmark is `==` to `doc`. */
  predicate Bookmarked(bookmarks: seq<Json>, doc: Json) {
    exists i :: 0 <= i < |bookmarks| && PyEq(bookmarks[i], doc)
  }

  /** No two records of `s` are `==`. */
  predicate NoDuplicates(s: seq<Json>) {
    forall i, j :: 0 <= i < j < |s| ==> !PyEq(s[i], s[j])
  }

  /** How many records of `s` are `==` to `doc`. */
  function Count(s: seq<Json>, doc: Json): nat {
    if s == [] then 0
    else Count(s[..|s| - 1], doc) + (if PyEq(s[|s| - 1], doc) then 1 else 0)
  }

  /** The bookmarks after bookmarking `doc`: it is appended unless a record `==`
      to it is already there. */
  function WithBookmark(bookmarks: seq<Json>, doc: Json): (r: seq<Json>)
    ensures |bookmarks| <= |r| <= |bookmarks| + 1 && r[..|bookmarks|] == bookmarks
    ensures Bookmarked(r, doc)
  {
    PyEqReflexive(doc);
    assert (bookmarks + [doc])[|bookmarks|] == doc;
    if Bookmarked(bookmarks, doc) then bookmarks else bookmarks + [doc]
  }

  /** Only `doc` can be added, at the end, and only when no `==` record was there;
      afterwards `doc` is bookmarked. */
  lemma BookmarkAppendsOnlyNew(bookmarks: seq<Json>, doc: Json)
    ensures Bookmarked(bookmarks, doc) ==> WithBookmark(bookmarks, doc) == bookmarks
    ensures !Bookmarked(bookmarks, doc) ==> WithBookmark(bookmarks, doc) == bookmarks + [doc]
    ensures Bookmarked(WithBookmark(bookmarks, doc), doc)
  {
    if !Bookmarked(bookmarks, doc) {
      PyEqReflexive(doc);
      assert (bookmarks + [doc])[|bookmarks|] == doc;
    }
  }

  /** Bookmarking the same record twice is the same as bookmarking it once. */
  lemma BookmarkIdempotent(bookmarks: seq<Json>, doc: Json)
    ensures WithBookmark(WithBookmark(bookmarks, doc), doc) == WithBookmark(bookmarks, doc)
  {
    BookmarkAppendsOnlyNew(bookmarks, doc);
  }

  /** Bookmarking keeps a duplicate-free list duplicate-free, and afterwards exactly
      one bookmark is `==` to `doc`, however often it was bookmarked. */
  lemma BookmarkKeepsNoDuplicates(bookmarks: seq<Json>, doc: Json)
    requires NoDuplicates(bookmarks)
    ensures NoDuplicates(WithBookmark(bookmarks, doc))
    ensures Count(WithBookmark(bookmarks, doc), doc) == 1
  {
    if Bookmarked(bookmarks, doc) {
      var i :| 0 <= i < |bookmarks| && PyEq(bookmarks[i], doc);
      CountUnique(bookmarks, doc, i);
    } else {
      var r := bookmarks + [doc];
      assert r[..|r| - 1] == bookmarks;
      CountNone(bookmarks, doc);
      PyEqReflexive(doc);
      forall i, j | 0 <= i < j < |r| ensures !PyEq(r[i], r[j]) {
        if j == |r| - 1 {
          assert !PyEq(bookmarks[i], doc);
        }
      }
    }
  }

  /** No record `==` to `doc`: the count is zero. */
  lemma {:induction false} CountNone(s: seq<Json>, doc: Json)
    requires !Bookmarked(s, doc)
    ensures Count(s, doc) == 0
  {
    if s != [] {
      var init := s[..|s| - 1];
      assert !Bookmarked(init, doc) by {
        forall k | 0 <= k < |init| ensures !PyEq(init[k], doc) { assert init[k] == s[k]; }
      }
      CountNone(init, doc);
    }
  }

  /** In a duplicate-free list, a record `==` to `doc` is the only one. */
  lemma {:induction false} CountUnique(s: seq<Json>, doc: Json, i: nat)
    requires NoDuplicates(s) && i < |s| && PyEq(s[i], doc)
    ensures Count(s, doc) == 1
  {
    var init := s[..|s| - 1];
    if i == |s| - 1 {
      assert !Bookmarked(init, doc) by {
        forall k | 0 <= k < |init| ensures !PyEq(init[k], doc) {
          assert init[k] == s[k];
          if PyEq(s[k], doc) {
            PyEqSymmetric(s[i], doc);
            PyEqTransitive(s[k], doc, s[i]);
            assert false;
          }
        }
      }
      CountNone(init, doc);
    } else {
      assert NoDuplicates(init) by {
        forall a, b | 0 <= a < b < |init| ensures !PyEq(init[a], init[b]) { assert init[a] == s[a] && init[b] == s[b]; }
      }
      assert init[i] == s[i];
      CountUnique(init, doc, i);
      if PyEq(s[|s| - 1], doc) {
        PyEqSymmetric(s[|s| - 1], doc);
        PyEqTransitive(s[i], doc, s[|s| - 1]);
        assert false;
      }
    }
  }

  /** The file system the store persists to: what each existing path holds. */
  class FileSystem {
    var files: map<string, FileContent>

    constructor (files: map<string, FileContent>)
      ensures this.files == files
    {
      this.files := files;
    }
  }

  /** A store bound to one path of a file system. */
  class HistoryManager {
    const filepath: string
    const fs: FileSystem
    var history: seq<Json>
    var bookmarks: seq<Json>
    var sessions: seq<Json>

    /** A store with empty lists. A missing or empty path means the default file
        below `home`, the user's home directory. */
    constructor (filepath: Option<string>, home: string, fs: FileSystem)
      ensures this.filepath == if filepath.Some? && filepath.value != "" then filepath.value else DefaultPath(home)
      ensures this.fs == fs
      ensures history == [] && bookmarks == [] && sessions == []
    {
      this.filepath := if filepath.Some? && filepath.value != "" then filepath.value else DefaultPath(home);
      this.fs := fs;
      history, bookmarks, sessions := [], [], [];
    }

    /** The three lists as one value. */
    function State(): Lists
      reads this
    {
      Lists(history, bookmarks, sessions)
    }

    /** What the store's path holds, `None` when there is no file. */
    function Stored(): (r: Option<FileContent>)
      reads this, fs
      ensures r.Some? <==> filepath in fs.files
      ensures r.Some? ==> r.value == fs.files[filepath]
    {
      if filepath in fs.files then Some(fs.files[filepath]) else None
    }

    /** Adds a message to the transcript; nothing else changes, nothing is written. */
    method Append(msg: Json)
      modifies this`history
      ensures history == old(history) + [msg]
      ensures bookmarks == old(bookmarks) && sessions == old(sessions)
    {
      history := history + [msg];
    }

    /** Empties the transcript only; nothing is written. */
    method Clear()
      modifies this`history
      ensures history == []
      ensures bookmarks == old(bookmarks) && sessions == old(sessions)
    {
      history := [];
    }

    /** Writes the three lists to the store's path; no other path changes. */
    method Save()
      modifies fs
      ensures fs.files == old(fs.files)[filepath := Parsed(Document(State()))]
    {
      fs.files := fs.files[filepath := Parsed(Document(State()))];
    }

    /** The asynchronous save: the same document as `Save`. */
    method SaveAsync()
      modifies fs
      ensures fs.files == old(fs.files)[filepath := Parsed(Document(State()))]
    {
      Save();
    }

    /** Reads the lists back from the store's path, as `ApplyLoad` says: no file
        changes nothing, unparsable content empties all three lists, an object
        replaces them key by key, and anything else raises and changes nothing. */
    method Load() returns (status: LoadStatus)
      modifies this`history, this`bookmarks, this`sessions
      ensures match ApplyLoad(Stored(), old(State()))
        case Ok(l) => State() == l && status == Returned
        case Err(e) => State() == old(State()) && status == Raised(e)
    {
      var file := if filepath in fs.files then Some(fs.files[filepath]) else None;
      match file {
        case None =>
          return Returned;
        case Some(Unparsable) =>
          history, bookmarks, sessions := [], [], [];
          return Returned;
        case Some(Parsed(doc)) =>
          if !doc.JObject? {
            return Raised(NotAnObject);
          }
          var h := ListAt(doc.fields, HistoryKey);
          var b := ListAt(doc.fields, BookmarksKey);
          var s := ListAt(doc.fields, SessionsKey);
          if h.Err? {
            return Raised(h.error);
          } else if b.Err? {
            return Raised(b.error);
          } else if s.Err? {
            return Raised(s.error);
          }
          history, bookmarks, sessions := h.value, b.value, s.value;
          return Returned;
      }
    }

    /** The asynchronous load: the same outcome as `Load`. */
    method LoadAsync() returns (status: LoadStatus)
      modifies this`history, this`bookmarks, this`sessions
      ensures match ApplyLoad(Stored(), old(State()))
        case Ok(l) => State() == l && status == Returned
        case Err(e) => State() == old(State()) && status == Raised(e)
    {
      status := Load();
    }

    /** Bookmarks `doc` unless a record `==` to it is already bookmarked; only when it
        was added is the store saved. */
    method AddBookmark(doc: Json)
      modifies this`bookmarks, fs
      ensures bookmarks == WithBookmark(old(bookmarks), doc)
      ensures history == old(history) && sessions == old(sessions)
      ensures Bookmarked(old(bookmarks), doc) ==> fs.files == old(fs.files)
      ensures !Bookmarked(old(bookmarks), doc) ==> fs.files == old(fs.files)[filepath := Parsed(Document(State()))]
      ensures NoDuplicates(old(bookmarks)) ==> NoDuplicates(bookmarks)
    {
      if NoDuplicates(bookmarks) {
        BookmarkKeepsNoDuplicates(bookmarks, doc);
      }
      if !Bookmarked(bookmarks, doc) {
        bookmarks := bookmarks + [doc];
        Save();
      }
    }

    /** The current bookmarks. */
    method GetBookmarks() returns (r: seq<Json>)
      ensures r == bookmarks
    {
      r := bookmarks;
    }

    /** Appends `session` (equal sessions are kept) and saves the store. */
    method AddSession(session: Json)
      modifies this`sessions, fs
      ensures sessions == old(sessions) + [session]
      ensures history == old(history) && bookmarks == old(bookmarks)
      ensures fs.files == old(fs.files)[filepath := Parsed(Document(State()))]
    {
      sessions := sessions + [session];
      Save();
    }

    /** The current sessions. */
    method GetSessions() returns (r: seq<Json>)
      ensures r == sessions
    {
      r := sessions;
    }
  }

  /** Saving a store and loading its path into a fresh store with the same path
      reproduces all three lists. */
  method ReloadInFreshManager(m: HistoryManager, home: string) returns (reloaded: HistoryManager)
    requires m.filepath != ""
    modifies m.fs
    ensures reloaded.filepath == m.filepath && reloaded.fs == m.fs
    ensures reloaded.State() == m.State()
  {
    m.SaveAsync();
    reloaded := new HistoryManager(Some(m.filepath), home, m.fs);
    LoadAfterSave(m.State(), reloaded.State());
    var status := reloaded.LoadAsync();
  }

  /** Appending a message to a new store, saving and loading it back leaves a
      transcript holding just that message. */
  method AppendSaveLoad(fs: FileSystem, path: string, home: string, msg: Json) returns (h: seq<Json>)
    modifies fs
    ensures h == [msg]
  {
    var m := new HistoryManager(Some(path), home, fs);
    m.Append(msg);
    m.Save();
    LoadAfterSave(m.State(), m.State());
    var status := m.Load();
    h := m.history;
  }

  /** Bookmarking the same record twice, starting empty, leaves one bookmark. */
  method BookmarkTwice(fs: FileSystem, path: string, home: string, doc: Json) returns (bs: seq<Json>)
    modifies fs
    ensures bs == [doc]
  {
    var m := new HistoryManager(Some(path), home, fs);
    m.AddBookmark(doc);
    BookmarkAppendsOnlyNew([], doc);
    m.AddBookmark(doc);
    bs := m.GetBookmarks();
  }
}
