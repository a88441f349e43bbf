# Conversation store and document helpers, in Dafny

This project models two parts of a terminal chat assistant that talks to a
retrieval tool server.

The first part is the conversation store, `HistoryManager`. It keeps three
ordered lists in memory: the chat transcript, the bookmarked documents and the
saved sessions. It writes all three to one JSON file and reads them back.
Appending and clearing touch only the transcript. Bookmarking skips a
record that is `==` to one already bookmarked, and saves when it adds one.
Adding a session always appends and saves. Loading does one of four things:
- a missing file leaves the lists as they were;
- unparsable content empties all three lists;
- an object replaces each list with the list under its key, or with an empty
  list when the key is absent;
- any other document (a bare list, for example) raises and changes nothing.

The second part is `filter_documents` and the message helpers. The filter
applies up to four filters in a fixed order, each one a list comprehension:
- file type;
- an inclusive date range, compared as Python strings;
- an inclusive size range;
- tag intersection.

A falsy argument (`None`, `""`, `[]`) turns its filter off. The model keeps
the exceptions these comprehensions raise. A range that does not unpack into
two bounds raises `ValueError`. A date, size or tags value of the wrong kind
raises `TypeError`.

Files:
- `results.dfy`: `Option` and `Result`. `Result` stands for a raised exception
  and works with `:-`.
- `json.dfy`: the JSON value type and Python's `==` on decoded values (`PyEq`).
  In Python `True == 1`, and dicts compare without regard to key order.
- `history.dfy`: module `History`. It holds `FileSystem`, a map from path to
  content that several stores can share, and the class `HistoryManager` with
  mutable `seq` fields. The pure functions beside the class specify its
  methods: `Document` is what a save writes, `ApplyLoad` is what a load does,
  and `WithBookmark` is what bookmarking does.
- `utils.dfy`: module `Utils`. It holds `FilterDocuments`, stage by stage as
  in the source, and a reference definition `Kept`: the documents that pass
  every active criterion, in their order. It also holds `LexLe`, Python's
  `<=` on `str`, and `FormatError`, `FormatSuccess` and `SyntaxHighlight`.

Inputs that come from outside the program are parameters. The file system is
a `FileSystem` object. The user's home directory is the `home` argument of
the constructor.

## Model

| member | source | states |
|---|---|---|
| History.HistoryManager.constructor | src/history.py:11-15 | all three lists start empty; the path is the given one, or the default file under `home` when none or `""` is given |
| History.DefaultPath | src/history.py:12 | the default path is the home directory followed by `/.context7_history.json` |
| History.HistoryManager.Append | src/history.py:17-19 | the transcript becomes the old transcript plus the message; bookmarks, sessions and the file system are unchanged |
| History.HistoryManager.Clear | src/history.py:21-23 | the transcript becomes empty; bookmarks, sessions and the file system are unchanged, so nothing is written |
| History.Document | src/history.py:27-31 | the saved document is an object whose keys are exactly `history`, `bookmarks` and `sessions` |
| History.HistoryManager.Save | src/history.py:25-34 | the store's path afterwards holds the document of the current three lists; every other path and every list is unchanged |
| History.HistoryManager.SaveAsync | src/history.py:51-60 | the same contract as `Save`: the same document for the same state |
| History.ListAt | src/history.py:43-45 | an absent key reads as the empty list and a key holding a list reads as that list; a key holding a non-list value is an error naming the key, a deviation of the model (the source stores the value and returns) |
| History.ApplyLoad | src/history.py:38-49 | a load can raise only when the path holds a parsed document, and a load that returns from a parsed document had an object; the four outcomes are stated by the lemmas below |
| History.HistoryManager.Stored | src/history.py:38-42 | the content a load reads: present exactly when the file system has a file at the store's path (`isfile`), and then that file's content (`open`) |
| History.HistoryManager.Load | src/history.py:36-49 | the lists afterwards are what `ApplyLoad` gives for the path's content and the old lists; when that raises, the lists are unchanged and the status carries the error |
| History.HistoryManager.LoadAsync | src/history.py:62-76 | the same contract as `Load` |
| History.LoadAfterSave | src/history.py:25-49 | loading the document a save wrote gives back exactly the saved lists, order included, whatever the lists were before |
| History.LoadMissingFile | src/history.py:38-39 | with no file, loading returns and leaves the lists as they were |
| History.LoadUnparsable | src/history.py:46-49 | unparsable content resets all three lists to empty and does not raise |
| History.LoadObjectReplaces | src/history.py:43-45 | an object replaces, not merges: each list is the list under its key, or empty when the key is absent, whatever the lists held before |
| History.LoadNonObjectRaises | src/history.py:42-46 | a document that is not an object raises (`AttributeError` is not among the caught exceptions), so a legacy bare list is not tolerated |
| History.LoadNonListRaises | src/history.py:43-45 | a key whose value is not a list makes the model's load fail; the source instead stores that value in the field and returns, a deviation recorded under "Left out" |
| History.WithBookmark | src/history.py:80-81 | bookmarking keeps the old bookmarks as a prefix, adds at most one record, and leaves `doc` bookmarked (some entry `==` to it) |
| History.BookmarkAppendsOnlyNew | src/history.py:78-82 | a record `==` to a bookmark leaves the bookmarks as they were; otherwise the record is appended at the end; either way it is bookmarked afterwards |
| History.BookmarkIdempotent | tests/test_history.py:62-67 | bookmarking the same record twice gives the same bookmarks as bookmarking it once |
| History.BookmarkKeepsNoDuplicates | src/history.py:80-81 | bookmarking keeps a duplicate-free list duplicate-free, and afterwards exactly one bookmark is `==` to the record |
| History.CountUnique | src/history.py:80 | in a duplicate-free list, a record `==` to the searched one is the only such record |
| History.HistoryManager.AddBookmark | src/history.py:78-82 | the bookmarks become `WithBookmark` of the old ones; the file is rewritten with the new lists exactly when the record was new, and is untouched otherwise; a duplicate-free list stays duplicate-free; the transcript and sessions are unchanged |
| History.HistoryManager.GetBookmarks | src/history.py:84-86 | returns the current bookmarks |
| History.HistoryManager.AddSession | src/history.py:88-91 | the sessions become the old sessions plus the new one, with no deduplication; the file then holds the new lists |
| History.HistoryManager.GetSessions | src/history.py:93-95 | returns the current sessions |
| History.ReloadInFreshManager | tests/test_history.py:157-176 | after an async save, a fresh store on the same path that loads asynchronously has the same three lists |
| History.AppendSaveLoad | tests/test_history.py:251-258 | append, save and load on a new store leaves a transcript holding just that message |
| History.BookmarkTwice | tests/test_history.py:62-67 | bookmarking one record twice on a new store leaves exactly that one bookmark |
| JsonValue.PyEq | src/history.py:80 | Python `==` behind `not in`: equal values are of the same kind (null, str, list, dict), except that a bool and an int may be equal; equal scalars are `==` |
| JsonValue.PyEqReflexive | src/history.py:80 | Python `==` on decoded JSON is reflexive, so a bookmarked record is found again |
| JsonValue.PyEqSymmetric | src/history.py:80 | Python `==` on decoded JSON is symmetric |
| JsonValue.PyEqTransitive | src/history.py:80 | Python `==` on decoded JSON is transitive |
| Utils.LexLe | src/utils.py:22 | Python `<=` on `str`, by code point; a prefix is `<=` the longer string |
| Utils.LexLeReflexive | src/utils.py:22 | the string order used for dates is reflexive |
| Utils.LexLeAntisymmetric | src/utils.py:22 | two dates that are each `<=` the other are equal |
| Utils.LexLeTransitive | src/utils.py:22 | the string order used for dates is transitive |
| Utils.LexLeTotal | src/utils.py:22 | any two dates are comparable |
| Utils.DateText | src/utils.py:22 | `d.get("date", "")`: `""` when the key is absent, the string when the value is a str, and no string (a comparison that raises) otherwise |
| Utils.SizeNumber | src/utils.py:25 | `d.get("size", 0)`: 0 when the key is absent, the int, or 0/1 for a bool; no number (a comparison that raises) for any other value |
| Utils.Test | src/utils.py:19-27 | one comprehension condition; it raises only `TypeError`, and exactly for a date that is not a str, a size that is not a number, or tags that `set` rejects (`TagsRaise`: not iterable, or an unhashable item); tag matching (`HasTag`) uses the list items, the characters of a str or the keys of a dict |
| Utils.Comprehend | src/utils.py:19 | a filtering comprehension: on success its result is no longer than the input and every result is an input document whose condition is true; on failure the error is the one the condition raised on some input document |
| Utils.DateCriterion | src/utils.py:20-21 | `start, end = date_range`: raises `ValueError` exactly for a non-empty range whose length is not two; otherwise it gives no filter for a falsy range, or a date filter whose bounds are the two items in order |
| Utils.SizeCriterion | src/utils.py:23-24 | `min_size, max_size = size_range`: raises `ValueError` exactly for a non-empty range whose length is not two; otherwise it gives no filter for a falsy range, or a size filter whose bounds are the two items in order |
| Utils.FilterDocuments | src/utils.py:9-28 | `filter_documents` stage by stage; a successful result is no longer than `docs` and holds only documents of `docs` (the full meaning is `FilterMeaning`) |
| Utils.ComprehendMeaning | src/utils.py:19 | a filtering comprehension succeeds exactly when its condition evaluates on every document, and then keeps exactly the satisfying documents, in order |
| Utils.KeptComposes | src/utils.py:17-27 | applying criteria one after another keeps the same documents as applying them all at once |
| Utils.KeptIsSubsequence | src/utils.py:17-27 | what the criteria keep is an order-preserving subsequence of the input |
| Utils.FilterMeaning | src/utils.py:9-28 | the filter succeeds exactly when both ranges unpack and no active filter raises on a document that reaches it; it then returns the documents passing every active filter, in input order |
| Utils.FilterIsSubsequence | src/utils.py:17-28 | a successful result is an order-preserving subsequence of `docs` |
| Utils.FilterKeepsExactly | src/utils.py:17-28 | a document is returned exactly when it is in `docs` and satisfies, for each active filter, the type match, the date bounds, the size bounds and a shared tag |
| Utils.FilterResultsPass | src/utils.py:18-27 | every result has type `file_type`; its date, `""` when missing, is a string within `[start, end]`; its size, 0 when missing, is within `[min, max]`; and it has tags when a tag filter is on |
| Utils.FilterAllFalsyIsIdentity | src/utils.py:17-28 | with every filter argument `None` or empty, the documents come back unchanged |
| Utils.FilterBadDateRange | src/utils.py:20-21 | a non-empty date range of length other than two raises `ValueError` for any documents |
| Utils.FilterBadSizeRange | src/utils.py:23-24 | a non-empty size range of length other than two makes the filter raise |
| Utils.FilterWellTypedSucceeds | src/utils.py:20-27 | when the ranges unpack and every date, size and tags value has an accepted kind, the filter does not raise |
| Utils.FormatError | src/utils.py:35-36 | the result is the red `Error:` tag followed by exactly the message |
| Utils.FormatSuccess | src/utils.py:38-39 | the result is the green `Success:` tag followed by exactly the message |
| Utils.FormattedMessagesDecode | src/utils.py:35-39 | both formatters are injective, and no error line equals a success line |
| Utils.SyntaxHighlight | src/utils.py:30-33 | the text is returned unchanged, for every file type |

## Left out

- History.HistoryManager.Load: when a key holds a value that is not a list (`"history": 5`), the source stores that value in the field. The model cannot hold it in a `seq` field, so it reports `NonListValue` and leaves the lists unchanged.
- History.HistoryManager.LoadAsync: the same deviation as `Load`, for the same reason.
- History.ListAt: reports a key holding a non-list value as `NonListValue`; the source's `data.get` returns that value and the load goes on, for the reason given for `Load`.
- History.LoadNonListRaises: states the model's deviation for a non-list value under a key; the source does not raise there.
- History.DefaultPath: the default path is written as `home + "/.context7_history.json"`. The way `os.path.expanduser` finds the home directory and strips a trailing separator is not modelled.
- `tests/test_history.py:260-273` expects a bare-list legacy file to load. The code does not deliver this: `data.get` raises `AttributeError`, which the `except` clause does not catch. The model follows the code (`LoadNonObjectRaises`).
- Bookmarks keep their order through a save and a load; the model proves the sequences equal.
- Concurrency: `save_async` and `load_async` have no lock. Running them at the same time is not modelled; an async operation runs as one sequential step.
- `os.makedirs(os.path.dirname(path))` raises `FileNotFoundError` for a path with no directory part, such as `"h.json"`. On such a path every save raises, and `add_bookmark` and `add_session` raise after changing the lists in memory. The model's `Save` always succeeds.
- File-system detail is not modelled: creating the directory, encodings, permissions, `isfile` on a directory, I/O errors from `open`, and the `FileNotFoundError` race between `isfile` and `open`.
- The JSON text (`indent=2`) and the decoder are not modelled. A file holds either a decoded document or content the decoder rejects.
- JSON floating-point numbers are not in the value type. So `1 == 1.0`, float sizes and float comparisons are not modelled.
- `get_bookmarks` and `get_sessions` return the live lists, which callers can change through the alias. The model returns the current sequence.
- `fuzzy_match` is not modelled: it wraps `difflib.get_close_matches` with a floating-point cutoff.
- `async_sleep` is not modelled: it wraps `anyio.sleep`.
- The terminal interface (`src/cli.py`), the themes (`src/themes.py`), the tool-server scripts, and the chat agent and configuration modules are outside this model.
