# Open WebUI ingestion and RAG tools, modelled in Dafny

This project models two Python scripts that talk to an Open WebUI server.

- `ingest.py` bulk-uploads a local folder into an Open WebUI knowledge base. It:
  - selects the files by extension, from a built-in set widened by `--ext`, and sorts them by path;
  - resolves or creates the knowledge base by name;
  - uploads each file;
  - polls its processing status for up to 120 seconds, every 2 seconds;
  - attaches it to the knowledge base;
  - counts successes and failures, and sets the exit status.
- `openwebui_mcp.py` is an MCP server with two tools:
  - `list_collections` projects the knowledge listing onto id and name;
  - `rag_query` resolves a collection name to an id and asks the chat-completion endpoint a question restricted to that collection.

The server is never called. Its replies are inputs of the model:

- a status code and a decoded JSON body;
- or an exception the HTTP client raised;
- for the status polls, also the seconds each request took.

The requests a run sends are returned as a sequence of `Call`s. This is what lets the contracts say which requests are sent, and in what order.

The model also covers the Python operations the scripts apply to decoded JSON, each with the exception it raises on the wrong kind of value:

- `v[key]`;
- `v.get(key, default)`;
- `v[0]`;
- `for x in v`.

A few behaviours of the code are easy to miss, and the model keeps them:

- **Timed-out and failed files are still attached.** When polling returns False (status "failed", or the deadline passed), the file is still attached and counted as succeeded (ingest.py:172-177; `IngestFacts.AttachedExactlyWhen`).
- **The built-in extension set has fourteen members,** including `.doc`, `.xls` and `.htm` (ingest.py:33-37; `Extensions.DefaultExtensions`).
- **Any exception on a per-file request is a per-file failure,** a rejected credential included. It is counted and the loop goes on (ingest.py:179-185). Only an exception while resolving the knowledge base ends the run (`Ingest.UploadAll`).
- **An empty selection exits with status 1, even in a dry run.** The check comes before the dry-run return (ingest.py:144-152; `IngestFacts.ExitStatus`).
- **`ingest.py` reads only the key from the environment** (OPENWEBUI_API_KEY, ingest.py:132). The base URL comes from `--url` alone (ingest.py:120, 156).

Modules:

- Values: decoded JSON and the Python operations on it.
- Strings: lower, suffix, split and rstrip.
- Ordering and Paths: Python's order on paths, and `sorted`.
- FileTree: the folder and `rglob`.
- Extensions and Selection: `collect_files`.
- Http: responses, `raise_for_status` and the request log.
- Search: the first-match loop both scripts share.
- Knowledge: `get_or_create_knowledge`.
- Polling: `wait_for_processing`.
- Ingest and IngestFacts: the per-file loop and `main`.
- CollectionTools: `openwebui_mcp.py`.

## Model

| member | source | states |
|---|---|---|
| Values.Subscript | ingest.py:56 | `v[key]` succeeds exactly on a dict holding the key and yields its value; a dict without the key raises KeyError, anything that is not a dict raises TypeError |
| Values.DictGet | ingest.py:54 | `v.get(key, default)` succeeds exactly on a dict; it yields the stored value, or the default when the key is absent; anything that is not a dict raises (no `.get`) |
| Values.LookupFindsLast | ingest.py:53-54 | a member key is read from its last occurrence, as `r.json()` keeps the last of duplicated keys; this decides `"name"`, `"id"`, `"status"` and `"items"` alike |
| Values.Iterate | ingest.py:53 | `for x in v` works on lists (their items), dicts (their keys, in order) and strings; it raises on anything else |
| Values.First | openwebui_mcp.py:99 | `v[0]` yields the first item of a non-empty list or string and raises on anything else |
| Values.EnvGet | openwebui_mcp.py:33-35 | `os.environ.get(name, default)` is the variable's value when set, else the default |
| Strings.Lower | ingest.py:113 | `lower()` keeps the length, maps each character through the ASCII case mapping and leaves no upper-case letter |
| Strings.Suffix | ingest.py:113 | a name's suffix is empty exactly when the name is empty, ends in a dot or has no dot after its first character; otherwise it is the dot-led, dot-free tail of the name |
| Strings.SuffixOfStemAndExtension | ingest.py:113 | `stem.ext` with a dot-free `ext` has suffix `.ext` |
| Strings.Split | ingest.py:140 | `split(",")` yields at least one piece and no piece holds the separator |
| Strings.JoinSplit | ingest.py:140 | joining the pieces of a split restores the string, so no character of `--ext` is lost |
| Strings.SplitJoin | ingest.py:140 | splitting a join of separator-free pieces restores the pieces |
| Strings.TrimTrailing | ingest.py:156 | `rstrip("/")` is a prefix that does not end in `/`; only `/` characters are removed |
| Strings.TrimTrailingIdempotent | ingest.py:156 | stripping a stripped URL changes nothing |
| Ordering.LexIrreflexive | ingest.py:111 | no sequence precedes itself in lexicographic order |
| Ordering.LexTransitive | ingest.py:111 | lexicographic order is transitive |
| Ordering.LexTotal | ingest.py:111 | any two distinct sequences are ordered one way or the other |
| Ordering.LexStrictTotalOrder | ingest.py:111 | the lexicographic extension of a strict total order is a strict total order |
| Paths.TextOrderIsStrictTotal | ingest.py:111 | comparing path components by code points is a strict total order |
| Paths.PathLessIrreflexive | ingest.py:111 | no path precedes itself |
| Paths.PathLessTransitive | ingest.py:111 | path order is transitive |
| Paths.PathLessTotal | ingest.py:111 | any two distinct paths are ordered |
| Paths.Insert | ingest.py:111 | insertion adds exactly the new path to the list's contents |
| Paths.InsertKeepsSorted | ingest.py:111 | inserting into a sorted list keeps it sorted |
| Paths.Sort | ingest.py:111-114 | `sorted()` returns an ascending permutation of its input |
| Paths.SortedDistinctIsIncreasing | ingest.py:111 | a sorted list without repeats is strictly increasing |
| FileTree.Below | ingest.py:112 | a directory's entries are its children's entries with the directory name in front |
| FileTree.NodeEntries | ingest.py:112 | every entry at or below a node starts with that node's name |
| FileTree.Walk | ingest.py:112 | `rglob("*")` yields only non-empty relative paths |
| FileTree.NodeFindsRegularFile | ingest.py:112-113 | one node's entries report `p` as a regular file exactly when the node is, or contains, that file |
| FileTree.WalkFindsRegularFiles | ingest.py:112-113 | the walk reports `p` with `is_file()` true exactly when `p` names a regular file of the tree |
| FileTree.WalkHeads | ingest.py:112 | every entry of the walk lies under the folder: its first path component is the name of one of the folder's children |
| FileTree.WalkUniquePaths | ingest.py:112 | in a tree whose directories hold unique names, the walk yields every path once |
| Extensions.Dotted | ingest.py:140 | an `--ext` entry gets a leading dot unless it has one |
| Extensions.DottedIdempotent | ingest.py:140 | dotting an already dotted entry changes nothing |
| Extensions.DefaultExtensionsSelect | ingest.py:33-37 | every built-in extension selects any file whose name is a stem followed by that extension, in any letter case |
| Extensions.MergeExtensions | ingest.py:33-140 | the set holds all fourteen defaults plus every dotted `--ext` entry and nothing else; a missing or empty `--ext` leaves the defaults; every member starts with a dot |
| Extensions.SelectsByExtension | ingest.py:113 | `stem.ext` is selected exactly when the lower-cased `.ext` is in the set, whatever the name's case |
| Extensions.UnmatchableEntry | ingest.py:113-140 | a set member that is a lone dot, holds a second dot or holds an upper-case letter matches no file |
| Extensions.UpperCaseEntryNeverSelects | ingest.py:113-140 | an `--ext` entry with an upper-case letter is kept as given and never selects a file |
| Selection.Selected | ingest.py:112-113 | the filter keeps exactly the walked regular files whose suffix is selected |
| Selection.SelectedKeepsUniqueness | ingest.py:112-113 | filtering a walk without repeated paths yields no repeats |
| Selection.SortedSelectionMembers | ingest.py:111-114 | sorting the filtered walk keeps exactly the selected regular files |
| Selection.CollectFiles | ingest.py:110-114 | `collect_files` returns exactly the tree's regular files with a selected suffix, in ascending path order |
| Selection.CollectFilesStrictlyIncreasing | ingest.py:110-114 | in a real tree (unique names per directory) the result is strictly increasing, so each file appears once |
| Http.RaiseForStatus | ingest.py:52 | `raise_for_status()` raises HTTPError exactly on codes 400 to 599 and passes other responses unchanged |
| Http.CheckedJson | ingest.py:52-53 | `raise_for_status()` then `json()` succeeds exactly on a non-error response with a JSON body, and yields that body |
| Search.FindsFirstNamed | ingest.py:53-56 | when item k is the first with the name (all earlier names readable), the search yields item k's id or the exception reading it |
| Search.FindsNothing | ingest.py:53-58 | the search finds nothing exactly when every item's name is readable and none equals the requested name |
| Search.FoundIsFirstNamed | ingest.py:53-56 | a found id belongs to the first item with the requested name |
| Search.FirstIdNamed | ingest.py:53-56 | when the search reports no match, every item's name was readable and none equals the requested name |
| Knowledge.GetOrCreateKnowledge | ingest.py:49-66 | the loop lists once, returns the first match's id or creates the knowledge base, and raises where the code raises |
| Knowledge.ReusesFirstMatch | ingest.py:53-56 | an existing knowledge base with the name is reused; its id is returned and no create request is sent |
| Knowledge.CreatesOnlyWhenAbsent | ingest.py:51-66 | a create request is sent exactly when the listing decodes and no listed item has the name; then the created id is returned |
| Knowledge.NonObjectItemRaises | ingest.py:53-54 | a listed item that is not a dict stops the lookup with an exception, even after unnamed dicts |
| Knowledge.WrappedListingRaises | ingest.py:53-54 | a listing wrapped in an object is iterated by its keys, and the lookup raises before any create |
| Knowledge.DuplicatedNameKeepsLast | ingest.py:53-64 | an item listed as {"name": "x", "id": ..., "name": "y"} is not reused for "x": the listing is followed by a create request |
| Polling.WaitForProcessing | ingest.py:83-98 | the polling loop returns the result and number of status requests that the poll specification gives |
| Polling.Classify | ingest.py:88-96 | a failed request raises; a 404 reads as ready; another error status, an undecodable body or a body that is not a dict raises; otherwise status "completed" is ready, "failed" is failed, and any other or missing status is pending |
| Polling.ElapsedGrows | ingest.py:85-97 | each check adds at least POLL_INTERVAL seconds |
| Polling.PollFromContinues | ingest.py:86-97 | polling goes on only past pending replies and only before the deadline |
| Polling.PollFromSettles | ingest.py:86-98 | the result is decided by the last reply read, or by the deadline after a pending reply |
| Polling.WaitSettles | ingest.py:83-98 | between 1 and POLL_TIMEOUT/POLL_INTERVAL requests, all before the deadline. True exactly on a 404 or "completed"; False exactly on "failed" or on the deadline after pending; raises exactly when the last reply raised |
| Ingest.StatusCalls | ingest.py:86-87 | n status requests, all for the same file |
| Ingest.IngestFile | ingest.py:167-185 | one file's try block yields the outcome and requests of the per-file specification |
| Ingest.CountAttached | ingest.py:177 | the number of attached files never exceeds the number of files |
| Ingest.AllCountedIffAllAttached | ingest.py:193-194 | no file failed exactly when every file is attached |
| Ingest.IngestFiles | ingest.py:162-185 | every file is attempted once, in order; the requests are the attempts' requests in order; succeeded counts the attached files and succeeded + failed is the number of files |
| Ingest.OutcomesAt | ingest.py:163-185 | the k-th outcome of the batch is the outcome of attempting the k-th file |
| Ingest.OrElse | ingest.py:132-136 | Python `a or b` picks the argument unless it is missing or empty |
| Ingest.UploadAll | ingest.py:156-194 | resolves the knowledge base (an exception exits 1), ingests every file, and exits 1 exactly when some file failed |
| Ingest.Run | ingest.py:117-194 | `main`'s exit status, listed files and requests are those of the main specification |
| IngestFacts.AttachedExactlyWhen | ingest.py:167-185 | a file is attached exactly when it opens, its upload yields an id, polling does not raise and the attach succeeds; it is attached with that id even when polling returned False |
| IngestFacts.AttemptRequests | ingest.py:167-177 | a readable file gets an upload, then 1 to 60 status requests for its id, then an attach request unless polling raised; a failed upload sends nothing more |
| IngestFacts.UploadedPaths | ingest.py:168 | a path is among the uploads exactly when some request of the log uploads it |
| IngestFacts.Openable | ingest.py:163-168 | a path is among the openable files exactly when it is a selected file that opens |
| IngestFacts.UploadedPathsConcat | ingest.py:163 | the uploads of two request logs in sequence are the uploads of each, in sequence |
| IngestFacts.NoUploadsInStatusCalls | ingest.py:86-87 | status polling uploads nothing |
| IngestFacts.AttemptUploadsOnce | ingest.py:168 | one attempt uploads its own file once exactly when the file opens |
| IngestFacts.UploadsFollowFileOrder | ingest.py:163-168 | the batch uploads every file that opens, once each, in sorted selection order |
| IngestFacts.ExitStatus | ingest.py:128-194 | exit 0 exactly when: the folder is a directory; a key is given or it is a dry run; some file is selected; and outside a dry run, the knowledge base resolves and every file is attached. A dry run sends nothing; no request is ever sent without a key |
| CollectionTools.ServerUrl | openwebui_mcp.py:33 | the base URL is OPENWEBUI_URL (or "") with only trailing slashes removed, none left |
| CollectionTools.ModelFor | openwebui_mcp.py:35-61 | the caller's model, else OPENWEBUI_DEFAULT_MODEL, else gemma3:27b |
| CollectionTools.SessionHeaders | openwebui_mcp.py:40-44 | an Authorization header is present exactly when the key is non-empty, and it carries the key as a bearer token |
| CollectionTools.Items | openwebui_mcp.py:53 | a dict with an `items` member is unwrapped to that member; anything else is kept |
| CollectionTools.Collections | openwebui_mcp.py:76-79 | a listing that decodes to an array, bare or in an envelope, yields its items; a failed request raises |
| CollectionTools.Project | openwebui_mcp.py:54 | the projection succeeds exactly when every item has an id and a name, and then yields one id/name record per item, in order |
| CollectionTools.ProjectStopsAtFirstIncomplete | openwebui_mcp.py:54 | otherwise it raises what reading the first incomplete item's id, then name, raises |
| CollectionTools.ListCollections | openwebui_mcp.py:47-54 | `list_collections` raises what the listing raises, and otherwise projects every listed collection |
| CollectionTools.Names | openwebui_mcp.py:85 | the available names are every item's name, in order, or the first exception reading one |
| CollectionTools.NamesStopsAtFirstUnreadable | openwebui_mcp.py:85 | when item k is the first whose name cannot be read, the name list raises exactly that item's exception |
| CollectionTools.AnswerOf | openwebui_mcp.py:98-99 | a failed request, error status or undecodable body raises what raise_for_status or json raises; a body that is not a dict raises TypeError; an answer implies a non-error status and a decoded body |
| CollectionTools.AnswerOfCompletion | openwebui_mcp.py:98-99 | any reply with a non-error status whose body is a dict with a non-empty "choices" list, whose first choice holds a "message" dict with "content", yields that content |
| CollectionTools.RagQuery | openwebui_mcp.py:73-99 | the listing is always requested first; at most one completion follows, sent with the given URL, model and question and a non-null collection id; an answer is that completion's content; "not found" sends only the listing and names the requested collection; a failed listing raises with no other request |
| CollectionTools.RagUsesFirstMatch | openwebui_mcp.py:81-99 | the first collection with the name and a non-null id is the one the single completion request is restricted to; the answer is that reply's content |
| CollectionTools.RagNotFoundListsAll | openwebui_mcp.py:84-86 | when no collection has the name, the tool reports every collection's name and sends no completion |
| CollectionTools.CompletionOnlyWhenResolved | openwebui_mcp.py:76-97 | a completion request is sent exactly when the first collection with the name has a non-null id, and it carries that id |
| CollectionTools.NullIdReadsAsNotFound | openwebui_mcp.py:81-86 | a first match with a null id is reported as not found, after reading every name |

## Left out

- HTTP transport, timeouts, the JSON payloads sent, and multipart encoding are not modelled. Each request is a `Call` carrying the values that vary. A client exception is one `RequestFailed` value.
- Printing is not modelled: progress lines, the summary, the error text and the not-found message. The not-found result keeps the collection name and the available names, but not the formatted string.
- argparse, `expanduser()`, `resolve()`, `relative_to()` and `mimetypes` are left out. The options arrive parsed. Paths are relative to the folder; the absolute prefix is the same for every file, so the order is unchanged.
- Symbolic links: a link to a regular file is a `File` node, and a link to a directory is a leaf. The tree is given as data.
- Strings.Lower: maps ASCII letters only, not Python's full Unicode case mapping.
- Strings.Suffix: uses the suffix rule of Python up to 3.13. Python 3.14 also treats a name ending in a dot as having the suffix ".".
- JSON numbers are integers only, and Python's `1 == True` equality between numbers and booleans is not modelled. Neither matters where the scripts compare a value with a string: a number or a boolean never equals one.
- Values.Iterate: an object keeps every member, so iterating one with a duplicated key yields that key once per member, where Python yields it once. The scripts iterate an object only when a listing is a bare object, and then the first key already raises (`Knowledge.WrappedListingRaises`).
- Time is abstract: each status request reports its own duration, and each sleep lasts exactly two seconds.
- `build_session` in ingest.py always sets the bearer header. It is built only after the key check, so every request carries a non-empty key (`IngestFacts.ExitStatus`).
- `load_dotenv`, `FastMCP` registration and `mcp.run()` are not modelled.
- KeyboardInterrupt and other exceptions that the per-file `except Exception` does not catch are not modelled.
