# QuarkPanTool in Dafny

QuarkPanTool is a command-line client for the Quark cloud drive. It takes share links and does one of three things:

- transfers the shared files into the user's own drive;
- downloads them;
- shares the folders of a page in bulk, keeping a ledger of the folders that failed and retrying them later.

This project models the decision logic of `QuarkPanFileManager` (quark.py) and the helpers it uses from utils.py. Every reply of the Quark web API is an input. Each call the program makes consumes one reply from a sequence, in the order the program asks. A call past the end of that sequence is a call that raised. The random generator is a function `draw: nat -> nat` and the clock is a real number `now`.

The modules follow the program:

| file | module | what it models |
|---|---|---|
| wrappers.dfy | `Wrappers` | `Option` |
| text.dfy | `Text` | the Python string operations the program relies on (`split`, `join`, `strip`, `rsplit`, `str(int)`) |
| utils.dfy | `Utils` | `generate_random_code`, `get_timestamp`, the text `custom_print` prints |
| share_link.dfy | `ShareLink` | how a `pwd_id` is read from a link (`get_pwd_id`, `run`, `share_run`); the password regex `pwd=(.*?)(?=$\|&)` of `run`; the `?pwd=` link `submit_share` builds |
| listing.dfy | `Listing` | `get_detail`: the paged listing of a share folder, each child projected onto 8 keys |
| paths.dfy | `Paths` | `folders_map` (last writer wins); the walk up `pdir_fid` links that builds a download's folder path; the save path |
| poller.dfy | `Poller` | `submit_task`: polling a save task |
| sharing.dfy | `Sharing` | the body of `get_share_task_id` (passcode rule); `init_config`; the menu's option maps |
| engine.dfy | `ShareEngine` | `share_run`: depth 0/1/2 traversal, numbering, three attempts per folder, output and ledger lines, the paging tests, the outer exception handler |
| retry.dfy | `ShareRetry` | `share_run_retry`, as written and as evidently intended (see Findings) |
| run.dfy | `ShareTransfer` | `run`: password and `pwd_id`, classification of the listed records, the level-by-level download walk, and the transfer request followed by `submit_task` |

Each loop of the source is a `method` with a `while` or `for` loop. Its `ensures` ties it to a recursive specification function, and the properties are lemmas about that function. The straight-line parts are functions.

The model follows the code, including these behaviours of it:

- `get_detail` returns the `is_owner` of the last page it fetched, not of the first.
- `get_detail` stops after a page with `_total <= _size` or `_count < _size`. Against a server that pages `T` children 50 at a time, with `T` a multiple of 50 above 50, that is `T / 50 + 1` requests, the last returning an empty page (`Listing.ConformingServerListsAll`).
- In `submit_task` every reply whose message is not `ok` ends the program, whatever its code. No error reply counts as a failed attempt.
- The page-level loop of `share_run` asks next for its own counter plus one (`first_page += 1`). The folder-level loop asks for the reported `_page + 1`. Both stop when `_size * _page >= _total`.
- The download walk of `run` stops expanding a top-level folder as soon as any folder of the current level has no subfolders (`not_dir`). It does not expand every folder.
- The `extend` into `file_fid_list` inside the walk never adds anything, since every parent it tests is a folder.
- The ledger lines written at depth 1 have 3 fields, so `share_run_retry` skips them.
- `n` is never incremented in `share_run_retry`, so every line it writes is numbered 0.

## Model

| member | source | states |
|---|---|---|
| Text.Split | quark.py:43 | `str.split(sep)`: at least one part, and no part contains the separator |
| Text.JoinSplit | quark.py:723 | joining the parts of a split with the same separator gives back the text |
| Text.SplitJoin | quark.py:749 | splitting a join gives back the fields, when no field contains the character that anchors the separator |
| Text.Strip | quark.py:202 | `strip()` is the window of the text with only white space before and after it, and the window neither starts nor ends with white space |
| Text.AfterLast | quark.py:581 | `rsplit('/', 1)[1]`: absent exactly when there is no `/`; otherwise the suffix after the last `/`, which has none |
| Text.NatToString | quark.py:635 | the decimal `str(n)` used in the numbered lines is a non-empty run of digits |
| Text.ParseNatToString | quark.py:635 | reading the digits back gives the number |
| Utils.GenerateRandomCode | utils.py:64-67 | exactly `length` characters (none when `length <= 0`); each is an ASCII letter or digit, the one the draw selects from the 62-character alphabet |
| Utils.EveryCodeReachable | utils.py:64-67 | every string of ASCII letters and digits is the code of some random draw |
| Utils.AlphabetIsAlnum | utils.py:65 | the alphabet has 62 characters, all ASCII letters or digits, and each sits at the index `AlphabetIndex` gives it |
| Utils.AlphabetInOrder | utils.py:65 | the alphabet is `a`-`z`, `A`-`Z`, `0`-`9` in that order |
| Utils.LettersInOrder | utils.py:65 | `ascii_letters` is the 52 letters, lower case first |
| Utils.DigitsInOrder | utils.py:65 | `digits` is `0`-`9` |
| Utils.AlphabetIndex | utils.py:65 | every ASCII letter or digit occurs in the alphabet |
| Utils.Trunc | utils.py:30-32 | `int()` of a float truncates toward zero |
| Utils.GetTimestamp | utils.py:28-32 | length 13 gives whole seconds times 1000 (a multiple of 1000); any other length gives whole seconds |
| Utils.TimestampMillisAreWholeSeconds | utils.py:28-32 | the 13-digit stamp is the 10-digit one times 1000, and lies within the second before `now * 1000` |
| Utils.CustomPrintText | utils.py:21-25 | the line is `[` + datetime + `] ` + message; the error variant is that same line between the red and reset codes |
| Utils.CustomPrintFraming | utils.py:21-25 | the line starts with `[`, has `] ` after the datetime and ends with the message; stripping the colour codes from the error line gives the plain line |
| ShareLink.GetPwdId | quark.py:42-43 | the result is a suffix of the text before the first `?`, preceded there by `/s/` when that text holds one and equal to all of it otherwise; it contains neither `?` nor `/s/` |
| ShareLink.GetPwdIdOfLink | quark.py:42-43 | the `pwd_id` of `p/s/<id>`, with or without a query part, is `<id>` |
| ShareLink.RunPwdId | quark.py:206 | `run`'s `pwd_id` is `get_pwd_id` of the raw line cut before its first `#`; it contains neither `#` nor `?` |
| ShareLink.RunPwdIdOfLink | quark.py:206 | the `pwd_id` of `p/s/<id>#<fragment>` is `<id>` |
| ShareLink.ShareRunPwdId | quark.py:581 | absent exactly when the link has no `/` (the `IndexError`); otherwise the text after the last `/`, cut before its first `-` |
| ShareLink.ShareRunPwdIdOfLink | quark.py:581 | the `pwd_id` of `p/<id>-<rest>` is `<id>` |
| ShareLink.LazyEnd | quark.py:204 | the lazy `(.*?)` ends at the first position that is the end of the text or precedes `&`, and crosses no newline; it fails exactly when a newline comes before any such position |
| ShareLink.MatchAt | quark.py:204 | a match at `i` is `pwd=` + a value free of `&` and newlines, followed by the end or `&`; whenever `pwd=` occurs at `i` and the lazy group can end, the pattern matches there |
| ShareLink.SearchFrom | quark.py:204 | `re.search` finds the first position where the pattern matches |
| ShareLink.ExtractPassword | quark.py:204-205 | the password has no `&` or newline, and a non-empty one occurs in the link after `pwd=`; it is the group of the leftmost index where the pattern matches, and empty when it matches nowhere |
| ShareLink.ShareUrlWithPasscode | quark.py:570-571 | no passcode: the link unchanged; otherwise the link, then `?pwd=`, then the passcode |
| ShareLink.LazyEndRunsToEnd | quark.py:204 | a value with no `&` or newline runs to the end of the text |
| ShareLink.NoMatchBeforeQuery | quark.py:204 | a link without `pwd=` has no match before the appended query |
| ShareLink.PasswordRoundTrip | quark.py:204-205 | the password `run` reads from a link `submit_share` built is the passcode |
| ShareLink.PwdIdIgnoresPasscode | quark.py:42-43 | appending `?pwd=` leaves `get_pwd_id` unchanged |
| Listing.Project | quark.py:107-118 | a record keeps the child's 8 keys; a missing `include_items` becomes `''` |
| Listing.ProjectAll | quark.py:107-118 | the records correspond one to one, in order, to the children |
| Listing.StopFrom | quark.py:97-121 | the first page from `k` on that does not continue; every page before it continues |
| Listing.GetDetail | quark.py:71-122 | requests pages 1, 2, ... and returns the records of every page up to the stopping one (none of it if it reports `_total < 1`), with that page's `is_owner`, or fails when a request raised |
| Listing.EmptyFirstPage | quark.py:97-99 | a first page reporting `_total < 1` ends the listing after one request with no records and that page's `is_owner` |
| Listing.ConformingServerListsAll | quark.py:71-122 | against a server paging 50 at a time every child is returned once, in order, with 1 request up to 50 children and `T / 50 + 1` above |
| Listing.RepliesAfterStopIgnored | quark.py:97-121 | replies after the stopping page change neither the result nor the requests |
| Paths.RecordFolders | quark.py:266-271 | the map is that of recording each folder record in turn |
| Paths.RecordedEntries | quark.py:266-271 | a key carried by some folder record maps to the entry of the last such record; other keys are unchanged |
| Paths.BasePathOf | quark.py:394-400 | empty when the start is not a key; otherwise it ends with `/` + the start folder's name |
| Paths.BuildBasePath | quark.py:395-400 | the loop builds `BasePathOf`, ending whenever the walk leaves the map |
| Paths.SelfParentNeverExits | quark.py:398-400 | a folder that is its own parent keeps the loop going forever |
| Paths.BasePathFuel | quark.py:398-400 | the path does not depend on the bound given to the walk |
| Paths.BasePathNames | quark.py:395-400 | the path is `/` + name for each folder on the walk, outermost first; split on `/` it gives back the names |
| Paths.PathJoin | quark.py:406 | POSIX `os.path.join`: an absolute name replaces the folder; otherwise the folder, then `/` unless the folder is empty or ends with `/`, then the name |
| Paths.SavePath | quark.py:394-406 | the save path ends with the file name; an absolute file name is the whole path; otherwise the path starts with `downloads/` |
| Paths.SavePathShape | quark.py:395-406 | a file with no known parent goes to `downloads/name`; otherwise to `downloads/` + base path + `/name` |
| Poller.FatalKindOf | quark.py:441-446 | capacity full exactly for code 32003 with `capacity limit`; missing folder exactly for 41013; otherwise the message |
| Poller.PollsMadeFrom | quark.py:419-448 | the number of polls lies between the start and `retry` |
| Poller.SubmitTask | quark.py:417-448 | the outcome is that of the replies; poll `k` carries `retry_index=k`; polls stop at the first terminal reply |
| Poller.FirstTerminalDecides | quark.py:419-448 | the first reply that is not `ok` or has status 2 decides the outcome |
| Poller.NoTerminalRunsOut | quark.py:419-448 | without a terminal reply, `retry` polls return `None` (or a poll raised) |
| Poller.DoneIsFirstFinished | quark.py:430-439 | a returned reply is the first with `ok` and status 2, and every reply before it was `ok` |
| Poller.MorePollsSameOutcome | quark.py:417-419 | a larger `retry` changes nothing once an outcome other than running out is reached |
| Sharing.SharePayloadOf | quark.py:507-523 | a passcode is sent exactly when `url_type == 2`: the password if non-empty, else a 4-character alphanumeric code |
| Sharing.GeneratedPasscodeRoundTrip | quark.py:519-523 | the generated passcode is what `run` reads back from the link `submit_share` builds |
| Sharing.InitConfig | quark.py:450-467 | a missing or unreadable file: the current settings are written; an empty object: nothing; another user: root folder, written; same user: the stored folder or its default |
| Sharing.UserChangeSettles | quark.py:450-467 | after a user change, reading the written file back gives the root folder and writes nothing |
| Sharing.StoredConfigReadBack | quark.py:450-467 | a stored configuration of the same user is returned unchanged |
| Sharing.ExpiredTypeFor | quark.py:842-845 | options 1, 2, 3 and 4 give expiry types 2, 3, 4 and 1; anything else gives 4 |
| Sharing.UrlTypeFor | quark.py:846-847 | encrypted (2) exactly for answer `2` |
| Sharing.TraverseDepthFor | quark.py:854-857 | depth 1 or 2 exactly for those answers, else 0 |
| ShareEngine.TryShare | quark.py:623-642 | at most 3 attempts, stopping at the first success; every attempt before it failed |
| ShareEngine.TryShareLoop | quark.py:623-642 | the attempts loop computes `TryShare` |
| ShareEngine.ShareFolder | quark.py:618-649 | `n` grows by one; 1-3 attempts; `error` grows by the failed attempts; every request is for this folder; the ledger is unchanged or gets exactly one `n \| names \| fid` line |
| ShareEngine.ShareFolderOutcome | quark.py:644-649 | the folder's `n \| names \| fid` line is appended to `retry.txt` exactly when all 3 attempts fail, with `error` up by 3 and one line in `share_error.txt`; a success appends the numbered link to `share_url.txt` and touches neither error file |
| ShareEngine.ShareFolderStep | quark.py:618-649 | one folder's share step computes `ShareFolder` |
| ShareEngine.ChildItems | quark.py:659-694 | sharing a page's second-level folders lists nothing |
| ShareEngine.ChildPages | quark.py:653-700 | the folder's paging loop only moves the listing cursor forward |
| ShareEngine.RootItems | quark.py:614-650 | the page's items only move the listing cursor forward |
| ShareEngine.RootPages | quark.py:611-707 | the page-level loop only moves the listing cursor forward |
| ShareEngine.BackUpAndTruncate | quark.py:589-591 | `share_url.txt` is backed up when it exists, then emptied; the other files are unchanged |
| ShareEngine.ShareChildren | quark.py:653-700 | the folder-level loop computes `ChildPages` |
| ShareEngine.ShareRoot | quark.py:611-707 | the page-level loop computes `RootPages` |
| ShareEngine.ShareRun | quark.py:574-713 | `share_run` computes `ShareRunOf` |
| ShareEngine.ChildItemsNumbering | quark.py:659-663 | each second-level folder gets the next `n`, whether or not it is shared |
| ShareEngine.RootItemsDepthOne | quark.py:618-650 | at depth 1 each first-level folder gets the next `n`, no folder is listed and nothing raises |
| ShareEngine.PageRequests | quark.py:695-707 | a paging loop asks for pages while `_size * _page < _total`, and stops at the first page that fails it |
| ShareEngine.ChildPagesRequests | quark.py:695-700 | the folder-level loop's next page is the reported `_page + 1` |
| ShareEngine.RootPagesDepthOneRequests | quark.py:702-707 | the page-level loop's next page is its own counter + 1 |
| ShareEngine.ShareRunOf | quark.py:574-713 | a link without `/` only appends `/ Map` to `share_error.txt` and sends no request; depth 0 lists nothing, sends one share request for the share page under the title `direktori akar`, and leaves `share_url.txt` holding `1 \| title \| url` on success and empty on failure, with both error files untouched; any other depth runs the page-level loop, and when it raises `{first_dir}/{second_dir} Map` is appended to `share_error.txt` |
| ShareEngine.DirItemsAreFolders | quark.py:614-615 | the entries that get shared are exactly the folders (`dir` true) among the listed entries |
| ShareEngine.ChildItemsShares | quark.py:659-694 | a page's second-level entries send share requests for exactly their folders, in order, each under its own `fid` and `file_name` and one to three times in a row |
| ShareEngine.RootItemsDepthOneShares | quark.py:614-650 | at depth 1 a page's first-level entries send share requests for exactly their folders, in order, each under its own `fid` and `file_name` and one to three times in a row |
| ShareEngine.ChildPagesShares | quark.py:653-700 | a folder's paging loop shares exactly the folders on the listing replies it consumed, in order, one to three requests each |
| ShareEngine.RootItemsDeepShares | quark.py:614-700 | at any depth but 1 a first-level folder is never shared itself: the share requests are exactly the folders on the second-level listing replies consumed, in order, one to three each |
| ShareEngine.RootPagesDepthOneShares | quark.py:611-707 | at depth 1 the page-level loop shares exactly the folders on the share page's listing replies, in order, one to three requests each |
| ShareEngine.FieldLineSplits | quark.py:649 | a ledger line splits on ` \| ` into the number, the names and the fid |
| ShareRetry.ReplayLine | quark.py:723-748 | a line without 4 fields is skipped unchanged; a 4-field line is tried with its fid and third field, a success appends `0 \| first \| second \| url` and sets `share_success`; it raises exactly when all 3 attempts fail and no line succeeded before, after those attempts; no line is ever kept |
| ShareRetry.ShareRunRetry | quark.py:715-750 | the replay computes `ReplayAsWritten`, ending `Unbound` with the failing line's attempts counted |
| ShareRetry.AsWrittenKeepsNothing | quark.py:740-750 | as written, a replay that finishes leaves the ledger empty |
| ShareRetry.ReplayLineCorrected | quark.py:723-748 | a line without 4 fields changes nothing; a 4-field line is kept exactly when its 3 attempts all fail |
| ShareRetry.ReplayCorrected | quark.py:715-750 | the corrected replay always finishes |
| ShareRetry.CorrectedKeepsOnlyRetriedLines | quark.py:722-748 | the kept lines are 4-field lines of the ledger |
| ShareRetry.FailedLines | quark.py:722-748 | the lines a per-line reset keeps are 4-field lines of the ledger, no more of them than lines |
| ShareRetry.CorrectedKeepsExactlyFailed | quark.py:722-748 | over every ledger, the corrected replay keeps exactly the 4-field lines whose 3 attempts fail, in ledger order |
| ShareRetry.CorrectedLedger | quark.py:748-750 | corrected, `retry.txt` becomes exactly those failed lines joined by newlines |
| ShareRetry.NothingSharedKeepsAll | quark.py:722-748 | when no attempt succeeds, every 4-field line is kept |
| ShareRetry.EverythingSharedKeepsNothing | quark.py:722-748 | when every first attempt succeeds, no line is kept |
| ShareRetry.CorrectedSingleLine | quark.py:722-750 | a single line is kept exactly when all 3 attempts fail |
| ShareRetry.CorrectedLedgerReplays | quark.py:748-750 | the rewritten ledger splits back into exactly the kept lines |
| ShareRetry.DepthOneLedgerLineSkipped | quark.py:723-724 | a line written at depth 1 (3 fields) is skipped |
| ShareRetry.DepthTwoLedgerLineRetried | quark.py:723-741 | a line written at depth 2 is retried with its fid and second name, and on success the output gets a line numbered 0 |
| ShareRetry.AsWrittenTwoLines | quark.py:740-748 | as written, a success followed by a failure leaves the ledger empty |
| ShareRetry.CorrectedTwoLines | quark.py:722-750 | corrected, the same replay keeps the failed line |
| ShareRetry.StaleSuccessLosesFailedLine | quark.py:740-748 | the two behaviours disagree on that replay |
| ShareRetry.FailureBeforeSuccessIsUnbound | quark.py:729-746 | as written, a failure before any success raises `UnboundLocalError` after 3 share requests and `error == 3`; corrected, the line is kept |
| ShareRetry.WrittenLineShape | quark.py:693-694 | a depth-2 ledger line has 4 fields and no newline |
| ShareRetry.DiscrepancyOnWrittenLedger | quark.py:722-748 | on two lines `share_run` writes, as written loses the failed one where corrected keeps it |
| ShareTransfer.FiltersKeepTheirKind | quark.py:277-278 | the folders taken from a list are folders of it, and the files are files of it |
| ShareTransfer.Names | quark.py:227 | the names, one per record, in order |
| ShareTransfer.Fids | quark.py:241 | `fid_list`: the fids, one per record, in order |
| ShareTransfer.Tokens | quark.py:242 | `share_fid_token_list`: the tokens, one per record, in order |
| ShareTransfer.DirsFilesCount | quark.py:224-235 | folders and files together are all the records |
| ShareTransfer.DirsFilesPartition | quark.py:224-235 | folders and files split the records as a multiset |
| ShareTransfer.ClassifiedSnocDir | quark.py:225-231 | a folder record adds one to the folder count and list, and enters the map |
| ShareTransfer.ClassifiedSnocFile | quark.py:232-235 | a file record adds one to the file count, name list and id list |
| ShareTransfer.Classify | quark.py:224-235 | the counts, name lists, `folders_map` and `files_id_list` are those of the folder and file records |
| ShareTransfer.VisitOf | quark.py:261-282 | one listing request for the folder; a download batch unless it raised; the folders found are folders |
| ShareTransfer.VisitContents | quark.py:261-282 | a visit raises exactly when the listing does; otherwise it returns the listed folders, records them in `folders_map`, sends one batch of all listed fids under the top folder's name, and adds to `file_fid_list` only for a non-folder |
| ShareTransfer.VisitFolder | quark.py:261-282 | the loop body computes `VisitOf` |
| ShareTransfer.LevelFrom | quark.py:260-282 | one listing request per folder of the level, in order; one batch per listing that did not raise |
| ShareTransfer.ListLevel | quark.py:259-283 | the level loop computes `LevelFrom` |
| ShareTransfer.LevelsFrom | quark.py:256-285 | the requests only grow, with one batch per listing that did not raise |
| ShareTransfer.WalkFolder | quark.py:256-285 | the walk below one folder computes `LevelsFrom` |
| ShareTransfer.TopFrom | quark.py:254-285 | the walks of all top-level folders: one batch per listing that did not raise |
| ShareTransfer.LevelKeepsFileFids | quark.py:277 | a level adds nothing to `file_fid_list` |
| ShareTransfer.LevelsKeepFileFids | quark.py:277 | the walk below a folder adds nothing to `file_fid_list` |
| ShareTransfer.TopKeepsFileFids | quark.py:277 | the walks of all top-level folders add nothing to `file_fid_list` |
| ShareTransfer.PairFirsts | quark.py:288 | the fids of `files_id_list`, in order |
| ShareTransfer.DownloadWalk | quark.py:254-290 | the top-level files go last, as one batch into `.` |
| ShareTransfer.DownloadAll | quark.py:254-290 | the download branch computes `DownloadWalk` |
| ShareTransfer.RunOf | quark.py:200-299 | the password comes from the stripped line, `pwd_id` from the raw one; listing happens exactly when both `pwd_id` and the token are non-empty, starting at the root `0`; a download needs `is_owner != 0`; a transfer needs `is_owner != 1` and saves every listed fid and token into `folder_id`. Every end is pinned down by the replies: an empty `pwd_id`, a raised or failed token request and a raised listing each end the run; once listed, an empty share ends it exactly when the listing is empty, and otherwise a falsy `folder_id` exactly when it is falsy; a download of a share with `is_owner == 0` is refused, and any other download sends the batches of the folder walk and ends `Downloaded` unless a listing raised; a save of a share with `is_owner == 1` is refused, and any other save posts its request and ends with the task id and the poll outcome, or raised without a task id |
| ShareTransfer.Run | quark.py:200-299 | `run` computes `RunOf` |
| ShareTransfer.DownloadBatches | quark.py:254-290 | a download makes one batch per walk listing, plus a last one into `.` holding the top-level files' fids when there are any |
| ShareTransfer.NotDirEndsWalk | quark.py:280-285 | once a folder of the first level has no subfolders, the walk of that top-level folder ends after the level |

## Left out

- The HTTP transport of `get_stoken`, `get_sorted_file_list`, `get_share_id`, `get_user_info` and `create_dir`. Only their replies are modelled, as inputs, with a missing reply standing for a call that raised.
- `quark_file_download` sends its requests and retries with another user agent on code 23018. The model keeps only the path each file is saved to (`Paths.SavePath`) and the batches of fids it is called with.
- `download_file`: byte streaming and progress bars.
- Login and cookies through `QuarkLogin`, which is not part of this model.
- The interactive menu and its prompts, apart from the option maps, which are in `Sharing`.
- `print_menu`, `print_ascii`, tables and `print` output.
- The `asyncio.sleep` pauses and their random lengths, which affect timing only.
- `get_datetime`: the clock and `strftime`. The date text is a parameter of `Utils.CustomPrintText`.
- `read_config`, `save_config` and `safe_copy`: file I/O. The files under `share/` are string fields of `ShareEngine.ShareFiles`, and the configuration file is a `Sharing.ConfigFile` value.
- `init_config` on a JSON value that is not an object.
- `extract_urls` and `load_url_file`, which depend on a regex engine.
- `sys.exit` and `input`: a fatal reply is the outcome `Poller.Fatal`, not an end of the process.
- The folder name `submit_task` prints on success.
- Exceptions that `run` does not catch, other than those raised inside `quark_file_download` and `download_file`: each of them is modelled by a missing reply and ends `run` as `Raised`.
- ShareTransfer.DownloadWalk: a raise inside `quark_file_download` or `download_file` (a timed-out download request, a reply without `data`, a failed file transfer) is not modelled. In the code such a raise ends `run` with no later listing or batch; the model has no reply for a batch, so the walk goes on as if every batch returned, and `RunOf` can then end `Downloaded` after more listing requests than the code makes.
- Paths.PathJoin: models POSIX `os.path.join` only: `/` is the one separator and a name starting with `/` replaces the folder. On Windows, which the tool's request headers name as its platform, `os.path.join` also treats `\` as a separator and drive letters as roots; that is not modelled.
- Paths.BuildBasePath: the walk is bounded by a ghost `fuel` count. Maps whose walk never leaves them (a cycle) are outside its precondition. `Paths.SelfParentNeverExits` shows such a map exists.
- ShareEngine.ChildItems, ShareEngine.ChildPages, ShareEngine.RootItems, ShareEngine.RootPages: their own contracts state only facts about the listing cursor. Their share requests are stated by `ChildItemsShares`, `RootItemsDepthOneShares`, `ChildPagesShares`, `RootItemsDeepShares` and `RootPagesDepthOneShares`. Their numbering is stated by `ChildItemsNumbering` and `RootItemsDepthOne`, their listing requests by `ChildPagesRequests` and `RootPagesDepthOneRequests`, and their ledger lines by `ShareFolder` and `ShareFolderOutcome`.
- ShareEngine.RootItemsDeepShares: states the share requests of one page's first-level entries at depth 2; no lemma states them for the whole page-level loop at depth 2, where first-level and second-level listing replies interleave.
- ShareEngine.RootPagesDepthOneRequests: stated for depth 1 only. At depth 2 the listing requests of the two paging loops interleave.
- ShareTransfer.LevelsFrom and ShareTransfer.TopFrom: these state the requests and batches as counts. The exact request order is stated only level by level, by `ShareTransfer.LevelFrom` and `ShareTransfer.NotDirEndsWalk`.

## Findings

| source | as written | input that shows it | evidently intended | confidence | as-written member | corrected member |
|---|---|---|---|---|---|---|
| quark.py:740-748 | `share_success` is set to `True` on a success but never reset for the next ledger line. After one success, later lines that fail all 3 attempts are not kept, and `retry.txt` is rewritten without them. | a ledger of two 4-field lines; the first is shared on its first attempt, the second fails 3 times | each line starts with `share_success = False`, so every line that fails again is kept in `retry.txt` | not executed | ShareRetry.StaleSuccessLosesFailedLine | ShareRetry.CorrectedLedger |
| quark.py:746 | `share_success` is unbound when the first 4-field line fails all 3 attempts before any success. The `UnboundLocalError` ends the replay, and `retry.txt` is not rewritten. | a ledger of one 4-field line whose 3 attempts all fail | the failed line is kept and written back to `retry.txt` | not executed | ShareRetry.FailureBeforeSuccessIsUnbound | ShareRetry.CorrectedSingleLine |
