# PlamoScanner core, modelled in Dafny

PlamoScanner keeps track of plastic-model parts stored in bags (袋, *hukuro*), and of the
boxes (箱, *hako*) that hold the bags. Bags and boxes carry NFC tags or QR codes, and each one
has a page in a Notion database. The project models three pieces of it:

- **The scan-mode state machine of `MainActivity`.**
  - The four scan modes and the screen state that the handlers assign.
  - The gate on scans (`isScanningActive` and `isLocked`).
  - Bag scans, box scans, and the two-step "store a bag in a box" flow. The flow passes the
    chosen box from step 1 to step 2.
  - How an NFC tag id is formatted as a uid.
- **`NotionRepository`, over a model of the Notion workspace it talks to.**
  - The workspace holds databases of pages. Each page has an id, properties and a url.
  - `findOrCreatePage` queries by the exact text of a title property and returns the first
    hit. When nothing matches, it creates one page.
  - `getPage` runs the same query and never creates anything.
  - `updateHukuroLocation` sets a single-valued relation to a box.
- **The Markdown ⇄ Google Docs sync of `docs_sync.py`.**
  - `extract_doc_id`.
  - The line pass of `push`: quote, heading and bullet markers; `**bold**` extraction; the
    layout of the lines from document index 1.
  - The style requests and the batches of 50.
  - The reverse renderer `read_structural_elements`.
  - How the two directions fit together.

Modules, one concept per module:

| module | file | models |
|---|---|---|
| `Wrappers` | wrappers.dfy | `Option` (Kotlin `T?`, Python `None`) |
| `PyStr` | py_str.dfy | the Python `str` operations the sync uses: `lstrip`, `isspace`, `split`, `replace('\r\n', '\n')`, `*` |
| `DocId` | doc_id.dfy | `extract_doc_id` |
| `LineParse` | line_parse.dfy | the per-line classification and the `re.finditer` bold loop of `push` |
| `DocsPush` | docs_push.dfy | line splitting, layout, request building and batching in `push` |
| `DocsPull` | docs_pull.dfy | `read_structural_elements` |
| `SyncRoundTrip` | sync_round_trip.dfy | push followed by pull, and pull followed by push |
| `NotionStore` | notion_store.dfy | the Notion workspace, and `NotionRepository` as a class over it |
| `TagUid` | tag_uid.dfy | the uid formatting of `onTagDiscovered` |
| `Scanner` | scanner.dfy | the screen state and handlers of `MainActivity`, as functions and as a class |

Code that updates state step by step is modelled as imperative Dafny. Each such method is
proved against a function that specifies it:

- the loops of `push` and `read_structural_elements`;
- the handlers of `MainActivity`, whose fields are assigned one by one;
- the repository calls, which change the workspace.

The properties are proved about those functions.

## Model

| member | source | states |
|---|---|---|
| PyStr.LStrip | docs_sync.py:106 | `lstrip()` is never longer than its input, and what it leaves does not start with whitespace |
| PyStr.LStripSuffix | docs_sync.py:106-109 | `lstrip()` leaves a suffix of the line, and every character it removed is whitespace, so `len(temp_line) - len(stripped)` counts the removed characters |
| PyStr.LeadingRun | docs_sync.py:100-102 | the `#+` group of `^(#+)\s` is the leading run of `#`: it stops at the end or at another character |
| PyStr.LeadingRunAll | docs_sync.py:100-102 | every character of that run is `#` |
| PyStr.RepeatChar | docs_sync.py:48 | `"#" * n` is n characters, all `#` |
| PyStr.Repeat | docs_sync.py:60 | `"  " * nesting` is `2 * nesting` characters long |
| PyStr.RepeatAt | docs_sync.py:60 | `s * n` holds `n` copies of `s`: copy `q` starts at `q * len(s)` |
| PyStr.Split | docs_sync.py:76 | `split('\n')` yields at least one piece, no piece contains the separator, and joining the pieces with the separator gives the input back |
| PyStr.SplitJoin | docs_sync.py:76 | splitting undoes joining: separator-free pieces come back exactly |
| PyStr.ReplaceCrLf | docs_sync.py:74 | replacing `\r\n` by `\n` keeps every character except carriage returns, in order, and keeps the number of newlines |
| PyStr.ReplaceCrLfSplit | docs_sync.py:74 | each `\r\n` becomes `\n`, and the text before and after it is replaced on its own |
| PyStr.ReplaceCrLfNone | docs_sync.py:74 | text without `\r\n` is left unchanged, so a carriage return not followed by a newline is kept |
| DocId.IdRun | docs_sync.py:10 | `[a-zA-Z0-9-_]+` is greedy: the run stays in the url, consists of id characters, and stops at the end or at a non-id character |
| DocId.FirstMarker | docs_sync.py:10 | `re.search` matches at the leftmost `/d/` followed by an id character, and finds nothing only when there is no such place |
| DocId.ExtractDocId | docs_sync.py:9-11 | the id is `None` exactly when no `/d/` is followed by an id character; otherwise it is non-empty |
| DocId.ExtractDocIdFound | docs_sync.py:9-11 | a found id consists of id characters, follows the leftmost `/d/` that is followed by one, and is maximal |
| LineParse.ParseLine | docs_sync.py:89-111 | a line is marked quote exactly when it starts with `> `; a quote is never a bullet; only a bullet has a level; the style is normal or a heading; a line that is neither heading nor bullet keeps its text, minus the quote prefix |
| LineParse.ParseLineHeading | docs_sync.py:100-103 | a heading exactly when the body starts with 1 to 6 `#` and a whitespace character; the text is what follows that character, so the body is `#`×n, the whitespace, then the text |
| LineParse.ParseLineDeepHeading | docs_sync.py:100-105 | more than six `#` followed by whitespace: normal text, the text unchanged, not a bullet |
| LineParse.ParseLineBullet | docs_sync.py:105-108 | a bullet exactly when the line is unquoted, not a heading, and its left-stripped form starts with `* ` or `- ` |
| LineParse.ParseLineBulletShape | docs_sync.py:106-111 | a bullet's level is (number of stripped whitespace characters) // 2, and the line is that whitespace, the 2-character marker, then the text |
| LineParse.FindStars | docs_sync.py:115 | a `**` found at or after `i` lies inside the line |
| LineParse.FindStarsFirst | docs_sync.py:115 | the search finds the first `**` at or after `i`, and finds none only when there is none |
| LineParse.NextMatch | docs_sync.py:115 | a match lies at or after where the previous match ended, and its closing `**` comes after its opening one |
| LineParse.NextMatchLeftmostShortest | docs_sync.py:115 | the match is the regex engine's: it starts at the leftmost position and has the shortest group (lazy `.*?`); no match is reported only when none exists |
| LineParse.NextMatchAt | docs_sync.py:115 | what is reported is a match of `\*\*(.*?)\*\*` |
| LineParse.MarkedAppend | docs_sync.py:115-121 | the marked text of two runs of matches is the concatenation of their marked texts |
| LineParse.PiecesMarked | docs_sync.py:115-121 | `finditer` skips nothing: the matches with their delimiters, then the text after the last match, make up the line |
| LineParse.SpansWithinMeans | docs_sync.py:118 | recorded ranges `(a, b)` have `a <= b <= len(clean_line)`, ascend, and do not overlap |
| LineParse.SpansOf | docs_sync.py:118 | one range is recorded per match |
| LineParse.SpansCoverGroups | docs_sync.py:116-119 | each recorded range covers exactly its match's group in the cleaned line, and `b - a` is the group's length |
| LineParse.SpansOfWithin | docs_sync.py:116-119 | the recorded ranges ascend, do not overlap, and lie inside the cleaned line |
| LineParse.ReboldPieces | docs_sync.py:113-121 | putting `**` back around the recorded ranges of the cleaned pieces gives back the marked text |
| LineParse.PushPiece | docs_sync.py:116-119 | one more match appends its preceding text and group to `clean_line`, and its range to `bold_ranges` |
| LineParse.ExtractStep | docs_sync.py:115-120 | one iteration of the `finditer` loop is one step of the recursive definition `ExtractFrom` |
| LineParse.ExtractDone | docs_sync.py:121 | after the last match, the rest of the line is appended |
| LineParse.ExtractedBoldPieces | docs_sync.py:113-121 | the cleaned line is each match's preceding text and group, then the text after the last match; the ranges are those of the groups |
| LineParse.ExtractedBoldGroups | docs_sync.py:113-121 | one range per non-greedy match, each inside the cleaned line and covering exactly that match's group |
| LineParse.ExtractedBoldRoundTrip | docs_sync.py:113-121 | the ranges are ascending, disjoint and inside the cleaned line, and re-inserting `**` around them gives the line back: extraction replaces every `**x**` by `x` and nothing else |
| LineParse.NoStarsUnchanged | docs_sync.py:113-121 | a line without `**` is left as it is, with no range |
| LineParse.ExtractBold | docs_sync.py:113-121 | the `re.finditer` loop leaves the cleaned line and ranges `ExtractedBold` defines, whose properties the lemmas above state |
| DocsPush.SplitLines | docs_sync.py:73-77 | there is at least one line, and no line contains `\n` |
| DocsPush.LastPartEmpty | docs_sync.py:76-77 | when the content ends with a newline, the last piece of the split is empty, and dropping it loses nothing |
| DocsPush.SplitLinesUnlines | docs_sync.py:73-77 | the lines, each followed by a newline, are the normalised content, with a final newline added when it had none |
| DocsPush.LineOfWellFormed | docs_sync.py:89-121 | the bold ranges of every parsed line lie, ascending and disjoint, inside its cleaned text |
| DocsPush.ParsedWellFormed | docs_sync.py:89-121 | the same holds for every line of a file |
| DocsPush.ParseRow | docs_sync.py:89-121 | the loop body parses line `i` as `Parsed` does |
| DocsPush.PlaceLine | docs_sync.py:123-132 | one more line appends `clean_line + "\n"` to `full_text`, and one task at `current_pos` to `tasks` |
| DocsPush.LayOutStep | docs_sync.py:123-132 | one loop iteration keeps `full_text`, `tasks` and `current_pos = 1 + len(full_text)` matching the lines placed so far |
| DocsPush.LayOut | docs_sync.py:85-132 | the loop leaves the text and tasks `FullText` and `Tasks` define, and `current_pos == 1 + len(full_text)` |
| DocsPush.TaskOfLine | docs_sync.py:126-132 | the task of line `k` starts right after the text of the lines before it |
| DocsPush.TextPrefix | docs_sync.py:131 | `full_text` only grows: its value after `k` lines is a prefix of its value after more lines |
| DocsPush.ParagraphAt | docs_sync.py:123-131 | line `k`'s paragraph sits in the full text right after the lines before it |
| DocsPush.Layout | docs_sync.py:123-132 | the first task starts at 1; each ends `len(clean_line) + 1` after its start; each next task starts at the previous end; the last ends at `1 + len(full_text)` |
| DocsPush.LayoutText | docs_sync.py:123-135 | each task's range lies in the inserted text and holds exactly its cleaned line and a newline |
| DocsPush.BulletMarkPos | docs_sync.py:155-156 | `bullet_pos` is 18 points left of `text_pos`: `18 * (level + 1)`, which is where the text of a bullet one level shallower starts |
| DocsPush.AppendBoldRequests | docs_sync.py:169-171 | the inner loop appends the task's bold requests as `BoldRequests` defines them |
| DocsPush.AppendParagraphRequests | docs_sync.py:140-167 | named style, quote indent, bullet and bullet indent requests, in that order, each only when its condition holds |
| DocsPush.BuildRequests | docs_sync.py:138-171 | the request loop builds the request list `AllRequests` defines |
| DocsPush.BoldRequestsExact | docs_sync.py:169-171 | a bold request exists exactly for each recorded range with `b > a`, shifted by the paragraph start |
| DocsPush.TaskRequestsInside | docs_sync.py:140-171 | every request of a line covers a non-empty range inside its paragraph; bold requests end before the paragraph's newline |
| DocsPush.LineRequestsInside | docs_sync.py:138-171 | every request of line `k` covers a non-empty range inside the inserted text |
| DocsPush.RequestOfTask | docs_sync.py:139-171 | every built request belongs to one of the tasks |
| DocsPush.RequestsInsideDocument | docs_sync.py:135-171 | every request built for a document covers a non-empty range of the text inserted at index 1 |
| DocsPush.Batches | docs_sync.py:174-177 | the chunks concatenate to the requests; their number is `ceil(len / 50)`; each has 1 to 50 requests; all but the last have exactly 50 |
| DocsPush.Push | docs_sync.py:73-177 | the inserted text is `FullText` of the parsed lines, and the batches together are every request built for it |
| DocsPull.Nesting | docs_sync.py:50-58 | the level read back is at least `nestingLevel`, and equals it when `indentStart` is at most 36 |
| DocsPull.ReadParagraphText | docs_sync.py:33-39 | the inner loop builds the paragraph's Markdown as `ParaTextUpTo` defines it |
| DocsPull.ReadParagraph | docs_sync.py:31-65 | one paragraph rendered as `RenderParagraph` defines it |
| DocsPull.ReadStructuralElements | docs_sync.py:27-66 | the body rendered element by element, only paragraphs adding text |
| DocsPull.IndentRoundTrip | docs_sync.py:55-58 | a bullet at level L, written with `indentStart = 36 + 18L` and nesting level 0, is read back at level L |
| DocsPull.NestingFromIndent | docs_sync.py:55-58 | a level-0 bullet indented more than 36 points reads back at the level whose indent range holds its `indentStart` |
| SyncRoundTrip.HashRun | docs_sync.py:48 | the heading pull writes starts with exactly `level` `#` |
| SyncRoundTrip.StripIndent | docs_sync.py:60 | the indentation pull writes before a bullet is what `lstrip()` removes on push |
| SyncRoundTrip.LineOfNoStars | docs_sync.py:113-121 | a line without `**` is pushed with its text unchanged and no bold range |
| SyncRoundTrip.WrittenText | docs_sync.py:33-39 | the paragraph pushed for a line reads back as the line's text and a newline |
| SyncRoundTrip.WrittenFromRequests | docs_sync.py:123-167 | the pushed paragraph that pull reads back matches the requests sent for the line: its text fills the task's range; a style request is sent exactly when the style is not normal text; a bullet request exactly when it has a bullet; an indent request exactly when it has an indent, carrying that indent |
| SyncRoundTrip.RenderWritten | docs_sync.py:41-65 | the paragraph pushed for a line is read back as the line's Markdown form |
| SyncRoundTrip.PushThenPull | docs_sync.py:41-65 | pushing a line and pulling it back gives the line's Markdown form |
| SyncRoundTrip.HeadingParsesBack | docs_sync.py:100-103 | a heading that pull writes is classified again as the same heading with the same text |
| SyncRoundTrip.BulletParsesBack | docs_sync.py:105-111 | a bullet that pull writes is classified again as a bullet at the same level with the same text |
| SyncRoundTrip.PullThenPush | docs_sync.py:97-111 | pushing what pull wrote gives the same style, bullet, level and text; the quote flag also matches unless the line was a quoted heading |
| SyncRoundTrip.PushIsStable | docs_sync.py:89-121 | a line read back without loss is pushed again to the same paragraph |
| SyncRoundTrip.QuotedHeadingLosesQuote | docs_sync.py:97-105 | `> # Plan` is pushed as a quoted heading, but its pulled form is pushed as an unquoted one |
| TagUid.HexDigit | app/src/main/java/com/example/plamoscanner/MainActivity.kt:166 | the digit is an upper-case hexadecimal digit |
| TagUid.HexValue | app/src/main/java/com/example/plamoscanner/MainActivity.kt:166 | a character has a value exactly when it is an upper-case hex digit, and that value is the inverse of `HexDigit` |
| TagUid.Unsigned | app/src/main/java/com/example/plamoscanner/MainActivity.kt:166 | the byte's unsigned value is below 256, and a non-negative byte is its own value |
| TagUid.Hex2 | app/src/main/java/com/example/plamoscanner/MainActivity.kt:166 | `"%02X"` gives two upper-case hexadecimal digits |
| TagUid.FromHex2 | app/src/main/java/com/example/plamoscanner/MainActivity.kt:166 | two characters read back as a byte exactly when both are hex digits |
| TagUid.Hex2RoundTrip | app/src/main/java/com/example/plamoscanner/MainActivity.kt:166 | each byte's two digits read back as that byte, negative bytes included |
| TagUid.UidLength | app/src/main/java/com/example/plamoscanner/MainActivity.kt:166 | the uid of n bytes has length `3n - 1` (0 when there are no bytes) |
| TagUid.UidAt | app/src/main/java/com/example/plamoscanner/MainActivity.kt:166 | byte k's digits are at `3k` and `3k + 1`, with a `:` after every byte but the last |
| TagUid.UidColonAt | app/src/main/java/com/example/plamoscanner/MainActivity.kt:166 | a uid character is `:` exactly at the positions ≡ 2 (mod 3) |
| TagUid.UidShape | app/src/main/java/com/example/plamoscanner/MainActivity.kt:166 | length `3n - 1`; `:` exactly at positions ≡ 2 (mod 3); the byte digits in order between them |
| TagUid.ParseUidSnoc | app/src/main/java/com/example/plamoscanner/MainActivity.kt:166 | one more `:XX` group adds its byte when the uid is read back |
| TagUid.ParseHex2 | app/src/main/java/com/example/plamoscanner/MainActivity.kt:166 | the uid of a one-byte tag reads back as that byte |
| TagUid.UidRoundTrip | app/src/main/java/com/example/plamoscanner/MainActivity.kt:166 | reading a formatted uid back gives the tag's bytes |
| TagUid.UidInjective | app/src/main/java/com/example/plamoscanner/MainActivity.kt:166 | different tag ids give different uids |
| NotionStore.Query | app/src/main/java/com/example/plamoscanner/NotionRepository.kt:27-30 | the query returns only pages of the database whose title column reads exactly `uid`, and is empty exactly when no stored page matches |
| NotionStore.FirstHitExtend | app/src/main/java/com/example/plamoscanner/NotionRepository.kt:33 | the first match stays the first when pages are added after it |
| NotionStore.QueryFirstIndex | app/src/main/java/com/example/plamoscanner/NotionRepository.kt:32-33 | `results[0]` is the earliest stored page that matches the filter |
| NotionStore.QueryFirst | app/src/main/java/com/example/plamoscanner/NotionRepository.kt:32-33 | the first result is the earliest page that matches |
| NotionStore.QueryAppend | app/src/main/java/com/example/plamoscanner/NotionRepository.kt:27-40 | a page stored after the others is appended to a query's results exactly when it matches the filter, so creating a page never reorders earlier results |
| NotionStore.QueryDatabase | app/src/main/java/com/example/plamoscanner/NotionRepository.kt:27-30 | the query succeeds exactly when Notion answers and holds the database, and then returns the filtered pages |
| NotionStore.NewPage | app/src/main/java/com/example/plamoscanner/NotionRepository.kt:36-40 | the created page has the key column titled `uid` and the name column holding the default name as rich text |
| NotionStore.FindOrCreate | app/src/main/java/com/example/plamoscanner/NotionRepository.kt:19-42 | the call fails exactly when the query fails, the database is missing, or nothing matches and the create fails. The workspace changes exactly when the query answers with no match and the create succeeds, and then gets exactly one new page, the one returned. A returned page is stored and titled `uid` |
| NotionStore.FindOrCreateConsistent | app/src/main/java/com/example/plamoscanner/NotionRepository.kt:34-40 | a created page gets a fresh id in a database Notion holds |
| NotionStore.FindOrCreateFinds | app/src/main/java/com/example/plamoscanner/NotionRepository.kt:32-33 | when the query finds pages, the earliest is returned and nothing is created |
| NotionStore.FindOrCreateIdempotent | app/src/main/java/com/example/plamoscanner/NotionRepository.kt:27-40 | two calls in a row with the same arguments return the same page, and the second creates nothing |
| NotionStore.GetPageResult | app/src/main/java/com/example/plamoscanner/NotionRepository.kt:57-63 | `getPage` fails exactly when the query fails, returns null exactly when no page matches, and otherwise returns a page titled `uid` |
| NotionStore.GetAfterFindOrCreate | app/src/main/java/com/example/plamoscanner/NotionRepository.kt:57-62 | after `findOrCreatePage` succeeds, `getPage` with the same filter returns that very page |
| NotionStore.IndexOfPage | app/src/main/java/com/example/plamoscanner/NotionRepository.kt:51 | the patched page is found exactly when Notion holds a page with that id |
| NotionStore.UpdateLocation | app/src/main/java/com/example/plamoscanner/NotionRepository.kt:47-52 | the patch succeeds exactly when Notion answers and holds the page; it changes only that page, setting `現在の箱` to the one box and replacing any earlier value; other pages are unchanged |
| NotionStore.UpdateLocationAt | app/src/main/java/com/example/plamoscanner/NotionRepository.kt:47-52 | patching a stored page stores the relocated page in its place |
| NotionStore.RelocatedKeepsTitle | app/src/main/java/com/example/plamoscanner/NotionRepository.kt:48-50 | setting the location keeps the title of every other column |
| NotionStore.FindOrCreateStored | app/src/main/java/com/example/plamoscanner/NotionRepository.kt:19-42 | the page `findOrCreatePage` returns is held by the workspace |
| NotionStore.FindThenRelate | app/src/main/java/com/example/plamoscanner/MainActivity.kt:248-249 | after find-or-create and a successful patch, the workspace holds the bag's page, still titled with its key, with the box as its only location |
| NotionStore.NotionRepository.constructor | app/src/main/java/com/example/plamoscanner/NotionRepository.kt:10-13 | a repository over a workspace with the given databases and no pages |
| NotionStore.NotionRepository.CreatePage | app/src/main/java/com/example/plamoscanner/NotionRepository.kt:40 | a failed create changes nothing; otherwise exactly the new page is appended and the next id advances |
| NotionStore.NotionRepository.FindOrCreatePage | app/src/main/java/com/example/plamoscanner/NotionRepository.kt:19-42 | the method returns and stores what `FindOrCreate` specifies, and keeps the workspace consistent |
| NotionStore.NotionRepository.UpdateHukuroLocation | app/src/main/java/com/example/plamoscanner/NotionRepository.kt:47-52 | the method returns and stores what `UpdateLocation` specifies, and keeps the workspace consistent |
| NotionStore.NotionRepository.GetPage | app/src/main/java/com/example/plamoscanner/NotionRepository.kt:57-63 | the method returns what `GetPageResult` specifies and changes nothing |
| Scanner.DisplayName | app/src/main/java/com/example/plamoscanner/MainActivity.kt:210 | when the name column holds a non-empty rich text, the title is its first segment; otherwise it is the fallback id |
| Scanner.ModeChanged | app/src/main/java/com/example/plamoscanner/MainActivity.kt:116-127 | a mode button sets the chosen mode, `scannedId` to `-`, `resultTitle` to empty, scanning on and the mode's prompt; it keeps the selection and the lock |
| Scanner.Cancelled | app/src/main/java/com/example/plamoscanner/MainActivity.kt:133-138 | cancel turns scanning off and shows the idle prompt; mode and selection stay |
| Scanner.OpenPage | app/src/main/java/com/example/plamoscanner/MainActivity.kt:206-228 | a bag or box scan shows the page's name, or the id when it has none, and the opened message; a failure shows `エラー` and the message; only the title, the status and the scanning flag change, and scanning stops |
| Scanner.Step1 | app/src/main/java/com/example/plamoscanner/MainActivity.kt:230-243 | on success the box is chosen, step 2 follows, the status names the box by `DisplayName`, and scanning stays on; on failure the mode and selection stay, the title is `エラー`, and scanning stops |
| Scanner.Linked | app/src/main/java/com/example/plamoscanner/MainActivity.kt:247-260 | the workspace is the patched one. The app goes back to bag scanning with `完了` exactly when the patch succeeds, a box uid is chosen, the refetch is answered and the box database exists; otherwise the mode stays and `エラー` is shown. Scanning stops and the selection is kept |
| Scanner.Step2 | app/src/main/java/com/example/plamoscanner/MainActivity.kt:245-261 | with no box chosen nothing changes. Otherwise scanning stops and the selection is kept; the outcome is either bag scanning with `完了` or the same mode with `エラー`, and a failed query, patch or refetch always gives the latter |
| Scanner.Handle | app/src/main/java/com/example/plamoscanner/MainActivity.kt:184-191 | the handler for the current mode leaves the scanned id, the lock and the flash alone, keeps the selection invariant, and only step 1 changes the selection |
| Scanner.Scan | app/src/main/java/com/example/plamoscanner/MainActivity.kt:170-196 | a scan while scanning is off or locked changes nothing; an accepted scan shows the id, and the lock is released whatever the handler did |
| Scanner.Step2Consistent | app/src/main/java/com/example/plamoscanner/MainActivity.kt:245-261 | step 2 keeps the workspace consistent |
| Scanner.HandleConsistent | app/src/main/java/com/example/plamoscanner/MainActivity.kt:184-191 | every handler keeps the workspace consistent |
| Scanner.RunKeepsSelection | app/src/main/java/com/example/plamoscanner/MainActivity.kt:233-246 | whatever the buttons and Notion do, step 2 always has a box chosen, so its early return is never taken, and the workspace stays consistent |
| Scanner.Step2StoresBag | app/src/main/java/com/example/plamoscanner/MainActivity.kt:245-261 | with a box chosen, step 2 ends in `完了` and bag scanning exactly when the bag query is answered, the bag is found or created, the patch and refetch are answered and both databases exist; the bag's page then holds the chosen box as its only location. Otherwise `エラー` is shown and the mode stays, and when the bag was neither found nor created the workspace is unchanged |
| Scanner.MainActivity.constructor | app/src/main/java/com/example/plamoscanner/MainActivity.kt:58-70 | the fields start as declared: bag mode, `-`, empty title, the idle prompt, scanning off, unlocked, nothing chosen |
| Scanner.MainActivity.OnModeChange | app/src/main/java/com/example/plamoscanner/MainActivity.kt:116-127 | the callback leaves the state `ModeChanged` specifies; it keeps `Valid` unless step 2 is chosen with no box |
| Scanner.MainActivity.OnCancel | app/src/main/java/com/example/plamoscanner/MainActivity.kt:133-138 | the callback leaves the state `Cancelled` specifies and keeps `Valid` |
| Scanner.MainActivity.OnTagDiscovered | app/src/main/java/com/example/plamoscanner/MainActivity.kt:164-168 | a tag without an id changes nothing; otherwise its uid is scanned; the screen state and the workspace stay valid |
| Scanner.MainActivity.OnIdDetected | app/src/main/java/com/example/plamoscanner/MainActivity.kt:170-196 | the state and workspace become what `Scan` specifies; the screen state and the workspace stay valid |
| Scanner.MainActivity.UpdateUI | app/src/main/java/com/example/plamoscanner/MainActivity.kt:274-279 | the title and status are set, nothing else changes, and `Valid` is kept |
| Scanner.MainActivity.ProcessHukuro | app/src/main/java/com/example/plamoscanner/MainActivity.kt:206-216 | the bag scan leaves the state and workspace `OpenPage` specifies for the bag database, both still valid |
| Scanner.MainActivity.ProcessHako | app/src/main/java/com/example/plamoscanner/MainActivity.kt:218-228 | the box scan leaves the state and workspace `OpenPage` specifies for the box database, both still valid |
| Scanner.MainActivity.ProcessShimauStep1 | app/src/main/java/com/example/plamoscanner/MainActivity.kt:230-243 | step 1 leaves the state and workspace `Step1` specifies, both still valid |
| Scanner.MainActivity.ProcessShimauStep2 | app/src/main/java/com/example/plamoscanner/MainActivity.kt:245-261 | step 2 leaves the state and workspace `Step2` specifies, both still valid |

## Left out

- Google API calls and file I/O in `docs_sync.py` are not modelled:
  - OAuth and the token file (`get_service`);
  - `documents().get`;
  - the clear step that deletes the old content;
  - the `insertText` call and each `batchUpdate` call;
  - reading and writing the `.md` files, `argparse`, and the printed messages.
  
  `Push` returns the text to insert and the batches to send. A failing batch is only printed,
  so the batches do not depend on whether any of them fails.
- Indent magnitudes in `read_structural_elements` are modelled as whole points. The Docs API
  may return fractional magnitudes, which the model does not capture. For whole numbers above
  36, `int((x - 36 + 9) / 18)` equals the integer quotient `(x - 27) / 18`.
- Document indexes: the Docs API counts UTF-16 code units; the model counts characters as
  Python's `len` does, and so does the source.
- The regex engine is replaced by explicit scans:
  - `\*\*(.*?)\*\*` is the leftmost `**`, then the nearest closing `**`. `.` does not match a
    newline, and split lines hold none.
  - `^(#+)\s` counts the leading `#`. `\s` is Python's `str.isspace` set.
- Text runs in a pulled document: the push/pull round trip assumes the document keeps a pushed
  line as one text run, with no bullet `nestingLevel`.
  `SyncRoundTrip.Written` is how the Docs API is assumed to apply the requests of
  `WrittenFromRequests` to the freshly inserted paragraph; the API itself is outside the model.
- SyncRoundTrip.PushThenPull: stated only for lines without `**` whose heading, list or quote
  text is not empty and, for headings and list items, does not start with whitespace.
  - Bold runs come back only if the document splits them into runs, which is outside the
    model.
  - `lstrip()` in pull removes whitespace that push kept.
- SyncRoundTrip.PushIsStable: stated for every line except a quoted heading. Pull writes a
  quoted heading without its `> `, as `QuotedHeadingLosesQuote` shows.
- Android parts of `MainActivity` are not modelled:
  - coroutines, dispatcher hops and the `delay` calls (a scan runs as one atomic step);
  - the shutter sound and the flash animation (`isFlashing` goes on and straight off);
  - `openNotionPage` intents and toasts;
  - Compose layout and theming, camera permission, NFC reader set-up, and the QR camera
    pipeline;
  - the preview image `capturedImage`;
  - the unimplemented `onCapture`.
- Notion's HTTP details are not modelled: Retrofit, OkHttp, the authorization and
  `Notion-Version` headers, and JSON mapping. Each request's outcome is an input: Notion
  answers, or the call throws with a message that may be null.
- Notion's own choices are modelled as follows:
  - Page ids are numbers handed out in creation order.
  - A page's url is a fixed prefix followed by its id.
  - Query results come in storage order.
  - Query results are not paginated.
  - The error for an unknown database or page is one fixed message.
  - A concurrent query-then-create race is not modelled; only sequential use is.
- NotionStore.FindOrCreateIdempotent, NotionStore.GetAfterFindOrCreate and
  NotionStore.FindThenRelate require the key column and the name column to differ.
  - When they are the same, Kotlin's `mapOf` keeps the later entry, and the created page is
    not titled with the uid.
  - The app always passes two different columns.
- Scanner.RunKeepsSelection: stated for event sequences made of the three mode buttons, cancel
  and scans, which is what the screen offers. `onModeChange(SHIMAU_STEP2_HUKURO)` is never
  called from the UI.
