# Clipboard-history search for the anyrun launcher, in Dafny

This project models the search-and-select engine of an anyrun plugin that browses the
`cliphist` clipboard history, and proves properties of that model.

- **History parsing** (`get_history`). The output of `cliphist list` is split into lines the way
  Rust's `str::lines` does it. Each line is split at its first TAB into an index and the content.
  The index must parse as a `u64`. The first line that is malformed aborts the whole parse with a
  `ParseError`. A failed `cliphist list` run is a `CommandFailed`, and nothing is parsed then.
- **Result composition** (`get_matches`). Every entry gets a score. An empty query gives every
  entry score 0; otherwise the fuzzy matcher decides. Non-matches are dropped. The rest are sorted
  by score descending, then index descending, and cut to `max_entries`. Each kept entry becomes a
  plain-text result. One wipe result, in Pango markup, is always appended. When the history could
  not be read, the only result is an error result.
- **Selection** (`handler`). A selected result's id decides the action. No id, or the error id
  `u64::MAX`, closes the launcher and runs nothing. The wipe id `u64::MAX - 1` runs only
  `cliphist wipe`. Any other id runs only the copy of that entry. A failed action keeps the launcher
  open with a message; anything else closes it.
- **Configuration** (`init`). `{max_entries: 10, show_description: true}` is used whenever the
  file cannot be read or parsed.

Modules, one per source file or library piece:

| file | module | models |
|---|---|---|
| base.dfy | `Base` | `Option`, `Result`, `u64`, collecting a sequence of results |
| text.dfy | `Text` | `str::lines`, `str::split_once`, `str::parse::<u64>`, `u64::to_string` |
| types.dfy | `Types` | src/cliphist/types.rs |
| actions.dfy | `Actions` | src/cliphist/actions.rs |
| ranking.dfy | `Ranking` | the `filter_map`, `sort_by` and `truncate` steps of `get_matches` |
| plugin.dfy | `Plugin` | src/lib.rs |
| scenarios.dfy | `Scenarios` | two concrete searches |

External collaborators are parameters:
- the fuzzy matcher is `fuzzy: (string, string) -> Option<int>`, with nothing assumed about it;
- each external command is a value saying what it reported (`CommandOutput`, `PipeOutcome`);
- the handler's actions are a function `run: Command -> Outcome`, and `Plugin.Perform` builds it
  from the command outcomes;
- the configuration file is an `Option<string>` (its text, if it could be read), and the RON
  deserializer is a `string -> Option<Config>` parameter.

`copy_history` ignores the exit status of `cliphist decode`. It pipes whatever that command
printed into `wl-copy`. Only a failure to start `cliphist decode`, a pipe error, or an
unsuccessful `wl-copy` exit is a failure. `Actions.CopyIgnoresDecodeStatus` states this.

An entry whose own index is `u64::MAX` or `u64::MAX - 1` is shown with that id. The handler then
takes it for the error or the wipe sentinel, because the sentinel checks come first.
`Plugin.SelectShownResult` states this case explicitly, and `Plugin.WipeSentinel` proves the wipe
id is unique only when no entry carries it.

## Model

| member | source | states |
|---|---|---|
| `Text.SplitOnce` | src/cliphist/actions.rs:22 | `split_once('\t')` fails exactly when the line has no TAB; otherwise the line is the first part, a TAB and the second part, and the first part has no TAB (`Text.SplitOnceAt` shows the split is unique) |
| `Text.SplitOnceAt` | src/cliphist/actions.rs:22 | splitting `a + TAB + b` where `a` has no TAB yields exactly `(a, b)`: only the first TAB splits |
| `Text.Lines` | src/cliphist/actions.rs:20 | `str::lines`: no yielded line holds a `\n`; the lemmas below give the split of joined lines and the removal of `\r\n`, and `Text.LinesLast` keeps a final unterminated line whole, trailing `\r` included |
| `Text.LinesJoinLines` | src/cliphist/actions.rs:20 | `str::lines` on lines joined by `\n` gives back exactly those lines, when each is non-empty, has no `\n` and does not end in `\r` |
| `Text.LinesJoinLinesTerminated` | src/cliphist/actions.rs:20 | a final `\n` after the joined lines adds no empty line (a lone `\n` is one empty line) |
| `Text.LinesCrLf` | src/cliphist/actions.rs:20 | a `\r\n` line ending is removed whole, like `\n` |
| `Text.LinesLast` | src/cliphist/actions.rs:20 | a final line without `\n` is yielded whole, a trailing `\r` kept, as `"a\r".lines()` yields `"a\r"` |
| `Text.NatToString` | src/lib.rs:121 | `to_string` gives non-empty decimal digits denoting the number, with no leading zero |
| `Text.ParseU64` | src/cliphist/actions.rs:23 | `parse::<u64>` accepts only a non-empty string of ASCII digits, with at most one leading `+`; the `Text.ParseU64*` lemmas below give its value on digit strings, that a leading `+` is ignored, and each rejected case |
| `Text.ParseU64NatToString` | src/cliphist/actions.rs:23 | `parse::<u64>` of a printed `u64` gives the same number back |
| `Text.ParseU64Digits` | src/cliphist/actions.rs:23 | a non-empty digit string parses exactly when its value is at most `u64::MAX`, and then to that value |
| `Text.ParseU64Rejects` | src/cliphist/actions.rs:23 | a string with a character that is not a digit (apart from one leading `+` before digits) is rejected |
| `Text.ParseU64TooLarge` | src/cliphist/actions.rs:23 | a decimal number above `u64::MAX` is rejected |
| `Text.ParseU64Plus` | src/cliphist/actions.rs:23 | a single leading `+` before digits is accepted and does not change the value |
| `Text.ParseU64Empty` | src/cliphist/actions.rs:23 | the empty index and a lone `+` are rejected |
| `Types.ErrorText` | src/cliphist/types.rs:12-16 | the display text ends with the error's message after the kind's prefix; `Types.ErrorTextInjective` shows distinct errors display differently |
| `Types.ErrorTextInjective` | src/cliphist/types.rs:12-16 | two errors have the same display text if and only if they are the same error |
| `Actions.CheckedOutput` | src/cliphist/actions.rs:6-15 | the output is used only after a successful exit; a start-up failure or an unsuccessful exit is `CommandFailed` with the start-up error or the standard error text |
| `Actions.ParseLine` | src/cliphist/actions.rs:22-39 | one line's outcome: any error is a `ParseError`, and a parsed content is the tail of the line after a TAB; the two lemmas below pin both branches |
| `Actions.ParseLineMissingTab` | src/cliphist/actions.rs:34-39 | a line with no TAB, including an empty line, is `ParseError("Invalid line format: <line>")` |
| `Actions.ParseLineFirstTab` | src/cliphist/actions.rs:22-33 | a line `a + TAB + b` gives index `parse(a)` and content `b` verbatim, further TABs included, or `ParseError("Invalid index: <a>")` |
| `Actions.ParseLines` | src/cliphist/actions.rs:20-42 | every line's entry in order, or the first failing line's error; pinned by `Actions.ParseLinesShape` and `Actions.ParseLinesFirstError` |
| `Actions.ParseLinesAllOk` | src/cliphist/actions.rs:20-27 | when every line parses, the result is one entry per line, in order |
| `Actions.ParseLinesFirstError` | src/cliphist/actions.rs:20-39 | the error returned is the first malformed line's error, and no entries are returned |
| `Actions.ParseLinesShape` | src/cliphist/actions.rs:20-42 | parsing succeeds if and only if every line parses; then the length equals the number of lines and entry i is line i's entry |
| `Actions.ParseHistory` | src/cliphist/actions.rs:17-42 | the loop over the lines, with its push and its two early returns, computes exactly the line-by-line result above |
| `Actions.GetHistory` | src/cliphist/actions.rs:5-43 | a failed or unsuccessful `cliphist list` yields `CommandFailed`, whatever it printed; a successful one yields the parse of its output |
| `Actions.ParseEmptyOutput` | src/cliphist/actions.rs:18-42 | empty output is an empty history, not an error |
| `Actions.ParseFormatLine` | src/cliphist/actions.rs:22-27 | the line `<index>TAB<content>` parses back to the entry, for every index and content |
| `Actions.ParseListing` | src/cliphist/actions.rs:20-42 | round trip: entries printed as `<index>TAB<content>` and joined by `\n` parse back to exactly those entries, in order, when no content holds `\n` or ends in `\r` |
| `Actions.ParseListingTerminated` | src/cliphist/actions.rs:20-42 | the same round trip with a final `\n` after the last entry |
| `Actions.WipeHistory` | src/cliphist/actions.rs:81-94 | the wipe succeeds if and only if `cliphist wipe` started and exited successfully; otherwise `CommandFailed` with the start-up error or the standard error text |
| `Actions.CopyHistory` | src/cliphist/actions.rs:45-79 | a failure to start `cliphist decode` is a `CommandFailed` naming the index; otherwise success if and only if `wl-copy` exits successfully, with the pipe error or a fixed message on failure |
| `Actions.CopyIgnoresDecodeStatus` | src/cliphist/actions.rs:55-72 | the outcome does not depend on the exit status of `cliphist decode` |
| `Ranking.Score` | src/lib.rs:99-105 | score 0 on an empty query, the matcher's verdict otherwise; its consequences are stated by `Ranking.ScoreAllEmptyQuery` and `Ranking.ScoreAllCounts` |
| `Ranking.ScoreAll` | src/lib.rs:96-107 | the `filter_map` over the history; pinned by `Ranking.ScoreAllCounts`, `Ranking.ScoreAllAppend` and `Ranking.ScoreAllSingle` |
| `Ranking.ScoreAllKeepsMatches` | src/lib.rs:96-107 | exactly the entries the scorer accepts are kept, each with its own score |
| `Ranking.ScoreAllCounts` | src/lib.rs:96-107 | each accepted entry is kept exactly as many times as it occurs in the history, with its score, and nothing else is kept |
| `Ranking.ScoreAllAppend` | src/lib.rs:96-107 | scoring a history is scoring its parts and concatenating: the kept matches stay in history order |
| `Ranking.ScoreAllSingle` | src/lib.rs:99-106 | one entry is kept, with the score it was given, exactly when the scorer accepts it |
| `Ranking.ScoreAllEmptyQuery` | src/lib.rs:99-102 | on an empty query every entry is kept, in history order, with score 0 |
| `Ranking.SortMatches` | src/lib.rs:109-112 | the sort yields a permutation of the matches ordered by score descending, then index descending |
| `Ranking.SortMatchesStable` | src/lib.rs:109-112 | matches the comparator ranks equal (same score and same index) keep their history order, as the stable `sort_by` keeps them |
| `Ranking.Ranked` | src/lib.rs:109-114 | the sorted matches cut to `max_entries`; `Ranking.RankedIsBest` states which matches survive the cut, and `Ranking.SortMatchesStable` decides between matches of equal score and index (the earlier in history comes first) |
| `Ranking.RankedIsBest` | src/lib.rs:109-114 | truncation follows sorting: `min(max_entries, matches)` are kept, they are ordered and taken from the matches, and no dropped match ranks above any kept one |
| `Ranking.RankedTieBreak` | src/lib.rs:109-112 | two kept entries with identical content appear with the higher index first |
| `Ranking.RankedEmptyQuery` | src/lib.rs:96-114 | on an empty query the kept entries are history entries with score 0, by descending index, `min(max_entries, entries)` of them, and all of them when the bound is not reached |
| `Plugin.DefaultConfig` | src/lib.rs:20-27 | `Config::default`, `{max_entries: 10, show_description: true}`; `Plugin.LoadConfig` states where it is used |
| `Plugin.LoadConfig` | src/lib.rs:44-47 | the configuration is the deserialized file when the file is readable and valid, and otherwise the default `{10, true}` of `Config::default` (lines 20-27); no error escapes |
| `Plugin.MakeDescription` | src/lib.rs:65-71 | a description is present if and only if `show`, and it is then the message |
| `Plugin.EntryMatch` | src/lib.rs:116-128 | an entry result has the content verbatim as its title, the index as its id, no markup, and the description `Entry <index>` if and only if descriptions are shown |
| `Plugin.WipeMatch` | src/lib.rs:130-137 | the wipe result carries id `u64::MAX - 1`, uses markup, and is described `clear history` if and only if descriptions are shown |
| `Plugin.ErrorMatch` | src/lib.rs:79-88 | the error result carries id `u64::MAX`, uses no markup, and its title is `Error: ` followed by the error's display text |
| `Plugin.Composed` | src/lib.rs:74-141 | the results `get_matches` returns; `Plugin.GetMatches` computes it, and `Plugin.ErrorBranch`, `Plugin.WipeSentinel` and `Plugin.EmptyQueryResults` state its properties |
| `Plugin.ScoreEntries` | src/lib.rs:96-107 | the `filter_map` loop computes exactly the scored matches, in history order |
| `Plugin.ToEntryMatches` | src/lib.rs:116-128 | the loop mapping the kept matches to results computes exactly one entry result per match, in order |
| `Plugin.GetMatches` | src/lib.rs:74-141 | the imperative composition (score, sort, truncate, map, push the wipe result) returns exactly `Composed`: the error result alone, or one entry result per ranked match followed by the wipe result |
| `Plugin.ErrorBranch` | src/lib.rs:75-89 | when the history is an error there is exactly one result, the error result, whatever the query and `max_entries` |
| `Plugin.WipeSentinel` | src/lib.rs:114-138 | on a readable history there are at most `max_entries` entry results, then exactly one wipe result, the only one in markup, present even with no match; no entry result carries the wipe id unless an entry's index is that value |
| `Plugin.EmptyQueryResults` | src/lib.rs:96-128 | on an empty query the entry results are history entries, `min(max_entries, entries)` of them, by descending id |
| `Plugin.Handler` | src/lib.rs:144-177 | at most one action runs; no id or the error id runs nothing; the wipe id runs only the wipe; any other id runs only the copy of that id; the result is `Close` if and only if no action ran or the action succeeded, and otherwise the fixed prefix followed by the error's display text |
| `Plugin.SelectShownResult` | src/lib.rs:144-177 | selecting any shown result runs the action it stands for: nothing for the error result, the wipe for the wipe result, the copy of the entry otherwise, except that an entry whose index equals a sentinel id is dispatched as that sentinel |
| `Plugin.Perform` | src/lib.rs:150-170 | the handler's actions: the wipe result runs `wipe_history`, an entry runs `copy_history` of its id; `Plugin.SelectShownResult` and `Plugin.WipeFailureReported` state what selection then yields |
| `Plugin.WipeFailureReported` | src/lib.rs:150-158 | when `cliphist wipe` exits unsuccessfully, the launcher stays open with `Failed to wipe clipboard history: Command failed: <stderr>` |
| `Plugin.Init` | src/lib.rs:41-49 | the state holds the fetched history (an error, or the parse of the listing) and the configuration after the fallback |
| `Scenarios.SortThenTruncate` | src/lib.rs:109-114 | scores `[5, 1, 9, 3]` with `max_entries` 2 keep the entries scored 9 and 5, in that order |
| `Scenarios.ParseSample` | src/cliphist/actions.rs:20-42 | `3\tfoo\n1\tbar\n7\tfoobar` parses to entries 3, 1 and 7 with their contents |
| `Scenarios.EndToEnd` | src/lib.rs:74-141 | that history searched for `foo`, when the matcher accepts `foo` and `foobar` (scoring `foobar` at least as high) and rejects `bar`, gives entry 7, entry 3, then the wipe result |

## Left out

- Process handling: starting `cliphist list`, `cliphist decode`, `cliphist wipe` and `wl-copy`, piping the decoded bytes into `wl-copy`, waiting for the children, and the `println!` in `copy_history`. The model receives what each command reported as a value (`CommandOutput`, `PipeOutcome`).
- Byte decoding with `String::from_utf8_lossy`: the standard output and error of every command arrive as already decoded strings.
- The fuzzy matcher (`SkimMatcherV2`): a foreign library, modelled as an arbitrary function parameter, so nothing is claimed about its scores.
- Reading `cliphist.ron` and RON deserialization: the file's text and the deserializer are parameters; only the fallback is modelled.
- Plugin glue: the anyrun macros, the ABI-stable `RString`/`ROption`/`RVec` types, `info()`, and the icons of the results.
- `Ranking.SortMatches`: the standard library's stable merge sort is stood for by a stable insertion sort. Both give the same output, because the result of a stable sort is fixed by its comparator; the model proves sortedness, permutation and stability.
- `Plugin.GetMatches`: the in-place `sort_by` and `truncate` on the `Vec` are modelled as reassigning a sequence, so no array aliasing is captured.
- `max_entries` is an unbounded natural number rather than a `usize`, and scores are unbounded integers rather than `i64`. Neither bound affects the comparisons or the truncation.
- The `Display` of errors is modelled only by its two fixed prefixes, `Command failed: ` and `Parse error: `.
