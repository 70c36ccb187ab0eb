/** The anyrun plugin itself (src/lib.rs): configuration, the results shown for a query, and
    what selecting a result does. The plugin host, its ABI-stable wrapper types and icons are
    not modelled; results are plain datatypes. */
module Plugin {
  import opened Base
  import opened Text
  import opened Types
  import opened Actions
  import opened Ranking

  /** `Config`: how many entries to show and whether to describe them. */
  datatype Config = Config(max_entries: nat, show_description: bool)

  /** `Config::default()` */
  function DefaultConfig(): Config
  {
    Config(10, true)
  }

  /** The configuration `init` settles on: the deserialized file when it can be read and parsed,
      the default otherwise. No error reaches the user. `file` is the file's text, if it could be
      read; `deserialize` stands for the RON parser. */
  function LoadConfig(file: Option<string>, deserialize: string -> Option<Config>): (c: Config)
    ensures file.None? ==> c == Config(10, true)
    ensures file.Some? && deserialize(file.value).None? ==> c == Config(10, true)
    ensures file.Some? && deserialize(file.value).Some? ==> c == deserialize(file.value).value
  {
    match file
    case None => DefaultConfig()
    case Some(content) =>
      match deserialize(content)
      case None => DefaultConfig()
      case Some(config) => config
  }

  /** The plugin state captured when a session starts. */
  datatype State = State(history: Result<seq<ClipboardEntry>, CliphistError>, config: Config)

  /** Result id meaning "an error occurred": `u64::MAX`. */
  const OPTION_ERROR: u64 := U64_MAX
  /** Result id meaning "wipe the history": `u64::MAX - 1`. */
  const OPTION_WIPE: u64 := U64_MAX - 1

  /** One result shown by the launcher. `use_pango` marks a title written in Pango markup. */
  datatype Match = Match(title: string, description: Option<string>, use_pango: bool, id: Option<u64>)

  /** `make_description`: the message when descriptions are shown, nothing otherwise. */
  function MakeDescription(msg: string, show: bool): (r: Option<string>)
    ensures r.Some? <==> show
    ensures r.Some? ==> r.value == msg
  {
    if show then Some(msg) else None
  }

  /** The result for a history entry: its content verbatim as plain text, its index as id. */
  function EntryMatch(e: ClipboardEntry, show: bool): (m: Match)
    ensures m.title == e.content && m.id == Some(e.index) && !m.use_pango
    ensures m.description == if show then Some("Entry " + NatToString(e.index)) else None
  {
    Match(e.content, MakeDescription("Entry " + NatToString(e.index), show), false, Some(e.index))
  }

  /** The extra result that wipes the history; its title is markup. */
  function WipeMatch(show: bool): (m: Match)
    ensures m.id == Some(OPTION_WIPE) && m.use_pango
    ensures m.description == if show then Some("clear history") else None
  {
    Match("<i>** Wipe Clipboard History</i>", MakeDescription("clear history", show), true, Some(OPTION_WIPE))
  }

  /** The single result shown when the history could not be read. */
  function ErrorMatch(err: CliphistError, show: bool): (m: Match)
    ensures m.id == Some(OPTION_ERROR) && !m.use_pango
    ensures m.title == "Error: " + ErrorText(err)
    ensures m.description == if show then Some("Error encountered calling cliphist") else None
  {
    Match("Error: " + ErrorText(err), MakeDescription("Error encountered calling cliphist", show), false, Some(OPTION_ERROR))
  }

  /** The results for the kept matches, in order. */
  function EntryMatches(ranked: seq<ScoredEntry>, show: bool): (ms: seq<Match>)
    ensures |ms| == |ranked|
    ensures forall i :: 0 <= i < |ranked| ==> ms[i] == EntryMatch(ranked[i].entry, show)
  {
    if ranked == [] then [] else [EntryMatch(ranked[0].entry, show)] + EntryMatches(ranked[1..], show)
  }

  /** The results `get_matches` shows for `input`. */
  function Composed(input: string, state: State, fuzzy: (string, string) -> Option<int>): seq<Match>
  {
    match state.history
    case Err(err) => [ErrorMatch(err, state.config.show_description)]
    case Ok(entries) =>
      EntryMatches(Ranked(entries, input, fuzzy, state.config.max_entries), state.config.show_description) +
      [WipeMatch(state.config.show_description)]
  }

  /** The `filter_map` of `get_matches`: every entry scored, the non-matches dropped. */
  method ScoreEntries(entries: seq<ClipboardEntry>, input: string, fuzzy: (string, string) -> Option<int>) returns (matches: seq<ScoredEntry>)
    ensures matches == ScoreAll(entries, input, fuzzy)
  {
    matches := [];
    var i := 0;
    while i < |entries|
      invariant 0 <= i <= |entries|
      invariant matches == ScoreAll(entries[..i], input, fuzzy)
    {
      var entry := entries[i];
      if input == "" {
        matches := matches + [ScoredEntry(0, entry)];
      } else {
        match fuzzy(entry.content, input) {
          case Some(score) =>
            matches := matches + [ScoredEntry(score, entry)];
          case None =>
        }
      }
      assert entries[..i + 1][..i] == entries[..i];
      i := i + 1;
    }
    assert entries[..|entries|] == entries;
  }

  /** `get_matches`: score every entry, keep the matches, sort them, cut them to `max_entries`,
      turn them into results and add the wipe result; or, when the history is an error, the single
      error result. */
  method GetMatches(input: string, state: State, fuzzy: (string, string) -> Option<int>) returns (result: seq<Match>)
    ensures result == Composed(input, state, fuzzy)
  {
    if state.history.Err? {
      return [ErrorMatch(state.history.error, state.config.show_description)];
    }
    var show := state.config.show_description;
    var matches := ScoreEntries(state.history.value, input, fuzzy);
    matches := SortMatches(matches);
    matches := matches[..Min(state.config.max_entries, |matches|)];
    assert matches == Ranked(state.history.value, input, fuzzy, state.config.max_entries);
    result := ToEntryMatches(matches, show);
    result := result + [WipeMatch(show)];
  }

  /** The `map` of `get_matches`: one entry result per kept match, in order. */
  method ToEntryMatches(matches: seq<ScoredEntry>, show: bool) returns (result: seq<Match>)
    ensures result == EntryMatches(matches, show)
  {
    result := [];
    var j := 0;
    while j < |matches|
      invariant 0 <= j <= |matches| && |result| == j
      invariant forall k :: 0 <= k < j ==> result[k] == EntryMatch(matches[k].entry, show)
    {
      result := result + [EntryMatch(matches[j].entry, show)];
      j := j + 1;
    }
  }

  /** When the history is an error, exactly one result, the error result, whatever the query
      and the bound. */
  lemma ErrorBranch(input: string, state: State, fuzzy: (string, string) -> Option<int>)
    requires state.history.Err?
    ensures var c := Composed(input, state, fuzzy);
      |c| == 1 && c[0].id == Some(OPTION_ERROR) && c[0].title == "Error: " + ErrorText(state.history.error)
  {
  }

  /** On a readable history the results are at most `max_entries` entry results followed by
      exactly one wipe result, the only one in markup, present even when nothing matches. No entry
      result carries the wipe id unless an entry's own index is that value. */
  lemma WipeSentinel(input: string, state: State, fuzzy: (string, string) -> Option<int>)
    requires state.history.Ok?
    ensures var c := Composed(input, state, fuzzy);
      |c| >= 1 && |c| - 1 <= state.config.max_entries &&
      c[|c| - 1] == WipeMatch(state.config.show_description) &&
      (forall i :: 0 <= i < |c| - 1 ==> !c[i].use_pango) &&
      ((forall e :: e in state.history.value ==> e.index != OPTION_WIPE) ==>
        forall i :: 0 <= i < |c| - 1 ==> c[i].id != Some(OPTION_WIPE))
  {
    var entries := state.history.value;
    var r := Ranked(entries, input, fuzzy, state.config.max_entries);
    var c := Composed(input, state, fuzzy);
    RankedIsBest(entries, input, fuzzy, state.config.max_entries);
    ScoreAllKeepsMatches(entries, input, fuzzy);
    forall i | 0 <= i < |c| - 1
      ensures c[i].id == Some(r[i].entry.index) && r[i].entry in entries
    {
      assert r[i] in multiset(ScoreAll(entries, input, fuzzy));
    }
  }

  /** On an empty query the entry results are the whole history up to `max_entries`, by
      descending index. */
  lemma EmptyQueryResults(state: State, fuzzy: (string, string) -> Option<int>)
    requires state.history.Ok?
    ensures var c := Composed("", state, fuzzy);
      var entries := state.history.value;
      |c| - 1 == Min(state.config.max_entries, |entries|) &&
      (forall i :: 0 <= i < |c| - 1 ==> c[i].id.Some? && ClipboardEntry(c[i].id.value, c[i].title) in entries) &&
      (forall i, j :: 0 <= i < j < |c| - 1 ==> c[i].id.value >= c[j].id.value)
  {
    var entries := state.history.value;
    RankedEmptyQuery(entries, fuzzy, state.config.max_entries);
  }

  /** What `handler` reports to the launcher: close it, or show a message. */
  datatype HandleResult = Close | Stdout(text: string)

  /** The external actions `handler` can start. */
  datatype Command = WipeCommand | CopyCommand(id: u64)

  /** The report, together with the external actions started, in order. */
  datatype Handled = Handled(result: HandleResult, invoked: seq<Command>)

  /** `handler`: the error id and a missing id close the launcher and start nothing; the wipe id
      starts only the wipe; any other id starts only the copy of that entry. A failed action is
      reported with its error; anything else closes. `run` gives each action's outcome. */
  function Handler(selection: Match, run: Command -> Outcome): (h: Handled)
    ensures |h.invoked| <= 1
    ensures h.result == Close <==> h.invoked == [] || run(h.invoked[0]).Pass?
    ensures selection.id.None? || selection.id == Some(OPTION_ERROR) ==> h.invoked == []
    ensures selection.id == Some(OPTION_WIPE) ==> h.invoked == [WipeCommand]
    ensures selection.id.Some? && selection.id.value != OPTION_ERROR && selection.id.value != OPTION_WIPE ==>
      h.invoked == [CopyCommand(selection.id.value)]
    ensures h.result.Stdout? && h.invoked == [WipeCommand] ==>
      h.result.text == "Failed to wipe clipboard history: " + ErrorText(run(WipeCommand).error)
    ensures h.result.Stdout? && h.invoked != [WipeCommand] ==>
      h.result.text == "Failed to select clipboard entry: " + ErrorText(run(h.invoked[0]).error)
  {
    match selection.id
    case None => Handled(Close, [])
    case Some(id) =>
      if id == OPTION_ERROR then Handled(Close, [])
      else if id == OPTION_WIPE then
        match run(WipeCommand)
        case Fail(e) => Handled(Stdout("Failed to wipe clipboard history: " + ErrorText(e)), [WipeCommand])
        case Pass => Handled(Close, [WipeCommand])
      else
        match run(CopyCommand(id))
        case Fail(e) => Handled(Stdout("Failed to select clipboard entry: " + ErrorText(e)), [CopyCommand(id)])
        case Pass => Handled(Close, [CopyCommand(id)])
  }

  /** Selecting a result that `get_matches` showed starts the action that result stands for:
      nothing for the error result, the wipe for the wipe result, and the copy of the entry for an
      entry result, unless the entry's index is one of the two reserved ids, in which case it is
      taken for that sentinel. */
  lemma SelectShownResult(input: string, state: State, fuzzy: (string, string) -> Option<int>, run: Command -> Outcome, i: nat)
    requires i < |Composed(input, state, fuzzy)|
    ensures var c := Composed(input, state, fuzzy);
      var h := Handler(c[i], run);
      (state.history.Err? ==> h == Handled(Close, [])) &&
      (state.history.Ok? && i == |c| - 1 ==> h.invoked == [WipeCommand]) &&
      (state.history.Ok? && i < |c| - 1 ==>
        var index := Ranked(state.history.value, input, fuzzy, state.config.max_entries)[i].entry.index;
        h.invoked == if index == OPTION_ERROR then []
                     else if index == OPTION_WIPE then [WipeCommand]
                     else [CopyCommand(index)])
  {
  }

  /** The outcome of an action, given what the commands it runs report. */
  function Perform(cmd: Command, wipe: CommandOutput, decode: u64 -> CommandOutput, copy: u64 -> PipeOutcome): Outcome
  {
    match cmd
    case WipeCommand => WipeHistory(wipe)
    case CopyCommand(id) => CopyHistory(id, decode(id), copy(id))
  }

  /** Selecting the wipe result when `cliphist wipe` exits unsuccessfully keeps the launcher open
      with the command's error text. */
  lemma WipeFailureReported(show: bool, stdout: string, stderr: string, decode: u64 -> CommandOutput, copy: u64 -> PipeOutcome)
    ensures var run := (cmd: Command) => Perform(cmd, Exited(false, stdout, stderr), decode, copy);
      Handler(WipeMatch(show), run) ==
        Handled(Stdout("Failed to wipe clipboard history: Command failed: " + stderr), [WipeCommand])
  {
    var run := (cmd: Command) => Perform(cmd, Exited(false, stdout, stderr), decode, copy);
    assert run(WipeCommand) == Fail(CommandFailed(stderr));
    assert "Failed to wipe clipboard history: " + ("Command failed: " + stderr) ==
      "Failed to wipe clipboard history: Command failed: " + stderr;
  }

  /** `init`: read the history once and settle the configuration. */
  method Init(list: CommandOutput, configFile: Option<string>, deserialize: string -> Option<Config>) returns (state: State)
    ensures state.config == LoadConfig(configFile, deserialize)
    ensures list.SpawnFailed? ==> state.history == Err(CommandFailed(list.reason))
    ensures list.Exited? && !list.success ==> state.history == Err(CommandFailed(list.stderr))
    ensures list.Exited? && list.success ==> state.history == ParseLines(Lines(list.stdout))
  {
    var history := GetHistory(list);
    state := State(history, LoadConfig(configFile, deserialize));
  }
}
