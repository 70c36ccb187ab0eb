/** Calls to the `cliphist` and `wl-copy` commands (src/cliphist/actions.rs).
    The processes themselves are not modelled: what a command did is given as a value
    (it could not be started, or it exited with a status and some output), and the
    functions here are what the plugin makes of that. */
module Actions {
  import opened Base
  import opened Text
  import opened Types

  /** What `Command::output()` reports: an error starting the process, or its exit and output. */
  datatype CommandOutput =
    | SpawnFailed(reason: string)
    | Exited(success: bool, stdout: string, stderr: string)

  /** What spawning `wl-copy`, writing its input and waiting for it reports. */
  datatype PipeOutcome =
    | PipeFailed(reason: string)
    | Waited(success: bool)

  /** `Ok(())` or an error, for the commands that only succeed or fail. */
  datatype Outcome = Pass | Fail(error: CliphistError)

  /** The standard output of a command that ran and exited successfully; otherwise `CommandFailed`
      with the start-up error or the standard error text. */
  function CheckedOutput(out: CommandOutput): (r: Result<string, CliphistError>)
    ensures r.Ok? <==> out.Exited? && out.success
    ensures r.Ok? ==> r.value == out.stdout
    ensures out.SpawnFailed? ==> r == Err(CommandFailed(out.reason))
    ensures out.Exited? && !out.success ==> r == Err(CommandFailed(out.stderr))
  {
    match out
    case SpawnFailed(e) => Err(CommandFailed(e))
    case Exited(ok, o, e) => if ok then Ok(o) else Err(CommandFailed(e))
  }

  /** One line of `cliphist list` output: the index before the first TAB, the content after it. */
  function ParseLine(line: string): (r: Result<ClipboardEntry, CliphistError>)
    ensures r.Err? ==> r.error.ParseError?
    ensures r.Ok? ==> |r.value.content| < |line| && line[|line| - |r.value.content|..] == r.value.content
  {
    match SplitOnce(line, '\t')
    case None => Err(ParseError("Invalid line format: " + line))
    case Some((indexStr, content)) =>
      match ParseU64(indexStr)
      case None => Err(ParseError("Invalid index: " + indexStr))
      case Some(index) => Ok(ClipboardEntry(index, content))
  }

  /** The outcome of parsing each line on its own. */
  function ParsedLines(lines: seq<string>): (rs: seq<Result<ClipboardEntry, CliphistError>>)
    ensures |rs| == |lines|
    ensures forall i :: 0 <= i < |lines| ==> rs[i] == ParseLine(lines[i])
  {
    seq(|lines|, i requires 0 <= i < |lines| => ParseLine(lines[i]))
  }

  /** The whole listing: every line's entry in order, or the error of the first line that does not parse. */
  function ParseLines(lines: seq<string>): Result<seq<ClipboardEntry>, CliphistError>
  {
    Collect(ParsedLines(lines))
  }

  /** A line without a TAB is a format error that quotes the line. */
  lemma ParseLineMissingTab(line: string)
    requires '\t' !in line
    ensures ParseLine(line) == Err(ParseError("Invalid line format: " + line))
  {
  }

  /** Only the first TAB splits: the index is the text before it and the content is everything
      after it, further TABs included; an index that is not a `u64` is an error that quotes it. */
  lemma ParseLineFirstTab(indexStr: string, content: string)
    requires '\t' !in indexStr
    ensures ParseLine(indexStr + "\t" + content) ==
      match ParseU64(indexStr)
      case None => Err(ParseError("Invalid index: " + indexStr))
      case Some(index) => Ok(ClipboardEntry(index, content))
  {
    SplitOnceAt(indexStr, '\t', content);
  }

  /** When every line parses, the listing parses to one entry per line, in order. */
  lemma ParseLinesAllOk(lines: seq<string>, entries: seq<ClipboardEntry>)
    requires |entries| == |lines|
    requires forall j :: 0 <= j < |lines| ==> ParseLine(lines[j]) == Ok(entries[j])
    ensures ParseLines(lines) == Ok(entries)
  {
    CollectAllOk(ParsedLines(lines), entries);
  }

  /** The error reported is the one of the first line that does not parse; the entries of the
      lines before it are discarded. */
  lemma ParseLinesFirstError(lines: seq<string>, k: nat)
    requires k < |lines| && ParseLine(lines[k]).Err?
    requires forall j :: 0 <= j < k ==> ParseLine(lines[j]).Ok?
    ensures ParseLines(lines) == Err(ParseLine(lines[k]).error)
  {
    CollectFirstError(ParsedLines(lines), k);
  }

  /** The listing parses exactly when every line does; then entry i is line i's entry. */
  lemma ParseLinesShape(lines: seq<string>)
    ensures ParseLines(lines).Ok? <==> forall j :: 0 <= j < |lines| ==> ParseLine(lines[j]).Ok?
    ensures ParseLines(lines).Ok? ==>
      |ParseLines(lines).value| == |lines| &&
      forall j :: 0 <= j < |lines| ==> ParseLine(lines[j]) == Ok(ParseLines(lines).value[j])
  {
    CollectShape(ParsedLines(lines));
  }

  /** The parsing loop of `get_history`, over the decoded standard output of `cliphist list`. */
  method ParseHistory(stdout: string) returns (r: Result<seq<ClipboardEntry>, CliphistError>)
    ensures r == ParseLines(Lines(stdout))
  {
    var lines := Lines(stdout);
    var options: seq<ClipboardEntry> := [];
    var i := 0;
    while i < |lines|
      invariant 0 <= i <= |lines| && |options| == i
      invariant forall j :: 0 <= j < i ==> ParseLine(lines[j]) == Ok(options[j])
    {
      var line := lines[i];
      match SplitOnce(line, '\t') {
        case Some((indexStr, content)) =>
          match ParseU64(indexStr) {
            case Some(index) =>
              options := options + [ClipboardEntry(index, content)];
            case None =>
              ParseLinesFirstError(lines, i);
              return Err(ParseError("Invalid index: " + indexStr));
          }
        case None =>
          ParseLinesFirstError(lines, i);
          return Err(ParseError("Invalid line format: " + line));
      }
      i := i + 1;
    }
    ParseLinesAllOk(lines, options);
    return Ok(options);
  }

  /** `get_history`: run `cliphist list`; a failed or unsuccessful run is `CommandFailed` and
      nothing is parsed, otherwise its output is parsed. */
  method GetHistory(list: CommandOutput) returns (r: Result<seq<ClipboardEntry>, CliphistError>)
    ensures list.SpawnFailed? ==> r == Err(CommandFailed(list.reason))
    ensures list.Exited? && !list.success ==> r == Err(CommandFailed(list.stderr))
    ensures list.Exited? && list.success ==> r == ParseLines(Lines(list.stdout))
  {
    match CheckedOutput(list) {
      case Err(e) =>
        return Err(e);
      case Ok(stdout) =>
        r := ParseHistory(stdout);
    }
  }

  /** Empty output is an empty history, not an error. */
  lemma ParseEmptyOutput()
    ensures ParseLines(Lines("")) == Ok([])
  {
  }

  /** The line `cliphist list` prints for an entry. */
  function FormatLine(e: ClipboardEntry): string
  {
    NatToString(e.index) + "\t" + e.content
  }

  function FormatLines(entries: seq<ClipboardEntry>): (ls: seq<string>)
    ensures |ls| == |entries|
    ensures forall i :: 0 <= i < |entries| ==> ls[i] == FormatLine(entries[i])
  {
    if entries == [] then [] else [FormatLine(entries[0])] + FormatLines(entries[1..])
  }

  /** Contents that survive `str::lines` unchanged: no newline, no carriage return at the end. */
  predicate ListableContent(content: string)
  {
    '\n' !in content && (content == "" || content[|content| - 1] != '\r')
  }

  /** Each formatted line parses back to its entry. */
  lemma ParseFormatLine(e: ClipboardEntry)
    ensures ParseLine(FormatLine(e)) == Ok(e)
  {
    DigitsExclude(NatToString(e.index), '\t');
    ParseLineFirstTab(NatToString(e.index), e.content);
    ParseU64NatToString(e.index);
  }

  /** The formatted line of an entry with listable content is yielded verbatim by `str::lines`. */
  lemma FormatLinePlain(e: ClipboardEntry)
    requires ListableContent(e.content)
    ensures PlainLine(FormatLine(e))
  {
    var digits := NatToString(e.index);
    DigitsExclude(digits, '\n');
    assert FormatLine(e)[0] == digits[0];
    if e.content == "" {
      assert FormatLine(e)[|FormatLine(e)| - 1] == '\t';
    } else {
      assert FormatLine(e)[|FormatLine(e)| - 1] == e.content[|e.content| - 1];
    }
  }

  lemma FormatLinesParse(entries: seq<ClipboardEntry>)
    requires forall i :: 0 <= i < |entries| ==> ListableContent(entries[i].content)
    ensures var ls := FormatLines(entries);
      forall i :: 0 <= i < |ls| ==> PlainLine(ls[i]) && ParseLine(ls[i]) == Ok(entries[i])
  {
    var ls := FormatLines(entries);
    forall i | 0 <= i < |ls|
      ensures PlainLine(ls[i]) && ParseLine(ls[i]) == Ok(entries[i])
    {
      FormatLinePlain(entries[i]);
      ParseFormatLine(entries[i]);
    }
  }

  /** Round trip: the entries printed one per line and joined by newlines parse back to exactly
      those entries, in order. */
  lemma ParseListing(entries: seq<ClipboardEntry>)
    requires forall i :: 0 <= i < |entries| ==> ListableContent(entries[i].content)
    ensures ParseLines(Lines(JoinLines(FormatLines(entries)))) == Ok(entries)
  {
    FormatLinesParse(entries);
    LinesJoinLines(FormatLines(entries));
    ParseLinesAllOk(FormatLines(entries), entries);
  }

  /** The same with the final newline `cliphist list` prints after the last entry. */
  lemma ParseListingTerminated(entries: seq<ClipboardEntry>)
    requires forall i :: 0 <= i < |entries| ==> ListableContent(entries[i].content)
    requires entries != []
    ensures ParseLines(Lines(JoinLines(FormatLines(entries)) + "\n")) == Ok(entries)
  {
    FormatLinesParse(entries);
    LinesJoinLinesTerminated(FormatLines(entries));
    ParseLinesAllOk(FormatLines(entries), entries);
  }

  /** `wipe_history`: `CommandFailed` when `cliphist wipe` cannot start or exits unsuccessfully. */
  function WipeHistory(wipe: CommandOutput): (r: Outcome)
    ensures r.Pass? <==> wipe.Exited? && wipe.success
    ensures wipe.SpawnFailed? ==> r == Fail(CommandFailed(wipe.reason))
    ensures wipe.Exited? && !wipe.success ==> r == Fail(CommandFailed(wipe.stderr))
  {
    match CheckedOutput(wipe)
    case Err(e) => Fail(e)
    case Ok(_) => Pass
  }

  /** `copy_history(id)`: run `cliphist decode <id>` and pipe its standard output into `wl-copy`.
      Only a failure to start `cliphist decode` is checked on the first step; its exit status is not. */
  function CopyHistory(id: u64, decode: CommandOutput, copy: PipeOutcome): (r: Outcome)
    ensures decode.SpawnFailed? ==>
      r == Fail(CommandFailed("Failed to decode history entry " + NatToString(id) + ": " + decode.reason))
    ensures decode.Exited? ==> (r.Pass? <==> copy == Waited(true))
    ensures decode.Exited? && copy.PipeFailed? ==> r == Fail(CommandFailed(copy.reason))
    ensures decode.Exited? && copy == Waited(false) ==>
      r == Fail(CommandFailed("Failed to copy content to clipboard using wl-copy"))
  {
    match decode
    case SpawnFailed(e) =>
      Fail(CommandFailed("Failed to decode history entry " + NatToString(id) + ": " + e))
    case Exited(_, _, _) =>
      match copy
      case PipeFailed(e) => Fail(CommandFailed(e))
      case Waited(ok) =>
        if ok then Pass else Fail(CommandFailed("Failed to copy content to clipboard using wl-copy"))
  }

  /** An unsuccessful exit of `cliphist decode` is not an error of its own: the outcome depends only
      on `wl-copy`. */
  lemma CopyIgnoresDecodeStatus(id: u64, stdout: string, stderr: string, copy: PipeOutcome)
    ensures CopyHistory(id, Exited(false, stdout, stderr), copy) == CopyHistory(id, Exited(true, stdout, stderr), copy)
    ensures CopyHistory(id, Exited(false, stdout, stderr), Waited(true)) == Pass
  {
  }
}
