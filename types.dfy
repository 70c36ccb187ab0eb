/** The records and errors exchanged with the `cliphist` command (src/cliphist/types.rs). */
module Types {
  import opened Base

  /** One line of `cliphist list`: the index the history store assigned and the clipboard text. */
  datatype ClipboardEntry = ClipboardEntry(index: u64, content: string)

  /** Errors from interacting with `cliphist`. */
  datatype CliphistError =
    | CommandFailed(message: string)
    | ParseError(message: string)

  /** The `Display` text of an error. */
  function ErrorText(e: CliphistError): (r: string)
    ensures |e.message| < |r| && r[|r| - |e.message|..] == e.message
  {
    match e
    case CommandFailed(m) => "Command failed: " + m
    case ParseError(m) => "Parse error: " + m
  }

  /** Different errors display differently: the text identifies both the kind and the message. */
  lemma ErrorTextInjective(a: CliphistError, b: CliphistError)
    ensures ErrorText(a) == ErrorText(b) <==> a == b
  {
    if ErrorText(a) == ErrorText(b) {
      assert ErrorText(a)[0] == ErrorText(b)[0];
      assert a.CommandFailed? <==> b.CommandFailed?;
      assert ErrorText(a)[|ErrorText(a)| - |a.message|..] == a.message;
      assert |a.message| == |b.message|;
    }
  }
}
