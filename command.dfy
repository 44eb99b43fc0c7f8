/** The per-line half of the command-line session: what one result of the line
    editor means for the session (`cli_main` in src/cli.rs). The line editor and
    the shell-style tokenizer are outside the model; the tokenizer is a function
    passed in by the caller. */
module Command {

  /** Words that end the session when they are the first word of a line.
      The comparison is exact, so "Exit" or "QUIT" are ordinary commands. */
  const ExitCommands: seq<string> := ["exit", "quit", "q"]

  predicate IsExitCommand(word: string) {
    word in ExitCommands
  }

  /** What the line editor reports when it is asked for a line. */
  datatype ReadlineEvent = Line(text: string) | Eof | Interrupted

  /** A read either yields an event or fails; `message` is the error's text. */
  datatype ReadResult = Read(event: ReadlineEvent) | ReadError(message: string)

  /** The tokenizer's answer for one line: its words, or a failure to split it. */
  datatype SplitResult = Words(words: seq<string>) | SplitError(message: string)

  /** An event on the command channel. `Exit` is the session's last event. */
  datatype CliEvent = Input(command: string, args: seq<string>) | Exit

  /** What handling one read result asks of the input loop. */
  datatype Action =
    | Skip                                         // blank line: keep reading
    | ReportError(message: string)                 // print an error line, keep reading
    | Quit                                         // leave the loop
    | Forward(command: string, args: seq<string>)  // send Input(command, args)

  /** The text of the line printed for a read or tokenizer failure. */
  function InputErrorMessage(error: string): (m: string)
    ensures |m| == |error| + 14 && m[..14] == "[Input Error] " && m[14..] == error
  {
    "[Input Error] " + error
  }

  /** Classification of one read result (`cli_main` without its effects).
      `split` stands for the tokenizer. */
  function Classify(cmd: ReadResult, split: string -> SplitResult): Action
  {
    match cmd
    case ReadError(e) => ReportError(InputErrorMessage(e))
    case Read(Eof) => Quit
    case Read(Interrupted) => Quit
    case Read(Line(l)) =>
      match split(l)
      case SplitError(e) => ReportError(InputErrorMessage(e))
      case Words(words) =>
        if |words| == 0 then Skip
        else if IsExitCommand(words[0]) then Quit
        else Forward(words[0], words[1..])
  }

  /** What a classification means, for every read result and every tokenizer. */
  lemma ClassifyMeaning(cmd: ReadResult, split: string -> SplitResult)
    // end of input and an interrupt both end the session without an event
    ensures (cmd == Read(Eof) || cmd == Read(Interrupted)) ==> Classify(cmd, split) == Quit
    // a failed read or a failed split is reported and nothing is sent
    ensures cmd.ReadError? ==> Classify(cmd, split) == ReportError(InputErrorMessage(cmd.message))
    ensures cmd.Read? && cmd.event.Line? && split(cmd.event.text).SplitError? ==>
              Classify(cmd, split) == ReportError(InputErrorMessage(split(cmd.event.text).message))
    ensures Classify(cmd, split).ReportError? <==>
              cmd.ReadError? || (cmd.Read? && cmd.event.Line? && split(cmd.event.text).SplitError?)
    // a line without words is ignored
    ensures Classify(cmd, split).Skip? <==> cmd.Read? && cmd.event.Line? && split(cmd.event.text) == Words([])
    // the session ends exactly on end of input, interrupt, or an exit word in first place
    ensures Classify(cmd, split).Quit? <==>
              cmd == Read(Eof) || cmd == Read(Interrupted) ||
              (cmd.Read? && cmd.event.Line? && split(cmd.event.text).Words? &&
               |split(cmd.event.text).words| > 0 && IsExitCommand(split(cmd.event.text).words[0]))
    // otherwise the line's words are forwarded, first word as the command, in order
    ensures Classify(cmd, split).Forward? ==>
              cmd.Read? && cmd.event.Line? && split(cmd.event.text).Words? &&
              [Classify(cmd, split).command] + Classify(cmd, split).args == split(cmd.event.text).words &&
              !IsExitCommand(Classify(cmd, split).command)
  {
  }

  /** The value `cli_main` returns: whether the loop must stop. Only `Quit`, and
      a `Forward` whose send failed because the receiver is gone, stop it. */
  function DoExit(a: Action, sendFailed: bool): bool
  {
    match a
    case Skip => false
    case ReportError(_) => false
    case Quit => true
    case Forward(_, _) => sendFailed
  }

  /** The exit words are compared exactly: other spellings are commands. */
  lemma ExitWordsAreCaseSensitive()
    ensures IsExitCommand("exit") && IsExitCommand("quit") && IsExitCommand("q")
    ensures !IsExitCommand("Exit") && !IsExitCommand("QUIT") && !IsExitCommand("Q")
    ensures !IsExitCommand("") && !IsExitCommand("exit ")
  {
  }
}
