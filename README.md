# Command-line session coordinator: a Dafny model of `src/cli.rs`

The modelled program is a small interactive shell built on an async runtime. A
task reads lines from the terminal and splits each one into words. It turns a
line into `Input(command, args)` events on a bounded channel. A reserved word
(`exit`, `quit`, `q`), end of input or an interrupt ends the session with a
final `Exit` event. Other tasks share two things with it: a printer that
colours error and warning lines when the output is a terminal, and a kill flag
that any of them can wait on. `Cli::kill` sets the flag and waits for the input
task to finish.

The model has five modules:

- `Command` (`command.dfy`): the exit words, the events, and the pure
  classification of one line-editor result (`cli_main` without its effects).
- `Output` (`output.dfy`): the SGR colour sequences of ECMA-48 (31 red, 33
  yellow, 0 reset) and the `Printer` class, which writes to a shared
  `Terminal`. `StripSgr` removes escape sequences again. It is the partner
  function for the proof that styling adds only escapes.
- `Channel` (`channel.dfy`): the capacity-1 command channel as a class. It has
  one pending slot, the events already received, and flags for whether each
  end is still open.
- `InputLoop` (`input_loop.dfy`): `cli_main` and `cli_main_loop` as methods.
  Each one is proved against the specification functions `Turn`, `Run` and
  `MainLoop`. The lemmas about those functions state the loop's promises.
- `Session` (`session.dfy`): the kill flag (the `watch` channel), its
  cloneable reader, and `Cli` with its `handles: Option<Handles>` field.

The loop races the kill flag against the line editor. Here that race is
replaced by a finite script of steps: the kill won, the editor returned a
given result, or the consumer dropped its receiver. If the script runs out
before the loop breaks, the loop is still waiting for input and has sent no
`Exit`. The tokenizer (`shell_words::split`) is a function parameter
`split: string -> SplitResult`. Whether the output is a terminal is a
`styled` parameter.

`KillReceiver::recv` returns not only when the flag is set but also when the
flag's sender has gone away without setting it, because `changed()` then fails. `Recv` states this: the wait is
over when the flag is set or the sender is gone. The sender is dropped at the
end of `kill`, and also whenever `Cli` itself is dropped.

## Model

| member | source | states |
|---|---|---|
| `Command.ClassifyMeaning` | src/cli.rs:150-184 | End of input and an interrupt give Quit. A failed read or a failed split gives an error report `[Input Error] <error>` and nothing else. A line with no words is skipped. Quit happens exactly when the first word is one of the exit words, compared exactly. In every other case the first word is the command and the remaining words are the arguments, in order, so `[command] + args` is the whole word list. |
| `Command.ExitWordsAreCaseSensitive` | src/cli.rs:7 | The exit words are exactly "exit", "quit" and "q". Other capitalisations, the empty word and a padded word are not exit words. |
| `Output.StyledLineStripsToPlain` | src/cli.rs:98-128 | A styled error or warning line with its SGR sequences removed is exactly the text the same call writes with styling off. This holds for any colour parameter, any message and any tail without escape characters. |
| `Output.EscapesOnlyWhenStyled` | src/cli.rs:98-128 | For a message without escape characters, the written text contains an escape character if and only if styling is on. |
| `Output.UnstyledErrorsArePlain` | src/cli.rs:90-120 | With styling off, `errln` and `warnln` write exactly what `println` writes. With styling on, they write something different. |
| `Output.Printer.constructor` | src/cli.rs:42 | A printer is a shared writer plus a styling flag fixed when it is made. |
| `Output.Printer.Clone` | src/cli.rs:25-26 | A clone writes to the same destination with the same styling flag. |
| `Output.Printer.Println` | src/cli.rs:90-92 | Appends the message and a newline. |
| `Output.Printer.Print` | src/cli.rs:94-96 | Appends the message. |
| `Output.Printer.Errln` | src/cli.rs:98-104 | Appends `ESC[31m` + message + `ESC[0m` + newline when styled, and message + newline otherwise. |
| `Output.Printer.Err` | src/cli.rs:106-112 | The same as `Errln`, without the newline. |
| `Output.Printer.Warnln` | src/cli.rs:114-120 | Appends `ESC[33m` + message + `ESC[0m` + newline when styled, and message + newline otherwise. |
| `Output.Printer.Warn` | src/cli.rs:122-128 | The same as `Warnln`, without the newline. |
| `Channel.EventChannel.constructor` | src/cli.rs:47 | A new channel is empty and both of its ends are open. |
| `Channel.EventChannel.Send` | src/cli.rs:182-183 | A send fails exactly when the receiver is gone, and then nothing is queued. Otherwise the event is appended to everything accepted so far, after the consumer has taken the event that held the single slot. At most one event is pending. |
| `Channel.EventChannel.Recv` | src/main.rs:38 | The consumer gets accepted events in order: the next one after those already received. An empty queue gives Empty while the sender lives, and Closed after it is dropped. |
| `Channel.EventChannel.DropReceiver` | src/main.rs:48-55 | The consumer leaves. Nothing queued changes, and every later send fails. |
| `Channel.EventChannel.DropSender` | src/cli.rs:144-145 | The loop's end of the channel goes away after the final send. |
| `InputLoop.Run` | src/cli.rs:137-142 | The loop consumes script steps until it breaks. If it has not broken, it has used the whole script. |
| `InputLoop.Forwarded` | src/cli.rs:174-183 | The events that forwarded lines produce are all `Input` events. |
| `InputLoop.RunSendsForwarded` | src/cli.rs:137-183 | The loop sends exactly the `Input` events of the lines it forwarded, in input order, and nothing else. |
| `InputLoop.RunPrintsReports` | src/cli.rs:155-168 | The loop prints exactly one `[Input Error]` line for each failed read and each line the tokenizer rejected, in input order. It prints nothing else. |
| `InputLoop.ExitIsSentOnceAndLast` | src/cli.rs:137-145 | Once the loop breaks, `Exit` is sent exactly once and it is the last event sent. A loop that has not broken has sent no `Exit`. |
| `InputLoop.AcceptedIsPrefixOfSent` | src/cli.rs:137-145 | What the channel accepts is always a prefix of what the loop sent, in the same order. All of it, including the final `Exit`, is accepted while the consumer stays. |
| `InputLoop.TurnBreaksForAReason` | src/cli.rs:137-142 | One turn breaks the loop exactly on the kill, end of input, an interrupt, an exit word, or a forwarded line whose send fails because the consumer has gone. Only the consumer dropping its receiver closes the channel. |
| `InputLoop.RunStopsOnlyForAReason` | src/cli.rs:137-184 | The loop breaks exactly at the first step that is a reason to break. Every step before the last is not the kill, end of input, an interrupt or an exit word. Every line forwarded before the last step found the consumer still there. The last step of a loop that broke is one of those four reasons, or a forwarded line sent after the consumer left. The final state of the channel's receiver is open exactly when it started open and no step dropped it. |
| `InputLoop.EndingStepStopsLoop` | src/cli.rs:137-142 | Any script that contains the kill, end of input, an interrupt or an exit word at step k stops the loop, at step k or earlier. |
| `InputLoop.ForwardAfterDropStopsLoop` | src/cli.rs:182-183 | If the consumer drops its receiver at step j and a line is forwarded at a later step k, the loop stops at step k or earlier. |
| `InputLoop.ContinuingStepsNeverStop` | src/cli.rs:137-184 | Starting with the consumer present, a script with no kill, no end of input, no interrupt, no exit word and no receiver drop never stops the loop, and the loop consumes all of it. |
| `InputLoop.CommandLineScenario` | src/cli.rs:171-183 | A line that splits into `foo bar baz` sends `Input("foo", ["bar", "baz"])`, and the loop keeps reading. |
| `InputLoop.BlankLineScenario` | src/cli.rs:171-173 | A line with no words sends nothing and changes nothing. |
| `InputLoop.QuitScenarios` | src/cli.rs:163-180 | `exit`, end of input and an interrupt each produce only the event `Exit`. |
| `InputLoop.DroppedConsumerScenario` | src/cli.rs:182-183 | After the consumer has left, the next forwarded line stops the loop without waiting. Neither that line nor `Exit` is accepted. |
| `InputLoop.CliMain` | src/cli.rs:150-184 | One editor result changes the channel and the terminal exactly as `Turn` says, and returns whether to break. |
| `InputLoop.CliMainLoop` | src/cli.rs:131-145 | The loop over a script changes the channel and the terminal exactly as `MainLoop` says. After breaking, it sends `Exit` regardless of the outcome and drops its sender. |
| `Session.KillSignal.constructor` | src/cli.rs:44 | The kill flag starts false and its sender is alive. |
| `Session.KillSignal.Fire` | src/cli.rs:64 | Sending `true` sets the flag. No operation ever clears it. |
| `Session.KillSignal.DropSender` | src/cli.rs:63-66 | Dropping the taken handles drops the sender and keeps the flag. |
| `Session.KillReceiver.constructor` | src/cli.rs:45 | A reader watches the flag it was made from. |
| `Session.KillReceiver.Clone` | src/cli.rs:15-16 | A clone watches the same flag. |
| `Session.KillReceiver.Recv` | src/cli.rs:80-84 | The wait is over at once if and only if the flag is set or its sender is gone. A reader that starts after the kill sees it immediately. |
| `Session.LoopTask.Join` | src/cli.rs:65 | Awaiting the loop's join handle returns once the loop has finished. |
| `Session.Cli.constructor` | src/cli.rs:37-60 | A new session holds its handles, the flag is false with a live sender, and the printer's styling is the one given. |
| `Session.Cli.New` | src/cli.rs:37-60 | It also returns the receiving end of an empty capacity-1 channel with both ends open. |
| `Session.Cli.Kill` | src/cli.rs:62-67 | The first call takes the handles, sets the flag, waits for the loop's task and drops the sender. Any later call changes nothing. Afterwards the flag is set and the handles are gone. |
| `Session.Cli.GetKillReceiver` | src/cli.rs:69-71 | Returns a new reader of the session's own flag. |
| `Session.Cli.GetPrinter` | src/cli.rs:73-75 | Returns a printer on the session's destination, with the session's styling. |
| `Session.KillTwice` | src/cli.rs:62-67 | After two kills the handles are gone, the flag is set and its sender is dropped, as after the first kill alone. A reader made before the kills and one made after them both find the wait over at once. |

## Left out

- The line editor (`Readline`, `SharedWriter`, `flush` at src/cli.rs:143, the prompt): terminal I/O. Only its results `Line`, `Eof`, `Interrupted` and a read error appear, as script steps.
- Failure of `Readline::new` in `Cli::new`: it happens before any state exists and is passed straight to the caller. `Cli.New` models only the successful start.
- `shell_words::split`: a foreign tokenizer. It is the function parameter `split`, and its error text is a string.
- `is_terminal()`: environment detection. It is the `styled` parameter.
- The `tokio::select!` race, task spawning and all blocking waits: concurrency. A finite script of steps decides who wins each race. Any order of kill and reads is allowed, as in the real race.
- `Channel.EventChannel.Send`: a send on a full channel waits for the consumer. The model assumes the consumer takes the pending event. A consumer that leaves while the producer waits appears as a `ReceiverDropped` step before that send.
- `Session.LoopTask.Join`: awaiting the join handle is modelled as the loop having finished. Its link to the loop's run (the `KillFired` turn) is described in a doc comment and is not proved across the two classes.
- `Output.Printer.Println`: write errors are ignored by the source (`let _ =`). The model's terminal accepts every write, for this method and its siblings alike.
- The text of error values (`{e}`) is taken as given. Only the `[Input Error] ` prefix is modelled.
- The `watch` sender's own failure when no reader is left: `Cli` always keeps a reader while it holds the sender, so it cannot happen.
- src/main.rs: the TCP example (`send_loop`, `recv_loop`, the connect to 127.0.0.1:5555) and prompt selection are example consumers and terminal detection. Only the consumer's receive and drop are modelled, on the channel.
