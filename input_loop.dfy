/** The input loop (`cli_main_loop` and `cli_main` in src/cli.rs). The real loop
    races the kill signal against the line editor; here the winner of each race,
    and the consumer dropping its receiver, come from a finite script. When the
    script ends before the loop breaks, the loop is still waiting for input. */
module InputLoop {
  import opened Command
  import opened Output
  import opened Channel

  /** One thing that happens to the loop. */
  datatype Step =
    | KillFired                  // the kill signal won the race
    | Readline(result: ReadResult)  // the line editor won the race with this result
    | ReceiverDropped            // the channel's consumer went away

  /** What the loop's run is observed through: every send it attempted, what the
      channel accepted, whether the consumer is still there, and the terminal. */
  datatype LoopState = LoopState(
    sent: seq<CliEvent>,
    accepted: seq<CliEvent>,
    receiverOpen: bool,
    output: string)

  /** A run of the loop: where it ended and whether it broke out. */
  datatype Outcome = Outcome(state: LoopState, consumed: nat, stopped: bool)

  /** One send on the channel: always attempted, accepted only while the
      receiver is there. */
  function SendEvent(st: LoopState, e: CliEvent): LoopState {
    st.(sent := st.sent + [e],
        accepted := if st.receiverOpen then st.accepted + [e] else st.accepted)
  }

  /** One turn of the loop; the boolean says whether it breaks out. */
  function Turn(st: LoopState, step: Step, split: string -> SplitResult, styled: bool)
    : (LoopState, bool)
  {
    match step
    case KillFired => (st, true)
    case ReceiverDropped => (st.(receiverOpen := false), false)
    case Readline(r) =>
      var a := Classify(r, split);
      match a
      case Skip => (st, false)
      case ReportError(m) => (st.(output := st.output + ErrText(styled, m) + "\n"), false)
      case Quit => (st, true)
      case Forward(c, args) => (SendEvent(st, Input(c, args)), DoExit(a, !st.receiverOpen))
  }

  /** The loop from step `i` of the script on. */
  function Run(script: seq<Step>, split: string -> SplitResult, styled: bool, i: nat, st: LoopState)
    : (o: Outcome)
    requires i <= |script|
    ensures i <= o.consumed <= |script|
    ensures !o.stopped ==> o.consumed == |script|
    decreases |script| - i
  {
    if i == |script| then Outcome(st, i, false)
    else
      var t := Turn(st, script[i], split, styled);
      if t.1 then Outcome(t.0, i + 1, true)
      else Run(script, split, styled, i + 1, t.0)
  }

  /** The whole loop: run the script, and once the loop has broken out send the
      final `Exit`, whether or not anyone is left to receive it. */
  function MainLoop(script: seq<Step>, split: string -> SplitResult, styled: bool, st: LoopState)
    : (o: Outcome)
  {
    var o := Run(script, split, styled, 0, st);
    if o.stopped then o.(state := SendEvent(o.state, Exit)) else o
  }

  /** The `Input` events a stretch of the script forwards, in order. */
  function Forwarded(steps: seq<Step>, split: string -> SplitResult): (events: seq<CliEvent>)
    ensures forall k :: 0 <= k < |events| ==> events[k].Input?
  {
    if steps == [] then []
    else
      var rest := Forwarded(steps[1..], split);
      match steps[0]
      case Readline(r) =>
        (match Classify(r, split)
         case Forward(c, args) => [Input(c, args)] + rest
         case _ => rest)
      case _ => rest
  }

  /** The error lines a stretch of the script prints: one `[Input Error]`
      line for each failed read and each line the tokenizer rejected. */
  function Reports(steps: seq<Step>, split: string -> SplitResult, styled: bool): string {
    if steps == [] then ""
    else
      var rest := Reports(steps[1..], split, styled);
      match steps[0]
      case Readline(r) =>
        (match Classify(r, split)
         case ReportError(m) => ErrText(styled, m) + "\n" + rest
         case _ => rest)
      case _ => rest
  }

  /** The channel never accepts more than what was sent, in the same order, and
      accepts everything while the receiver is there. */
  ghost predicate Coherent(st: LoopState) {
    |st.accepted| <= |st.sent| && st.accepted == st.sent[..|st.accepted|] &&
    (st.receiverOpen ==> st.accepted == st.sent)
  }

  lemma {:induction false} ForwardedAppend(a: seq<Step>, b: seq<Step>, split: string -> SplitResult)
    ensures Forwarded(a + b, split) == Forwarded(a, split) + Forwarded(b, split)
  {
    if a != [] {
      assert (a + b)[1..] == a[1..] + b;
      ForwardedAppend(a[1..], b, split);
    } else {
      assert a + b == b;
    }
  }

  lemma TurnSendsForwarded(st: LoopState, step: Step, split: string -> SplitResult, styled: bool)
    ensures Turn(st, step, split, styled).0.sent == st.sent + Forwarded([step], split)
  {
  }

  /** The loop sends exactly the `Input` events of the lines it forwarded, in the
      order the lines came, and nothing else. */
  lemma {:induction false} RunSendsForwarded(
    script: seq<Step>, split: string -> SplitResult, styled: bool, i: nat, st: LoopState)
    requires i <= |script|
    ensures var o := Run(script, split, styled, i, st);
      o.state.sent == st.sent + Forwarded(script[i..o.consumed], split)
    decreases |script| - i
  {
    var o := Run(script, split, styled, i, st);
    if i < |script| {
      var t := Turn(st, script[i], split, styled);
      TurnSendsForwarded(st, script[i], split, styled);
      if t.1 {
        assert o.consumed == i + 1 && o.state == t.0;
        assert script[i..o.consumed] == [script[i]];
      } else {
        assert o == Run(script, split, styled, i + 1, t.0);
        RunSendsForwarded(script, split, styled, i + 1, t.0);
        var rest := script[i + 1..o.consumed];
        assert script[i..o.consumed] == [script[i]] + rest;
        ForwardedAppend([script[i]], rest, split);
      }
    } else {
      assert script[i..o.consumed] == [];
    }
  }

  lemma {:induction false} ReportsAppend(a: seq<Step>, b: seq<Step>, split: string -> SplitResult, styled: bool)
    ensures Reports(a + b, split, styled) == Reports(a, split, styled) + Reports(b, split, styled)
  {
    if a != [] {
      assert (a + b)[1..] == a[1..] + b;
      ReportsAppend(a[1..], b, split, styled);
    } else {
      assert a + b == b;
    }
  }

  lemma TurnPrintsReports(st: LoopState, step: Step, split: string -> SplitResult, styled: bool)
    ensures Turn(st, step, split, styled).0.output == st.output + Reports([step], split, styled)
  {
    assert [step][1..] == [];
  }

  /** Read and tokenizer failures are reported on the terminal, one error line
      each and in input order, and nothing else is printed by the loop. */
  lemma {:induction false} RunPrintsReports(
    script: seq<Step>, split: string -> SplitResult, styled: bool, i: nat, st: LoopState)
    requires i <= |script|
    ensures var o := Run(script, split, styled, i, st);
      o.state.output == st.output + Reports(script[i..o.consumed], split, styled)
    decreases |script| - i
  {
    var o := Run(script, split, styled, i, st);
    if i < |script| {
      var t := Turn(st, script[i], split, styled);
      TurnPrintsReports(st, script[i], split, styled);
      if t.1 {
        assert o.consumed == i + 1 && o.state == t.0;
        assert script[i..o.consumed] == [script[i]];
      } else {
        assert o == Run(script, split, styled, i + 1, t.0);
        RunPrintsReports(script, split, styled, i + 1, t.0);
        var rest := script[i + 1..o.consumed];
        assert script[i..o.consumed] == [script[i]] + rest;
        ReportsAppend([script[i]], rest, split, styled);
      }
    } else {
      assert script[i..o.consumed] == [];
    }
  }

  /** `Exit` is sent exactly once, after every `Input`, and only when the loop
      broke out; a loop still waiting for input has sent no `Exit`. */
  lemma ExitIsSentOnceAndLast(script: seq<Step>, split: string -> SplitResult, styled: bool, st: LoopState)
    requires Exit !in st.sent
    ensures var o := MainLoop(script, split, styled, st);
      var sent := o.state.sent;
      (o.stopped ==> |sent| > 0 && sent[|sent| - 1] == Exit && Exit !in sent[..|sent| - 1]) &&
      (!o.stopped ==> Exit !in sent)
  {
    var r := Run(script, split, styled, 0, st);
    RunSendsForwarded(script, split, styled, 0, st);
    var f := Forwarded(script[0..r.consumed], split);
    assert Exit !in f;
    assert Exit !in r.state.sent;
    if r.stopped {
      var sent := r.state.sent + [Exit];
      assert sent[..|sent| - 1] == r.state.sent;
    }
  }

  lemma {:induction false} RunKeepsCoherent(
    script: seq<Step>, split: string -> SplitResult, styled: bool, i: nat, st: LoopState)
    requires i <= |script| && Coherent(st)
    ensures Coherent(Run(script, split, styled, i, st).state)
    decreases |script| - i
  {
    if i < |script| {
      var (st', broke) := Turn(st, script[i], split, styled);
      assert Coherent(st') by {
        if st'.sent != st.sent {
          assert st'.sent[..|st.sent|] == st.sent;
        }
      }
      if !broke {
        RunKeepsCoherent(script, split, styled, i + 1, st');
      }
    }
  }

  /** FIFO without loss: what the consumer can ever receive is a prefix of what
      the loop sent, in the same order, and all of it (the final `Exit`
      included) while the consumer stays. */
  lemma AcceptedIsPrefixOfSent(script: seq<Step>, split: string -> SplitResult, styled: bool, st: LoopState)
    requires Coherent(st)
    ensures Coherent(MainLoop(script, split, styled, st).state)
  {
    var r := Run(script, split, styled, 0, st);
    RunKeepsCoherent(script, split, styled, 0, st);
    if r.stopped {
      assert SendEvent(r.state, Exit).sent[..|r.state.sent|] == r.state.sent;
    }
  }

  /** A step that ends the loop whatever the channel's state: the kill, end of
      input, an interrupt or an exit word. */
  predicate Ends(step: Step, split: string -> SplitResult) {
    step == KillFired || (step.Readline? && Classify(step.result, split).Quit?)
  }

  /** A step that forwards a line to the channel. */
  predicate ForwardsLine(step: Step, split: string -> SplitResult) {
    step.Readline? && Classify(step.result, split).Forward?
  }

  /** Whether the consumer is still there after `steps`, starting from `open`. */
  predicate OpenAfter(steps: seq<Step>, open: bool) {
    open && ReceiverDropped !in steps
  }

  /** One turn breaks out exactly on an ending step, or on a forwarded line
      that finds the consumer gone; only `ReceiverDropped` closes the channel. */
  lemma TurnBreaksForAReason(st: LoopState, step: Step, split: string -> SplitResult, styled: bool)
    ensures Turn(st, step, split, styled).1 <==> Ends(step, split) || (ForwardsLine(step, split) && !st.receiverOpen)
    ensures Turn(st, step, split, styled).0.receiverOpen == OpenAfter([step], st.receiverOpen)
  {
  }

  /** The loop stops at the first step that breaks it and nowhere else: every
      turn before the last is neither a kill, end of input, an interrupt nor an
      exit word, and every line forwarded before the last turn found the
      consumer there; the last turn of a loop that broke out is one of those
      reasons, or a forwarded line that found the consumer gone. */
  lemma {:induction false} RunStopsOnlyForAReason(
    script: seq<Step>, split: string -> SplitResult, styled: bool, i: nat, st: LoopState)
    requires i <= |script|
    ensures var o := Run(script, split, styled, i, st);
      o.state.receiverOpen == OpenAfter(script[i..o.consumed], st.receiverOpen) &&
      (forall k :: i <= k < o.consumed && (k < o.consumed - 1 || !o.stopped) ==>
         !Ends(script[k], split) &&
         (ForwardsLine(script[k], split) ==> OpenAfter(script[i..k], st.receiverOpen))) &&
      (o.stopped ==>
         Ends(script[o.consumed - 1], split) ||
         (ForwardsLine(script[o.consumed - 1], split) &&
          !OpenAfter(script[i..o.consumed - 1], st.receiverOpen)))
    decreases |script| - i
  {
    var o := Run(script, split, styled, i, st);
    if i == |script| {
      assert script[i..o.consumed] == [];
    } else {
      var t := Turn(st, script[i], split, styled);
      TurnBreaksForAReason(st, script[i], split, styled);
      assert script[i..i] == [];
      if t.1 {
        assert o == Outcome(t.0, i + 1, true);
        assert script[i..o.consumed] == [script[i]];
      } else {
        assert o == Run(script, split, styled, i + 1, t.0);
        RunStopsOnlyForAReason(script, split, styled, i + 1, t.0);
        forall k | i + 1 <= k <= o.consumed
          ensures OpenAfter(script[i + 1..k], t.0.receiverOpen) == OpenAfter(script[i..k], st.receiverOpen)
        {
          assert script[i..k] == [script[i]] + script[i + 1..k];
        }
      }
    }
  }

  /** Over every script: a kill, end of input, an interrupt or an exit word
      stops the loop at that step at the latest. */
  lemma EndingStepStopsLoop(script: seq<Step>, split: string -> SplitResult, styled: bool, k: nat, st: LoopState)
    requires k < |script| && Ends(script[k], split)
    ensures var o := Run(script, split, styled, 0, st); o.stopped && o.consumed <= k + 1
  {
    RunStopsOnlyForAReason(script, split, styled, 0, st);
  }

  /** Over every script: once the consumer has gone, the next forwarded line
      stops the loop at that step at the latest, instead of waiting. */
  lemma ForwardAfterDropStopsLoop(script: seq<Step>, split: string -> SplitResult, styled: bool, j: nat, k: nat, st: LoopState)
    requires j < k < |script| && script[j] == ReceiverDropped && ForwardsLine(script[k], split)
    ensures var o := Run(script, split, styled, 0, st); o.stopped && o.consumed <= k + 1
  {
    RunStopsOnlyForAReason(script, split, styled, 0, st);
    assert script[0..k][j] == ReceiverDropped;
    assert !OpenAfter(script[0..k], st.receiverOpen);
  }

  /** Over every script: reports, blank lines, and lines forwarded while the
      consumer is there never stop the loop; it reads the whole script. */
  lemma ContinuingStepsNeverStop(script: seq<Step>, split: string -> SplitResult, styled: bool, st: LoopState)
    requires forall k :: 0 <= k < |script| ==> !Ends(script[k], split)
    requires st.receiverOpen && ReceiverDropped !in script
    ensures var o := Run(script, split, styled, 0, st); !o.stopped && o.consumed == |script|
  {
    RunStopsOnlyForAReason(script, split, styled, 0, st);
  }

  /** A loop that has not sent anything yet, facing a present consumer. */
  const Fresh: LoopState := LoopState([], [], true, "")

  /** "foo bar baz" is sent as `Input("foo", ["bar", "baz"])`, and the loop
      keeps reading. */
  lemma CommandLineScenario(line: string, split: string -> SplitResult, styled: bool)
    requires split(line) == Words(["foo", "bar", "baz"])
    ensures var o := MainLoop([Readline(Read(Line(line)))], split, styled, Fresh);
      !o.stopped && o.state.sent == o.state.accepted == [Input("foo", ["bar", "baz"])]
  {
    var script := [Readline(Read(Line(line)))];
    assert ["foo", "bar", "baz"][1..] == ["bar", "baz"];
    assert Classify(script[0].result, split) == Forward("foo", ["bar", "baz"]);
    var st := SendEvent(Fresh, Input("foo", ["bar", "baz"]));
    assert Turn(Fresh, script[0], split, styled) == (st, false);
    assert Run(script, split, styled, 1, st) == Outcome(st, 1, false);
  }

  /** A blank line sends nothing and the loop keeps reading. */
  lemma BlankLineScenario(line: string, split: string -> SplitResult, styled: bool)
    requires split(line) == Words([])
    ensures MainLoop([Readline(Read(Line(line)))], split, styled, Fresh) == Outcome(Fresh, 1, false)
  {
    var script := [Readline(Read(Line(line)))];
    assert Classify(script[0].result, split) == Skip;
    assert Turn(Fresh, script[0], split, styled) == (Fresh, false);
    assert Run(script, split, styled, 1, Fresh) == Outcome(Fresh, 1, false);
  }

  /** "exit", end of input and an interrupt each end the session with `Exit`
      as the only event. */
  lemma QuitScenarios(line: string, split: string -> SplitResult, styled: bool)
    requires split(line) == Words(["exit"])
    ensures var o := MainLoop([Readline(Read(Line(line)))], split, styled, Fresh);
      o.stopped && o.state.accepted == o.state.sent == [Exit]
    ensures var o := MainLoop([Readline(Read(Eof))], split, styled, Fresh);
      o.stopped && o.state.accepted == o.state.sent == [Exit]
    ensures var o := MainLoop([Readline(Read(Interrupted))], split, styled, Fresh);
      o.stopped && o.state.accepted == o.state.sent == [Exit]
  {
  }

  /** Once the consumer is gone, the next forwarded line makes the loop stop
      instead of waiting; neither that line nor the `Exit` reaches anyone. */
  lemma DroppedConsumerScenario(line: string, split: string -> SplitResult, styled: bool)
    requires split(line) == Words(["foo"])
    ensures var o := MainLoop([ReceiverDropped, Readline(Read(Line(line)))], split, styled, Fresh);
      o.stopped && o.consumed == 2 && o.state.accepted == [] &&
      o.state.sent == [Input("foo", []), Exit]
  {
    var script := [ReceiverDropped, Readline(Read(Line(line)))];
    var gone := Fresh.(receiverOpen := false);
    assert Turn(Fresh, script[0], split, styled) == (gone, false);
    assert ["foo"][1..] == [];
    assert Classify(script[1].result, split) == Forward("foo", []);
    var st := SendEvent(gone, Input("foo", []));
    assert Turn(gone, script[1], split, styled) == (st, true);
    assert Run(script, split, styled, 1, gone) == Outcome(st, 2, true);
  }

  ghost function StateOf(tx: EventChannel, sink: Terminal): LoopState
    reads tx, sink
  {
    LoopState(tx.Attempts, tx.History(), tx.receiverOpen, sink.text)
  }

  /** One turn on a line-editor result (`cli_main`): report, ignore, quit or
      forward, and say whether the loop must break out. */
  method CliMain(cmd: ReadResult, split: string -> SplitResult, p: Printer, tx: EventChannel)
    returns (exit: bool)
    requires tx.Valid() && tx.senderOpen
    modifies p.sink, tx
    ensures tx.Valid() && tx.senderOpen
    ensures (StateOf(tx, p.sink), exit) == Turn(old(StateOf(tx, p.sink)), Readline(cmd), split, p.styled)
  {
    var a := Classify(cmd, split);
    match a
    case ReportError(m) =>
      p.Errln(m);
      exit := false;
    case Skip =>
      exit := false;
    case Quit =>
      exit := true;
    case Forward(c, args) =>
      exit := tx.Send(Input(c, args));
  }

  /** The input loop over a script (`cli_main_loop`). After breaking out it sends
      `Exit`, ignoring a failure, and drops its end of the channel. */
  method CliMainLoop(script: seq<Step>, split: string -> SplitResult, p: Printer, tx: EventChannel)
    returns (stopped: bool)
    requires tx.Valid() && tx.senderOpen
    modifies p.sink, tx
    ensures tx.Valid() && tx.senderOpen == !stopped
    ensures var o := MainLoop(script, split, p.styled, old(StateOf(tx, p.sink)));
      stopped == o.stopped && StateOf(tx, p.sink) == o.state
  {
    ghost var start := StateOf(tx, p.sink);
    var i := 0;
    stopped := false;
    while i < |script| && !stopped
      invariant 0 <= i <= |script|
      invariant tx.Valid() && tx.senderOpen
      invariant !stopped ==> Run(script, split, p.styled, 0, start) == Run(script, split, p.styled, i, StateOf(tx, p.sink))
      invariant stopped ==> Run(script, split, p.styled, 0, start) == Outcome(StateOf(tx, p.sink), i, true)
      decreases |script| - i
    {
      match script[i] {
        case KillFired =>
          stopped := true;
        case ReceiverDropped =>
          tx.DropReceiver();
        case Readline(r) =>
          stopped := CliMain(r, split, p, tx);
      }
      i := i + 1;
    }
    if stopped {
      var _ := tx.Send(Exit);
      tx.DropSender();
    }
  }
}
