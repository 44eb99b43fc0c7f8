/** The session handle (`Cli`, `KillReceiver` and the `watch` channel behind them
    in src/cli.rs). `Cli` owns the only writer of the kill flag and the input
    loop's task; `kill` takes both out of `handles`, so a second call finds
    nothing to do. */
module Session {
  import opened Output
  import opened Channel

  datatype Option<T> = None | Some(value: T)

  /** The shared state of the `watch` channel: the kill flag, which only ever
      goes from false to true, and whether its one sender still exists. */
  class KillSignal {
    var value: bool
    var senderAlive: bool

    constructor ()
      ensures !value && senderAlive
    {
      value, senderAlive := false, true;
    }

    /** The sender's `send(true)`. */
    method Fire()
      requires senderAlive
      modifies this
      ensures value && senderAlive
    {
      value := true;
    }

    /** The sender is dropped; the flag keeps its value. */
    method DropSender()
      modifies this
      ensures !senderAlive && value == old(value)
    {
      senderAlive := false;
    }
  }

  /** A cloneable reader of the kill flag. */
  class KillReceiver {
    const signal: KillSignal

    constructor (signal: KillSignal)
      ensures this.signal == signal
    {
      this.signal := signal;
    }

    method Clone() returns (r: KillReceiver)
      ensures fresh(r) && r.signal == signal
    {
      r := new KillReceiver(signal);
    }

    /** `recv`: returns at once when the flag is already set, and otherwise
        waits for the next change, which comes only from the sender setting it
        or going away. `done` says whether the wait is over without waiting. */
    method Recv() returns (done: bool)
      ensures done <==> signal.value || !signal.senderAlive
    {
      if !signal.value {
        done := !signal.senderAlive;
      } else {
        done := true;
      }
    }
  }

  /** The input loop's task as `Cli` sees it: something to wait for. */
  class LoopTask {
    var finished: bool

    constructor ()
      ensures !finished
    {
      finished := false;
    }

    /** Awaiting the join handle: returns once the loop has sent `Exit` and stopped;
        the loop takes the kill as its `KillFired` turn. */
    method Join()
      modifies this
      ensures finished
    {
      finished := true;
    }
  }

  /** What `kill` takes away: the flag's only writer and the loop's task. */
  datatype Handles = Handles(killTx: KillSignal, cliHandle: LoopTask)

  class Cli {
    const killRx: KillReceiver
    const printer: Printer
    var handles: Option<Handles>

    /** The flag is set exactly when the handles have been taken, and its
        sender lives exactly as long as it is held in `handles`. */
    ghost predicate Valid()
      reads this, killRx, killRx.signal
    {
      (handles.Some? ==>
         handles.value.killTx == killRx.signal && !killRx.signal.value && killRx.signal.senderAlive) &&
      (handles.None? ==> killRx.signal.value && !killRx.signal.senderAlive)
    }

    /** The handle's own part of `Cli::new`: a fresh flag, the printer with
        the styling decided now, and the input loop's task. */
    constructor (sink: Terminal, styled: bool)
      ensures Valid() && handles.Some? && fresh(handles.value.cliHandle)
      ensures fresh(killRx) && fresh(killRx.signal) && fresh(printer)
      ensures printer.sink == sink && printer.styled == styled
    {
      var signal := new KillSignal();
      var task := new LoopTask();
      killRx := new KillReceiver(signal);
      printer := new Printer(sink, styled);
      handles := Some(Handles(signal, task));
    }

    /** `Cli::new` once the line editor is up: the handle, and the receiving
        end of a fresh, empty capacity-1 command channel. */
    static method New(sink: Terminal, styled: bool) returns (cli: Cli, rx: EventChannel)
      ensures fresh(cli) && fresh(rx) && fresh(cli.killRx.signal)
      ensures cli.Valid() && cli.handles.Some? && !cli.killRx.signal.value
      ensures cli.printer.sink == sink && cli.printer.styled == styled
      ensures rx.Valid() && rx.receiverOpen && rx.senderOpen && rx.History() == []
    {
      rx := new EventChannel();
      cli := new Cli(sink, styled);
    }

    /** The objects a call of `kill` may change. */
    ghost function KillFrame(): set<object>
      reads this, killRx
    {
      {this, killRx.signal} + (if handles.Some? then {handles.value.cliHandle} else {})
    }

    /** `kill`: the first call takes the handles, sets the flag, waits for the
        loop's task and drops the sender; a later call changes nothing. */
    method Kill()
      requires Valid()
      modifies KillFrame()
      ensures Valid() && handles.None?
      ensures killRx.signal.value && !killRx.signal.senderAlive
      ensures old(handles).Some? ==> old(handles).value.cliHandle.finished
      ensures old(handles).None? ==> unchanged(this, killRx.signal)
    {
      if handles.Some? {
        var x := handles.value;
        handles := None;
        x.killTx.Fire();
        x.cliHandle.Join();
        x.killTx.DropSender();
      }
    }

    method GetKillReceiver() returns (r: KillReceiver)
      ensures fresh(r) && r.signal == killRx.signal
    {
      r := killRx.Clone();
    }

    method GetPrinter() returns (p: Printer)
      ensures fresh(p) && p.sink == printer.sink && p.styled == printer.styled
    {
      p := printer.Clone();
    }
  }

  /** A caller that kills twice: the second call leaves the session as the
      first left it, and a reader made before the kills (`early`) and one made
      after them (`late`) both find the wait over at once. */
  method KillTwice(cli: Cli, reader: KillReceiver) returns (early: bool, late: bool)
    requires cli.Valid() && reader.signal == cli.killRx.signal
    modifies cli.KillFrame()
    ensures cli.Valid() && cli.handles.None? && early && late
    ensures cli.killRx.signal.value && !cli.killRx.signal.senderAlive
  {
    cli.Kill();
    ghost var value, alive := cli.killRx.signal.value, cli.killRx.signal.senderAlive;
    cli.Kill();
    assert cli.killRx.signal.value == value && cli.killRx.signal.senderAlive == alive;
    var lateReader := cli.GetKillReceiver();
    late := lateReader.Recv();
    early := reader.Recv();
  }
}
