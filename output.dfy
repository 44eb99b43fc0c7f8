/** The session's output side (`Printer` in src/cli.rs): every call appends one
    piece of text to a shared terminal writer. Error and warning text is wrapped
    in the SGR colour escapes of ECMA-48 (31 red, 33 yellow, 0 reset) only when
    styling was switched on when the printer was made. */
module Output {

  const Esc: char := '\U{1B}'

  /** SGR parameters used by the printer. */
  const Red: string := "31"
  const Yellow: string := "33"
  const Reset: string := "0"

  /** A Select Graphic Rendition control sequence: ESC '[' parameters 'm'. */
  function Sgr(param: string): (s: string)
    ensures |s| == |param| + 3 && s[0] == Esc && s[1] == '[' && s[|s| - 1] == 'm'
  {
    [Esc, '['] + param + "m"
  }

  predicate IsParamChar(c: char) {
    '0' <= c <= '9' || c == ';'
  }

  predicate IsParam(s: string) {
    forall i :: 0 <= i < |s| ==> IsParamChar(s[i])
  }

  /** `msg` in the given colour when `styled`, `msg` unchanged otherwise. */
  function Paint(styled: bool, colour: string, msg: string): string {
    if styled then Sgr(colour) + msg + Sgr(Reset) else msg
  }

  /** Text of `err`/`errln` before the newline. */
  function ErrText(styled: bool, msg: string): string {
    Paint(styled, Red, msg)
  }

  /** Text of `warn`/`warnln` before the newline. */
  function WarnText(styled: bool, msg: string): string {
    Paint(styled, Yellow, msg)
  }

  /** Length of the longest prefix of `s` made of SGR parameter characters. */
  function ParamLen(s: string): (n: nat)
    ensures n <= |s| && IsParam(s[..n])
    ensures n < |s| ==> !IsParamChar(s[n])
  {
    if |s| == 0 || !IsParamChar(s[0]) then 0 else 1 + ParamLen(s[1..])
  }

  /** What a reader of the text sees once every SGR sequence is removed. */
  function StripSgr(s: string): (r: string)
    ensures |r| <= |s|
    decreases |s|
  {
    if |s| == 0 then ""
    else if |s| >= 2 && s[0] == Esc && s[1] == '[' &&
            2 + ParamLen(s[2..]) < |s| && s[2 + ParamLen(s[2..])] == 'm'
    then StripSgr(s[3 + ParamLen(s[2..])..])
    else [s[0]] + StripSgr(s[1..])
  }

  /** A complete SGR sequence in front of `rest` disappears when stripped. */
  lemma StripSgrDropsSgr(param: string, rest: string)
    requires IsParam(param)
    ensures StripSgr(Sgr(param) + rest) == StripSgr(rest)
  {
    var s := Sgr(param) + rest;
    assert s[2..] == param + ("m" + rest);
    ParamLenStopsAt(param, 'm', rest);
    assert s[3 + |param|..] == rest;
  }

  /** The parameters of a sequence end at its first non-parameter character. */
  lemma {:induction false} ParamLenStopsAt(param: string, final: char, rest: string)
    requires IsParam(param) && !IsParamChar(final)
    ensures ParamLen(param + ([final] + rest)) == |param|
  {
    if param != [] {
      assert (param + ([final] + rest))[1..] == param[1..] + ([final] + rest);
      ParamLenStopsAt(param[1..], final, rest);
    }
  }

  /** Text without escape characters survives stripping unchanged. */
  lemma {:induction false} StripSgrKeepsPlain(msg: string, rest: string)
    requires Esc !in msg
    ensures StripSgr(msg + rest) == msg + StripSgr(rest)
  {
    if msg == [] {
      assert msg + rest == rest;
    } else {
      var s := msg + rest;
      assert s[0] == msg[0] != Esc;
      assert s[1..] == msg[1..] + rest;
      StripSgrKeepsPlain(msg[1..], rest);
    }
  }

  /** Styling only adds escapes: a styled line, with its escapes removed, is
      the plain line the same call prints when styling is off. */
  lemma StyledLineStripsToPlain(colour: string, msg: string, tail: string)
    requires IsParam(colour) && Esc !in msg && Esc !in tail
    ensures StripSgr(Paint(true, colour, msg) + tail) == Paint(false, colour, msg) + tail
  {
    var s := Paint(true, colour, msg) + tail;
    assert s == Sgr(colour) + (msg + (Sgr(Reset) + tail));
    StripSgrDropsSgr(colour, msg + (Sgr(Reset) + tail));
    StripSgrKeepsPlain(msg, Sgr(Reset) + tail);
    StripSgrDropsSgr(Reset, tail);
    StripSgrKeepsPlain(tail, "");
    assert tail + "" == tail;
  }

  /** The styling flag alone decides whether escapes are written: plain text
      painted contains an escape character exactly when styling is on. */
  lemma EscapesOnlyWhenStyled(styled: bool, colour: string, msg: string)
    requires Esc !in msg
    ensures Esc in Paint(styled, colour, msg) <==> styled
  {
  }

  /** With styling off, the error and warning lines are exactly the plain line
      `println` writes; with it on, they differ from it. */
  lemma UnstyledErrorsArePlain(msg: string)
    ensures ErrText(false, msg) + "\n" == msg + "\n"
    ensures WarnText(false, msg) + "\n" == msg + "\n"
    ensures ErrText(true, msg) + "\n" != msg + "\n"
    ensures WarnText(true, msg) + "\n" != msg + "\n"
  {
  }

  /** The shared destination every printer clone writes to. */
  class Terminal {
    var text: string

    constructor ()
      ensures text == ""
    {
      text := "";
    }
  }

  /** A cloneable handle on the terminal; `styled` is fixed at creation. */
  class Printer {
    const sink: Terminal
    const styled: bool

    constructor (sink: Terminal, styled: bool)
      ensures this.sink == sink && this.styled == styled
    {
      this.sink := sink;
      this.styled := styled;
    }

    /** A clone shares the destination and the styling flag. */
    method Clone() returns (p: Printer)
      ensures fresh(p) && p.sink == sink && p.styled == styled
    {
      p := new Printer(sink, styled);
    }

    method Println(msg: string)
      modifies sink
      ensures sink.text == old(sink.text) + msg + "\n"
    {
      sink.text := sink.text + msg + "\n";
    }

    method Print(msg: string)
      modifies sink
      ensures sink.text == old(sink.text) + msg
    {
      sink.text := sink.text + msg;
    }

    method Errln(msg: string)
      modifies sink
      ensures sink.text == old(sink.text) + ErrText(styled, msg) + "\n"
    {
      if styled {
        sink.text := sink.text + "\U{1B}[31m" + msg + "\U{1B}[0m" + "\n";
      } else {
        sink.text := sink.text + msg + "\n";
      }
    }

    method Err(msg: string)
      modifies sink
      ensures sink.text == old(sink.text) + ErrText(styled, msg)
    {
      if styled {
        sink.text := sink.text + "\U{1B}[31m" + msg + "\U{1B}[0m";
      } else {
        sink.text := sink.text + msg;
      }
    }

    method Warnln(msg: string)
      modifies sink
      ensures sink.text == old(sink.text) + WarnText(styled, msg) + "\n"
    {
      if styled {
        sink.text := sink.text + "\U{1B}[33m" + msg + "\U{1B}[0m" + "\n";
      } else {
        sink.text := sink.text + msg + "\n";
      }
    }

    method Warn(msg: string)
      modifies sink
      ensures sink.text == old(sink.text) + WarnText(styled, msg)
    {
      if styled {
        sink.text := sink.text + "\U{1B}[33m" + msg + "\U{1B}[0m";
      } else {
        sink.text := sink.text + msg;
      }
    }
  }
}
