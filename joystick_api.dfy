/**
 * The host-side joystick API: a reader that keeps the last position the
 * device reported on `POS:<x>,<y>` lines, and a writer that sends force
 * commands `SETF:<fx>,<fy>`. The serial port is abstracted: received lines
 * are a sequence of decoded strings, written messages are recorded in order.
 */
module JoystickApi {
  import opened Wrappers
  import opened Arith
  import opened Text

  /** `(_x, _y)`. */
  datatype Position = Position(x: int, y: int)

  const POS_TAG: string := "POS"
  const SETF_TAG: string := "SETF"

  /** The text `str(n)` writes contains neither separator the protocol uses. */
  lemma IntTextHasNoSeparator(n: int)
    ensures ':' !in IntToString(n) && ',' !in IntToString(n)
  {
    var s := IntToString(n);
    forall k | 0 <= k < |s|
      ensures s[k] != ':' && s[k] != ','
    {
      if !AllDigits(s) && k > 0 {
        assert s[k] == s[1..][k - 1];
      }
    }
  }

  /** The first piece `split(sep)` returns is the text before the first separator. */
  lemma SplitFirst(p: string, t: string, sep: char)
    requires sep !in p
    requires t == [] || t[0] == sep
    ensures Split(p + t, sep)[0] == p
  {
    if t == [] {
      assert p + t == p;
      SplitNone(p, sep);
    } else {
      assert p + t == p + [sep] + t[1..];
      SplitCons(p, sep, t[1..]);
    }
  }

  /** The line `<tag>:<body>`. */
  function Tagged(tag: string, body: string): string
  {
    tag + [':'] + body
  }

  /** The line starts with `<tag>:`. */
  predicate HasTag(line: string, tag: string)
  {
    StartsWith(line, tag + [':'])
  }

  /** The fields of a `<tag>:...` line: `line.split(":")[1].split(",")`. */
  function Fields(line: string, tag: string): (fields: seq<string>)
    requires ':' !in tag && HasTag(line, tag)
    ensures |fields| >= 1
  {
    var rest := line[|tag| + 1..];
    assert line == tag + [':'] + rest;
    SplitCons(tag, ':', rest);
    Split(Split(line, ':')[1], ',')
  }

  /** The fields of `<tag>:<body>` are the comma pieces of the body up to its first colon. */
  lemma TaggedFields(tag: string, body: string)
    requires ':' !in tag
    ensures HasTag(Tagged(tag, body), tag)
    ensures Fields(Tagged(tag, body), tag) == Split(Split(body, ':')[0], ',')
  {
    var line := Tagged(tag, body);
    assert line[..|tag| + 1] == tag + [':'];
    assert line[|tag| + 1..] == body;
    SplitCons(tag, ':', body);
  }

  /** `<a>,<b>` as `str` writes the two integers. */
  function PairText(a: int, b: int): string
  {
    IntToString(a) + [','] + IntToString(b)
  }

  /** The comma pieces of `<a>,<b>` followed by more comma fields `e`. */
  lemma PairTextPieces(a: int, b: int, e: string)
    requires e == [] || e[0] == ','
    ensures var f := Split(PairText(a, b) + e, ',');
            |f| >= 2 && f[0] == IntToString(a) && f[1] == IntToString(b)
    ensures e == [] ==> Split(PairText(a, b) + e, ',') == [IntToString(a), IntToString(b)]
  {
    var sa, sb := IntToString(a), IntToString(b);
    IntTextHasNoSeparator(a);
    IntTextHasNoSeparator(b);
    assert PairText(a, b) + e == sa + [','] + (sb + e);
    SplitCons(sa, ',', sb + e);
    if e == [] {
      assert sb + e == sb;
      SplitNone(sb, ',');
    } else {
      SplitFirst(sb, e, ',');
    }
  }

  /**
   * `<a>,<b>` followed by more comma fields `e` and anything after a colon
   * `t`: the comma pieces before the first colon start with the texts of
   * `a` and `b`, and are exactly these two when there are no more fields.
   */
  lemma PairTextFields(a: int, b: int, e: string, t: string)
    requires ':' !in e && (e == [] || e[0] == ',')
    requires t == [] || t[0] == ':'
    ensures var f := Split(Split(PairText(a, b) + e + t, ':')[0], ',');
            |f| >= 2 && f[0] == IntToString(a) && f[1] == IntToString(b)
    ensures e == [] ==> Split(Split(PairText(a, b) + e + t, ':')[0], ',') == [IntToString(a), IntToString(b)]
  {
    IntTextHasNoSeparator(a);
    IntTextHasNoSeparator(b);
    var body := PairText(a, b) + e;
    assert ':' !in body;
    SplitFirst(body, t, ':');
    PairTextPieces(a, b, e);
  }

  /**
   * The body of one pass of `_read_loop` on a stripped line: a `POS:` line
   * sets `_x` from its first field and then `_y` from its second; an
   * exception (a field that is not an integer, a missing second field)
   * abandons the line where it is raised, keeping what was already stored.
   */
  function ReadPosition(pos: Position, line: string): Position
  {
    if !HasTag(line, POS_TAG) then pos
    else
      var fields := Fields(line, POS_TAG);
      match ParseInt(fields[0])
      case None => pos
      case Some(a) =>
        if |fields| < 2 then Position(a, pos.y)
        else
          match ParseInt(fields[1])
          case None => Position(a, pos.y)
          case Some(b) => Position(a, b)
  }

  /**
   * Only `POS:` lines move the stored position, and `_y` changes only when
   * both fields are integers, `_x` having been set from the first.
   */
  lemma OnlyPosLinesMove(pos: Position, line: string)
    ensures !HasTag(line, POS_TAG) ==> ReadPosition(pos, line) == pos
    ensures ReadPosition(pos, line).y != pos.y ==>
              && HasTag(line, POS_TAG)
              && |Fields(line, POS_TAG)| >= 2
              && ParseInt(Fields(line, POS_TAG)[0]) == Some(ReadPosition(pos, line).x)
              && ParseInt(Fields(line, POS_TAG)[1]) == Some(ReadPosition(pos, line).y)
  {
  }

  /** One received line: `readline().decode().strip()`, then `ReadPosition`. */
  function HandleLine(pos: Position, raw: string): Position
  {
    ReadPosition(pos, Strip(raw, IsPySpace))
  }

  /** The line `POS:<a>,<b>`. */
  function PosLine(a: int, b: int): string
  {
    Tagged(POS_TAG, PairText(a, b))
  }

  /**
   * A `POS:a,b` line stores `(a, b)`, whatever was stored before; further
   * comma fields `e` and anything after a second colon `t` are ignored.
   */
  lemma PosLineRead(pos: Position, a: int, b: int, e: string, t: string)
    requires ':' !in e && (e == [] || e[0] == ',')
    requires t == [] || t[0] == ':'
    ensures ReadPosition(pos, Tagged(POS_TAG, PairText(a, b) + e + t)) == Position(a, b)
  {
    TaggedFields(POS_TAG, PairText(a, b) + e + t);
    PairTextFields(a, b, e, t);
    ParseIntToString(a);
    ParseIntToString(b);
  }

  /** A tagged pair line neither starts nor ends with whitespace. */
  lemma TaggedPairUnpadded(tag: string, a: int, b: int)
    requires tag != [] && !IsPySpace(tag[0])
    ensures var s := Tagged(tag, PairText(a, b)); s != [] && !IsPySpace(s[0]) && !IsPySpace(s[|s| - 1])
  {
    var s := Tagged(tag, PairText(a, b));
    var sb := IntToString(b);
    assert s[|s| - 1] == sb[|sb| - 1];
    SignOrDigitNotSpace(sb[|sb| - 1]);
  }

  /** Whitespace after a tagged pair line is stripped away. */
  lemma StripTaggedPair(tag: string, a: int, b: int, q: string)
    requires tag != [] && !IsPySpace(tag[0])
    requires forall k :: 0 <= k < |q| ==> IsPySpace(q[k])
    ensures Strip(Tagged(tag, PairText(a, b)) + q, IsPySpace) == Tagged(tag, PairText(a, b))
  {
    var s := Tagged(tag, PairText(a, b));
    TaggedPairUnpadded(tag, a, b);
    StripTrailing(s, q, IsPySpace);
  }

  /** The fields of a tagged pair line are the texts of the two integers. */
  lemma TaggedPairFields(tag: string, a: int, b: int)
    requires ':' !in tag
    ensures HasTag(Tagged(tag, PairText(a, b)), tag)
    ensures Fields(Tagged(tag, PairText(a, b)), tag) == [IntToString(a), IntToString(b)]
  {
    TaggedFields(tag, PairText(a, b));
    PairTextFields(a, b, "", "");
    assert PairText(a, b) + "" + "" == PairText(a, b);
  }

  /** The line as it arrives from the port, ended by `\r\n`, is read the same way. */
  lemma PosLineReceived(pos: Position, a: int, b: int)
    ensures HandleLine(pos, PosLine(a, b) + "\r\n") == Position(a, b)
  {
    StripTaggedPair(POS_TAG, a, b, "\r\n");
    TaggedPairFields(POS_TAG, a, b);
    ParseIntToString(a);
    ParseIntToString(b);
  }

  /** A `POS:` line without a second field updates `_x` only. */
  lemma MissingSecondField(pos: Position, a: int)
    ensures ReadPosition(pos, Tagged(POS_TAG, IntToString(a))) == Position(a, pos.y)
  {
    var sa := IntToString(a);
    IntTextHasNoSeparator(a);
    TaggedFields(POS_TAG, sa);
    SplitNone(sa, ':');
    SplitNone(sa, ',');
    ParseIntToString(a);
  }

  /** A `POS:` line whose second field is not an integer updates `_x` only. */
  lemma BadSecondField(pos: Position, a: int, f: string)
    requires ':' !in f && ',' !in f && ParseInt(f) == None
    ensures ReadPosition(pos, Tagged(POS_TAG, IntToString(a) + [','] + f)) == Position(a, pos.y)
  {
    var sa := IntToString(a);
    var body := sa + [','] + f;
    IntTextHasNoSeparator(a);
    TaggedFields(POS_TAG, body);
    assert ':' !in body;
    SplitNone(body, ':');
    SplitCons(sa, ',', f);
    SplitNone(f, ',');
    ParseIntToString(a);
  }

  /** The state after `step` has been applied to each of `lines` in turn. */
  function Fold(step: (Position, string) -> Position, pos: Position, lines: seq<string>): Position
    decreases |lines|
  {
    if lines == [] then pos else step(Fold(step, pos, lines[..|lines| - 1]), lines[|lines| - 1])
  }

  /** One more line is one more step. */
  lemma FoldSnoc(step: (Position, string) -> Position, pos: Position, lines: seq<string>, i: nat)
    requires i < |lines|
    ensures Fold(step, pos, lines[..i + 1]) == step(Fold(step, pos, lines[..i]), lines[i])
  {
    assert lines[..i + 1][..i] == lines[..i];
  }

  /** The stored position after the lines `lines`, one pass of the loop each. */
  function ReceiveAll(pos: Position, lines: seq<string>): Position
  {
    Fold(HandleLine, pos, lines)
  }

  /** Lines that are not `POS:` lines never move the stored position. */
  lemma {:induction false} OtherLinesIgnored(pos: Position, lines: seq<string>)
    requires forall i :: 0 <= i < |lines| ==> !StartsWith(Strip(lines[i], IsPySpace), POS_TAG + ":")
    ensures ReceiveAll(pos, lines) == pos
    decreases |lines|
  {
    if lines != [] {
      OtherLinesIgnored(pos, lines[..|lines| - 1]);
    }
  }

  /** After a complete `POS:a,b` line the stored position is `(a, b)`, whatever came before. */
  lemma LastPositionWins(pos: Position, lines: seq<string>, a: int, b: int)
    requires lines != [] && lines[|lines| - 1] == PosLine(a, b) + "\r\n"
    ensures ReceiveAll(pos, lines) == Position(a, b)
  {
    PosLineReceived(ReceiveAll(pos, lines[..|lines| - 1]), a, b);
  }

  /** `f"SETF:{int(fx)},{int(fy)}\n"`; `int` of a float truncates toward zero. */
  function ForceMessage(fx: real, fy: real): (msg: string)
  {
    Tagged(SETF_TAG, PairText(TruncReal(fx), TruncReal(fy))) + "\n"
  }

  /**
   * A reader of force messages, the counterpart of `ForceMessage`: a stripped
   * `SETF:` line with exactly two integer fields.
   */
  function ParseForce(msg: string): Option<(int, int)>
  {
    var line := Strip(msg, IsPySpace);
    if !HasTag(line, SETF_TAG) then None
    else
      var fields := Fields(line, SETF_TAG);
      if |fields| != 2 then None
      else
        match (ParseInt(fields[0]), ParseInt(fields[1]))
        case (Some(fx), Some(fy)) => Some((fx, fy))
        case _ => None
  }

  /** The message carries the truncated force components and nothing else. */
  lemma ForceMessageRoundTrip(fx: real, fy: real)
    ensures ParseForce(ForceMessage(fx, fy)) == Some((TruncReal(fx), TruncReal(fy)))
  {
    var a, b := TruncReal(fx), TruncReal(fy);
    StripTaggedPair(SETF_TAG, a, b, "\n");
    TaggedPairFields(SETF_TAG, a, b);
    ParseIntToString(a);
    ParseIntToString(b);
  }

  /** Integer arguments (the spring-effect demo passes `-x * 2`) are sent unchanged. */
  lemma IntegerForceSentExactly(fx: int, fy: int)
    ensures ParseForce(ForceMessage(fx as real, fy as real)) == Some((fx, fy))
  {
    assert TruncReal(fx as real) == fx && TruncReal(fy as real) == fy;
    ForceMessageRoundTrip(fx as real, fy as real);
  }

  /** What a write to the port does. */
  datatype WriteOutcome =
    | Written
      /** `self.ser` is `None`: nothing is written. */
    | NoPort
      /** The port was closed: pyserial raises, and the exception reaches the caller. */
    | PortClosed

  /** A `MagLevJoystick2D` object. */
  class Joystick {
    var x: int
    var y: int
    var running: bool
    /** `self.ser` is set: opening the port succeeded. */
    var connected: bool
    var portOpen: bool
    /** The messages written to the port, in order. */
    var sent: seq<string>

    /** `__init__`; whether `serial.Serial(...)` succeeds is an input. */
    constructor (opens: bool)
      ensures x == 0 && y == 0 && running
      ensures connected == opens && portOpen == opens && sent == []
    {
      x, y := 0, 0;
      running := true;
      connected, portOpen := opens, opens;
      sent := [];
    }

    /** `get_position`: the pair last stored by the reader. */
    method GetPosition() returns (p: Position)
      ensures p == Position(x, y)
    {
      p := Position(x, y);
    }

    /**
     * One pass of `_read_loop`'s body on a received line. The two stores of
     * the source are collected in `nx`, `ny` and written together at the
     * end; with the reader thread left out, nothing observes the state in
     * between.
     */
    method ReceiveLine(rawLine: string)
      modifies this`x, this`y
      ensures Position(x, y) == HandleLine(old(Position(x, y)), rawLine)
    {
      var nx, ny := x, y;
      var line := Strip(rawLine, IsPySpace);
      assert HandleLine(Position(x, y), rawLine) == ReadPosition(Position(nx, ny), line);
      if HasTag(line, POS_TAG) {
        var raw := Fields(line, POS_TAG);
        var a := ParseInt(raw[0]);
        if a.Some? {
          nx := a.value;
          if |raw| >= 2 {
            var b := ParseInt(raw[1]);
            if b.Some? {
              ny := b.value;
            }
          }
        }
      }
      x, y := nx, ny;
    }

    /**
     * `_read_loop` over the lines the port delivers: while running and
     * connected, each line is handled in arrival order.
     */
    method ReadLoop(lines: seq<string>)
      modifies this`x, this`y
      ensures Position(x, y) == if running && connected then ReceiveAll(old(Position(x, y)), lines) else old(Position(x, y))
    {
      var i := 0;
      while running && connected && i < |lines|
        invariant 0 <= i <= |lines|
        invariant !(running && connected) ==> i == 0
        invariant Position(x, y) == Fold(HandleLine, old(Position(x, y)), lines[..i])
      {
        FoldSnoc(HandleLine, old(Position(x, y)), lines, i);
        ReceiveLine(lines[i]);
        i := i + 1;
      }
      if running && connected {
        assert lines[..i] == lines;
      }
    }

    /** `set_force(fx, fy)`. */
    method SetForce(fx: real, fy: real) returns (outcome: WriteOutcome)
      modifies this
      ensures connected && portOpen ==> outcome == Written && sent == old(sent) + [ForceMessage(fx, fy)]
      ensures !connected ==> outcome == NoPort && sent == old(sent)
      ensures connected && !portOpen ==> outcome == PortClosed && sent == old(sent)
      ensures x == old(x) && y == old(y) && running == old(running)
      ensures connected == old(connected) && portOpen == old(portOpen)
    {
      if !connected {
        return NoPort;
      }
      if !portOpen {
        return PortClosed;
      }
      sent := sent + [ForceMessage(fx, fy)];
      outcome := Written;
    }

    /**
     * `close`: stops the reader and, when connected, releases the force with
     * `SETF:0,0` before closing the port.
     */
    method Close() returns (outcome: WriteOutcome)
      modifies this
      ensures !running && (connected ==> !portOpen)
      ensures connected == old(connected) && x == old(x) && y == old(y)
      ensures connected && old(portOpen) ==> outcome == Written && sent == old(sent) + [ForceMessage(0.0, 0.0)]
      ensures !(connected && old(portOpen)) ==> sent == old(sent) && outcome != Written
    {
      running := false;
      outcome := NoPort;
      if connected {
        outcome := SetForce(0.0, 0.0);
        portOpen := false;
      }
    }
  }

  /** The release message `close` sends is `SETF:0,0`. */
  lemma ReleaseMessage()
    ensures ForceMessage(0.0, 0.0) == "SETF:0,0\n"
  {
    assert TruncReal(0.0) == 0;
    assert IntToString(0) == "0";
  }
}
