/** The CNC Shield controller: it validates the step size, speed and
    acceleration typed by the user, serialises jog (`M X.. Y.. Z..`) and
    parameter (`S v a`) commands as text lines, writes them to the serial port
    when one is open, and keeps the Connect/Disconnect/jog buttons in step with
    the connection.

    The text fields enter as the result of Python's `int()` on them
    (`None` when `int()` raises); the serial port's open/readline are inputs;
    the bytes written are the `wire` field and the text log the `log` field. */
module Comunicacion {
  import opened Common

  /** Serial speed; it must match the Arduino's `Serial.begin`. */
  const Baud: nat := 115200

  // ------------------------------------------------------ decimal integers

  predicate IsDigit(c: char) {
    '0' <= c <= '9'
  }

  predicate AllDigits(s: string) {
    forall i | 0 <= i < |s| :: IsDigit(s[i])
  }

  /** The decimal digit of `d`. */
  function DigitChar(d: nat): (c: char)
    requires d < 10
    ensures IsDigit(c) && (c as int) - ('0' as int) == d
  {
    (('0' as int) + d) as char
  }

  /** Python's `str(n)` for a natural number: no sign, no leading zero. */
  function NatToString(n: nat): (s: string)
    ensures |s| >= 1 && AllDigits(s)
    ensures |s| > 1 ==> s[0] != '0'
    decreases n
  {
    if n < 10 then [DigitChar(n)] else NatToString(n / 10) + [DigitChar(n % 10)]
  }

  /** Python's `str(i)` (and an f-string field) for an integer: a minus sign
      before the digits of a negative number. */
  function IntToString(i: int): string {
    if i < 0 then "-" + NatToString(-i) else NatToString(i)
  }

  /** The number a string of decimal digits denotes. */
  function DigitsValue(s: string): nat
    requires AllDigits(s)
  {
    if |s| == 0 then 0
    else DigitsValue(s[..|s| - 1]) * 10 + ((s[|s| - 1] as int) - ('0' as int))
  }

  /** The reading of a decimal integer, as the receiving firmware parses it:
      an optional minus sign, then at least one digit. */
  function ParseInt(s: string): (r: Option<int>)
    ensures r.Some? ==> |s| >= 1
  {
    if |s| >= 2 && s[0] == '-' && AllDigits(s[1..]) then Some(-(DigitsValue(s[1..]) as int))
    else if |s| >= 1 && AllDigits(s) then Some(DigitsValue(s))
    else None
  }

  lemma {:induction false} NatToStringValue(n: nat)
    ensures DigitsValue(NatToString(n)) == n
    decreases n
  {
    if n >= 10 {
      var s := NatToString(n);
      assert s[..|s| - 1] == NatToString(n / 10);
      NatToStringValue(n / 10);
    }
  }

  /** Reading back the decimal text of any integer gives that integer. */
  lemma IntToStringRoundTrip(i: int)
    ensures ParseInt(IntToString(i)) == Some(i)
  {
    if i < 0 {
      var s := IntToString(i);
      assert s[1..] == NatToString(-i);
      NatToStringValue(-i);
    } else {
      NatToStringValue(i);
    }
  }

  /** The decimal text of an integer holds only a sign and digits. */
  lemma IntToStringChars(i: int)
    ensures forall k | 0 <= k < |IntToString(i)| :: IsDigit(IntToString(i)[k]) || IntToString(i)[k] == '-'
  {
  }

  // --------------------------------------------------------- words and lines

  /** `sep.join(parts)` with a one-character separator. */
  function Join(parts: seq<string>, sep: char): string {
    if |parts| == 0 then ""
    else if |parts| == 1 then parts[0]
    else parts[0] + [sep] + Join(parts[1..], sep)
  }

  /** `s.split(sep)` with a one-character separator: always at least one
      field, empty fields kept. */
  function Split(s: string, sep: char): (r: seq<string>)
    ensures |r| >= 1
  {
    if |s| == 0 then [""]
    else if s[0] == sep then [""] + Split(s[1..], sep)
    else var rest := Split(s[1..], sep); [[s[0]] + rest[0]] + rest[1..]
  }

  predicate Free(w: string, sep: char) {
    forall k | 0 <= k < |w| :: w[k] != sep
  }

  lemma {:induction false} SplitAfterWord(w: string, rest: string, sep: char)
    requires Free(w, sep)
    ensures Split(w + rest, sep) == [w + Split(rest, sep)[0]] + Split(rest, sep)[1..]
    decreases |w|
  {
    if |w| > 0 {
      assert (w + rest)[1..] == w[1..] + rest;
      SplitAfterWord(w[1..], rest, sep);
      assert [w[0]] + (w[1..] + Split(rest, sep)[0]) == w + Split(rest, sep)[0];
    } else {
      assert w + rest == rest;
      assert w + Split(rest, sep)[0] == Split(rest, sep)[0];
      assert Split(rest, sep) == [Split(rest, sep)[0]] + Split(rest, sep)[1..];
    }
  }

  /** Splitting joined words that do not contain the separator gives the
      words back. */
  lemma {:induction false} SplitJoin(parts: seq<string>, sep: char)
    requires |parts| >= 1
    requires forall i | 0 <= i < |parts| :: Free(parts[i], sep)
    ensures Split(Join(parts, sep), sep) == parts
    decreases |parts|
  {
    if |parts| == 1 {
      SplitAfterWord(parts[0], "", sep);
      assert parts[0] + "" == parts[0];
    } else {
      var tail := Join(parts[1..], sep);
      assert Join(parts, sep) == parts[0] + ([sep] + tail);
      SplitAfterWord(parts[0], [sep] + tail, sep);
      assert ([sep] + tail)[1..] == tail;
      assert Split([sep] + tail, sep) == [""] + Split(tail, sep);
      SplitJoin(parts[1..], sep);
      assert parts[0] + "" == parts[0];
      assert parts == [parts[0]] + parts[1..];
    }
  }

  /** Text the port's `encode("ascii")` accepts. */
  predicate IsAscii(s: string) {
    forall k | 0 <= k < |s| :: s[k] < 128 as char
  }

  // ------------------------------------------------------------ jog command

  /** One axis move of a jog command: the axis letter and the signed delta. */
  datatype AxisMove = AxisMove(axis: char, delta: int)

  /** The moves `mover` keeps: X, Y, Z in that order, zero deltas dropped. */
  function Moves(dx: int, dy: int, dz: int): (ms: seq<AxisMove>)
    ensures |ms| == 0 <==> dx == 0 && dy == 0 && dz == 0
    ensures forall i | 0 <= i < |ms| :: ms[i].delta != 0 && ms[i].axis in "XYZ"
  {
    (if dx != 0 then [AxisMove('X', dx)] else [])
    + (if dy != 0 then [AxisMove('Y', dy)] else [])
    + (if dz != 0 then [AxisMove('Z', dz)] else [])
  }

  /** `f"X{dx}"` and its kin: the letter, then the signed decimal delta. */
  function Token(m: AxisMove): string {
    [m.axis] + IntToString(m.delta)
  }

  /** The `partes` list of `mover`. */
  function Tokens(ms: seq<AxisMove>): (ts: seq<string>)
    ensures |ts| == |ms|
    ensures forall i | 0 <= i < |ms| :: ts[i] == Token(ms[i])
  {
    if |ms| == 0 then [] else [Token(ms[0])] + Tokens(ms[1..])
  }

  /** The jog line `mover` sends: "M " and the space-joined tokens. */
  function JogLine(dx: int, dy: int, dz: int): string {
    "M " + Join(Tokens(Moves(dx, dy, dz)), ' ')
  }

  /** What pressing a jog button leads to. */
  datatype MoveOutcome = InvalidStep | NoMotion | Send(line: string)

  /** `mover(sx, sy, sz)` with the parsed step size `paso` (None when `int()`
      raised): a step that is not a positive integer is refused, a move of
      zero on every axis sends nothing, anything else sends the jog line for
      the deltas direction times step. */
  function JogCommand(paso: Option<int>, sx: int, sy: int, sz: int): (r: MoveOutcome)
    ensures r == InvalidStep <==> paso.None? || paso.value <= 0
    ensures r == NoMotion <==> paso.Some? && paso.value > 0 && sx == 0 && sy == 0 && sz == 0
  {
    if paso.None? || paso.value <= 0 then InvalidStep
    else
      var p := paso.value;
      if sx * p == 0 && sy * p == 0 && sz * p == 0 then NoMotion
      else Send(JogLine(sx * p, sy * p, sz * p))
  }

  /** The reading of one token: an axis letter and a decimal integer. */
  function ParseToken(t: string): Option<AxisMove> {
    if |t| >= 1 && t[0] in "XYZ" then
      match ParseInt(t[1..])
      case Some(d) => Some(AxisMove(t[0], d))
      case None => None
    else None
  }

  function ParseTokens(ts: seq<string>): (r: Option<seq<AxisMove>>)
    ensures r.Some? ==> |r.value| == |ts|
  {
    if |ts| == 0 then Some([])
    else match (ParseToken(ts[0]), ParseTokens(ts[1..]))
      case (Some(m), Some(ms)) => Some([m] + ms)
      case _ => None
  }

  /** The delta of the first move on `axis`, 0 when there is none. */
  function DeltaOf(ms: seq<AxisMove>, axis: char): int {
    if |ms| == 0 then 0 else if ms[0].axis == axis then ms[0].delta else DeltaOf(ms[1..], axis)
  }

  /** The receiver's reading of a jog line: the X, Y and Z deltas. */
  function ParseJog(line: string): Option<(int, int, int)> {
    if |line| >= 2 && line[..2] == "M " then
      match ParseTokens(Split(line[2..], ' '))
      case Some(ms) => Some((DeltaOf(ms, 'X'), DeltaOf(ms, 'Y'), DeltaOf(ms, 'Z')))
      case None => None
    else None
  }

  /** A token reads back as its move. */
  lemma ParseTokenOfToken(m: AxisMove)
    requires m.axis in "XYZ"
    ensures ParseToken(Token(m)) == Some(m)
  {
    var t := Token(m);
    assert t[0] == m.axis;
    assert t[1..] == IntToString(m.delta);
    IntToStringRoundTrip(m.delta);
  }

  lemma {:induction false} ParseTokensOfTokens(ms: seq<AxisMove>)
    requires forall i | 0 <= i < |ms| :: ms[i].axis in "XYZ"
    ensures ParseTokens(Tokens(ms)) == Some(ms)
    decreases |ms|
  {
    if |ms| > 0 {
      var ts := Tokens(ms);
      ParseTokenOfToken(ms[0]);
      assert ts[0] == Token(ms[0]);
      assert ts[1..] == Tokens(ms[1..]);
      ParseTokensOfTokens(ms[1..]);
      assert [ms[0]] + ms[1..] == ms;
    }
  }

  /** A token holds no space. */
  lemma TokenSpaceFree(m: AxisMove)
    requires m.axis in "XYZ"
    ensures Free(Token(m), ' ')
  {
    IntToStringChars(m.delta);
  }

  lemma TokensSpaceFree(ms: seq<AxisMove>)
    requires forall i | 0 <= i < |ms| :: ms[i].axis in "XYZ"
    ensures forall i | 0 <= i < |ms| :: Free(Tokens(ms)[i], ' ')
  {
    forall i | 0 <= i < |ms|
      ensures Free(Tokens(ms)[i], ' ')
    {
      TokenSpaceFree(ms[i]);
    }
  }

  /** The jog line for any deltas that are not all zero reads back as exactly
      those deltas. */
  lemma JogLineRoundTrip(dx: int, dy: int, dz: int)
    requires dx != 0 || dy != 0 || dz != 0
    ensures ParseJog(JogLine(dx, dy, dz)) == Some((dx, dy, dz))
  {
    var ms := Moves(dx, dy, dz);
    var line := JogLine(dx, dy, dz);
    assert line[2..] == Join(Tokens(ms), ' ');
    TokensSpaceFree(ms);
    SplitJoin(Tokens(ms), ' ');
    ParseTokensOfTokens(ms);
    assert ParseTokens(Split(line[2..], ' ')) == Some(ms);
    MovesDeltas(dx, dy, dz);
  }

  /** Each axis's delta is recovered from the kept moves. */
  lemma MovesDeltas(dx: int, dy: int, dz: int)
    ensures DeltaOf(Moves(dx, dy, dz), 'X') == dx
    ensures DeltaOf(Moves(dx, dy, dz), 'Y') == dy
    ensures DeltaOf(Moves(dx, dy, dz), 'Z') == dz
  {
    var ms, tail, last := Moves(dx, dy, dz), Moves(0, dy, dz), Moves(0, 0, dz);
    if dz != 0 {
      assert last == [AxisMove('Z', dz)];
      assert last[1..] == [];
    } else {
      assert last == [];
    }
    assert DeltaOf(last, 'X') == 0 && DeltaOf(last, 'Y') == 0 && DeltaOf(last, 'Z') == dz;
    if dy != 0 {
      assert tail == [AxisMove('Y', dy)] + last;
      assert tail[1..] == last;
    } else {
      assert tail == last;
    }
    assert DeltaOf(tail, 'X') == 0 && DeltaOf(tail, 'Y') == dy && DeltaOf(tail, 'Z') == dz;
    if dx != 0 {
      assert ms == [AxisMove('X', dx)] + tail;
      assert ms[1..] == tail;
    } else {
      assert ms == tail;
    }
  }

  /** A sent jog command moves each axis by its direction times the step. */
  lemma JogCommandDecodes(paso: Option<int>, sx: int, sy: int, sz: int)
    requires JogCommand(paso, sx, sy, sz).Send?
    ensures ParseJog(JogCommand(paso, sx, sy, sz).line)
            == Some((sx * paso.value, sy * paso.value, sz * paso.value))
  {
    var p := paso.value;
    JogLineRoundTrip(sx * p, sy * p, sz * p);
  }

  /** Every jog line is plain ASCII, so the port always accepts it. */
  lemma JogLineAscii(dx: int, dy: int, dz: int)
    ensures IsAscii(JogLine(dx, dy, dz))
  {
    var ms := Moves(dx, dy, dz);
    TokensSpaceFree(ms);
    JoinAscii(Tokens(ms));
  }

  lemma {:induction false} JoinAscii(ts: seq<string>)
    requires forall i | 0 <= i < |ts| :: |ts[i]| >= 1 && ts[i][0] in "XYZ"
                                        && forall k | 1 <= k < |ts[i]| :: IsDigit(ts[i][k]) || ts[i][k] == '-'
    ensures IsAscii(Join(ts, ' '))
    decreases |ts|
  {
    if |ts| > 1 {
      JoinAscii(ts[1..]);
    }
  }

  // ------------------------------------------------------ parameter command

  /** The parameter line: "S", the speed and the acceleration. */
  function ParamsLine(v: int, a: int): string {
    "S " + IntToString(v) + " " + IntToString(a)
  }

  /** `enviar_parametros` with the parsed speed and acceleration (None when
      `int()` raised): the line is sent only when both are positive integers. */
  function ParamsCommand(v: Option<int>, a: Option<int>): (r: Option<string>)
    ensures r.Some? <==> v.Some? && a.Some? && v.value > 0 && a.value > 0
  {
    if v.None? || a.None? || v.value <= 0 || a.value <= 0 then None
    else Some(ParamsLine(v.value, a.value))
  }

  /** The receiver's reading of a parameter line. */
  function ParseParams(line: string): Option<(int, int)> {
    if |line| >= 2 && line[..2] == "S " then
      var ws := Split(line[2..], ' ');
      if |ws| == 2 && ParseInt(ws[0]).Some? && ParseInt(ws[1]).Some? then
        Some((ParseInt(ws[0]).value, ParseInt(ws[1]).value))
      else None
    else None
  }

  /** A sent parameter line reads back as exactly the speed and acceleration. */
  lemma ParamsRoundTrip(v: Option<int>, a: Option<int>)
    requires ParamsCommand(v, a).Some?
    ensures ParseParams(ParamsCommand(v, a).value) == Some((v.value, a.value))
  {
    var vs, as_ := IntToString(v.value), IntToString(a.value);
    var line := ParamsCommand(v, a).value;
    assert line[2..] == Join([vs, as_], ' ');
    IntToStringChars(v.value);
    IntToStringChars(a.value);
    SplitJoin([vs, as_], ' ');
    IntToStringRoundTrip(v.value);
    IntToStringRoundTrip(a.value);
  }

  lemma ParamsLineAscii(v: int, a: int)
    ensures IsAscii(ParamsLine(v, a))
  {
    IntToStringChars(v);
    IntToStringChars(a);
  }

  // ------------------------------------------------------------ the reply

  /** The characters Python's `str.strip()` removes. */
  predicate IsSpace(c: char) {
    c == ' ' || ('\t' <= c <= '\r') || ('\U{1C}' <= c <= '\U{1F}') || c == '\U{85}' || c == '\U{A0}'
    || c == '\U{1680}' || ('\U{2000}' <= c <= '\U{200A}') || c == '\U{2028}' || c == '\U{2029}'
    || c == '\U{202F}' || c == '\U{205F}' || c == '\U{3000}'
  }

  /** `s.lstrip()`: the suffix left after the leading white space. */
  function StripLeft(s: string): (r: string)
    ensures |r| <= |s| && r == s[|s| - |r|..]
    ensures forall k | 0 <= k < |s| - |r| :: IsSpace(s[k])
    ensures r == "" || !IsSpace(r[0])
  {
    if |s| > 0 && IsSpace(s[0]) then StripLeft(s[1..]) else s
  }

  /** `s.rstrip()`: the prefix left before the trailing white space. */
  function StripRight(s: string): (r: string)
    ensures |r| <= |s| && r == s[..|r|]
    ensures forall k | |r| <= k < |s| :: IsSpace(s[k])
    ensures r == "" || !IsSpace(r[|r| - 1])
  {
    if |s| > 0 && IsSpace(s[|s| - 1]) then StripRight(s[..|s| - 1]) else s
  }

  function Strip(s: string): string {
    StripRight(StripLeft(s))
  }

  // ------------------------------------------------------------- the window

  /** A serial port as pyserial opens it. */
  datatype SerialPort = SerialPort(device: string, isOpen: bool)

  /** The six jog buttons, in the order `habilitar_controles` visits them. */
  datatype JogButton = Up | Left | Right | Down | ZPlus | ZMinus

  function ButtonIndex(b: JogButton): (i: nat)
    ensures i < 6
  {
    match b
    case Up => 0
    case Left => 1
    case Right => 2
    case Down => 3
    case ZPlus => 4
    case ZMinus => 5
  }

  /** The direction each button passes to `mover`. */
  function ButtonDirection(b: JogButton): (int, int, int) {
    match b
    case Up => (0, 1, 0)
    case Left => (-1, 0, 0)
    case Right => (1, 0, 0)
    case Down => (0, -1, 0)
    case ZPlus => (0, 0, 1)
    case ZMinus => (0, 0, -1)
  }

  /** With a valid step, every button sends a single token: its axis and plus
      or minus the step. */
  lemma ButtonSendsOneAxis(b: JogButton, paso: int)
    requires paso > 0
    ensures var (sx, sy, sz) := ButtonDirection(b);
            var r := JogCommand(Some(paso), sx, sy, sz);
            && r.Send?
            && r.line == "M " + Token(AxisMove(if sx != 0 then 'X' else if sy != 0 then 'Y' else 'Z',
                                             if sx + sy + sz > 0 then paso else -paso))
  {
  }

  /** The state `CNCApp` keeps: the port, the bytes written, the log text,
      the six jog buttons (true = "normal"), the Connect and Disconnect buttons,
      and the titles of the message boxes shown. */
  class CncApp {
    var ser: Option<SerialPort>
    var wire: string
    var log: seq<string>
    var jogButtons: array<bool>
    var connectEnabled: bool
    var disconnectEnabled: bool
    var alerts: seq<string>

    /** The buttons follow the connection: jog and Disconnect enabled exactly
        when a port is open, Connect exactly when none is. */
    predicate Valid()
      reads this, jogButtons
    {
      && jogButtons.Length == 6
      && (forall i | 0 <= i < 6 :: jogButtons[i] == disconnectEnabled)
      && connectEnabled == !disconnectEnabled
      && (disconnectEnabled <==> ser.Some? && ser.value.isOpen)
    }

    predicate PortOpen()
      reads this
    {
      ser.Some? && ser.value.isOpen
    }

    /** `__init__`: no port, empty log, controls disabled until connected. */
    constructor ()
      ensures Valid() && fresh(jogButtons)
      ensures ser == None && wire == "" && log == [] && alerts == []
      ensures connectEnabled && !disconnectEnabled
    {
      ser := None;
      wire := "";
      log := [];
      alerts := [];
      connectEnabled := true;
      disconnectEnabled := false;
      jogButtons := new bool[6](_ => true);
      new;
      HabilitarControles(false);
    }

    /** `habilitar_controles(estado)`: every jog button to `estado`. */
    method HabilitarControles(estado: bool)
      requires jogButtons.Length == 6
      modifies jogButtons
      ensures forall i | 0 <= i < 6 :: jogButtons[i] == estado
    {
      for i := 0 to 6
        invariant forall k | 0 <= k < i :: jogButtons[k] == estado
      {
        jogButtons[i] := estado;
      }
    }

    /** `conectar` with the selected port name `puerto`; `opens` says whether
        `serial.Serial` succeeded. No name: a warning and nothing else. A
        failed open: an error and nothing else. Otherwise the port is open,
        jog and Disconnect enabled, Connect disabled, and the log says so. */
    method Conectar(puerto: string, opens: bool)
      requires Valid()
      modifies this, jogButtons
      ensures Valid() && jogButtons == old(jogButtons) && wire == old(wire)
      ensures puerto == "" ==> ser == old(ser) && log == old(log) && alerts == old(alerts) + ["Atención"]
                               && disconnectEnabled == old(disconnectEnabled)
      ensures puerto != "" && !opens ==> ser == old(ser) && log == old(log) && alerts == old(alerts) + ["Error"]
                                         && disconnectEnabled == old(disconnectEnabled)
      ensures puerto != "" && opens ==>
                ser == Some(SerialPort(puerto, true)) && !connectEnabled && disconnectEnabled
                && log == old(log) + ["Conectado a " + puerto + " @ " + NatToString(Baud) + " baud"]
                && alerts == old(alerts)
    {
      if puerto == "" {
        alerts := alerts + ["Atención"];
        return;
      }
      if !opens {
        alerts := alerts + ["Error"];
        return;
      }
      ser := Some(SerialPort(puerto, true));
      HabilitarControles(true);
      connectEnabled := false;
      disconnectEnabled := true;
      log := log + ["Conectado a " + puerto + " @ " + NatToString(Baud) + " baud"];
    }

    /** `desconectar`: close an open port (the object is kept), disable jog
        and Disconnect, enable Connect, log it. */
    method Desconectar()
      requires Valid()
      modifies this, jogButtons
      ensures Valid() && jogButtons == old(jogButtons) && wire == old(wire) && alerts == old(alerts)
      ensures ser == (if old(PortOpen()) then Some(old(ser).value.(isOpen := false)) else old(ser))
      ensures connectEnabled && !disconnectEnabled && !PortOpen()
      ensures log == old(log) + ["Desconectado"]
    {
      if ser.Some? && ser.value.isOpen {
        ser := Some(ser.value.(isOpen := false));
      }
      HabilitarControles(false);
      connectEnabled := true;
      disconnectEnabled := false;
      log := log + ["Desconectado"];
    }

    /** `enviar_linea(linea)`, `resp` being what `readline().decode()` gave.
        No open port: a warning and nothing written. Text the port cannot
        encode: an error and nothing written. Otherwise the line and a newline
        are written, the log shows ">>> linea" and, when the stripped reply is
        not empty, "<<< reply". */
    method EnviarLinea(linea: string, resp: string)
      modifies this
      ensures ser == old(ser) && jogButtons == old(jogButtons)
      ensures connectEnabled == old(connectEnabled) && disconnectEnabled == old(disconnectEnabled)
      ensures !old(PortOpen()) ==> wire == old(wire) && log == old(log) && alerts == old(alerts) + ["Conexión"]
      ensures old(PortOpen()) && !IsAscii(linea + "\n") ==>
                wire == old(wire) && log == old(log) && alerts == old(alerts) + ["Error"]
      ensures old(PortOpen()) && IsAscii(linea + "\n") ==>
                && wire == old(wire) + linea + "\n"
                && log == old(log) + [">>> " + linea] + (if Strip(resp) != "" then ["<<< " + Strip(resp)] else [])
                && alerts == old(alerts)
    {
      if !(ser.Some? && ser.value.isOpen) {
        alerts := alerts + ["Conexión"];
        return;
      }
      if !IsAscii(linea + "\n") {
        alerts := alerts + ["Error"];
        return;
      }
      wire := wire + linea + "\n";
      log := log + [">>> " + linea];
      var r := Strip(resp);
      if r != "" {
        log := log + ["<<< " + r];
      }
    }

    /** `mover(sx, sy, sz)`: a warning for a bad step, nothing for no motion,
        otherwise the jog line goes through `enviar_linea`. */
    method Mover(paso: Option<int>, sx: int, sy: int, sz: int, resp: string)
      modifies this
      ensures ser == old(ser) && jogButtons == old(jogButtons)
      ensures connectEnabled == old(connectEnabled) && disconnectEnabled == old(disconnectEnabled)
      ensures JogCommand(paso, sx, sy, sz) == InvalidStep ==>
                wire == old(wire) && log == old(log) && alerts == old(alerts) + ["Parámetros"]
      ensures JogCommand(paso, sx, sy, sz) == NoMotion ==>
                wire == old(wire) && log == old(log) && alerts == old(alerts)
      ensures JogCommand(paso, sx, sy, sz).Send? ==>
                if old(PortOpen()) then wire == old(wire) + JogCommand(paso, sx, sy, sz).line + "\n"
                else wire == old(wire)
    {
      var cmd := JogCommand(paso, sx, sy, sz);
      match cmd
      case InvalidStep =>
        alerts := alerts + ["Parámetros"];
      case NoMotion =>
      case Send(line) =>
        var p := paso.value;
        JogLineAscii(sx * p, sy * p, sz * p);
        EnviarLinea(line, resp);
    }

    /** A jog button press: Tk invokes only an enabled button. */
    method PulsarJog(b: JogButton, paso: Option<int>, resp: string)
      requires Valid() && jogButtons[ButtonIndex(b)]
      modifies this
      ensures Valid() && ser == old(ser)
      ensures paso.Some? && paso.value > 0 ==>
                wire == old(wire) + JogCommand(paso, ButtonDirection(b).0, ButtonDirection(b).1,
                                               ButtonDirection(b).2).line + "\n"
    {
      var (sx, sy, sz) := ButtonDirection(b);
      if paso.Some? && paso.value > 0 {
        ButtonSendsOneAxis(b, paso.value);
      }
      Mover(paso, sx, sy, sz, resp);
    }

    /** `enviar_parametros`: a warning unless both values are positive
        integers, otherwise "S v a" goes through `enviar_linea`. */
    method EnviarParametros(v: Option<int>, a: Option<int>, resp: string)
      modifies this
      ensures ser == old(ser) && jogButtons == old(jogButtons)
      ensures connectEnabled == old(connectEnabled) && disconnectEnabled == old(disconnectEnabled)
      ensures ParamsCommand(v, a).None? ==>
                wire == old(wire) && log == old(log) && alerts == old(alerts) + ["Parámetros"]
      ensures ParamsCommand(v, a).Some? ==>
                if old(PortOpen()) then wire == old(wire) + ParamsCommand(v, a).value + "\n"
                else wire == old(wire)
    {
      var cmd := ParamsCommand(v, a);
      if cmd.None? {
        alerts := alerts + ["Parámetros"];
        return;
      }
      ParamsLineAscii(v.value, a.value);
      EnviarLinea(cmd.value, resp);
    }

    /** The "Habilitar (EN)" / "Deshabilitar (DI)" buttons. */
    method Motores(habilitar: bool, resp: string)
      modifies this
      ensures ser == old(ser) && jogButtons == old(jogButtons)
      ensures connectEnabled == old(connectEnabled) && disconnectEnabled == old(disconnectEnabled)
      ensures old(PortOpen()) ==> wire == old(wire) + (if habilitar then "EN" else "DI") + "\n"
      ensures !old(PortOpen()) ==> wire == old(wire)
    {
      EnviarLinea(if habilitar then "EN" else "DI", resp);
    }
  }
}
