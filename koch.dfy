/**
 Model of the Koch snowflake drawer.

 The turtle is an observer that records every command it is given, in order,
 as a `Command` value. `KochCurve` is the sequence of commands that one
 `koch_curve(t, order, size)` call issues; `DrawKochCurve` is that procedure
 acting on a `Turtle`, and `DrawKochSnowflake` is the setup plus the
 three-sided drawing loop. Geometry (positions, headings as floating-point
 values) is not modelled: turns are kept as integer degrees in the trace.
 */
module Koch {

  /** One call made on the turtle. */
  datatype Command =
    | Forward(distance: real)
    | Left(degrees: int)
    | Right(degrees: int)
    | PenUp
    | PenDown
    | GoTo(x: real, y: real)

  /** `b` to the power `n`, on naturals. */
  function Pow(b: nat, n: nat): nat
  {
    if n == 0 then 1 else b * Pow(b, n - 1)
  }

  /** 3 to the power `n`, as a real, so that sizes can be divided by it. */
  function Pow3(n: nat): (r: real)
    ensures r >= 1.0
  {
    if n == 0 then 1.0 else 3.0 * Pow3(n - 1)
  }

  // ---------------------------------------------------------------------
  // Observations on a command trace
  // ---------------------------------------------------------------------

  /** Number of `Forward` commands in a trace. */
  function Forwards(cmds: seq<Command>): nat
  {
    if cmds == [] then 0
    else (if cmds[0].Forward? then 1 else 0) + Forwards(cmds[1..])
  }

  /** Number of turn commands (`Left` or `Right`) in a trace. */
  function Turns(cmds: seq<Command>): nat
  {
    if cmds == [] then 0
    else (if cmds[0].Left? || cmds[0].Right? then 1 else 0) + Turns(cmds[1..])
  }

  /** Heading change of one command, in degrees, counter-clockwise positive. */
  function TurnOf(c: Command): int
  {
    match c
    case Left(d) => d
    case Right(d) => -d
    case _ => 0
  }

  /** Net heading change of a trace, in degrees. */
  function NetTurn(cmds: seq<Command>): int
  {
    if cmds == [] then 0 else TurnOf(cmds[0]) + NetTurn(cmds[1..])
  }

  lemma {:induction false} ForwardsAppend(a: seq<Command>, b: seq<Command>)
    ensures Forwards(a + b) == Forwards(a) + Forwards(b)
  {
    if a != [] {
      assert (a + b)[1..] == a[1..] + b;
      ForwardsAppend(a[1..], b);
    } else {
      assert a + b == b;
    }
  }

  lemma {:induction false} TurnsAppend(a: seq<Command>, b: seq<Command>)
    ensures Turns(a + b) == Turns(a) + Turns(b)
  {
    if a != [] {
      assert (a + b)[1..] == a[1..] + b;
      TurnsAppend(a[1..], b);
    } else {
      assert a + b == b;
    }
  }

  lemma {:induction false} NetTurnAppend(a: seq<Command>, b: seq<Command>)
    ensures NetTurn(a + b) == NetTurn(a) + NetTurn(b)
  {
    if a != [] {
      assert (a + b)[1..] == a[1..] + b;
      NetTurnAppend(a[1..], b);
    } else {
      assert a + b == b;
    }
  }

  // ---------------------------------------------------------------------
  // The curve
  // ---------------------------------------------------------------------

  /** A third of a length: the `size /= 3.0` of each recursion step. */
  function Third(size: real): real
  {
    size / 3.0
  }

  /**
   The commands issued by `koch_curve(t, order, size)`: one `Forward(size)`
   at order 0; otherwise four curves of order `order - 1` and a third of the
   length, separated by `Left(60)`, `Right(120)` and `Left(60)`. The source
   has no guard against a negative order (it would never reach the base
   case), so the order is a natural number here.
   */
  function KochCurve(order: nat, size: real): seq<Command>
  {
    if order == 0 then [Forward(size)]
    else
      var part := KochCurve(order - 1, Third(size));
      part + [Left(60)] + part + [Right(120)] + part + [Left(60)] + part
  }

  /** An order-`n` curve issues exactly 2 * 4^n - 1 commands. */
  lemma {:induction false} CurveLength(n: nat, size: real)
    ensures |KochCurve(n, size)| == 2 * Pow(4, n) - 1
  {
    if n > 0 {
      CurveLength(n - 1, Third(size));
    }
  }

  /** Order 0 is a single stroke of the full length and no turn. */
  lemma OrderZero(size: real)
    ensures KochCurve(0, size) == [Forward(size)]
    ensures Forwards(KochCurve(0, size)) == 1 && Turns(KochCurve(0, size)) == 0
  {
  }

  /** The order-1 curve of length 90: four strokes of 30 with the turns left 60, right 120, left 60. */
  lemma OrderOneOfNinety()
    ensures KochCurve(1, 90.0) ==
      [Forward(30.0), Left(60), Forward(30.0), Right(120), Forward(30.0), Left(60), Forward(30.0)]
  {
  }

  /** An order `n + 1` curve is made of four order-`n` curves of a third of the size, in this order. */
  lemma Decomposition(n: nat, size: real)
    ensures var part := KochCurve(n, Third(size));
      KochCurve(n + 1, size) == part + [Left(60)] + part + [Right(120)] + part + [Left(60)] + part
  {
  }

  /** An order-`n` curve makes exactly 4^n strokes. */
  lemma {:induction false} ForwardCount(n: nat, size: real)
    ensures Forwards(KochCurve(n, size)) == Pow(4, n)
  {
    if n > 0 {
      var p := KochCurve(n - 1, Third(size));
      ForwardCount(n - 1, Third(size));
      ForwardsAppend(p, [Left(60)]);
      ForwardsAppend(p + [Left(60)], p);
      ForwardsAppend(p + [Left(60)] + p, [Right(120)]);
      ForwardsAppend(p + [Left(60)] + p + [Right(120)], p);
      ForwardsAppend(p + [Left(60)] + p + [Right(120)] + p, [Left(60)]);
      ForwardsAppend(p + [Left(60)] + p + [Right(120)] + p + [Left(60)], p);
    }
  }

  /** An order-`n` curve makes exactly 4^n - 1 turns. */
  lemma {:induction false} TurnCount(n: nat, size: real)
    ensures Turns(KochCurve(n, size)) == Pow(4, n) - 1
  {
    if n > 0 {
      var p := KochCurve(n - 1, Third(size));
      TurnCount(n - 1, Third(size));
      TurnsAppend(p, [Left(60)]);
      TurnsAppend(p + [Left(60)], p);
      TurnsAppend(p + [Left(60)] + p, [Right(120)]);
      TurnsAppend(p + [Left(60)] + p + [Right(120)], p);
      TurnsAppend(p + [Left(60)] + p + [Right(120)] + p, [Left(60)]);
      TurnsAppend(p + [Left(60)] + p + [Right(120)] + p + [Left(60)], p);
    }
  }

  /** A curve leaves the heading where it found it: its turns sum to 0 degrees. */
  lemma {:induction false} NetTurnZero(n: nat, size: real)
    ensures NetTurn(KochCurve(n, size)) == 0
  {
    if n > 0 {
      var p := KochCurve(n - 1, Third(size));
      NetTurnZero(n - 1, Third(size));
      NetTurnAppend(p, [Left(60)]);
      NetTurnAppend(p + [Left(60)], p);
      NetTurnAppend(p + [Left(60)] + p, [Right(120)]);
      NetTurnAppend(p + [Left(60)] + p + [Right(120)], p);
      NetTurnAppend(p + [Left(60)] + p + [Right(120)] + p, [Left(60)]);
      NetTurnAppend(p + [Left(60)] + p + [Right(120)] + p + [Left(60)], p);
    }
  }

  /** Every stroke of an order-`n` curve of length `size` has length size / 3^n. */
  lemma {:induction false} StrokeLength(n: nat, size: real)
    ensures forall c :: c in KochCurve(n, size) && c.Forward? ==> c.distance == size / Pow3(n)
  {
    if n > 0 {
      var p := KochCurve(n - 1, Third(size));
      StrokeLength(n - 1, Third(size));
      ThirdOfThird(size, n);
      forall c | c in KochCurve(n, size) && c.Forward?
        ensures c.distance == size / Pow3(n)
      {
        assert c in p;
      }
    }
  }

  /** A third of the size, divided by 3^(n-1), is the size divided by 3^n. */
  lemma ThirdOfThird(size: real, n: nat)
    requires n > 0
    ensures size / 3.0 / Pow3(n - 1) == size / Pow3(n)
  {
    var q := Pow3(n - 1);
    assert Pow3(n) == 3.0 * q;
    assert size / 3.0 / q == size / (3.0 * q);
  }

  /** A curve only moves forward and turns by left 60 or right 120: it never lifts the pen or jumps. */
  lemma {:induction false} CurveAlphabet(n: nat, size: real)
    ensures forall c :: c in KochCurve(n, size) ==> c.Forward? || c == Left(60) || c == Right(120)
  {
    if n > 0 {
      CurveAlphabet(n - 1, Third(size));
    }
  }

  /** Strokes sit at the even positions and only there. */
  predicate Alternates(s: seq<Command>)
  {
    forall i :: 0 <= i < |s| ==> (s[i].Forward? <==> i % 2 == 0)
  }

  /** Joining two alternating traces with a turn keeps them alternating when the first has odd length. */
  lemma AlternatesJoin(a: seq<Command>, t: Command, b: seq<Command>)
    requires Alternates(a) && Alternates(b) && |a| % 2 == 1 && !t.Forward?
    ensures Alternates(a + [t] + b)
  {
    var r := a + [t] + b;
    var k := |a| + 1;
    assert forall i :: 0 <= i < |a| ==> r[i] == a[i];
    assert r[|a|] == t;
    assert forall i :: k <= i < |r| ==> r[i] == b[i - k];
    assert forall i :: k <= i < |r| ==> (i - k) % 2 == i % 2;
  }

  /** Strokes and turns alternate: position i holds a stroke exactly when i is even. */
  lemma {:induction false} StrokesAlternateWithTurns(n: nat, size: real)
    ensures Alternates(KochCurve(n, size))
  {
    if n > 0 {
      var p := KochCurve(n - 1, Third(size));
      StrokesAlternateWithTurns(n - 1, Third(size));
      assert |p| % 2 == 1 by { CurveLength(n - 1, Third(size)); }
      var q1 := p + [Left(60)] + p;
      assert Alternates(q1) && |q1| % 2 == 1 by {
        AlternatesJoin(p, Left(60), p);
        assert |q1| == |p| + 1 + |p|;
      }
      var q2 := q1 + [Right(120)] + p;
      assert Alternates(q2) && |q2| % 2 == 1 by {
        AlternatesJoin(q1, Right(120), p);
        assert |q2| == |q1| + 1 + |p|;
      }
      var q3 := q2 + [Left(60)] + p;
      assert Alternates(q3) by { AlternatesJoin(q2, Left(60), p); }
      assert KochCurve(n, size) == q3;
    }
  }

  // ---------------------------------------------------------------------
  // The snowflake
  // ---------------------------------------------------------------------

  /** `s` repeated `k` times. */
  function Repeat(s: seq<Command>, k: nat): seq<Command>
  {
    if k == 0 then [] else Repeat(s, k - 1) + s
  }

  /** One side of the snowflake: a curve followed by a right turn of 120 degrees. */
  function Side(order: nat, size: real): (r: seq<Command>)
    ensures Forwards(r) == Pow(4, order) && Turns(r) == Pow(4, order)
    ensures NetTurn(r) == -120 && r[|r| - 1] == Right(120)
  {
    var c := KochCurve(order, size);
    ForwardCount(order, size);
    TurnCount(order, size);
    NetTurnZero(order, size);
    ForwardsAppend(c, [Right(120)]);
    TurnsAppend(c, [Right(120)]);
    NetTurnAppend(c, [Right(120)]);
    c + [Right(120)]
  }

  /** The outline: three sides, one after the other. */
  function Snowflake(order: nat, size: real): (r: seq<Command>)
    ensures var s := Side(order, size); r == s + s + s
    ensures |r| == 6 * Pow(4, order)
  {
    var s := Side(order, size);
    CurveLength(order, size);
    assert Repeat(s, 1) == s by { assert [] + s == s; }
    assert Repeat(s, 2) == s + s;
    Repeat(s, 3)
  }

  /** Lift the pen, move to (-size/2, size/3), lower the pen: no stroke and no turn, and the pen ends down. */
  function Setup(size: real): (r: seq<Command>)
    ensures |r| == 3 && r[0] == PenUp && r[2] == PenDown
    ensures Forwards(r) == 0 && Turns(r) == 0 && NetTurn(r) == 0
  {
    var r := [PenUp, GoTo(-size / 2.0, size / 3.0), PenDown];
    assert r[1..][1..] == [PenDown] && r[1..][1..][1..] == [];
    assert Forwards(r[1..][1..]) == 0 && Turns(r[1..][1..]) == 0 && NetTurn(r[1..][1..]) == 0;
    assert Forwards(r[1..]) == 0 && Turns(r[1..]) == 0 && NetTurn(r[1..]) == 0;
    r
  }

  /** With the default size 300 the drawing starts at (-150, 100). */
  lemma StartOfDefaultSize()
    ensures Setup(300.0) == [PenUp, GoTo(-150.0, 100.0), PenDown]
  {
  }

  /** A snowflake makes 3 * 4^n strokes, 3 * 4^n turns, and turns -360 degrees in all. */
  lemma SnowflakeCounts(n: nat, size: real)
    ensures Forwards(Snowflake(n, size)) == 3 * Pow(4, n)
    ensures Turns(Snowflake(n, size)) == 3 * Pow(4, n)
    ensures NetTurn(Snowflake(n, size)) == -360
  {
    var s := Side(n, size);
    ForwardsAppend(s, s);
    ForwardsAppend(s + s, s);
    TurnsAppend(s, s);
    TurnsAppend(s + s, s);
    NetTurnAppend(s, s);
    NetTurnAppend(s + s, s);
  }

  /** At order 0 the snowflake is a triangle: three strokes. */
  lemma TriangleAtOrderZero(size: real)
    ensures Snowflake(0, size) ==
      [Forward(size), Right(120), Forward(size), Right(120), Forward(size), Right(120)]
  {
    var s := Side(0, size);
    assert Repeat(s, 1) == s by { assert [] + s == s; }
    assert Repeat(s, 2) == s + s;
  }

  /**
   One step of `DrawKochCurve`: a trace that extends `before` by `done`, then
   receives `piece`, extends `before` by `done + piece`.
   */
  lemma Extended(before: seq<Command>, done: seq<Command>, now: seq<Command>,
                 piece: seq<Command>, after: seq<Command>)
    requires now == before + done && after == now + piece
    ensures after == before + (done + piece)
  {
  }


  // ---------------------------------------------------------------------
  // The turtle and the drawing procedures
  // ---------------------------------------------------------------------

  /** The drawing cursor, seen only through the commands given to it. */
  class Turtle {
    var trace: seq<Command>

    constructor ()
      ensures trace == []
    {
      trace := [];
    }

    method Forward(distance: real)
      modifies this
      ensures trace == old(trace) + [Command.Forward(distance)]
    {
      trace := trace + [Command.Forward(distance)];
    }

    method Left(degrees: int)
      modifies this
      ensures trace == old(trace) + [Command.Left(degrees)]
    {
      trace := trace + [Command.Left(degrees)];
    }

    method Right(degrees: int)
      modifies this
      ensures trace == old(trace) + [Command.Right(degrees)]
    {
      trace := trace + [Command.Right(degrees)];
    }

    method PenUp()
      modifies this
      ensures trace == old(trace) + [Command.PenUp]
    {
      trace := trace + [Command.PenUp];
    }

    method PenDown()
      modifies this
      ensures trace == old(trace) + [Command.PenDown]
    {
      trace := trace + [Command.PenDown];
    }

    method GoTo(x: real, y: real)
      modifies this
      ensures trace == old(trace) + [Command.GoTo(x, y)]
    {
      trace := trace + [Command.GoTo(x, y)];
    }
  }

  /** `koch_curve(t, order, size)`: drives the turtle through the commands of `KochCurve`. */
  method DrawKochCurve(t: Turtle, order: nat, size: real)
    modifies t
    ensures t.trace == old(t.trace) + KochCurve(order, size)
  {
    if order == 0 {
      t.Forward(size);
    } else {
      var third := Third(size);
      ghost var p := KochCurve(order - 1, third);
      ghost var before := t.trace;
      DrawKochCurve(t, order - 1, third);
      ghost var now := t.trace;
      t.Left(60);
      Extended(before, p, now, [Left(60)], t.trace);
      now := t.trace;
      DrawKochCurve(t, order - 1, third);
      Extended(before, p + [Left(60)], now, p, t.trace);
      now := t.trace;
      t.Right(120);
      Extended(before, p + [Left(60)] + p, now, [Right(120)], t.trace);
      now := t.trace;
      DrawKochCurve(t, order - 1, third);
      Extended(before, p + [Left(60)] + p + [Right(120)], now, p, t.trace);
      now := t.trace;
      t.Left(60);
      Extended(before, p + [Left(60)] + p + [Right(120)] + p, now, [Left(60)], t.trace);
      now := t.trace;
      DrawKochCurve(t, order - 1, third);
      Extended(before, p + [Left(60)] + p + [Right(120)] + p + [Left(60)], now, p, t.trace);
    }
  }

  /**
   `draw_koch_snowflake(order, size)`: a fresh turtle is positioned and then
   draws three curves, each followed by a right turn of 120 degrees. The
   result is everything that turtle was told to do.
   */
  method DrawKochSnowflake(order: nat, size: real) returns (trace: seq<Command>)
    ensures trace == Setup(size) + Snowflake(order, size)
    ensures Forwards(trace) == 3 * Pow(4, order)
    ensures NetTurn(trace) == -360
  {
    var t := new Turtle();
    t.PenUp();
    t.GoTo(-size / 2.0, size / 3.0);
    t.PenDown();
    for i := 0 to 3
      invariant t.trace == Setup(size) + Repeat(Side(order, size), i)
    {
      DrawKochCurve(t, order, size);
      t.Right(120);
    }
    trace := t.trace;
    SnowflakeCounts(order, size);
    ForwardsAppend(Setup(size), Snowflake(order, size));
    NetTurnAppend(Setup(size), Snowflake(order, size));
  }

  // ---------------------------------------------------------------------
  // Choosing the order from the console line
  // ---------------------------------------------------------------------

  /** The outcome of `int(line)`, which is not modelled: either a value or a `ValueError`. */
  datatype IntParse = Parsed(value: int) | ValueError

  /** What the program tells the user, by kind (the wording is not modelled). */
  datatype Notice = DefaultedToZero | NegativeOrder | NotAnInteger

  /** What one run of `main` does: the notices it prints and the orders it draws with. */
  datatype Session = Session(notices: seq<Notice>, drawn: seq<nat>)

  /**
   The characters Python counts as whitespace (`str.isspace`), which
   `str.strip()` removes: tab to carriage return, the information separators
   0x1C-0x1F, space, next line, no-break space and the Unicode spaces and
   line and paragraph separators.
   */
  predicate IsSpace(c: char)
  {
    || (9 <= c as int <= 13) || (28 <= c as int <= 32)
    || c as int == 0x85 || c as int == 0xA0 || c as int == 0x1680
    || (0x2000 <= c as int <= 0x200A) || c as int == 0x2028 || c as int == 0x2029
    || c as int == 0x202F || c as int == 0x205F || c as int == 0x3000
  }

  /** `s` without its leading whitespace. */
  function StripStart(s: string): (r: string)
    ensures r == [] <==> forall i :: 0 <= i < |s| ==> IsSpace(s[i])
    ensures r != [] ==> !IsSpace(r[0])
    decreases |s|
  {
    if s != [] && IsSpace(s[0]) then
      var r := StripStart(s[1..]);
      assert forall i :: 1 <= i < |s| ==> s[i] == s[1..][i - 1];
      r
    else s
  }

  /** `s` without its trailing whitespace. */
  function StripEnd(s: string): (r: string)
    ensures r == [] <==> forall i :: 0 <= i < |s| ==> IsSpace(s[i])
    decreases |s|
  {
    if s != [] && IsSpace(s[|s| - 1]) then
      var r := StripEnd(s[..|s| - 1]);
      assert forall i :: 0 <= i < |s| - 1 ==> s[i] == s[..|s| - 1][i];
      r
    else s
  }

  /** `str.strip()` with no argument: leading and trailing whitespace removed. */
  function Strip(s: string): string
  {
    StripEnd(StripStart(s))
  }

  /** `not line.strip()`: the stripped line is empty exactly when every character is whitespace. */
  function IsBlank(line: string): (blank: bool)
    ensures blank <==> forall i :: 0 <= i < |line| ==> IsSpace(line[i])
  {
    var t := StripStart(line);
    assert t != [] ==> !IsSpace(t[0]);
    Strip(line) == []
  }

  /**
   `main`'s choice: a blank line selects order 0 with a notice; otherwise the
   line is parsed, a parse failure and a negative value are reported, and a
   non-negative value is drawn with. `parse` is what `int(line)` gives and is
   only consulted for a non-blank line.
   */
  function RunSession(line: string, parse: IntParse): (s: Session)
    ensures |s.drawn| <= 1 && |s.notices| <= 1
    ensures IsBlank(line) ==> s == Session([DefaultedToZero], [0])
    ensures !IsBlank(line) && parse.Parsed? && parse.value >= 0 ==> s == Session([], [parse.value])
    ensures s.drawn == [] <==> !IsBlank(line) && (parse.ValueError? || parse.value < 0)
    ensures NotAnInteger in s.notices <==> !IsBlank(line) && parse.ValueError?
    ensures NegativeOrder in s.notices <==> !IsBlank(line) && parse.Parsed? && parse.value < 0
  {
    if IsBlank(line) then Session([DefaultedToZero], [0])
    else match parse
      case ValueError => Session([NotAnInteger], [])
      case Parsed(k) => if k < 0 then Session([NegativeOrder], []) else Session([], [k])
  }

  /** The three-space line of the tests draws with order 0; "-5" draws nothing. */
  lemma SessionExamples()
    ensures RunSession("   ", ValueError) == Session([DefaultedToZero], [0])
    ensures RunSession("2", Parsed(2)).drawn == [2]
    ensures RunSession("-5", Parsed(-5)).drawn == []
    ensures RunSession("abc", ValueError).drawn == []
  {
    assert !IsSpace("2"[0]) && !IsSpace("-5"[0]) && !IsSpace("abc"[0]);
  }

  /** An information separator such as 0x1C is stripped like a space, so a line of it draws with order 0. */
  lemma SeparatorIsBlank()
    ensures IsBlank([28 as char])
    ensures RunSession([28 as char], ValueError) == Session([DefaultedToZero], [0])
  {
  }
}
