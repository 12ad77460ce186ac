/**
  * What one token does to a calculator session, stated as a function: the
  * specification that MyStack.Push is proved against.
  *
  * A session holds the operand stack (bottom first), the history of whole-stack
  * snapshots (oldest first) and the position of the next token: its 1-based
  * character offset in the space-separated input, which advances by the
  * token's length and one separating space after every token.
  */
module Engine {
  import opened Wrappers
  import opened Numerals
  import opened Rendering
  import opened Operators
  import opened Errors

  /** What a token asks for. */
  datatype Command = Number(value: real) | Apply(operator: Operator) | Clear | Undo | Invalid

  function Classify(token: string): (c: Command)
    ensures c == Clear <==> token == "clear"
    ensures c == Undo <==> token == "undo"
    ensures c.Apply? ==> Lookup(token) == Some(c.operator)
    ensures c.Number? ==> ParseNumber(token) == Some(c.value)
    ensures c.Invalid? <==>
      token != "clear" && token != "undo" && Lookup(token).None? && ParseNumber(token).None?
  {
    if token == "clear" then Clear
    else if token == "undo" then Undo
    else match Lookup(token)
      case Some(o) => Apply(o)
      case None =>
        match ParseNumber(token)
        case Some(v) => Number(v)
        case None => Invalid
  }

  /** Operator symbols and command words are never numbers, so the order in
      which Classify tries them does not matter. */
  lemma NumbersAreNumbers(token: string, v: real)
    requires ParseNumber(token) == Some(v)
    ensures Classify(token) == Number(v)
  {
    WriteRead(token);
    LiteralStart(ReadLiteral(token).value);
  }

  datatype Outcome = Done | Failed(error: Error)

  datatype Session = Session(stack: seq<real>, history: seq<seq<real>>, position: nat)

  /** A fresh calculator: empty stack, empty history, first token at offset 1. */
  const Initial: Session := Session([], [], 1)

  datatype Step = Step(session: Session, outcome: Outcome)

  /** The position after token. */
  function Advance(s: Session, token: string): nat {
    s.position + |token| + 1
  }

  /** The effect of one token. A failed token changes nothing but the position;
      every successful token except undo first saves the stack it replaces. */
  function Process(s: Session, token: string): Step {
    var next := Advance(s, token);
    match Classify(token)
    case Clear =>
      Step(Session([], s.history + [s.stack], next), Done)
    case Undo =>
      if s.history == [] then Step(s.(position := next), Done)
      else Step(Session(s.history[|s.history| - 1], s.history[..|s.history| - 1], next), Done)
    case Apply(o) =>
      var n := |s.stack|;
      if n < Arity(o) then
        Step(s.(position := next), Failed(InsufficientParameter(token, s.position)))
      else
        (match Evaluate(o, s.stack[n - Arity(o)..])
         case None => Step(s.(position := next), Failed(UndefinedResult(token, s.position)))
         case Some(v) => Step(Session(s.stack[..n - Arity(o)] + [v], s.history + [s.stack], next), Done))
    case Number(v) =>
      Step(Session(s.stack + [v], s.history + [s.stack], next), Done)
    case Invalid =>
      Step(s.(position := next), Failed(InvalidInput(token)))
  }

  /** The session after each token in turn, failures included. */
  function Run(s: Session, tokens: seq<string>): Session
    decreases |tokens|
  {
    if tokens == [] then s else Run(Process(s, tokens[0]).session, tokens[1..])
  }

  lemma {:induction false} RunAppend(s: Session, a: seq<string>, b: seq<string>)
    ensures Run(s, a + b) == Run(Run(s, a), b)
    decreases |a|
  {
    if a == [] {
      assert a + b == b;
    } else {
      assert (a + b)[1..] == a[1..] + b;
      RunAppend(Process(s, a[0]).session, a[1..], b);
    }
  }

  // ---- the operand stack ----

  /** A numeric literal is pushed as the new top; the previous stack is saved. */
  lemma PushNumber(s: Session, token: string, v: real)
    requires ParseNumber(token) == Some(v)
    ensures Process(s, token) == Step(Session(s.stack + [v], s.history + [s.stack], Advance(s, token)), Done)
  {
    NumbersAreNumbers(token, v);
  }

  /** Pushing literals appends their values to the stack in order. */
  lemma {:induction false} PushNumbers(s: Session, tokens: seq<string>, values: seq<real>)
    requires |tokens| == |values|
    requires forall i :: 0 <= i < |tokens| ==> ParseNumber(tokens[i]) == Some(values[i])
    ensures Run(s, tokens).stack == s.stack + values
    decreases |tokens|
  {
    if tokens == [] {
      assert s.stack + [] == s.stack;
    } else {
      var v := values[0];
      PushNumber(s, tokens[0], v);
      var rest, more := tokens[1..], values[1..];
      assert forall i :: 0 <= i < |rest| ==> rest[i] == tokens[i + 1] && more[i] == values[i + 1];
      PushNumbers(Process(s, tokens[0]).session, rest, more);
      AppendFirst(s.stack, values);
    }
  }

  lemma AppendFirst(a: seq<real>, b: seq<real>)
    requires b != []
    ensures (a + [b[0]]) + b[1..] == a + b
  {
    assert [b[0]] + b[1..] == b;
  }

  /** The canonical numerals of whole numbers, as tokens. */
  function Literals(ns: seq<nat>): seq<string> {
    seq(|ns|, i requires 0 <= i < |ns| => NatToString(ns[i]))
  }

  /** From a fresh calculator, pushing the numerals of whole numbers renders
      exactly those tokens, bottom to top, separated by single spaces. */
  lemma RenderNumerals(ns: seq<nat>)
    ensures Render(Run(Initial, Literals(ns)).stack) == Join(Literals(ns))
  {
    var tokens := Literals(ns);
    forall i | 0 <= i < |tokens|
      ensures ParseNumber(tokens[i]) == Some(ns[i] as real)
      ensures Format(ns[i] as real) == tokens[i]
    {
      NatToStringValue(ns[i]);
      ParseDigits(NatToString(ns[i]));
      FormatNatural(ns[i]);
    }
    var values := seq(|ns|, i requires 0 <= i < |ns| => ns[i] as real);
    PushNumbers(Initial, tokens, values);
    assert [] + values == values;
    assert Words(values) == tokens;
  }

  /** clear empties the stack whatever its depth, saving what it held. */
  lemma ClearEmpties(s: Session)
    ensures Process(s, "clear") == Step(Session([], s.history + [s.stack], Advance(s, "clear")), Done)
    ensures Render(Process(s, "clear").session.stack) == ""
  {
  }

  /** A binary operator with two operands replaces the top two values by
      (second from top) op (top) and leaves every deeper value in place. */
  lemma BinaryOperator(s: Session, token: string, op: BinaryOp)
    requires Lookup(token) == Some(Binary(op)) && |s.stack| >= 2
    requires op == Divide ==> s.stack[|s.stack| - 1] != 0.0
    ensures var n := |s.stack|; var r := Process(s, token);
      r.outcome == Done &&
      r.session.stack == s.stack[..n - 2] + [Combine(op, s.stack[n - 2], s.stack[n - 1])] &&
      r.session.history == s.history + [s.stack] &&
      r.session.position == Advance(s, token) &&
      forall i :: 0 <= i < n - 2 ==> r.session.stack[i] == s.stack[i]
  {
    var n := |s.stack|;
    assert s.stack[n - 2..] == [s.stack[n - 2], s.stack[n - 1]];
  }

  /** sqrt replaces only the top value, by its root. */
  lemma SquareRootOperator(s: Session)
    requires |s.stack| >= 1 && s.stack[|s.stack| - 1] >= 0.0
    ensures var n := |s.stack|; var r := Process(s, "sqrt");
      r.outcome == Done &&
      r.session.stack == s.stack[..n - 1] + [Root(s.stack[n - 1])] &&
      r.session.history == s.history + [s.stack] &&
      r.session.position == Advance(s, "sqrt")
  {
    var n := |s.stack|;
    assert s.stack[n - 1..] == [s.stack[n - 1]];
  }

  // ---- errors ----

  /** An operator with too few operands fails with its symbol and position,
      and the stack and history stay exactly as they were. */
  lemma InsufficientOperands(s: Session, token: string, o: Operator)
    requires Lookup(token) == Some(o) && |s.stack| < Arity(o)
    ensures Process(s, token) ==
      Step(s.(position := Advance(s, token)), Failed(InsufficientParameter(token, s.position)))
  {
  }

  /** An operator whose operands are outside its domain, a zero divisor or a
      negative radicand, fails with its symbol and position, and the stack and
      history stay exactly as they were. */
  lemma UndefinedOperands(s: Session, token: string, o: Operator)
    requires Lookup(token) == Some(o) && |s.stack| >= Arity(o)
    requires var top := s.stack[|s.stack| - 1];
      (o == Binary(Divide) && top == 0.0) || (o == SquareRoot && top < 0.0)
    ensures Process(s, token) ==
      Step(s.(position := Advance(s, token)), Failed(UndefinedResult(token, s.position)))
  {
    var n := |s.stack|;
    assert s.stack[n - Arity(o)..][Arity(o) - 1] == s.stack[n - 1];
  }

  /** A token that is no number, operator or command fails, naming the token,
      and changes nothing but the position. */
  lemma InvalidToken(s: Session, token: string)
    requires token != "clear" && token != "undo" && Lookup(token).None? && ParseNumber(token).None?
    ensures Process(s, token) == Step(s.(position := Advance(s, token)), Failed(InvalidInput(token)))
  {
  }

  /** Every token is all or nothing: it fails and leaves stack and history
      untouched, or it succeeds; and only undo succeeds without saving the
      stack it replaces. */
  lemma AllOrNothing(s: Session, token: string)
    ensures var r := Process(s, token);
      r.session.position == Advance(s, token) &&
      (r.outcome.Failed? ==> r.session.stack == s.stack && r.session.history == s.history) &&
      (r.outcome == Done && token != "undo" ==> r.session.history == s.history + [s.stack])
  {
  }

  // ---- undo ----

  /** undo puts back the most recent snapshot and forgets it. */
  lemma UndoRestores(s: Session, older: seq<seq<real>>, saved: seq<real>)
    requires s.history == older + [saved]
    ensures var r := Process(s, "undo");
      r.outcome == Done && r.session.stack == saved && r.session.history == older
  {
  }

  /** undo reverts the effect of the most recent successful token. */
  lemma UndoReverts(s: Session, token: string)
    requires token != "undo" && Process(s, token).outcome == Done
    ensures var r := Process(Process(s, token).session, "undo").session;
      r.stack == s.stack && r.history == s.history
  {
    AllOrNothing(s, token);
    UndoRestores(Process(s, token).session, s.history, s.stack);
  }

  /** Each token succeeds in turn and none of them is undo. */
  predicate Succeeds(s: Session, tokens: seq<string>)
    decreases |tokens|
  {
    tokens == [] ||
    (tokens[0] != "undo" && Process(s, tokens[0]).outcome == Done &&
     Succeeds(Process(s, tokens[0]).session, tokens[1..]))
  }

  function Undos(n: nat): (u: seq<string>)
    ensures |u| == n && forall i :: 0 <= i < n ==> u[i] == "undo"
  {
    if n == 0 then [] else Undos(n - 1) + ["undo"]
  }

  /** As many undos as successful tokens step back one token each, since undo
      itself is never saved: they restore the stack and the history. */
  lemma {:induction false} UndoSteps(s: Session, tokens: seq<string>)
    requires Succeeds(s, tokens)
    ensures Run(s, tokens + Undos(|tokens|)).stack == s.stack
    ensures Run(s, tokens + Undos(|tokens|)).history == s.history
    decreases |tokens|
  {
    if tokens == [] {
      assert tokens + Undos(0) == [];
    } else {
      var n := |tokens| - 1;
      var first := Process(s, tokens[0]).session;
      var rest := tokens[1..];
      assert (tokens + Undos(n + 1))[1..] == (rest + Undos(n)) + ["undo"];
      RunAppend(first, rest + Undos(n), ["undo"]);
      UndoSteps(first, rest);
      var mid := Run(first, rest + Undos(n));
      AllOrNothing(s, tokens[0]);
      UndoRestores(mid, s.history, s.stack);
    }
  }

  // ---- positions ----

  /** The characters the tokens take up, each with its separating space. */
  function Width(tokens: seq<string>): nat {
    if tokens == [] then 0 else |tokens[0]| + 1 + Width(tokens[1..])
  }

  lemma {:induction false} RunPosition(s: Session, tokens: seq<string>)
    ensures Run(s, tokens).position == s.position + Width(tokens)
    decreases |tokens|
  {
    if tokens != [] {
      AllOrNothing(s, tokens[0]);
      RunPosition(Process(s, tokens[0]).session, tokens[1..]);
    }
  }

  /** For single-character tokens, the k-th token (from 0) of a fresh session
      is reported at position 2k + 1, failed tokens counted. */
  lemma {:induction false} SingleCharacterPositions(tokens: seq<string>, k: nat)
    requires forall i :: 0 <= i < |tokens| ==> |tokens[i]| == 1
    requires k <= |tokens|
    ensures Run(Initial, tokens[..k]).position == 2 * k + 1
  {
    RunPosition(Initial, tokens[..k]);
    WidthOfSingles(tokens[..k]);
  }

  lemma {:induction false} WidthOfSingles(tokens: seq<string>)
    requires forall i :: 0 <= i < |tokens| ==> |tokens[i]| == 1
    ensures Width(tokens) == 2 * |tokens|
    decreases |tokens|
  {
    if tokens != [] {
      WidthOfSingles(tokens[1..]);
    }
  }
}
