/**
  * The behaviour the calculator's unit tests check: each test is a method
  * that drives a fresh MyStack token by token and returns what the test
  * inspects (the rendered stack, the error raised and its message). The
  * lemmas beside them say what each kind of token does and work out the
  * displays and the roots these tests use.
  */
module DomainTest {
  import opened Wrappers
  import opened Numerals
  import opened Rendering
  import opened Operators
  import opened Errors
  import opened Engine
  import opened Repository
  import opened Domain

  /** A MyStack over an empty stack and an empty history. */
  method NewStack() returns (m: MyStack)
    ensures fresh(m) && fresh(m.history) && m.State() == Initial
  {
    var history := new StackHistoryRepo();
    m := new MyStack([], history);
  }

  // ---- the tokens the tests use ----

  /** The numeral of a whole number pushes that number. */
  lemma Numeral(s: Session, token: string, n: nat)
    requires token == NatToString(n)
    ensures Process(s, token) ==
      Step(Session(s.stack + [n as real], s.history + [s.stack], Advance(s, token)), Done)
  {
    NatToStringValue(n);
    ParseDigits(token);
    PushNumber(s, token, n as real);
  }

  // ---- displays and roots ----

  /** Shifting a positive number by k places appends k zeros to its numeral. */
  lemma {:induction false} NatToStringShift(n: nat, k: nat)
    requires n > 0
    ensures NatToString(n * Pow10(k)) == NatToString(n) + Zeros(k)
  {
    if k == 0 {
      assert NatToString(n) + Zeros(0) == NatToString(n);
    } else {
      var m := n * Pow10(k - 1);
      NatToStringShift(n, k - 1);
      TimesTen(n, Pow10(k - 1));
      assert n * Pow10(k) == 10 * m;
      TimesTenNumeral(m);
      assert NatToString(n) + Zeros(k) == (NatToString(n) + Zeros(k - 1)) + ['0'];
    }
  }

  lemma TimesTenNumeral(m: nat)
    requires m > 0
    ensures NatToString(10 * m) == NatToString(m) + ['0']
  {
    assert (10 * m) / 10 == m && (10 * m) % 10 == 0;
  }

  /** Trailing zeros after a last digit other than zero are all stripped. */
  lemma {:induction false} StripZerosAfter(s: string, k: nat)
    requires s != [] && s[|s| - 1] != '0'
    ensures StripTrailingZeros(s + Zeros(k)) == s
  {
    if k == 0 {
      assert s + Zeros(0) == s;
    } else {
      var t := s + Zeros(k);
      assert t == (s + Zeros(k - 1)) + ['0'];
      assert t[..|t| - 1] == s + Zeros(k - 1);
      StripZerosAfter(s, k - 1);
    }
  }


  /** A stack of whole numbers renders as their numerals. */
  lemma RenderWholes(stack: seq<real>, ns: seq<nat>, words: seq<string>)
    requires |stack| == |ns| == |words|
    requires forall i :: 0 <= i < |ns| ==> stack[i] == ns[i] as real && words[i] == NatToString(ns[i])
    ensures Render(stack) == Join(words)
  {
    forall i | 0 <= i < |ns|
      ensures Format(stack[i]) == words[i]
    {
      FormatNatural(ns[i]);
    }
    assert Words(stack) == words;
  }

  /** A value of w whole units and 0 < f < Scale units of 10^-10 displays as
      the numeral of w, a point and the significant digits of f. */
  lemma FractionDisplay(v: real, w: nat, f: nat)
    requires 0 < f < Scale
    requires v == (w * Scale + f) as real / 10_000_000_000.0
    ensures Format(v) == NatToString(w) + ("." + SignificantFraction(f))
  {
    ScaleAsReal();
    var t := w * Scale + f;
    assert v * Scale as real == t as real;
    assert Truncated(v) == t;
    assert t / Scale == w && t % Scale == f;
    SignificantFractionValue(f);
    assert "" + (NatToString(w) + ("." + SignificantFraction(f))) ==
      NatToString(w) + ("." + SignificantFraction(f));
  }

  /** Half a unit is five tenths. */
  lemma HalfFraction()
    ensures SignificantFraction(5_000_000_000) == "5"
  {
    assert Pow10(9) == 1_000_000_000;
    Tenths(5);
  }

  /** d tenths are written as the single digit d. */
  lemma Tenths(d: nat)
    requires 0 < d < 10
    ensures d * Pow10(FractionDigits - 1) < Scale &&
      SignificantFraction(d * Pow10(FractionDigits - 1)) == [DigitChar(d)]
  {
    var k := FractionDigits - 1;
    NatToStringShift(d, k);
    ScaleIsPow10();
    assert d * Pow10(k) < Scale;
    StripZerosAfter([DigitChar(d)], k);
  }

  /** n units of 10^-10 are the root of x when n^2 <= x * 10^20 < (n + 1)^2. */
  lemma RootFromUnits(x: real, n: nat)
    requires x >= 0.0
    requires n * n <= (x * 100_000_000_000_000_000_000.0).Floor < (n + 1) * (n + 1)
    ensures Root(x) == n as real / 10_000_000_000.0
  {
    IntSqrtUnique((x * 100_000_000_000_000_000_000.0).Floor, n);
  }

  /** The root of 2 to ten places, and of 4 exactly. */
  lemma RootOfTwo()
    ensures Root(2.0) == 1.414_213_562_3
  {
    RootFromUnits(2.0, 14_142_135_623);
  }

  lemma RootOfFour()
    ensures Root(4.0) == 2.0
  {
    RootFromUnits(4.0, 20_000_000_000);
  }

  /** One more digit after a positive number's numeral. */
  lemma AppendDigit(m: nat, d: nat, s: string)
    requires m > 0 && d < 10 && NatToString(m) == s
    ensures NatToString(10 * m + d) == s + [DigitChar(d)]
  {
    assert (10 * m + d) / 10 == m && (10 * m + d) % 10 == d;
  }

  /** The ten places of the root of 2, digit by digit. */
  lemma RootFraction()
    ensures SignificantFraction(4_142_135_623) == "4142135623"
  {
    AppendDigit(4, 1, "4");
    AppendDigit(41, 4, "41");
    AppendDigit(414, 2, "414");
    AppendDigit(4142, 1, "4142");
    AppendDigit(41421, 3, "41421");
    AppendDigit(414213, 5, "414213");
    AppendDigit(4142135, 6, "4142135");
    AppendDigit(41421356, 2, "41421356");
    AppendDigit(414213562, 3, "414213562");
  }

  lemma RootDisplay(v: real)
    requires v == 1.414_213_562_3
    ensures Format(v) == "1.4142135623"
  {
    assert SignificantFraction(4_142_135_623) == "4142135623" by { RootFraction(); }
    FractionDisplay(v, 1, 4_142_135_623);
    RootText();
  }

  lemma RootText()
    ensures NatToString(1) + ("." + "4142135623") == "1.4142135623"
  {
  }

  lemma HalfTexts()
    ensures NatToString(2) + ("." + "5") == "2.5"
    ensures NatToString(10) + ("." + "5") == "10.5"
  {
    assert NatToString(10) == "10";
  }

  // ---- one token on a MyStack, by kind ----

  method PushNumeral(m: MyStack, token: string, n: nat) returns (o: Outcome)
    requires token == NatToString(n)
    modifies m, m.history
    ensures o == Done
    ensures m.stack == old(m.stack) + [n as real]
    ensures m.history.snapshots == old(m.history.snapshots) + [old(m.stack)]
    ensures m.position == old(m.position) + |token| + 1
  {
    Numeral(m.State(), token, n);
    o := m.Push(token);
  }

  method PushBinary(m: MyStack, token: string, op: BinaryOp, rest: seq<real>, x: real, y: real)
    returns (o: Outcome)
    requires Lookup(token) == Some(Binary(op)) && m.stack == rest + [x, y]
    requires op == Divide ==> y != 0.0
    modifies m, m.history
    ensures o == Done && m.stack == rest + [Combine(op, x, y)]
    ensures m.history.snapshots == old(m.history.snapshots) + [old(m.stack)]
    ensures m.position == old(m.position) + |token| + 1
  {
    var s := m.State();
    BinaryOperator(s, token, op);
    assert s.stack[..|s.stack| - 2] == rest;
    o := m.Push(token);
  }

  method PushSquareRoot(m: MyStack, rest: seq<real>, x: real) returns (o: Outcome)
    requires m.stack == rest + [x] && x >= 0.0
    modifies m, m.history
    ensures o == Done && m.stack == rest + [Root(x)]
    ensures m.history.snapshots == old(m.history.snapshots) + [old(m.stack)]
    ensures m.position == old(m.position) + 5
  {
    var s := m.State();
    SquareRootOperator(s);
    assert s.stack[..|s.stack| - 1] == rest;
    o := m.Push("sqrt");
  }

  method PushClear(m: MyStack) returns (o: Outcome)
    modifies m, m.history
    ensures o == Done && m.stack == []
    ensures m.history.snapshots == old(m.history.snapshots) + [old(m.stack)]
    ensures m.position == old(m.position) + 6
  {
    ClearEmpties(m.State());
    o := m.Push("clear");
  }

  method PushUndo(m: MyStack, older: seq<seq<real>>, saved: seq<real>) returns (o: Outcome)
    requires m.history.snapshots == older + [saved]
    modifies m, m.history
    ensures o == Done && m.stack == saved && m.history.snapshots == older
    ensures m.position == old(m.position) + 5
  {
    UndoRestores(m.State(), older, saved);
    o := m.Push("undo");
  }

  method PushShort(m: MyStack, token: string, op: Operator) returns (o: Outcome)
    requires Lookup(token) == Some(op) && |m.stack| < Arity(op)
    modifies m, m.history
    ensures o == Failed(InsufficientParameter(token, old(m.position)))
    ensures m.stack == old(m.stack) && m.history.snapshots == old(m.history.snapshots)
  {
    InsufficientOperands(m.State(), token, op);
    o := m.Push(token);
  }

  method PushInvalid(m: MyStack, token: string) returns (o: Outcome)
    requires token != "clear" && token != "undo" && Lookup(token).None? && ParseNumber(token).None?
    modifies m, m.history
    ensures o == Failed(InvalidInput(token))
    ensures m.stack == old(m.stack) && m.history.snapshots == old(m.history.snapshots)
  {
    InvalidToken(m.State(), token);
    o := m.Push(token);
  }

  // ---- the displays and messages the tests compare with ----

  /** A single value displays as its own display. */
  lemma ShowsSingle(stack: seq<real>, v: real, text: string)
    requires stack == [v] && Format(v) == text
    ensures Render(stack) == text
  {
    assert [] + [v] == stack;
    RenderPush([], v);
  }

  /** One more value displays after a space. */
  lemma ShowsPushed(stack: seq<real>, init: seq<real>, v: real, text: string, word: string)
    requires init != [] && stack == init + [v] && Render(init) == text && Format(v) == word
    ensures Render(stack) == text + " " + word
  {
    RenderPush(init, v);
  }

  /** A whole number alone on the stack displays as its numeral. */
  lemma ShowsWhole(stack: seq<real>, n: nat, text: string)
    requires stack == [n as real] && NatToString(n) == text
    ensures Render(stack) == text
  {
    FormatNatural(n);
    ShowsSingle(stack, n as real, text);
  }

  /** Two whole numbers display as their numerals, a space between. */
  lemma ShowsWholes(stack: seq<real>, a: nat, b: nat, text: string)
    requires stack == [a as real, b as real] && NatToString(a) + " " + NatToString(b) == text
    ensures Render(stack) == text
  {
    var init := [a as real];
    assert stack == init + [b as real];
    assert Render(init) == NatToString(a) by { ShowsWhole(init, a, NatToString(a)); }
    assert Format(b as real) == NatToString(b) by { FormatNatural(b); }
    ShowsPushed(stack, init, b as real, NatToString(a), NatToString(b));
  }

  // The display lemmas take the stack as a parameter fixed by `requires`:
  // written on a literal sequence, Render and Format unfold far past what the
  // verifier can afford.
  lemma ShowsFiveFourThree(stack: seq<real>)
    requires stack == [5.0, 4.0, 3.0]
    ensures Render(stack) == "5 4 3"
  {
    assert "5" + " " + "4" + " " + "3" == "5 4 3";
    assert Render(stack) == "5" + " " + "4" + " " + "3" by {
      RenderWholes(stack, [5, 4, 3], ["5", "4", "3"]);
      JoinAppend(["5"], "4");
      JoinAppend(["5", "4"], "3");
    }
  }

  lemma ShowsCounting(stack: seq<real>)
    requires stack == [1.0, 2.0, 3.0, 4.0, 5.0]
    ensures Render(stack) == "1 2 3 4 5"
  {
    assert "1" + " " + "2" + " " + "3" + " " + "4" + " " + "5" == "1 2 3 4 5";
    assert Render(stack) == "1" + " " + "2" + " " + "3" + " " + "4" + " " + "5" by {
      RenderWholes(stack, [1, 2, 3, 4, 5], ["1", "2", "3", "4", "5"]);
      JoinAppend(["1"], "2");
      JoinAppend(["1", "2"], "3");
      JoinAppend(["1", "2", "3"], "4");
      JoinAppend(["1", "2", "3", "4"], "5");
      assert ["1", "2", "3", "4"] + ["5"] == ["1", "2", "3", "4", "5"];
      assert ["1", "2", "3"] + ["4"] == ["1", "2", "3", "4"];
    }
  }

  lemma ShowsCountingProduct(stack: seq<real>)
    requires stack == [1.0, 2.0, 3.0, 20.0]
    ensures Render(stack) == "1 2 3 20"
  {
    assert "1" + " " + "2" + " " + "3" + " " + "20" == "1 2 3 20";
    assert Render(stack) == "1" + " " + "2" + " " + "3" + " " + "20" by {
      RenderWholes(stack, [1, 2, 3, 20], ["1", "2", "3", "20"]);
      JoinAppend(["1"], "2");
      JoinAppend(["1", "2"], "3");
      JoinAppend(["1", "2", "3"], "20");
      assert ["1", "2", "3"] + ["20"] == ["1", "2", "3", "20"];
    }
  }

  /** A negative whole number alone on the stack. */
  lemma ShowsNegated(stack: seq<real>, n: nat)
    requires n > 0 && stack == [-(n as real)]
    ensures Render(stack) == "-" + NatToString(n)
  {
    FormatNegative(n);
    ShowsSingle(stack, -(n as real), "-" + NatToString(n));
  }

  /** Two and a half, and ten and a half, alone on the stack. */
  lemma ShowsTwoAndAHalf(stack: seq<real>)
    requires stack == [2.5]
    ensures Render(stack) == "2.5"
  {
    var v := stack[0];
    assert Format(v) == "2.5" by {
      HalfFraction();
      FractionDisplay(v, 2, 5_000_000_000);
      HalfTexts();
    }
    ShowsSingle(stack, v, "2.5");
  }

  lemma ShowsTenAndAHalf(stack: seq<real>)
    requires stack == [10.5]
    ensures Render(stack) == "10.5"
  {
    var v := stack[0];
    assert Format(v) == "10.5" by {
      HalfFraction();
      FractionDisplay(v, 10, 5_000_000_000);
      HalfTexts();
    }
    ShowsSingle(stack, v, "10.5");
  }

  /** The root of 2, alone and with 2 above it. */
  lemma ShowsRoot(stack: seq<real>)
    requires stack == [1.414_213_562_3]
    ensures Render(stack) == "1.4142135623"
  {
    RootDisplay(stack[0]);
    ShowsSingle(stack, stack[0], "1.4142135623");
  }

  lemma ShowsRootAndTwo(stack: seq<real>)
    requires stack == [1.414_213_562_3, 2.0]
    ensures Render(stack) == "1.4142135623 2"
  {
    var init := stack[..1];
    ShowsRoot(init);
    FormatNatural(2);
    ShowsPushed(stack, init, 2.0, "1.4142135623", "2");
  }

  /** "*" is the binary multiplication, and the messages of its failures at
      positions 1 and 15. */
  lemma MultiplyMessages()
    ensures Lookup("*") == Some(Binary(Multiply)) && Arity(Binary(Multiply)) == 2
    ensures Message(InsufficientParameter("*", 1)) ==
      "operator " + "*" + " (position: " + "1" + "): insufficient parameters"
    ensures Message(InsufficientParameter("*", 15)) ==
      "operator " + "*" + " (position: " + "15" + "): insufficient parameters"
  {
    AppendDigit(1, 5, "1");
  }

  /** "xyz" is no command, operator or number. */
  lemma NotAToken()
    ensures "xyz" != "clear" && "xyz" != "undo" && Lookup("xyz").None? && ParseNumber("xyz").None?
    ensures Message(InvalidInput("xyz")) == "xyz" + " is not a number or an operator"
  {
    assert IndexOfPoint("xyz") == 3;
    assert !IsDigit('x');
  }

  /** What each test compares, stack by stack. */
  lemma PushOperandDisplays(s: seq<real>, t: seq<real>)
    requires s == [5.0] && t == [5.0, 2.0]
    ensures Render(s) == "5" && Render(t) == "5 2"
  {
    ShowsWhole(s, 5, "5");
    ShowsWholes(t, 5, 2, "5 2");
  }

  lemma SubtractionDisplays(s: seq<real>, t: seq<real>)
    requires s == [3.0] && t == [0.0]
    ensures Render(s) == "3" && Render(t) == "0"
  {
    ShowsWhole(s, 3, "3");
    ShowsWhole(t, 0, "0");
  }

  lemma UndoDisplays(s: seq<real>, t: seq<real>)
    requires s == [5.0, 4.0, 3.0] && t == [5.0, 4.0]
    ensures Render(s) == "5 4 3" && Render(t) == "5 4"
  {
    ShowsFiveFourThree(s);
    ShowsWholes(t, 5, 4, "5 4");
  }

  lemma ExampleFourDisplays(s: seq<real>, t: seq<real>, u: seq<real>)
    requires s == [20.0] && t == [100.0] && u == [20.0, 5.0]
    ensures Render(s) == "20" && Render(t) == "100" && Render(u) == "20 5"
  {
    assert NatToString(20) == "20";
    ShowsWhole(s, 20, "20");
    assert NatToString(100) == "100";
    ShowsWhole(t, 100, "100");
    ShowsWholes(u, 20, 5, "20 5");
  }

  lemma ExampleFiveDisplays(s: seq<real>, t: seq<real>, u: seq<real>)
    requires s == [7.0, 6.0] && t == [42.0] && u == [10.5]
    ensures Render(s) == "7 6" && Render(t) == "42" && Render(u) == "10.5"
  {
    ShowsWholes(s, 7, 6, "7 6");
    assert NatToString(42) == "42";
    ShowsWhole(t, 42, "42");
    ShowsTenAndAHalf(u);
  }

  lemma ExampleSixDisplays(s: seq<real>, t: seq<real>, u: seq<real>)
    requires s == [1.0, 2.0, 3.0, 4.0, 5.0] && t == [1.0, 2.0, 3.0, 20.0] && u == [-1.0]
    ensures Render(s) == "1 2 3 4 5" && Render(t) == "1 2 3 20" && Render(u) == "-1"
  {
    ShowsCounting(s);
    ShowsCountingProduct(t);
    ShowsNegated(u, 1);
  }

  lemma ExampleSevenDisplays(s: seq<real>, t: seq<real>)
    requires s == [1.0, 2.0, 3.0, 4.0, 5.0] && t == [120.0]
    ensures Render(s) == "1 2 3 4 5" && Render(t) == "120"
  {
    ShowsCounting(s);
    assert NatToString(120) == "120";
    ShowsWhole(t, 120, "120");
  }

  // ---- the numbers several tests start with ----

  /** Pushes 5, 4, 3 and 2 onto a new calculator. */
  method PushCountdown(m: MyStack)
    requires m.State() == Initial
    modifies m, m.history
    ensures m.stack == [5.0, 4.0, 3.0, 2.0]
    ensures m.history.snapshots == [[], [5.0], [5.0, 4.0], [5.0, 4.0, 3.0]]
    ensures m.position == 9
  {
    var o := PushNumeral(m, "5", 5);
    assert m.stack == [5.0] && m.history.snapshots == [[]];
    o := PushNumeral(m, "4", 4);
    assert m.stack == [5.0, 4.0] && m.history.snapshots == [[], [5.0]];
    o := PushNumeral(m, "3", 3);
    assert m.stack == [5.0, 4.0, 3.0] && m.history.snapshots == [[], [5.0], [5.0, 4.0]];
    o := PushNumeral(m, "2", 2);
  }

  /** Pushes 1 to 5 onto a new calculator. */
  method PushCounting(m: MyStack)
    requires m.State() == Initial
    modifies m, m.history
    ensures m.stack == [1.0, 2.0, 3.0, 4.0, 5.0]
    ensures m.history.snapshots == [[], [1.0], [1.0, 2.0], [1.0, 2.0, 3.0], [1.0, 2.0, 3.0, 4.0]]
    ensures m.position == 11
  {
    var o := PushNumeral(m, "1", 1);
    assert m.stack == [1.0] && m.history.snapshots == [[]];
    o := PushNumeral(m, "2", 2);
    assert m.stack == [1.0, 2.0] && m.history.snapshots == [[], [1.0]];
    o := PushNumeral(m, "3", 3);
    assert m.stack == [1.0, 2.0, 3.0] && m.history.snapshots == [[], [1.0], [1.0, 2.0]];
    o := PushNumeral(m, "4", 4);
    assert m.stack == [1.0, 2.0, 3.0, 4.0] &&
      m.history.snapshots == [[], [1.0], [1.0, 2.0], [1.0, 2.0, 3.0]];
    o := PushNumeral(m, "5", 5);
  }

  /** Pushes 7, 12 and 2 onto a new calculator. */
  method PushSevenTwelveTwo(m: MyStack)
    requires m.State() == Initial
    modifies m, m.history
    ensures m.stack == [7.0, 12.0, 2.0]
    ensures m.history.snapshots == [[], [7.0], [7.0, 12.0]]
    ensures m.position == 8
  {
    var o := PushNumeral(m, "7", 7);
    assert m.stack == [7.0] && m.history.snapshots == [[]];
    assert NatToString(12) == "12";
    o := PushNumeral(m, "12", 12);
    assert m.stack == [7.0, 12.0] && m.history.snapshots == [[], [7.0]];
    o := PushNumeral(m, "2", 2);
  }

  /** Pushes 1, 2, 3 and "*" onto a new calculator. */
  method PushOneTwoThreeTimes(m: MyStack)
    requires m.State() == Initial
    modifies m, m.history
    ensures m.stack == [1.0, 6.0]
    ensures m.history.snapshots == [[], [1.0], [1.0, 2.0], [1.0, 2.0, 3.0]]
    ensures m.position == 9
  {
    var o := PushNumeral(m, "1", 1);
    assert m.stack == [1.0] && m.history.snapshots == [[]];
    o := PushNumeral(m, "2", 2);
    assert m.stack == [1.0, 2.0] && m.history.snapshots == [[], [1.0]];
    o := PushNumeral(m, "3", 3);
    assert m.stack == [1.0, 2.0, 3.0] && m.history.snapshots == [[], [1.0], [1.0, 2.0]];
    o := PushBinary(m, "*", Multiply, [1.0], 2.0, 3.0);
  }

  /** After 5 4 3 2: undo, undo and "*". */
  method UndoTwiceAndMultiply(m: MyStack)
    requires m.stack == [5.0, 4.0, 3.0, 2.0]
    requires m.history.snapshots == [[], [5.0], [5.0, 4.0], [5.0, 4.0, 3.0]]
    modifies m, m.history
    ensures m.stack == [20.0]
    ensures m.history.snapshots == [[], [5.0], [5.0, 4.0]]
    ensures m.position == old(m.position) + 12
  {
    var o := PushUndo(m, [[], [5.0], [5.0, 4.0]], [5.0, 4.0, 3.0]);
    o := PushUndo(m, [[], [5.0]], [5.0, 4.0]);
    o := PushBinary(m, "*", Multiply, [], 5.0, 4.0);
  }

  /** Multiplies 1 to 5 down to their product, one "*" at a time. */
  method MultiplyCounting(m: MyStack)
    requires m.stack == [1.0, 2.0, 3.0, 4.0, 5.0]
    modifies m, m.history
    ensures m.stack == [120.0]
    ensures m.history.snapshots == old(m.history.snapshots) +
      [[1.0, 2.0, 3.0, 4.0, 5.0], [1.0, 2.0, 3.0, 20.0], [1.0, 2.0, 60.0], [1.0, 120.0]]
    ensures m.position == old(m.position) + 8
  {
    var o := PushBinary(m, "*", Multiply, [1.0, 2.0, 3.0], 4.0, 5.0);
    assert m.stack == [1.0, 2.0, 3.0, 20.0];
    o := PushBinary(m, "*", Multiply, [1.0, 2.0], 3.0, 20.0);
    assert m.stack == [1.0, 2.0, 60.0];
    o := PushBinary(m, "*", Multiply, [1.0], 2.0, 60.0);
    assert m.stack == [1.0, 120.0];
    o := PushBinary(m, "*", Multiply, [], 1.0, 120.0);
  }

  // ---- the tests ----

  method ShouldPushOperandToStack() returns (afterFive: string, afterTwo: string)
    ensures afterFive == "5" && afterTwo == "5 2"
  {
    var m := NewStack();
    var o := PushNumeral(m, "5", 5);
    var s := m.stack;
    afterFive := m.ToString();
    o := PushNumeral(m, "2", 2);
    afterTwo := m.ToString();
    PushOperandDisplays(s, m.stack);
  }

  method ShouldBeAbleToClearStack() returns (afterFive: string, afterClear: string)
    ensures afterFive == "5" && afterClear == ""
  {
    var m := NewStack();
    var o := PushNumeral(m, "5", 5);
    afterFive := m.ToString();
    ShowsWhole(m.stack, 5, "5");
    o := PushClear(m);
    afterClear := m.ToString();
    RenderEmpty();
  }

  method ShouldCalculateSqrtOperator() returns (rootOfTwo: string, both: string)
    ensures rootOfTwo == "1.4142135623" && both == "1.4142135623 2"
  {
    var m := NewStack();
    var o := PushNumeral(m, "2", 2);
    o := PushSquareRoot(m, [], 2.0);
    RootOfTwo();
    assert m.stack == [1.414_213_562_3];
    rootOfTwo := m.ToString();
    ShowsRoot(m.stack);
    o := PushNumeral(m, "4", 4);
    o := PushSquareRoot(m, [1.414_213_562_3], 4.0);
    RootOfFour();
    both := m.ToString();
    ShowsRootAndTwo(m.stack);
  }

  method ShouldCalculateSubtractionOperator() returns (first: string, second: string)
    ensures first == "3" && second == "0"
  {
    var m := NewStack();
    var o := PushNumeral(m, "5", 5);
    o := PushNumeral(m, "2", 2);
    o := PushBinary(m, "-", Subtract, [], 5.0, 2.0);
    var s := m.stack;
    first := m.ToString();
    o := PushNumeral(m, "3", 3);
    o := PushBinary(m, "-", Subtract, [], 3.0, 3.0);
    second := m.ToString();
    SubtractionDisplays(s, m.stack);
  }

  method ShouldCalculateAdditionOperator() returns (sum: string)
    ensures sum == "7"
  {
    var m := NewStack();
    var o := PushNumeral(m, "5", 5);
    o := PushNumeral(m, "2", 2);
    o := PushBinary(m, "+", Add, [], 5.0, 2.0);
    sum := m.ToString();
    ShowsWhole(m.stack, 7, "7");
  }

  method ShouldCalculateMultiplicationOperator() returns (product: string)
    ensures product == "10"
  {
    var m := NewStack();
    var o := PushNumeral(m, "5", 5);
    o := PushNumeral(m, "2", 2);
    o := PushBinary(m, "*", Multiply, [], 5.0, 2.0);
    product := m.ToString();
    assert NatToString(10) == "10";
    ShowsWhole(m.stack, 10, "10");
  }

  method ShouldCalculateDivisionOperator() returns (quotient: string)
    ensures quotient == "2.5"
  {
    var m := NewStack();
    var o := PushNumeral(m, "5", 5);
    o := PushNumeral(m, "2", 2);
    o := PushBinary(m, "/", Divide, [], 5.0, 2.0);
    quotient := m.ToString();
    ShowsTwoAndAHalf(m.stack);
  }

  method ShouldBeAbleToUndoLastOperation() returns (first: string, second: string)
    ensures first == "5 4 3" && second == "5 4"
  {
    var m := NewStack();
    PushCountdown(m);
    var o := PushUndo(m, [[], [5.0], [5.0, 4.0]], [5.0, 4.0, 3.0]);
    var s := m.stack;
    first := m.ToString();
    o := PushUndo(m, [[], [5.0]], [5.0, 4.0]);
    second := m.ToString();
    UndoDisplays(s, m.stack);
  }

  method TestExample4() returns (first: string, second: string, third: string)
    ensures first == "20" && second == "100" && third == "20 5"
  {
    var m := NewStack();
    PushCountdown(m);
    UndoTwiceAndMultiply(m);
    var s := m.stack;
    first := m.ToString();
    var o := PushNumeral(m, "5", 5);
    assert m.stack == [20.0, 5.0] && m.history.snapshots == [[], [5.0], [5.0, 4.0], [20.0]];
    o := PushBinary(m, "*", Multiply, [], 20.0, 5.0);
    var t := m.stack;
    second := m.ToString();
    o := PushUndo(m, [[], [5.0], [5.0, 4.0], [20.0]], [20.0, 5.0]);
    third := m.ToString();
    ExampleFourDisplays(s, t, m.stack);
  }

  method TestExample5() returns (first: string, second: string, third: string)
    ensures first == "7 6" && second == "42" && third == "10.5"
  {
    var m := NewStack();
    PushSevenTwelveTwo(m);
    var o := PushBinary(m, "/", Divide, [7.0], 12.0, 2.0);
    var s := m.stack;
    first := m.ToString();
    o := PushBinary(m, "*", Multiply, [], 7.0, 6.0);
    var t := m.stack;
    second := m.ToString();
    o := PushNumeral(m, "4", 4);
    o := PushBinary(m, "/", Divide, [], 42.0, 4.0);
    third := m.ToString();
    ExampleFiveDisplays(s, t, m.stack);
  }

  method TestExample6() returns (first: string, second: string, third: string)
    ensures first == "1 2 3 4 5" && second == "1 2 3 20" && third == "-1"
  {
    var m := NewStack();
    PushCounting(m);
    var s := m.stack;
    first := m.ToString();
    var o := PushBinary(m, "*", Multiply, [1.0, 2.0, 3.0], 4.0, 5.0);
    var t := m.stack;
    second := m.ToString();
    o := PushClear(m);
    o := PushNumeral(m, "3", 3);
    o := PushNumeral(m, "4", 4);
    o := PushBinary(m, "-", Subtract, [], 3.0, 4.0);
    third := m.ToString();
    ExampleSixDisplays(s, t, m.stack);
  }

  method TestExample7() returns (first: string, second: string)
    ensures first == "1 2 3 4 5" && second == "120"
  {
    var m := NewStack();
    PushCounting(m);
    var s := m.stack;
    first := m.ToString();
    MultiplyCounting(m);
    second := m.ToString();
    ExampleSevenDisplays(s, m.stack);
  }

  /** The eighth token, the third "*", finds only one operand; its exception
      ends the test's try block, so "6" and "5" are never pushed. */
  method TestExample8() returns (error: Error, message: string, rendered: string)
    ensures error == InsufficientParameter("*", 15)
    ensures message == "operator " + "*" + " (position: " + "15" + "): insufficient parameters"
    ensures rendered == "11"
  {
    MultiplyMessages();
    var m := NewStack();
    PushOneTwoThreeTimes(m);
    var o := PushNumeral(m, "5", 5);
    o := PushBinary(m, "+", Add, [1.0], 6.0, 5.0);
    o := PushBinary(m, "*", Multiply, [], 1.0, 11.0);
    assert m.position == 15;
    o := PushShort(m, "*", Binary(Multiply));
    error := o.error;
    message := Message(error);
    rendered := m.ToString();
    assert NatToString(11) == "11";
    ShowsWhole(m.stack, 11, "11");
  }

  method ShouldDisplayWarningWhenMissingSufficientParameters() returns (error: Error, message: string)
    ensures error == InsufficientParameter("*", 1)
    ensures message == "operator " + "*" + " (position: " + "1" + "): insufficient parameters"
  {
    MultiplyMessages();
    var m := NewStack();
    var o := PushShort(m, "*", Binary(Multiply));
    error := o.error;
    message := Message(error);
  }

  method ShouldThrowExceptionWhenInputIsNotANumberOrOperator() returns (error: Error, message: string)
    ensures error == InvalidInput("xyz")
    ensures message == "xyz" + " is not a number or an operator"
  {
    NotAToken();
    var m := NewStack();
    var o := PushInvalid(m, "xyz");
    error := o.error;
    message := Message(error);
  }
}
