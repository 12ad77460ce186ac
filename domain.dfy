/**
  * The calculator object: an operand stack, the undo history it shares with
  * a StackHistoryRepo, and the position of the next token. Push applies one
  * token in place; its contract is Engine.Process on the object's state.
  */
module Domain {
  import opened Wrappers
  import opened Rendering
  import opened Numerals
  import opened Operators
  import opened Errors
  import opened Engine
  import opened Repository

  class MyStack {
    /** The operand stack, bottom first. */
    var stack: seq<real>
    /** The 1-based character offset of the next token. */
    var position: nat
    const history: StackHistoryRepo

    /** The abstract state of the calculator. */
    function State(): Session
      reads this, history
    {
      Session(stack, history.snapshots, position)
    }

    /** A calculator over the given stack and history, before its first token. */
    constructor (stack: seq<real>, history: StackHistoryRepo)
      ensures this.history == history
      ensures State() == Session(stack, old(history.snapshots), 1)
    {
      this.stack := stack;
      this.history := history;
      position := 1;
    }

    /** Applies one token: a number, an operator, clear or undo. */
    method Push(token: string) returns (outcome: Outcome)
      modifies this, history
      ensures State() == Process(old(State()), token).session
      ensures outcome == Process(old(State()), token).outcome
    {
      var at := position;
      position := position + |token| + 1;
      if token == "clear" {
        history.Save(stack);
        stack := [];
        return Done;
      }
      if token == "undo" {
        var saved := history.Restore();
        if saved.Some? {
          stack := saved.value;
        }
        return Done;
      }
      var operator := Lookup(token);
      if operator.Some? {
        var o := operator.value;
        if |stack| < Arity(o) {
          return Failed(InsufficientParameter(token, at));
        }
        var n := |stack| - Arity(o);
        var result := Evaluate(o, stack[n..]);
        if result.None? {
          return Failed(UndefinedResult(token, at));
        }
        history.Save(stack);
        stack := stack[..n] + [result.value];
        return Done;
      }
      var number := ParseNumber(token);
      if number.Some? {
        history.Save(stack);
        stack := stack + [number.value];
        return Done;
      }
      return Failed(InvalidInput(token));
    }

    /** The stack's values bottom to top, separated by single spaces; "" only
        for the empty stack. */
    function ToString(): (s: string)
      reads this
      ensures s == "" <==> stack == []
    {
      RenderEmptyExactly(stack);
      Render(stack)
    }
  }
}
