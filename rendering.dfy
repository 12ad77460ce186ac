/**
  * The text of a stack: its values bottom to top, each in the display form of
  * Numerals.Format, separated by single spaces; the empty stack is "".
  */
module Rendering {
  import opened Wrappers
  import opened Numerals

  /** The words separated by single spaces. */
  function Join(words: seq<string>): string {
    if words == [] then ""
    else if |words| == 1 then words[0]
    else Join(words[..|words| - 1]) + " " + words[|words| - 1]
  }

  /** Position of the last ' ' in s, or |s| when there is none. */
  function LastSpace(s: string): (i: nat)
    ensures i <= |s|
    ensures i < |s| ==> s[i] == ' ' && ' ' !in s[i + 1..]
    ensures i == |s| ==> ' ' !in s
  {
    if s == [] then 0
    else if s[|s| - 1] == ' ' then |s| - 1
    else
      var j := LastSpace(s[..|s| - 1]);
      if j == |s| - 1 then |s|
      else
        assert s[j + 1..] == s[..|s| - 1][j + 1..] + [s[|s| - 1]];
        j
  }

  /** The pieces of a non-empty text between its single spaces. */
  function SplitNonEmpty(s: string): (words: seq<string>)
    ensures |words| >= 1
    decreases |s|
  {
    var i := LastSpace(s);
    if i == |s| then [s] else SplitNonEmpty(s[..i]) + [s[i + 1..]]
  }

  /** The words of a text separated by single spaces; "" has none. */
  function Split(s: string): seq<string> {
    if s == "" then [] else SplitNonEmpty(s)
  }

  predicate IsWord(w: string) {
    w != [] && ' ' !in w
  }

  /** The last space of head + " " + last is the separator when last has none. */
  lemma LastSpaceOfJoin(head: string, last: string)
    requires ' ' !in last
    ensures LastSpace(head + " " + last) == |head|
  {
    var s := head + " " + last;
    var i := LastSpace(s);
    assert s[|head|] == ' ';
  }

  /** Splitting words joined by single spaces gives the words back. */
  lemma {:induction false} SplitJoin(words: seq<string>)
    requires forall i :: 0 <= i < |words| ==> IsWord(words[i])
    ensures Split(Join(words)) == words
  {
    if |words| == 1 {
      assert LastSpace(words[0]) == |words[0]|;
    } else if |words| >= 2 {
      var init, last := words[..|words| - 1], words[|words| - 1];
      assert forall j :: 0 <= j < |init| ==> init[j] == words[j];
      SplitJoin(init);
      JoinNonEmpty(init);
      SplitLastWord(Join(init), last);
      assert words == init + [last];
    }
  }

  /** The last word after a single space splits off the end of a text. */
  lemma SplitLastWord(head: string, last: string)
    requires head != [] && IsWord(last)
    ensures SplitNonEmpty(head + " " + last) == SplitNonEmpty(head) + [last]
  {
    var s := head + " " + last;
    LastSpaceOfJoin(head, last);
    assert s[..|head|] == head && s[|head| + 1..] == last;
  }

  lemma {:induction false} JoinNonEmpty(words: seq<string>)
    requires words != []
    requires forall i :: 0 <= i < |words| ==> IsWord(words[i])
    ensures Join(words) != []
  {
  }

  /** Only the empty stack displays as "": every display is a non-empty word. */
  lemma RenderEmptyExactly(stack: seq<real>)
    ensures Render(stack) == "" <==> stack == []
  {
    if stack != [] {
      forall i | 0 <= i < |stack|
        ensures IsWord(Words(stack)[i])
      {
        FormatHasNoSpace(stack[i]);
      }
      JoinNonEmpty(Words(stack));
    }
  }

  /** Joining one more word adds a space and the word. */
  lemma JoinAppend(words: seq<string>, w: string)
    requires words != []
    ensures Join(words + [w]) == Join(words) + " " + w
  {
    assert (words + [w])[..|words|] == words;
  }

  /** The display forms of the values, in order. */
  function Words(stack: seq<real>): seq<string> {
    seq(|stack|, i requires 0 <= i < |stack| => Format(stack[i]))
  }

  /** The text of a stack, bottom first. */
  function Render(stack: seq<real>): string {
    Join(Words(stack))
  }

  /** The text of a stack brings every value back, in order, when each value
      is one the display shows exactly. */
  lemma ReadBackRender(stack: seq<real>)
    requires forall i :: 0 <= i < |stack| ==> DisplayExact(stack[i])
    ensures |Split(Render(stack))| == |stack|
    ensures forall i :: 0 <= i < |stack| ==> ParseNumber(Split(Render(stack))[i]) == Some(stack[i])
  {
    forall i | 0 <= i < |stack|
      ensures IsWord(Format(stack[i]))
    {
      FormatHasNoSpace(stack[i]);
    }
    SplitJoin(Words(stack));
    forall i | 0 <= i < |stack|
      ensures ParseNumber(Format(stack[i])) == Some(stack[i])
    {
      ParseFormat(stack[i]);
    }
  }

  /** Pushing a value onto a non-empty stack adds a space and its display. */
  lemma RenderPush(stack: seq<real>, v: real)
    ensures Render(stack + [v]) == if stack == [] then Format(v) else Render(stack) + " " + Format(v)
  {
    assert Words(stack + [v])[..|stack|] == Words(stack);
  }

  lemma RenderEmpty()
    ensures Render([]) == ""
  {
  }
}
