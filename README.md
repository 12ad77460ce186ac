# RPN calculator engine

A model of the reverse Polish notation calculator that the JUnit suite
`src/test/java/domain/MyStackTest.java` exercises. A `MyStack` holds an operand
stack and shares an undo history (`StackHistoryRepo`) of whole-stack snapshots.
`push(token)` takes one token at a time: a number, one of `+ - * /`, the unary
`sqrt`, or one of the commands `clear` and `undo`. Any other token is invalid.
`toString()` shows the values bottom to top, separated by single spaces.

The project is split into modules:

- `Wrappers`: `Option`.
- `Numerals`: numerals, number literals and their parsing, and the display of a
  value. The display truncates to ten fractional digits and drops trailing zeros.
- `Rendering`: joining and splitting displays, and the text of a stack.
- `Operators`: the operator table, what each operator computes, and a square
  root truncated to the displayed precision.
- `Errors`: the two exceptions the tests expect, plus an error for operands
  outside an operator's domain, with their messages.
- `Engine`: a session value of stack, history and position, and `Process`, the
  effect of one token as a function. Properties of tokens and of token runs are
  lemmas over `Process` and `Run`.
- `Repository`: the class `StackHistoryRepo`.
- `Domain`: the class `MyStack`. Its `Push` method updates the object in place
  and is proved equal to `Process` on the object's state.
- `DomainTest`: each JUnit test is a method that drives a fresh `MyStack`. Its
  `ensures` clause states what the test asserts.

Positions in error messages are the 1-based character offset of the token in
the space-separated input. So a token moves the position by its length plus one.
The other reading would be a token count, which numbers the eighth token 8. The
test at `MyStackTest.java:165` reports 15 for the eighth token, so the model
follows the test.

## Model

| member | source | states |
|---|---|---|
| Domain.MyStack.constructor | src/test/java/domain/MyStackTest.java:22 | a calculator over the given stack and history starts with its first token at position 1 |
| Domain.MyStack.Push | src/test/java/domain/MyStackTest.java:26-29 | pushing a token updates the stack, the shared history and the position exactly as `Engine.Process` does on the old state, and returns its outcome |
| Domain.MyStack.ToString | src/test/java/domain/MyStackTest.java:27-37 | the text `toString()` gives: the values bottom to top, one display each, separated by single spaces; it is "" exactly when the stack is empty. `Rendering.RenderPush`, `Rendering.ReadBackRender` and `Rendering.RenderEmptyExactly` carry its properties |
| Repository.StackHistoryRepo.constructor | src/test/java/domain/MyStackTest.java:22 | a new history holds no snapshots |
| Repository.StackHistoryRepo.Save | src/test/java/domain/MyStackTest.java:87-96 | a snapshot is appended as the most recent one and the older ones are kept |
| Repository.StackHistoryRepo.Restore | src/test/java/domain/MyStackTest.java:92-95 | the most recent snapshot is returned and removed; an empty history returns None and stays empty |
| Engine.Process | src/test/java/domain/MyStackTest.java:25-195 | the effect of one `push`: the new stack, history and position and the outcome. Its properties are the Engine lemmas below (`PushNumber`, `BinaryOperator`, `SquareRootOperator`, `ClearEmpties`, `UndoRestores`, `InsufficientOperands`, `InvalidToken`, `UndefinedOperands`, `AllOrNothing`) |
| Engine.Classify | src/test/java/domain/MyStackTest.java:189-195 | "clear" and "undo" are the commands (an if-and-only-if for each); an operator is the one its symbol names; a number is the value its literal parses to; a token is invalid exactly when it is none of these |
| Engine.NumbersAreNumbers | src/test/java/domain/MyStackTest.java:26-28 | every token that parses as a number is classified as that number: no operator symbol or command word parses |
| Engine.PushNumber | src/test/java/domain/MyStackTest.java:25-30 | a number token pushes its value as the new top, saves the previous stack and succeeds |
| Engine.PushNumbers | src/test/java/domain/MyStackTest.java:131-136 | a run of number tokens appends their values to the stack in input order |
| Engine.RenderNumerals | src/test/java/domain/MyStackTest.java:131-136 | on a fresh calculator, pushing the numerals of whole numbers displays exactly those numerals joined by single spaces |
| Engine.ClearEmpties | src/test/java/domain/MyStackTest.java:33-38 | clear empties a stack of any depth, saving what it held, and the stack then displays as "" |
| Engine.BinaryOperator | src/test/java/domain/MyStackTest.java:52-60 | a binary operator with two operands replaces the top two values by (second from top) op (top), keeps every deeper value in place, saves the old stack and succeeds |
| Engine.SquareRootOperator | src/test/java/domain/MyStackTest.java:41-48 | sqrt replaces only the top value, by its root, and saves the old stack |
| Engine.InsufficientOperands | src/test/java/domain/MyStackTest.java:182-187 | an operator with fewer operands than it takes fails with InsufficientParameter(symbol, position of the token); stack and history are unchanged |
| Engine.InvalidToken | src/test/java/domain/MyStackTest.java:189-195 | a token that is no number, operator or command fails with InvalidInput(token); stack and history are unchanged |
| Engine.UndefinedOperands | src/test/java/domain/MyStackTest.java:79-84 | "/" with a zero top, or "sqrt" with a negative top, fails with UndefinedResult(symbol, position of the token); stack and history are unchanged |
| Engine.AllOrNothing | src/test/java/domain/MyStackTest.java:162-179 | every token either fails and leaves stack and history as they were, or succeeds; every success except undo saves the stack it replaces; every token advances the position |
| Engine.UndoRestores | src/test/java/domain/MyStackTest.java:87-96 | undo makes the most recent snapshot the stack and removes it from the history |
| Engine.UndoReverts | src/test/java/domain/MyStackTest.java:108-112 | undo right after a successful token brings back the stack and history from before that token |
| Engine.UndoSteps | src/test/java/domain/MyStackTest.java:99-107 | after n successful non-undo tokens, n undos restore the original stack and history, one token per undo |
| Engine.RunPosition | src/test/java/domain/MyStackTest.java:162-173 | after a run of tokens the position has advanced by the tokens' lengths plus one separator each, failed tokens included |
| Engine.SingleCharacterPositions | src/test/java/domain/MyStackTest.java:165-184 | when every token is one character, the token at 0-based index k of a fresh session is at position 2k + 1 |
| Errors.Message | src/test/java/domain/MyStackTest.java:165-192 | the exception texts: "operator <symbol> (position: <n>): insufficient parameters" and "<token> is not a number or an operator". `DomainTest.MultiplyMessages` and `DomainTest.NotAToken` state the texts the tests expect |
| Operators.Lookup | src/test/java/domain/MyStackTest.java:51-84 | a token that names an operator is that operator's symbol; a token that names none is the symbol of no operator |
| Operators.IntSqrtBounds | src/test/java/domain/MyStackTest.java:41-44 | the integer square root r of n satisfies r*r <= n < (r+1)*(r+1) |
| Operators.IntSqrtUnique | src/test/java/domain/MyStackTest.java:41-44 | those bounds determine the integer square root |
| Operators.RootBounds | src/test/java/domain/MyStackTest.java:41-44 | the root is non-negative and exactly displayable; its square is at most x; it is less than 10^-10 below the exact root of x |
| Operators.RootOfSquare | src/test/java/domain/MyStackTest.java:46-48 | the root of the square of an exactly displayable non-negative value is that value, so 4 sqrt gives 2 |
| Numerals.NatToStringValue | src/test/java/domain/MyStackTest.java:107-110 | the numeral of n reads back as n |
| Numerals.NatToStringCanonical | src/test/java/domain/MyStackTest.java:107-110 | a digit string without a leading zero is the numeral of its value |
| Numerals.ParseDigits | src/test/java/domain/MyStackTest.java:26-28 | a non-empty string of digits parses as its decimal value |
| Numerals.NumberCharacters | src/test/java/domain/MyStackTest.java:189-195 | a token that parses as a number is non-empty and written only with digits, the minus sign and the point; so a token such as "xyz" is never a number |
| Numerals.ReadWrite | src/test/java/domain/MyStackTest.java:117-119 | writing a well-formed literal and reading it back gives the same literal |
| Numerals.WriteRead | src/test/java/domain/MyStackTest.java:117-119 | every token that reads as a literal is exactly that literal written out |
| Numerals.UnitsLiteralValue | src/test/java/domain/MyStackTest.java:83 | the literal displayed for t units of 10^-10 is well formed and has the value t / 10^10 |
| Numerals.TruncatedBounds | src/test/java/domain/MyStackTest.java:44 | display truncation is towards zero: the kept units keep the sign and miss the magnitude by less than one unit |
| Numerals.ParseFormat | src/test/java/domain/MyStackTest.java:83 | the display of an exactly displayable value parses back to that value |
| Numerals.FormatNatural | src/test/java/domain/MyStackTest.java:67-75 | a whole number displays as its canonical numeral, with no point |
| Numerals.FormatNegative | src/test/java/domain/MyStackTest.java:143 | a negative whole number displays as "-" and its numeral |
| Numerals.FormatHasNoSpace | src/test/java/domain/MyStackTest.java:29 | a display never contains a space |
| Rendering.SplitJoin | src/test/java/domain/MyStackTest.java:29 | splitting words joined by single spaces gives the words back when no word is empty or has a space |
| Rendering.ReadBackRender | src/test/java/domain/MyStackTest.java:136 | the text of a stack of exactly displayable values splits into one word per value, and each word parses back to its value, in order |
| Rendering.RenderPush | src/test/java/domain/MyStackTest.java:27-29 | pushing a value adds a space and its display to the text, or gives just its display on an empty stack |
| Rendering.RenderEmpty | src/test/java/domain/MyStackTest.java:37 | the empty stack displays as "" |
| Rendering.RenderEmptyExactly | src/test/java/domain/MyStackTest.java:35-37 | a stack displays as "" if and only if it is empty |
| DomainTest.RootOfTwo | src/test/java/domain/MyStackTest.java:42-44 | the root of 2 is 1.4142135623 |
| DomainTest.RootOfFour | src/test/java/domain/MyStackTest.java:46-48 | the root of 4 is 2 |
| DomainTest.RootDisplay | src/test/java/domain/MyStackTest.java:44 | 1.4142135623 displays as "1.4142135623" |
| DomainTest.MultiplyMessages | src/test/java/domain/MyStackTest.java:165-184 | "*" is the binary multiplication, and its failure messages at positions 1 and 15 are "operator * (position: 1): insufficient parameters" and the same with 15 |
| DomainTest.NotAToken | src/test/java/domain/MyStackTest.java:192-193 | "xyz" is no command, operator or number, and its message is "xyz is not a number or an operator" |
| DomainTest.ShouldPushOperandToStack | src/test/java/domain/MyStackTest.java:25-30 | after 5 the stack displays "5"; after 2 it displays "5 2" |
| DomainTest.ShouldBeAbleToClearStack | src/test/java/domain/MyStackTest.java:33-38 | after 5 the stack displays "5"; after clear it displays "" |
| DomainTest.ShouldCalculateSqrtOperator | src/test/java/domain/MyStackTest.java:41-49 | 2 sqrt displays "1.4142135623"; then 4 sqrt displays "1.4142135623 2" |
| DomainTest.ShouldCalculateSubtractionOperator | src/test/java/domain/MyStackTest.java:52-60 | 5 2 - displays "3"; then 3 - displays "0" |
| DomainTest.ShouldCalculateAdditionOperator | src/test/java/domain/MyStackTest.java:63-68 | 5 2 + displays "7" |
| DomainTest.ShouldCalculateMultiplicationOperator | src/test/java/domain/MyStackTest.java:71-76 | 5 2 * displays "10" |
| DomainTest.ShouldCalculateDivisionOperator | src/test/java/domain/MyStackTest.java:79-84 | 5 2 / displays "2.5" |
| DomainTest.ShouldBeAbleToUndoLastOperation | src/test/java/domain/MyStackTest.java:87-96 | after 5 4 3 2, undo displays "5 4 3" and a second undo displays "5 4" |
| DomainTest.TestExample4 | src/test/java/domain/MyStackTest.java:99-113 | 5 4 3 2 undo undo * displays "20"; then 5 * displays "100"; then undo displays "20 5" |
| DomainTest.TestExample5 | src/test/java/domain/MyStackTest.java:116-127 | 7 12 2 / displays "7 6"; then * displays "42"; then 4 / displays "10.5" |
| DomainTest.TestExample6 | src/test/java/domain/MyStackTest.java:130-144 | 1 2 3 4 5 displays "1 2 3 4 5"; then * displays "1 2 3 20"; then clear 3 4 - displays "-1" |
| DomainTest.TestExample7 | src/test/java/domain/MyStackTest.java:147-159 | 1 2 3 4 5 displays "1 2 3 4 5"; then four * display "120" |
| DomainTest.TestExample8 | src/test/java/domain/MyStackTest.java:162-179 | the eighth token, "*" at position 15, fails with InsufficientParameter("*", 15) and its message; the stack still displays "11" |
| DomainTest.ShouldDisplayWarningWhenMissingSufficientParameters | src/test/java/domain/MyStackTest.java:182-187 | "*" on a new calculator fails with InsufficientParameter("*", 1) and the message "operator * (position: 1): insufficient parameters" |
| DomainTest.ShouldThrowExceptionWhenInputIsNotANumberOrOperator | src/test/java/domain/MyStackTest.java:190-195 | "xyz" fails with InvalidInput("xyz") and the message "xyz is not a number or an operator" |

## Left out

- The sources of `MyStack`, `OperatorFactory`, `StackHistoryRepo` and the two exception classes are not available. `MyStack` and `StackHistoryRepo` are modelled from the tests alone. Where the model decides something the tests do not assert, the decision is listed below.
- The `OperatorFactory` argument of the `MyStack` constructor (`MyStackTest.java:22`) is not modelled: the operator table is the fixed module `Operators`, so `Domain.MyStack.constructor` takes only the stack and the history.
- Floating point: values are exact rational numbers. The engine's design asks only for fixed-point or floating semantics that fit the display's truncation rule, and every tested result of `+ - * /` (7, 10, 2.5, 6, 42, 10.5, 120, -1) is exact. Rounding in a floating-point representation is not modelled.
- Operators.Root: the root is stored already truncated to ten fractional digits, using an integer square root. The engine's design keeps full precision and truncates only for display. So any value computed from a root that is not exact can differ from that design in its displayed digits. For example, `2 sqrt 2 sqrt *` displays "1.9999999997" in the model, where the exact product of the two roots is 2.
- Numerals.Format: the display truncates towards zero to ten fractional digits and drops trailing zeros. This fits every tested display, including "1.4142135623". How the engine formats a value is not part of this model.
- Numerals.ParseNumber accepts `-?digits(.digits)?` only. Other literal forms an engine parser may accept (exponents, a leading `+`, `.5`, `5.`) are not modelled. The tests push only unsigned whole numbers.
- Choices for cases no test exercises:
  - a failed token still advances the position, so the tokens after it keep their offsets in the input (every test ends at its first failure);
  - undo on an empty history succeeds and changes nothing but the position;
  - clear saves a snapshot, so it can be undone;
  - a failed operator saves no snapshot.
- Division by zero and the root of a negative number fail with `UndefinedResult` and leave stack and history unchanged (`Engine.UndefinedOperands`). No test pins down this error or its message text.
- Positions of multi-character tokens: the model advances by the token's length plus one. The tests pin this down only for one-character tokens (`Engine.SingleCharacterPositions`).
- `ExpectedException.expectMessage` checks that the message contains the text. The test methods state the stronger property that the message is exactly that text.
- After the failing token in `testExample8`, the exception ends the `try` block, so "6" and "5" are never pushed. `DomainTest.TestExample8` stops at the failing token for that reason.
- The JUnit and Hamcrest machinery (`@Rule`, `assertThat`, `Is.is`), the internals of `java.util.Stack`, and any command-line or I/O loop.
