# SRPN — a saturated reverse-Polish calculator, modelled in Dafny

SRPN reads lines of text, strips `#…#` comments, splits each line into
tokens, and runs every token against an operand stack of Java `int`s that
holds at most 23 elements (`MAX_STACK_SIZE`). The tokens are:

- integer literals;
- the operators `+ - * / % ^`;
- their assignment forms `+= -= *= /= %= ^=`, which print the top of the
  stack and then apply the operator;
- `=`, which prints the top of the stack;
- `d`, which prints the whole stack;
- `r`, which pushes the next pseudo-random value.

Results go through the calculator's own overflow rules, and errors are
reported as one-line diagnostics, with two exceptions. `%` by zero prints
nothing: the `ArithmeticException` escapes and the rest of the line is
abandoned. A line that ends in two or more spaces after a token never
finishes (see "## Findings").

The project has these modules:

- `JavaInt` (`java_int.dfy`): the `int` type and Java's integer semantics:
  - `Int32`, the `int` range;
  - `Wrap`, two's-complement wrap-around;
  - `Clamp`, saturation;
  - `TruncDiv` and `TruncRem`, division and remainder truncated toward zero.
- `Numeral` (`numeral.dfy`): `Integer.toString` as `Show` and
  `Integer.parseInt` as `ParseInt`.
- `Output` (`output.dfy`): the lines the calculator prints, and a `Console`
  class standing for `System.out`.
- `JavaStack` (`java_stack.dfy`): the part of `java.util.Stack<Integer>` the
  code uses, as the class `IntStack`.
- `Calculate` (`calculate.dfy`): `Calculate.java`.
  - The value each operator returns: `AddResult` … `PowerResult`, and
    `Operate`.
  - The pop/peek protocol on the stack: `Binary`.
  - The methods `Add` … `Power` and `Equals`. They pop the shared stack in
    place and print, and each is proved against `Binary`.
- `Tokenizer` (`tokenizer.dfy`): `removeComments` and the tokenizing loop of
  `processCommand`.
  - `Tokens` is the token sequence the regular expression defines.
  - `ScanLine` is what the `Scanner` loop as written hands on, including
    whether it ever terminates.
- `Interpreter` (`interpreter.dfy`): `SRPN.java`.
  - `Step` says what one token does to a `State` (the stack plus the number
    of random values drawn so far).
  - `RunTokens` and `RunLine` say what a line does.
  - The class `Srpn` has the fields of the Java object and the methods
    `Push`, `DisplayStack`, `ProcessSingleToken` and `ProcessCommand`, each
    proved to change the stack and the output exactly as the functions say.
- `Properties` (`properties.dfy`): what the calculator promises, stated as
  lemmas over `Step`, `RunTokens` and `RunLine`.

Where the code behaves differently from what a user of a saturating RPN
calculator would expect, the model follows the code:

- `12a` is two tokens, `12` and `a`, because the token pattern is searched
  for, not matched against a whole word. So `12a` pushes 12 and reports `a`
  as unrecognised.
- `d` prints the stack from the bottom up, because `for (Integer s : stack)`
  iterates a `Vector` in insertion order.
- An operator on an empty stack pushes `0`. The operator returns its local
  `num1`, still `0`, and the caller pushes it.
- `+` saturates only at `MAX_VALUE`: a sum below `MIN_VALUE` wraps round.
  `-` saturates only at `MIN_VALUE`: a difference above `MAX_VALUE` wraps.
  So `+` is not the two-sided clamp of the exact sum.
- A numeral outside the `int` range is reported as unrecognised, because
  `Integer.parseInt` rejects it.
- A comment runs from the first `#` on the line to the last one, because
  `#(.)+#` is greedy.

## Model

| member | source | states |
|---|---|---|
| JavaInt.Wrap | src/Calculate.java:31 | the `int` Java keeps of an exact value is congruent to it modulo 2^32, equals it when in range, and is moved by exactly one 2^32 when it lies just outside |
| JavaInt.TruncDiv | src/Calculate.java:139 | `b / a` truncates toward zero: abs(q)·abs(a) ≤ abs(b) < (abs(q)+1)·abs(a), and a nonzero quotient is positive exactly when the operands have the same sign |
| JavaInt.TruncRem | src/Calculate.java:169 | `b % a` satisfies b = q·a + r with q the truncated quotient, abs(r) < abs(a), and a nonzero remainder has the sign of the dividend |
| Numeral.Digits | src/SRPN.java:188 | the decimal digits `println` writes for a natural number read back as that number, and start with `0` only for 0 |
| Numeral.Show | src/SRPN.java:188 | `println` of an `int` writes a `-` exactly when it is negative, followed by the decimal digits of its magnitude, with no leading zero except for 0 |
| Numeral.ParseInt | src/SRPN.java:166 | `parseInt` accepts only an optional sign followed by at least one decimal digit (a lone `-` or `+` is rejected); `-` and digits give the negated value when it is at least `MIN_VALUE` (so `-05` is -5 and `-0` is 0) and are rejected otherwise; `+` and digits give the value when it is at most `MAX_VALUE` and are rejected otherwise |
| Numeral.ParseShow | src/SRPN.java:166 | `parseInt` of the printed form of any `int` gives that `int` back |
| Numeral.ParseDigits | src/SRPN.java:166 | an unsigned digit string parses exactly when its value is at most `MAX_VALUE`, and then to that value |
| Output.Text | src/SRPN.java:169 | the text of a printed number, typed back in, parses to that number; the text of every diagnostic ("Stack underflow.", "Unrecognised operator or operand …" and the rest) is rejected by `parseInt` |
| Output.Console.Println | src/SRPN.java:200 | each `println` appends exactly one line to the output |
| JavaStack.IntStack.Push | src/SRPN.java:202 | `stack.push` puts the value on top and changes nothing else |
| JavaStack.IntStack.Pop | src/Calculate.java:24-25 | `pop` removes and returns the top; on an empty stack it fails and leaves the stack empty |
| JavaStack.IntStack.Peek | src/Calculate.java:137 | `peek` returns the top without removing it, or fails on an empty stack |
| JavaStack.IntStack.Size | src/SRPN.java:199 | `size` is the number of elements |
| Calculate.AddResult | src/Calculate.java:29-33 | the returned sum is the clamp of the exact sum when that is at least `MIN_VALUE`, and the exact sum plus 2^32 when it is below |
| Calculate.SubtractResult | src/Calculate.java:64-68 | the returned difference is the clamp of the exact difference when that is at most `MAX_VALUE`, and the exact difference minus 2^32 when it is above |
| Calculate.MultiplyResult | src/Calculate.java:103-109 | the returned product is the exact product clamped to the `int` range at both ends |
| Calculate.DivideResult | src/Calculate.java:139 | the returned quotient is the truncated quotient, except `MIN_VALUE / -1`, which wraps to `MIN_VALUE` |
| Calculate.RemainderResult | src/Calculate.java:169 | the returned remainder completes the truncated division, is smaller in magnitude than the divisor, and has the dividend's sign |
| Calculate.PowerResult | src/Calculate.java:200-206 | for a non-negative exponent the result is the clamped exact power; for a negative exponent it is `MAX_VALUE` for base 0, ±1 for base ±1, and 0 otherwise |
| Calculate.UnitPow | src/Calculate.java:200-206 | a power of ±1 is 1 for an even exponent and the base for an odd one |
| Calculate.Operate | src/Calculate.java:139 | once both operands are popped, an operator throws `ArithmeticException` exactly when it is `/` or `%` with a zero divisor |
| Calculate.Binary | src/Calculate.java:20-43 | an operator only pops: what is left is the stack minus at most its top two elements (at least one when the stack is not empty), it prints at most one line, an empty stack gives "Stack underflow." and a returned 0, and only `%` can let an `ArithmeticException` escape |
| Calculate.BinaryProtocol | src/Calculate.java:22-43 | an operator pops one or two elements and no more; it pops two exactly when it computes, and then returns the result of the operator on the second and first element; on underflow or a divide guard it prints exactly one diagnostic and returns the popped top, so pushing the result back restores the stack, or gives `[0]` from an empty one |
| Calculate.DivideGuard | src/Calculate.java:137-144 | with two operands, `/` prints "Divide by 0." exactly when the top or the element beneath it is 0 |
| Calculate.Add | src/Calculate.java:18-44 | the method pops, prints and returns exactly what `Binary(Plus, ·)` says |
| Calculate.Subtract | src/Calculate.java:53-77 | the method pops, prints and returns exactly what `Binary(Minus, ·)` says |
| Calculate.Multiply | src/Calculate.java:92-119 | the method pops, prints and returns exactly what `Binary(Times, ·)` says |
| Calculate.Divide | src/Calculate.java:130-153 | the method pops (peeking before the second pop), prints and returns exactly what `Binary(Slash, ·)` says |
| Calculate.Modulus | src/Calculate.java:162-178 | the method pops, prints and returns exactly what `Binary(Percent, ·)` says, including the uncaught `ArithmeticException` on a zero divisor |
| Calculate.Power | src/Calculate.java:190-215 | the method pops, prints and returns exactly what `Binary(Caret, ·)` says |
| Calculate.EqualsLine | src/Calculate.java:221-226 | the line `equals` prints is "Stack empty." exactly when the stack is empty, and otherwise the top element |
| Calculate.Equals | src/Calculate.java:221-227 | `equals` prints the top, or "Stack empty.", and leaves the stack alone |
| Tokenizer.RemoveComments | src/SRPN.java:95-97 | removing comments leaves the line as it is, or removes at least three characters and leaves no `#` behind (for lines without line terminators, which `.` does not match) |
| Tokenizer.RemoveCommentsKeeps | src/SRPN.java:95-97 | a line with no two `#` at least two positions apart is left unchanged (for lines without line terminators) |
| Tokenizer.RemoveCommentsCuts | src/SRPN.java:95-97 | when the first `#` and the last `#` are at least two positions apart, everything from the first to the last `#` is removed (for lines without line terminators, which `.` does not match) |
| Tokenizer.RemoveCommentsIdempotent | src/SRPN.java:95-97 | stripping comments twice is the same as stripping them once (for lines without line terminators) |
| Tokenizer.TokenEnd | src/SRPN.java:15-21 | a token has no spaces and is a maximal numeral (`-?` and digits), an `op=`, or a single character; it is a numeral exactly when it starts with a digit or with `-` before a digit, and an operator character followed by `=` is the two-character `op=` token, so `+=` is never split into `+` and `=` |
| Tokenizer.FindInLine | src/SRPN.java:79 | `findInLine` finds nothing exactly when only spaces remain, and otherwise returns the token starting at the first non-space and ending where the token pattern's alternatives, tried in order, end it |
| Tokenizer.TokensFrom | src/SRPN.java:73-85 | the tokens found from a position on are each non-empty and free of spaces, and there are no more of them than characters left |
| Tokenizer.Tokens | src/SRPN.java:46-58 | the tokens of a line, concatenated, are the line with its spaces removed |
| Tokenizer.TokensConcat | src/SRPN.java:46-58 | from any position on, the tokens concatenated are the rest of the line without spaces |
| Tokenizer.HasNext | src/SRPN.java:73 | with the default delimiter `hasNext()` holds exactly when `findInLine` would find a token; with the single-space delimiter it can hold while `findInLine` finds nothing only when at least two characters remain and all of them are spaces |
| Tokenizer.ScanFrom | src/SRPN.java:73-85 | the loop hands on no more tokens than characters remain, and it can spin for ever only when the line ends in two spaces |
| Tokenizer.ScanLine | src/SRPN.java:71-85 | the `Scanner` loop hands on exactly the tokens of `Tokens`, and it never terminates exactly when the line holds a token and ends in two spaces |
| Tokenizer.ScanTokens | src/SRPN.java:73-85 | from any position and delimiter state, the loop hands on the same tokens as `Tokens` |
| Tokenizer.ScanLineHangs | src/SRPN.java:73-85 | the loop spins for ever exactly when a token is present and the line ends in two spaces |
| Tokenizer.ScanHangsAfterToken | src/SRPN.java:73-85 | right after any token, the loop spins for ever exactly when the line ends in two spaces |
| Tokenizer.TrailingSpacesHang | src/SRPN.java:73-85 | `5` followed by two spaces never finishes; `5` followed by one space does |
| Tokenizer.NegativeLiteralExample | src/SRPN.java:15 | `3-4` is the tokens `3` and `-4` |
| Tokenizer.NumberThenLetterExample | src/SRPN.java:15-21 | `12a` is the tokens `12` and `a` |
| Tokenizer.CompoundExample | src/SRPN.java:16 | `+=5` is the tokens `+=` and `5` |
| Interpreter.StepKeepsBound | src/SRPN.java:198-204 | no token takes a stack of at most 23 elements above 23 |
| Interpreter.RunTokensCons | src/SRPN.java:73-85 | a line runs its first token, then the rest unless the first one faulted |
| Interpreter.Classify | src/SRPN.java:107-170 | a token that is no `switch` case is a literal exactly when `parseInt` accepts it, carrying the parsed value, and is reported as unrecognised exactly when `parseInt` rejects it |
| Interpreter.Pushed | src/SRPN.java:198-204 | `push` never takes a stack of at most `MAX_STACK_SIZE` (23, SRPN.java line 24) elements above it; it prints nothing exactly when the value lands on top, and otherwise prints "Stack Overflow." and leaves a full stack as it was |
| Interpreter.DisplayLines | src/SRPN.java:179-190 | `displayStack` prints `MIN_VALUE` alone for an empty stack, and otherwise one line per element, element k from the bottom as line k |
| Interpreter.Apply | src/SRPN.java:109-150 | an operator case draws no random value, leaves the stack no longer than it was (except that an empty stack becomes `[0]`), and can fault only for `%` |
| Interpreter.Step | src/SRPN.java:105-172 | one token draws a random value exactly when it is `r` (even when the stack is full and the value is refused), and only `%` and `%=` can let an exception escape |
| Interpreter.RunTokens | src/SRPN.java:73-85 | no tokens change nothing and print nothing, and a single token does exactly what its step does |
| Interpreter.RunLine | src/SRPN.java:43-87 | a line runs exactly the tokens the `Scanner` loop hands on for its comment-free form |
| Interpreter.Srpn.constructor | src/SRPN.java:24-34 | the calculator starts with an empty stack, no output and no value drawn |
| Interpreter.Srpn.Push | src/SRPN.java:198-204 | `push` at 23 elements prints "Stack Overflow." and changes nothing, and otherwise puts the value on top |
| Interpreter.Srpn.DisplayStack | src/SRPN.java:179-190 | `displayStack` prints `MIN_VALUE` for an empty stack, then every element from the bottom up |
| Interpreter.Srpn.ApplyOperator | src/SRPN.java:109-126 | an operator case pops, prints, and pushes back the returned value, or faults on `%` by zero, as `Apply` says |
| Interpreter.Srpn.ProcessSingleToken | src/SRPN.java:105-172 | one token changes the stack, the random-draw count and the output exactly as `Step` says, and keeps the stack within 23 elements |
| Interpreter.Srpn.ProcessCommand | src/SRPN.java:43-87 | a line changes the stack and the output exactly as running the tokens of its comment-free form says; it reports a fault when `%` by zero escapes, and reports a hang when the scanning loop never terminates |
| Properties.ClassifySymbol | src/SRPN.java:107-150 | each operator symbol and its `op=` form select the operator and the assignment case |
| Properties.ClassifyShow | src/SRPN.java:162-167 | the printed form of any `int` is read as that number, never as a command |
| Properties.RunTokensKeepsBound | src/SRPN.java:198-204 | no sequence of tokens takes the stack above 23 elements |
| Properties.RunLineKeepsBound | src/SRPN.java:198-204 | no input line takes the stack above 23 elements |
| Properties.RunAppend | src/SRPN.java:73-85 | running two token sequences in turn is running their concatenation, unless the first faults |
| Properties.RunLineIgnoresComments | src/SRPN.java:62 | a line behaves exactly as its comment-free version |
| Properties.OperatorOnShortStack | src/Calculate.java:34-43 | an operator with fewer than two operands prints "Stack underflow." and restores the stack, except that an empty stack gets a 0; `/` on a lone 0 prints "Divide by 0." instead |
| Properties.OperatorComputes | src/SRPN.java:109-126 | with two operands and no divide guard, an operator replaces them by its result and prints nothing, or pops both and faults on `%` by zero |
| Properties.DivideByZeroKeepsStack | src/Calculate.java:136-144 | `/` with a zero on top, or a zero beneath a nonzero top, prints "Divide by 0." and leaves the stack exactly as it was |
| Properties.ModulusByZeroFaults | src/Calculate.java:167-169 | `%` with a zero on top pops both operands, prints nothing and faults |
| Properties.CompoundEchoesThenOperates | src/SRPN.java:127-150 | `op=` prints what `=` prints and then does exactly what `op` does |
| Properties.EqualsShowsTop | src/SRPN.java:151-153 | `=` prints the top, or "Stack empty.", and changes nothing |
| Properties.DisplayShowsStack | src/SRPN.java:179-190 | `d` changes nothing; on an empty stack it prints `MIN_VALUE`, and otherwise it prints element k of the stack, counted from the bottom, as its k-th line |
| Properties.RandomPushes | src/SRPN.java:157-160 | `r` pushes the next random value, or prints "Stack Overflow." on a full stack |
| Properties.LiteralPushes | src/SRPN.java:165-167 | a number pushes itself, or prints "Stack Overflow." on a full stack |
| Properties.OutOfRangeUnrecognised | src/SRPN.java:165-169 | a numeral beyond the `int` range, with or without `-`, is reported as unrecognised and changes nothing |
| Properties.UnknownCharacterIgnored | src/SRPN.java:168-169 | any other printable ASCII character, on its own, is reported as unrecognised and changes nothing |
| Properties.AdditionExamples | src/Calculate.java:29-33 | `MAX_VALUE 1 +` gives `MAX_VALUE`, and `MIN_VALUE -1 +` wraps to `MAX_VALUE` |
| Properties.MultiplicationExamples | src/Calculate.java:103-109 | `MAX_VALUE 2 *` gives `MAX_VALUE`, and `MIN_VALUE 2 *` gives `MIN_VALUE` |
| Properties.SumLineExample | src/SRPN.java:43-87 | the line `5 3 +` leaves exactly `[8]` and prints nothing |
| Properties.SumLineTokens | src/SRPN.java:46-58 | the line `5 3 +` is the tokens `5`, `3` and `+` |
| Properties.SumTokensRun | src/SRPN.java:105-172 | the tokens `5`, `3`, `+` on an empty stack leave `[8]` and print nothing |
| Properties.CommentedSumExample | src/SRPN.java:43-87 | `5 #ignore this# 3 +` becomes `5  3 +` once comments are removed, and leaves `[8]` |
| Properties.CommentStripExample | src/SRPN.java:95-97 | removing comments from `5 #ignore this# 3 +` gives `5  3 +` |
| Properties.DoubleSpacedSumTokens | src/SRPN.java:46-58 | `5  3 +` is the tokens `5`, `3` and `+` |

## Left out

- Reading lines from standard input and the program's entry point are not
  part of this model. `ProcessCommand` takes the line as a parameter.
- `System.out` is the `Console` class, which records each printed line as a
  `Line` value. `Output.Text` gives the exact text of each line.
- `new Random(15)` is not modelled. The calculator takes a function
  `random`, whose k-th value stands for the k-th result of
  `nextInt(Integer.MAX_VALUE)`, and counts the values drawn. The actual
  sequence the seed produces is not computed.
- Calculate.PowerResult: `Math.pow` works in `double`. The model states its
  result exactly:
  - the clamped integer power for a non-negative exponent;
  - for a negative exponent, the values `Math.pow`'s documented special
    cases and the `(int)` cast give (`MAX_VALUE` for base 0, ±1 for base
    ±1, 0 otherwise).
  Floating-point rounding is not modelled.
- Interpreter.Srpn.ProcessCommand: it requires printable ASCII input
  (`PlainLine`). Tabs and other white space, line terminators inside a
  line, and non-ASCII input are not modelled. For such input the first
  `hasNext` skips any white space, `.` in `#(.)+#` stops at a line
  terminator, and a non-ASCII decimal digit (which `\d` does not match)
  becomes a one-character catch-all token that `parseInt` accepts and
  pushes.
- Properties.UnknownCharacterIgnored: stated for printable ASCII characters
  only; a single non-ASCII decimal digit such as `٣` is pushed as its value
  by `parseInt`, which this model does not cover.
- Numeral.ParseInt: only ASCII digits `0`–`9` are accepted. `parseInt`
  would also accept other Unicode decimal digits.
- `Calculate.checkLimits` has an empty body and is never called, so it is
  not modelled.
- After a fault (`%` by zero), Java abandons the line and the exception
  reaches the caller. The model stops the line with a `Faulted` result. What
  the caller then does is not part of this model.
- A line whose scanning loop never terminates is reported as `Hangs`.
  The model stops at the point where the loop would start repeating itself.

## Findings

| source | as written | input that shows it | evidently intended | confidence | as-written member | corrected member |
|---|---|---|---|---|---|---|
| src/SRPN.java:73-85 | After the first token the scanner's delimiter is a single space. A line whose comment-free form ends in two or more spaces after a token keeps `hasNext()` true (one space is skipped, an empty token remains), while `findInLine` finds nothing and does not advance, so the loop never ends; `Tokenizer.TrailingSpacesHang` exhibits it | `5` followed by two spaces, or `1 #c# ` (which becomes `1` followed by two spaces) | trailing spaces are skipped and the line finishes after its last token, which is exactly the token sequence `Tokens` defines; `Tokenizer.TokensConcat` proves those tokens are the line without its spaces, and `RunLine` runs them | medium, not executed | Tokenizer.ScanLine | Tokenizer.Tokens |
