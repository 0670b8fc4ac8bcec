/** The calculator itself (`SRPN.java`): a bounded operand stack, the token
    dispatcher, the capacity-checked push, the stack display and the line
    loop. The pure functions `Step` and `RunTokens` say what a token and a
    sequence of tokens do; the methods of `Srpn` are proved against them. */
module Interpreter {
  import opened JavaInt
  import opened Wrappers
  import opened Numeral
  import opened Output
  import opened JavaStack
  import opened Calculate
  import opened Tokenizer

  /** `MAX_STACK_SIZE`. */
  const MaxStackSize: nat := 23

  /** What `rand.nextInt(Integer.MAX_VALUE)` returns. */
  type Draw = x: int | 0 <= x < 0x7fff_ffff

  /** How `processSingleToken` reads a token: its `switch` cases, then
      `Integer.parseInt`, then the "Unrecognised" diagnostic. */
  datatype Token =
    | Operator(op: Op)          // + - * / % ^
    | Compound(op: Op)          // += -= *= /= %= ^=
    | EqualsSign                // =
    | Display                   // d
    | RandomPush                // r
    | Literal(value: Int32)
    | Unknown

  function Symbol(op: Op): string
  {
    match op
    case Plus => "+"
    case Minus => "-"
    case Times => "*"
    case Slash => "/"
    case Percent => "%"
    case Caret => "^"
  }

  /** The strings the `switch` of `processSingleToken` has a case for. */
  const SwitchCases: set<string> :=
    {"+", "-", "*", "/", "%", "^", "^=", "+=", "-=", "*=", "/=", "%=", "=", "d", "r"}

  /** A token is a literal exactly when it is no `switch` case and `parseInt`
      accepts it, and then it carries the parsed value; it is unknown exactly
      when it is neither. */
  function Classify(s: string): (r: Token)
    ensures r.Literal? <==> s !in SwitchCases && ParseInt(s).Some?
    ensures r.Literal? ==> ParseInt(s) == Some(r.value)
    ensures r.Unknown? <==> s !in SwitchCases && ParseInt(s).None?
  {
    if s == "+" then Operator(Plus)
    else if s == "-" then Operator(Minus)
    else if s == "*" then Operator(Times)
    else if s == "/" then Operator(Slash)
    else if s == "%" then Operator(Percent)
    else if s == "^" then Operator(Caret)
    else if s == "^=" then Compound(Caret)
    else if s == "+=" then Compound(Plus)
    else if s == "-=" then Compound(Minus)
    else if s == "*=" then Compound(Times)
    else if s == "/=" then Compound(Slash)
    else if s == "%=" then Compound(Percent)
    else if s == "=" then EqualsSign
    else if s == "d" then Display
    else if s == "r" then RandomPush
    else
      match ParseInt(s)
      case Some(v) => Literal(v)
      case None => Unknown
  }

  /** The calculator's state: the stack (bottom first) and how many values
      have been drawn from the random sequence so far. */
  datatype State = State(stack: seq<Int32>, drawn: nat)

  /** One step: the new state, the lines printed, and whether an
      `ArithmeticException` escaped (modulus by zero). */
  datatype Outcome = Outcome(state: State, printed: seq<Line>, faulted: bool)

  /** `push`: a full stack refuses the value and says so. */
  function Pushed(s: seq<Int32>, v: Int32): (r: (seq<Int32>, seq<Line>))
    ensures |s| <= MaxStackSize ==> |r.0| <= MaxStackSize
    ensures r.1 == [] <==> r.0 == s + [v]
    ensures r.1 != [] ==> r.0 == s && r.1 == [StackOverflow] && |s| == MaxStackSize
  {
    if |s| == MaxStackSize then (s, [StackOverflow]) else (s + [v], [])
  }

  /** What `d` prints: the sentinel `MIN_VALUE` for an empty stack, then
      every element from the bottom up. */
  function DisplayLines(s: seq<Int32>): (r: seq<Line>)
    ensures s == [] ==> r == [Number(IntMin)]
    ensures s != [] ==> |r| == |s| && forall k :: 0 <= k < |s| ==> r[k] == Number(s[k])
  {
    (if s == [] then [Number(IntMin)] else []) + Numbers(s)
  }

  function Numbers(s: seq<Int32>): seq<Line>
  {
    seq(|s|, k requires 0 <= k < |s| => Number(s[k]))
  }

  /** An operator token: `echo` is what `equals` printed first (for a
      compound token), then the operator pops, and its returned value is
      pushed back with the stack's own `push`, which has no capacity check. */
  function Apply(st: State, op: Op, echo: seq<Line>): (r: Outcome)
    ensures r.state.drawn == st.drawn
    ensures |r.state.stack| <= |st.stack| || (st.stack == [] && r.state.stack == [0])
    ensures r.faulted ==> op == Percent
  {
    var e := Binary(op, st.stack);
    match e.ret
    case Throws => Outcome(State(e.rest, st.drawn), echo + e.printed, true)
    case Returns(v) => Outcome(State(e.rest + [v], st.drawn), echo + e.printed, false)
  }

  /** Printing `echo` first changes nothing else an operator does. */
  lemma ApplyEcho(st: State, op: Op, echo: seq<Line>)
    ensures var o := Apply(st, op, []);
      Apply(st, op, echo) == Outcome(o.state, echo + o.printed, o.faulted)
  {
  }

  /** `processSingleToken`; `random(k)` is the k-th value the seeded
      generator returns. */
  function Step(st: State, token: string, random: nat -> Draw): (r: Outcome)
    ensures r.state.drawn == st.drawn + (if token == "r" then 1 else 0)
    ensures r.faulted ==> token == "%" || token == "%="
  {
    match Classify(token)
    case Operator(op) => Apply(st, op, [])
    case Compound(op) => Apply(st, op, [EqualsLine(st.stack)])
    case EqualsSign => Outcome(st, [EqualsLine(st.stack)], false)
    case Display => Outcome(st, DisplayLines(st.stack), false)
    case RandomPush =>
      var (s, p) := Pushed(st.stack, random(st.drawn));
      Outcome(State(s, st.drawn + 1), p, false)
    case Literal(v) =>
      var (s, p) := Pushed(st.stack, v);
      Outcome(State(s, st.drawn), p, false)
    case Unknown => Outcome(st, [Unrecognised(token)], false)
  }

  /** Steps taken one token after the other, stopping at the first fault. */
  function Run(st: State, tokens: seq<string>, step: (State, string) -> Outcome): Outcome
    decreases |tokens|
  {
    if tokens == [] then Outcome(st, [], false)
    else
      var o := step(st, tokens[0]);
      if o.faulted then o
      else
        var rest := Run(o.state, tokens[1..], step);
        Outcome(rest.state, o.printed + rest.printed, rest.faulted)
  }

  /** The tokens of a line, one after the other, stopping at a fault. */
  function RunTokens(st: State, tokens: seq<string>, random: nat -> Draw): (r: Outcome)
    ensures tokens == [] ==> r == Outcome(st, [], false)
    ensures |tokens| == 1 ==> r == Step(st, tokens[0], random)
  {
    var step := (s, t) => Step(s, t, random);
    if |tokens| == 1 then RunOne(st, tokens, step); Run(st, tokens, step)
    else Run(st, tokens, step)
  }

  /** A single token is a single step. */
  lemma RunOne(st: State, tokens: seq<string>, step: (State, string) -> Outcome)
    requires |tokens| == 1
    ensures Run(st, tokens, step) == step(st, tokens[0])
  {
    assert tokens[1..] == [];
  }

  /** A whole input line: comments stripped, tokens run in order. */
  function RunLine(st: State, line: string, random: nat -> Draw): (r: Outcome)
    ensures r == RunTokens(st, ScanLine(RemoveComments(line)).tokens, random)
  {
    RunTokens(st, Tokens(RemoveComments(line)), random)
  }

  /** Running a line whose first token is `t`: that token's step, then the
      rest unless it faulted. */
  lemma RunTokensCons(st: State, t: string, ts: seq<string>, random: nat -> Draw)
    ensures var o := Step(st, t, random);
      RunTokens(st, [t] + ts, random)
      == if o.faulted then o
         else
           var r := RunTokens(o.state, ts, random);
           Outcome(r.state, o.printed + r.printed, r.faulted)
  {
    assert ([t] + ts)[0] == t && ([t] + ts)[1..] == ts;
  }

  /** The loop's bookkeeping: running the `pending` tokens from state `cur`
      after the lines `printed` ends where the whole line ends. */
  ghost predicate Accounts(cur: State, printed: seq<Line>, pending: seq<string>,
                           base: seq<Line>, total: Outcome, random: nat -> Draw)
  {
    var r := RunTokens(cur, pending, random);
    && r.state == total.state
    && printed + r.printed == base + total.printed
    && r.faulted == total.faulted
  }

  lemma AccountsStep(cur: State, printed: seq<Line>, t: string, ts: seq<string>,
                     base: seq<Line>, total: Outcome, random: nat -> Draw)
    requires Accounts(cur, printed, [t] + ts, base, total, random)
    ensures var o := Step(cur, t, random);
      if o.faulted then
        o.state == total.state && printed + o.printed == base + total.printed && total.faulted
      else
        Accounts(o.state, printed + o.printed, ts, base, total, random)
  {
    RunTokensCons(cur, t, ts, random);
  }

  /** No token takes a stack of at most `MaxStackSize` elements above it. */
  lemma StepKeepsBound(st: State, token: string, random: nat -> Draw)
    requires |st.stack| <= MaxStackSize
    ensures |Step(st, token, random).state.stack| <= MaxStackSize
  {
    match Classify(token)
    case Operator(op) => BinaryProtocol(op, st.stack);
    case Compound(op) => BinaryProtocol(op, st.stack);
    case _ =>
  }

  /** How a line ends: normally, with the escaped `ArithmeticException`, or
      not at all (the scanning loop spins). */
  datatype LineResult = Completed | Faulted | Hangs

  class Srpn {
    const stack: IntStack
    const console: Console
    const random: nat -> Draw
    var drawn: nat

    ghost function Current(): State
      reads this, stack
    {
      State(stack.items, drawn)
    }

    /** The stack never holds more than `MAX_STACK_SIZE` elements. */
    ghost predicate Valid()
      reads this, stack
    {
      |stack.items| <= MaxStackSize
    }

    constructor (random: nat -> Draw)
      ensures Valid() && Current() == State([], 0) && console.lines == []
      ensures this.random == random
    {
      stack := new IntStack();
      console := new Console();
      this.random := random;
      drawn := 0;
    }

    /** `push`: refuses at `MAX_STACK_SIZE`, otherwise the value becomes the
        new top. */
    method Push(i: Int32)
      modifies stack, console
      ensures stack.items == Pushed(old(stack.items), i).0
      ensures console.lines == old(console.lines) + Pushed(old(stack.items), i).1
    {
      if stack.Size() == MaxStackSize {
        console.Println(StackOverflow);
      } else {
        stack.Push(i);
      }
    }

    /** `displayStack`: the sentinel for an empty stack, then a for-each over
        the stack from the bottom up. */
    method DisplayStack()
      modifies console
      ensures console.lines == old(console.lines) + DisplayLines(stack.items)
    {
      if stack.Size() == 0 {
        console.Println(Number(IntMin));
      }
      ghost var head := console.lines;
      var i := 0;
      while i < stack.Size()
        invariant 0 <= i <= |stack.items|
        invariant head == old(console.lines) + (if stack.items == [] then [Number(IntMin)] else [])
        invariant console.lines == head + Numbers(stack.items[..i])
      {
        console.Println(Number(stack.items[i]));
        assert Numbers(stack.items[..i + 1]) == Numbers(stack.items[..i]) + [Number(stack.items[i])];
        i := i + 1;
      }
      assert stack.items[..i] == stack.items;
    }

    /** One arm of the `switch` in `processSingleToken` for an operator: the
        operation pops its operands, and what it returns is pushed back. */
    method ApplyOperator(op: Op) returns (faulted: bool)
      modifies stack, console
      ensures var o := Apply(old(Current()), op, []);
        Current() == o.state && console.lines == old(console.lines) + o.printed && faulted == o.faulted
    {
      faulted := false;
      match op
      case Plus =>
        var r := Add(stack, console);
        stack.Push(r);
      case Minus =>
        var r := Subtract(stack, console);
        stack.Push(r);
      case Times =>
        var r := Multiply(stack, console);
        stack.Push(r);
      case Slash =>
        var r := Divide(stack, console);
        stack.Push(r);
      case Percent =>
        var r := Modulus(stack, console);
        if r.Throws? {
          faulted := true;
        } else {
          stack.Push(r.value);
        }
      case Caret =>
        var r := Power(stack, console);
        stack.Push(r);
    }

    /** `processSingleToken`: the `switch` on the token's text, then
        `parseInt` and the "Unrecognised" diagnostic. */
    method ProcessSingleToken(s: string) returns (faulted: bool)
      modifies this, stack, console
      ensures var o := Step(old(Current()), s, random);
        Current() == o.state && console.lines == old(console.lines) + o.printed && faulted == o.faulted
      ensures old(Valid()) ==> Valid()
    {
      ghost var before := Current();
      faulted := false;
      match Classify(s) {
        case Operator(op) =>
          faulted := ApplyOperator(op);
        case Compound(op) =>
          Equals(stack, console);
          ghost var echoed := console.lines;
          ApplyEcho(before, op, [EqualsLine(before.stack)]);
          faulted := ApplyOperator(op);
          assert console.lines == echoed + Apply(before, op, []).printed;
        case EqualsSign =>
          Equals(stack, console);
        case Display =>
          DisplayStack();
        case RandomPush =>
          var v := random(drawn);
          drawn := drawn + 1;
          Push(v);
        case Literal(i) =>
          Push(i);
        case Unknown =>
          console.Println(Unrecognised(s));
      }
      if |before.stack| <= MaxStackSize {
        StepKeepsBound(before, s, random);
      }
    }

    /** `processCommand`: strip comments, then repeat `hasNext` and
        `findInLine` and hand each token found to `processSingleToken`. */
    method ProcessCommand(s: string) returns (result: LineResult)
      requires PlainLine(s)
      modifies this, stack, console
      ensures var clean := RemoveComments(s);
        var run := RunTokens(old(Current()), Tokens(clean), random);
        && Current() == run.state
        && console.lines == old(console.lines) + run.printed
        && result == (if run.faulted then Faulted else if ScanLine(clean).hangs then Hangs else Completed)
      ensures old(Valid()) ==> Valid()
    {
      var cleanToken := RemoveComments(s);
      if s == [] {
        assert cleanToken == [] && Tokens(cleanToken) == [];
        return Completed;
      }
      ghost var total := RunTokens(Current(), Tokens(cleanToken), random);
      var position := 0;
      var delimiterSet := false;
      result := Completed;
      while HasNext(cleanToken, position, delimiterSet)
        invariant position <= |cleanToken|
        invariant ScanFrom(cleanToken, position, delimiterSet).hangs == ScanLine(cleanToken).hangs
        invariant Accounts(Current(), console.lines, ScanFrom(cleanToken, position, delimiterSet).tokens,
                           old(console.lines), total, random)
        invariant old(Valid()) ==> Valid()
        decreases |cleanToken| - position
      {
        ghost var scan := ScanFrom(cleanToken, position, delimiterSet);
        delimiterSet := true;
        var found := FindInLine(cleanToken, position);
        if found.None? {
          // Nothing moved: `hasNext` keeps answering true and `findInLine`
          // keeps finding nothing, so the Java loop never ends.
          result := Hangs;
          break;
        }
        var (start, end) := found.value;
        var token := cleanToken[start..end];
        ghost var rest := ScanFrom(cleanToken, end, true);
        assert scan == Scan([token] + rest.tokens, rest.hangs);
        AccountsStep(Current(), console.lines, token, rest.tokens, old(console.lines), total, random);
        position := end;
        var faulted := ProcessSingleToken(token);
        if faulted {
          result := Faulted;
          break;
        }
      }
    }
  }
}
