/** What the calculator promises, stated over `Step`, `RunTokens` and
    `RunLine`: the stack bound, the operator protocol seen from a token, the
    divide and modulus guards, the assignment forms, `=`, `d`, `r`, literal
    pushes and the "Unrecognised" diagnostic, and how lines compose. */
module Properties {
  import opened JavaInt
  import opened Numeral
  import opened Output
  import opened Calculate
  import opened Tokenizer
  import opened Interpreter

  /** The operator symbols and their `op=` forms are read as such. */
  lemma ClassifySymbol(op: Op)
    ensures Classify(Symbol(op)) == Operator(op)
    ensures Classify(Symbol(op) + "=") == Compound(op)
  {
    match op
    case Plus => assert Symbol(op) + "=" == "+=";
    case Minus => assert Symbol(op) + "=" == "-=";
    case Times => assert Symbol(op) + "=" == "*=";
    case Slash => assert Symbol(op) + "=" == "/=";
    case Percent => assert Symbol(op) + "=" == "%=";
    case Caret => assert Symbol(op) + "=" == "^=";
  }

  /** A line never takes the stack above `MAX_STACK_SIZE`. */
  lemma {:induction false} RunTokensKeepsBound(st: State, tokens: seq<string>, random: nat -> Draw)
    requires |st.stack| <= MaxStackSize
    ensures |RunTokens(st, tokens, random).state.stack| <= MaxStackSize
    decreases |tokens|
  {
    if tokens != [] {
      StepKeepsBound(st, tokens[0], random);
      var o := Step(st, tokens[0], random);
      if !o.faulted {
        RunTokensKeepsBound(o.state, tokens[1..], random);
      }
    }
  }

  lemma RunLineKeepsBound(st: State, line: string, random: nat -> Draw)
    requires |st.stack| <= MaxStackSize
    ensures |RunLine(st, line, random).state.stack| <= MaxStackSize
  {
    RunTokensKeepsBound(st, Tokens(RemoveComments(line)), random);
  }

  /** Running two token sequences one after the other is running their
      concatenation, unless the first one faults. */
  lemma {:induction false} RunAppend(st: State, xs: seq<string>, ys: seq<string>,
                                     step: (State, string) -> Outcome)
    ensures var r := Run(st, xs, step);
      Run(st, xs + ys, step)
      == if r.faulted then r
         else
           var r2 := Run(r.state, ys, step);
           Outcome(r2.state, r.printed + r2.printed, r2.faulted)
    decreases |xs|
  {
    if xs == [] {
      assert xs + ys == ys;
    } else {
      assert (xs + ys)[0] == xs[0];
      assert (xs + ys)[1..] == xs[1..] + ys;
      var o := step(st, xs[0]);
      if !o.faulted {
        RunAppend(o.state, xs[1..], ys, step);
      }
    }
  }

  /** A line behaves exactly like its comment-free version. */
  lemma RunLineIgnoresComments(st: State, line: string, random: nat -> Draw)
    ensures RunLine(st, RemoveComments(line), random) == RunLine(st, line, random)
  {
    RemoveCommentsIdempotent(line);
  }

  /** An operator with fewer than two operands reports the underflow and
      leaves the stack as it was, except that an empty stack receives a 0;
      `/` on a lone 0 reports the division instead. */
  lemma OperatorOnShortStack(st: State, op: Op, random: nat -> Draw)
    requires |st.stack| <= 1
    ensures var o := Step(st, Symbol(op), random);
      && !o.faulted
      && o.state == State(if st.stack == [] then [0] else st.stack, st.drawn)
      && o.printed == (if op == Slash && st.stack == [0] then [DivideByZero] else [StackUnderflow])
  {
    ClassifySymbol(op);
  }

  /** With two operands and no divide guard, an operator replaces them by
      its result, or faults (and has popped both) on `%` by zero. */
  lemma OperatorComputes(st: State, op: Op, random: nat -> Draw)
    requires |st.stack| >= 2
    requires op == Slash ==> st.stack[|st.stack| - 1] != 0 && st.stack[|st.stack| - 2] != 0
    ensures var n := |st.stack|;
      var o := Step(st, Symbol(op), random);
      var ret := Operate(op, st.stack[n - 2], st.stack[n - 1]);
      && o.printed == []
      && o.faulted == ret.Throws?
      && o.state == State(st.stack[..n - 2] + (if ret.Throws? then [] else [ret.value]), st.drawn)
  {
    ClassifySymbol(op);
    var s := st.stack;
    var ret := Operate(op, s[|s| - 2], s[|s| - 1]);
    assert Binary(op, s) == Effect(s[..|s| - 2], [], ret);
    var o := Apply(st, op, []);
    assert Step(st, Symbol(op), random) == o;
    if ret.Throws? {
      assert s[..|s| - 2] + [] == s[..|s| - 2];
    }
  }

  /** `/` with a zero on top, or with a zero beneath a nonzero top, prints
      "Divide by 0." and leaves the stack unchanged. */
  lemma DivideByZeroKeepsStack(st: State, random: nat -> Draw)
    requires st.stack != []
    requires st.stack[|st.stack| - 1] == 0 || (|st.stack| >= 2 && st.stack[|st.stack| - 2] == 0)
    ensures Step(st, "/", random) == Outcome(st, [DivideByZero], false)
  {
    ClassifySymbol(Slash);
    var s := st.stack;
    var e := Binary(Slash, s);
    assert e == Effect(s[..|s| - 1], [DivideByZero], Returns(s[|s| - 1]));
    assert Restored(e) == s;
  }

  /** `%` by zero pops both operands and the `ArithmeticException` escapes:
      nothing is printed and the rest of the line is abandoned. */
  lemma ModulusByZeroFaults(st: State, random: nat -> Draw)
    requires |st.stack| >= 2 && st.stack[|st.stack| - 1] == 0
    ensures var o := Step(st, "%", random);
      o.faulted && o.printed == [] && o.state == State(st.stack[..|st.stack| - 2], st.drawn)
  {
  }

  /** `op=` prints the top as `=` would, then acts as `op`. */
  lemma CompoundEchoesThenOperates(st: State, op: Op, random: nat -> Draw)
    ensures var o := Step(st, Symbol(op), random);
      Step(st, Symbol(op) + "=", random) == Outcome(o.state, [EqualsLine(st.stack)] + o.printed, o.faulted)
  {
    ClassifySymbol(op);
  }

  /** `=` prints the top, or "Stack empty.", and changes nothing. */
  lemma EqualsShowsTop(st: State, random: nat -> Draw)
    ensures Step(st, "=", random)
         == Outcome(st, [if st.stack == [] then StackEmpty else Number(st.stack[|st.stack| - 1])], false)
  {
  }

  /** `d` prints the stack from the bottom up, or `MIN_VALUE` when it is
      empty, and changes nothing. */
  lemma DisplayShowsStack(st: State, random: nat -> Draw)
    ensures var o := Step(st, "d", random);
      && o.state == st && !o.faulted
      && (st.stack == [] ==> o.printed == [Number(IntMin)])
      && (st.stack != [] ==>
            |o.printed| == |st.stack| && forall k :: 0 <= k < |st.stack| ==> o.printed[k] == Number(st.stack[k]))
  {
  }

  /** `r` pushes the next value of the random sequence, unless the stack is
      full. */
  lemma RandomPushes(st: State, random: nat -> Draw)
    ensures var o := Step(st, "r", random);
      && !o.faulted && o.state.drawn == st.drawn + 1
      && (|st.stack| == MaxStackSize ==> o.state.stack == st.stack && o.printed == [StackOverflow])
      && (|st.stack| != MaxStackSize ==> o.state.stack == st.stack + [random(st.drawn)] && o.printed == [])
  {
  }

  /** A number, written as `println` would print it, is pushed, unless the
      stack is full. */
  lemma LiteralPushes(st: State, n: Int32, random: nat -> Draw)
    ensures var o := Step(st, Show(n), random);
      && !o.faulted && o.state.drawn == st.drawn
      && (|st.stack| == MaxStackSize ==> o.state.stack == st.stack && o.printed == [StackOverflow])
      && (|st.stack| != MaxStackSize ==> o.state.stack == st.stack + [n] && o.printed == [])
  {
    ClassifyShow(n);
  }

  /** The printed form of a number is read back as that number, never as an
      operator or command. */
  lemma ClassifyShow(n: Int32)
    ensures Classify(Show(n)) == Literal(n)
  {
    ParseShow(n);
    var t := Show(n);
    var m: int := n;
    if m < 0 {
      var d := Digits(-m);
      assert t == "-" + d;
      assert |t| >= 2 && t[1] == d[0] && IsDigit(t[1]);
    } else {
      assert IsDigit(t[0]);
    }
  }

  /** A numeral outside the `int` range is not a number: it is reported as
      unrecognised and changes nothing. */
  lemma OutOfRangeUnrecognised(st: State, d: string, random: nat -> Draw)
    requires 1 <= |d| && AllDigits(d)
    ensures DigitsValue(d) > IntMax ==> Step(st, d, random) == Outcome(st, [Unrecognised(d)], false)
    ensures DigitsValue(d) > IntMax + 1 ==>
      Step(st, "-" + d, random) == Outcome(st, [Unrecognised("-" + d)], false)
  {
    if DigitsValue(d) > IntMax {
      UnsignedUnknown(d);
    }
    if DigitsValue(d) > IntMax + 1 {
      NegativeUnknown(d);
    }
  }

  lemma UnsignedUnknown(d: string)
    requires 1 <= |d| && AllDigits(d) && DigitsValue(d) > IntMax
    ensures Classify(d) == Unknown
  {
    assert IsDigit(d[0]);
    ParseDigits(d);
  }

  lemma NegativeUnknown(d: string)
    requires 1 <= |d| && AllDigits(d) && DigitsValue(d) > IntMax + 1
    ensures Classify("-" + d) == Unknown
  {
    var t := "-" + d;
    assert t[0] == '-' && t[1] == d[0] && IsDigit(t[1]) && t[1..] == d;
  }

  /** Any other single character is reported and ignored. */
  lemma UnknownCharacterIgnored(st: State, ch: char, random: nat -> Draw)
    requires ' ' < ch <= '~'
    requires ch !in "+-*/%^=dr" && !IsDigit(ch)
    ensures Step(st, [ch], random) == Outcome(st, [Unrecognised([ch])], false)
  {
    var t := [ch];
    assert t[0] == ch && !IsDigit(t[0]);
  }

  /** Addition saturates at `MAX_VALUE`, but a sum below `MIN_VALUE` wraps
      round to the top of the range. */
  lemma AdditionExamples(random: nat -> Draw)
    ensures Step(State([IntMax, 1], 0), "+", random).state.stack == [IntMax]
    ensures Step(State([IntMin, -1], 0), "+", random).state.stack == [IntMax]
  {
    OperatorComputes(State([IntMax, 1], 0), Plus, random);
    OperatorComputes(State([IntMin, -1], 0), Plus, random);
  }

  /** Multiplication saturates both ways. */
  lemma MultiplicationExamples(random: nat -> Draw)
    ensures Step(State([IntMax, 2], 0), "*", random).state.stack == [IntMax]
    ensures Step(State([IntMin, 2], 0), "*", random).state.stack == [IntMin]
  {
    OperatorComputes(State([IntMax, 2], 0), Times, random);
    OperatorComputes(State([IntMin, 2], 0), Times, random);
  }

  /** `5 3 +` leaves 8 on the stack and prints nothing. */
  lemma SumLineExample(random: nat -> Draw)
    ensures RunLine(State([], 0), "5 3 +", random) == Outcome(State([8], 0), [], false)
  {
    SumLineTokens();
    SumTokensRun(random);
  }

  lemma SumLineTokens()
    ensures Tokens(RemoveComments("5 3 +")) == ["5", "3", "+"]
  {
    var c := "5 3 +";
    assert RemoveComments(c) == c;
    assert SkipSpaces(c, 0) == 0 && TokenEnd(c, 0) == 1 && c[0..1] == "5";
    assert SkipSpaces(c, 1) == 2 && TokenEnd(c, 2) == 3 && c[2..3] == "3";
    assert SkipSpaces(c, 3) == 4 && TokenEnd(c, 4) == 5 && c[4..5] == "+";
    assert TokensFrom(c, 5) == [];
  }

  lemma SumTokensRun(random: nat -> Draw)
    ensures RunTokens(State([], 0), ["5", "3", "+"], random) == Outcome(State([8], 0), [], false)
  {
    var done := Outcome(State([8], 0), [], false);
    OperatorComputes(State([5, 3], 0), Plus, random);
    assert Step(State([5, 3], 0), "+", random) == done;
    RunTokensCons(State([5, 3], 0), "+", [], random);
    assert RunTokens(State([5, 3], 0), ["+"], random) == done;
    assert Show(3) == "3";
    LiteralPushes(State([5], 0), 3, random);
    assert Step(State([5], 0), "3", random) == Outcome(State([5, 3], 0), [], false);
    RunTokensCons(State([5], 0), "3", ["+"], random);
    assert RunTokens(State([5], 0), ["3", "+"], random) == done;
    assert Show(5) == "5";
    LiteralPushes(State([], 0), 5, random);
    assert Step(State([], 0), "5", random) == Outcome(State([5], 0), [], false);
    RunTokensCons(State([], 0), "5", ["3", "+"], random);
  }

  /** A comment between two operands is removed before the line is split:
      `5 #ignore this# 3 +` is `5  3 +`, and leaves 8. */
  lemma CommentedSumExample(random: nat -> Draw)
    ensures RemoveComments("5 #ignore this# 3 +") == "5  3 +"
    ensures RunLine(State([], 0), "5 #ignore this# 3 +", random) == Outcome(State([8], 0), [], false)
  {
    CommentStripExample();
    DoubleSpacedSumTokens();
    SumTokensRun(random);
  }

  lemma CommentStripExample()
    ensures RemoveComments("5 #ignore this# 3 +") == "5  3 +"
  {
    var line := "5 #ignore this# 3 +";
    RemoveCommentsCuts(line, 2, 14);
    assert line[..2] + line[15..] == "5  3 +";
  }

  lemma DoubleSpacedSumTokens()
    ensures Tokens("5  3 +") == ["5", "3", "+"]
  {
    var c := "5  3 +";
    assert SkipSpaces(c, 0) == 0 && TokenEnd(c, 0) == 1 && c[0..1] == "5";
    assert SkipSpaces(c, 1) == 3 && TokenEnd(c, 3) == 4 && c[3..4] == "3";
    assert SkipSpaces(c, 4) == 5 && TokenEnd(c, 5) == 6 && c[5..6] == "+";
    assert TokensFrom(c, 6) == [];
  }
}
