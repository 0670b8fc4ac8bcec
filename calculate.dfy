/** The arithmetic helper of the calculator (`Calculate.java`). Each binary
    operator pops its operands from the shared stack and returns the value
    that the caller pushes back; when the stack runs short it prints
    "Stack underflow." and returns the operand it already popped (0 if none),
    so that the caller's push restores the stack. */
module Calculate {
  import opened JavaInt
  import opened Output
  import opened JavaStack

  /** The six binary operators, named by their symbols `+ - * / % ^`. */
  datatype Op = Plus | Minus | Times | Slash | Percent | Caret

  // ---------------------------------------------------------------------
  // The numeric result of each operator once both operands are popped:
  // `b` was beneath `a`, and the result is `b op a`.
  // ---------------------------------------------------------------------

  /** `add`: saturates only upwards; a sum below `MIN_VALUE` wraps around. */
  function AddResult(b: Int32, a: Int32): (r: Int32)
    ensures b + a >= IntMin ==> r == Clamp(b + a)
    ensures b + a < IntMin ==> r == b + a + TwoTo32
  {
    if b + a > IntMax then IntMax else Wrap(b + a)
  }

  /** `subtract`: saturates only downwards; a difference above `MAX_VALUE`
      wraps around. */
  function SubtractResult(b: Int32, a: Int32): (r: Int32)
    ensures b - a <= IntMax ==> r == Clamp(b - a)
    ensures b - a > IntMax ==> r == b - a - TwoTo32
  {
    if b - a < IntMin then IntMin else Wrap(b - a)
  }

  /** `multiply`: saturates in both directions. */
  function MultiplyResult(b: Int32, a: Int32): (r: Int32)
    ensures r == Clamp(b * a)
  {
    if b * a < IntMin then IntMin else if b * a > IntMax then IntMax else Wrap(b * a)
  }

  /** Java's `b / a` on `int`: truncated toward zero, and the one quotient
      that does not fit, `MIN_VALUE / -1`, wraps back to `MIN_VALUE`. */
  function DivideResult(b: Int32, a: Int32): (r: Int32)
    requires a != 0
    ensures !(b == IntMin && a == -1) ==> r == TruncDiv(b, a)
    ensures b == IntMin && a == -1 ==> r == IntMin
  {
    var q := TruncDiv(b, a);
    if b == IntMin && a == -1 then Wrap(q)
    else QuotientFits(b, a); Wrap(q)
  }

  lemma QuotientFits(b: Int32, a: Int32)
    requires a != 0 && !(b == IntMin && a == -1)
    ensures InRange(TruncDiv(b, a))
  {
    var q := TruncDiv(b, a);
    MulAtLeast(Abs(q), Abs(a));
    if Abs(q) == TwoTo32 / 2 {
      assert Abs(b) == TwoTo32 / 2;
      assert Abs(a) == 1;
      assert b == IntMin && a == 1;
    }
  }

  lemma MulAtLeast(x: nat, y: int)
    requires y >= 1
    ensures x <= x * y
  {
    assert x * y == x * (y - 1) + x;
  }

  /** Java's `b % a` on `int`: never out of range. */
  function RemainderResult(b: Int32, a: Int32): (r: Int32)
    requires a != 0
    ensures b == TruncDiv(b, a) * a + r
    ensures Abs(r) < Abs(a) && (r != 0 ==> (r > 0 <==> b > 0))
  {
    TruncRem(b, a)
  }

  /** `power`: `Math.pow(b, a)` compared with the `int` bounds and cast with
      `(int)`. For `a >= 0` the double is the exact power whenever that fits
      in 53 bits and is beyond the `int` range otherwise, so the result is the
      saturated integer power. For `a < 0` the power is a fraction that the
      cast truncates to 0, except for a base of 1 or -1 (the power itself) and
      a base of 0 (positive infinity, saturated to `MAX_VALUE`). */
  function PowerResult(b: Int32, a: Int32): (r: Int32)
    ensures a >= 0 ==> r == Clamp(IntPow(b, a))
    ensures a < 0 && b == 0 ==> r == IntMax
    ensures a < 0 && Abs(b) == 1 ==> r == IntPow(b, Abs(a))
    ensures a < 0 && Abs(b) >= 2 ==> r == 0
  {
    if a >= 0 then Clamp(IntPow(b, a))
    else if b == 0 then IntMax
    else if Abs(b) == 1 then
      UnitPow(b, Abs(a));
      if a % 2 == 0 then 1 else b
    else 0
  }

  /** Powers of 1 and -1 alternate with the parity of the exponent. */
  lemma {:induction false} UnitPow(b: int, k: nat)
    requires b == 1 || b == -1
    ensures IntPow(b, k) == if k % 2 == 0 then 1 else b
  {
    if k > 0 {
      UnitPow(b, k - 1);
    }
  }

  /** What an operator produces once both operands are popped; `Throws` is
      the `ArithmeticException` of an `int` division or remainder by zero. */
  datatype Ret = Returns(value: Int32) | Throws

  function Operate(op: Op, b: Int32, a: Int32): (r: Ret)
    ensures r.Throws? <==> (op == Slash || op == Percent) && a == 0
  {
    match op
    case Plus => Returns(AddResult(b, a))
    case Minus => Returns(SubtractResult(b, a))
    case Times => Returns(MultiplyResult(b, a))
    case Slash => if a == 0 then Throws else Returns(DivideResult(b, a))
    case Percent => if a == 0 then Throws else Returns(RemainderResult(b, a))
    case Caret => Returns(PowerResult(b, a))
  }

  // ---------------------------------------------------------------------
  // The stack protocol.
  // ---------------------------------------------------------------------

  /** The effect of one operator call on the stack `s` (bottom first): what
      is left on the stack, what was printed, and what was returned. */
  datatype Effect = Effect(rest: seq<Int32>, printed: seq<Line>, ret: Ret)

  function Binary(op: Op, s: seq<Int32>): (e: Effect)
    ensures |s| - 2 <= |e.rest| <= |s| && e.rest == s[..|e.rest|]
    ensures s == [] ==> e == Effect([], [StackUnderflow], Returns(0))
    ensures s != [] ==> |e.rest| < |s|
    ensures |e.printed| <= 1
    ensures e.ret.Throws? ==> op == Percent
  {
    if |s| == 0 then Effect([], [StackUnderflow], Returns(0))
    else
      var a := s[|s| - 1];
      if op == Slash && a == 0 then Effect(s[..|s| - 1], [DivideByZero], Returns(a))
      else if |s| == 1 then Effect([], [StackUnderflow], Returns(a))
      else
        var b := s[|s| - 2];
        if op == Slash && b == 0 then Effect(s[..|s| - 1], [DivideByZero], Returns(a))
        else Effect(s[..|s| - 2], [], Operate(op, b, a))
  }

  /** The stack once the caller has pushed the returned value back. */
  function Restored(e: Effect): seq<Int32>
    requires e.ret.Returns?
  {
    e.rest + [e.ret.value]
  }

  /** An operator only pops: what is left is the stack minus its top one or
      two elements; it pops two exactly when it computes, and an underflow or
      a divide guard returns the popped top, so pushing it back restores the
      stack (or leaves a lone 0 where the stack was empty). */
  lemma BinaryProtocol(op: Op, s: seq<Int32>)
    ensures var e := Binary(op, s);
      && e.rest == s[..|e.rest|]
      && (s == [] ==> e.rest == [] && e.printed == [StackUnderflow] && e.ret == Returns(0))
      && (s != [] ==> |s| - 2 <= |e.rest| < |s|)
      && |e.printed| <= 1
      && (e.printed == [] <==> |e.rest| == |s| - 2)
      && (e.printed != [] ==> e.ret.Returns? && Restored(e) == (if s == [] then [0] else s))
      && (e.printed == [] ==> e.ret == Operate(op, s[|s| - 2], s[|s| - 1]))
  {
  }

  /** With two operands, `/` computes exactly when neither is zero. */
  lemma DivideGuard(s: seq<Int32>)
    requires |s| >= 2
    ensures var e := Binary(Slash, s);
      (s[|s| - 1] == 0 || s[|s| - 2] == 0) <==> e.printed == [DivideByZero]
  {
  }

  // ---------------------------------------------------------------------
  // The methods, which pop the shared stack in place and print.
  // ---------------------------------------------------------------------

  method Add(stack: IntStack, console: Console) returns (r: Int32)
    modifies stack, console
    ensures var e := Binary(Plus, old(stack.items));
      stack.items == e.rest && console.lines == old(console.lines) + e.printed && e.ret == Returns(r)
  {
    var num1: Int32 := 0;
    var first := stack.Pop();
    if first.None? {
      console.Println(StackUnderflow);
      return num1;
    }
    num1 := first.value;
    var second := stack.Pop();
    if second.None? {
      console.Println(StackUnderflow);
      return num1;
    }
    var num2 := second.value;
    if num2 + num1 > IntMax {
      r := IntMax;
    } else {
      r := Wrap(num2 + num1);
    }
  }

  method Subtract(stack: IntStack, console: Console) returns (r: Int32)
    modifies stack, console
    ensures var e := Binary(Minus, old(stack.items));
      stack.items == e.rest && console.lines == old(console.lines) + e.printed && e.ret == Returns(r)
  {
    var num1: Int32 := 0;
    var first := stack.Pop();
    if first.None? {
      console.Println(StackUnderflow);
      return num1;
    }
    num1 := first.value;
    var second := stack.Pop();
    if second.None? {
      console.Println(StackUnderflow);
      return num1;
    }
    var num2 := second.value;
    if num2 - num1 < IntMin {
      r := IntMin;
    } else {
      r := Wrap(num2 - num1);
    }
  }

  method Multiply(stack: IntStack, console: Console) returns (r: Int32)
    modifies stack, console
    ensures var e := Binary(Times, old(stack.items));
      stack.items == e.rest && console.lines == old(console.lines) + e.printed && e.ret == Returns(r)
  {
    var num1: Int32 := 0;
    var first := stack.Pop();
    if first.None? {
      console.Println(StackUnderflow);
      return num1;
    }
    num1 := first.value;
    var second := stack.Pop();
    if second.None? {
      console.Println(StackUnderflow);
      return num1;
    }
    var num2 := second.value;
    if num2 * num1 < IntMin {
      r := IntMin;
    } else if num2 * num1 > IntMax {
      r := IntMax;
    } else {
      r := Wrap(num2 * num1);
    }
  }

  /** `divide` looks beneath the popped top before popping again: a zero on
      either side prints "Divide by 0." and returns the top. */
  method Divide(stack: IntStack, console: Console) returns (r: Int32)
    modifies stack, console
    ensures var e := Binary(Slash, old(stack.items));
      stack.items == e.rest && console.lines == old(console.lines) + e.printed && e.ret == Returns(r)
  {
    var num1: Int32 := 0;
    var first := stack.Pop();
    if first.None? {
      console.Println(StackUnderflow);
      return num1;
    }
    num1 := first.value;
    if num1 != 0 {
      var beneath := stack.Peek();
      if beneath.None? {
        console.Println(StackUnderflow);
        return num1;
      }
      if beneath.value != 0 {
        var second := stack.Pop();
        r := DivideResult(second.value, num1);
        return;
      }
    }
    console.Println(DivideByZero);
    r := num1;
  }

  /** `modulus` has no zero guard: a zero divisor throws once both operands
      are popped, and nothing is returned. */
  method Modulus(stack: IntStack, console: Console) returns (r: Ret)
    modifies stack, console
    ensures var e := Binary(Percent, old(stack.items));
      stack.items == e.rest && console.lines == old(console.lines) + e.printed && e.ret == r
  {
    var num1: Int32 := 0;
    var first := stack.Pop();
    if first.None? {
      console.Println(StackUnderflow);
      return Returns(num1);
    }
    num1 := first.value;
    var second := stack.Pop();
    if second.None? {
      console.Println(StackUnderflow);
      return Returns(num1);
    }
    var num2 := second.value;
    if num1 == 0 {
      return Throws;
    }
    r := Returns(RemainderResult(num2, num1));
  }

  method Power(stack: IntStack, console: Console) returns (r: Int32)
    modifies stack, console
    ensures var e := Binary(Caret, old(stack.items));
      stack.items == e.rest && console.lines == old(console.lines) + e.printed && e.ret == Returns(r)
  {
    var num1: Int32 := 0;
    var first := stack.Pop();
    if first.None? {
      console.Println(StackUnderflow);
      return num1;
    }
    num1 := first.value;
    var second := stack.Pop();
    if second.None? {
      console.Println(StackUnderflow);
      return num1;
    }
    var num2 := second.value;
    r := PowerResult(num2, num1);
  }

  /** The line `equals` prints for the stack `s`. */
  function EqualsLine(s: seq<Int32>): (l: Line)
    ensures l == StackEmpty <==> s == []
    ensures s != [] ==> l == Number(s[|s| - 1])
  {
    if s == [] then StackEmpty else Number(s[|s| - 1])
  }

  /** `equals` prints the top without popping it, or "Stack empty.". */
  method Equals(stack: IntStack, console: Console)
    modifies console
    ensures console.lines == old(console.lines) + [EqualsLine(stack.items)]
  {
    var top := stack.Peek();
    if top.None? {
      console.Println(StackEmpty);
    } else {
      console.Println(Number(top.value));
    }
  }
}
