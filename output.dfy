/** What the calculator prints with `System.out.println`: one `Line` per call,
    recorded by a `Console` in the order printed. */
module Output {
  import opened JavaInt
  import opened Numeral
  import opened Wrappers

  datatype Line =
    | Number(n: Int32)            // an `int` printed by `=`, a compound token or `d`
    | StackUnderflow
    | StackOverflow
    | StackEmpty
    | DivideByZero
    | Unrecognised(token: string)

  /** The exact text of a printed line. A printed number, typed back in as a
      token, parses to the same `int`; no diagnostic parses as a number. */
  function Text(l: Line): (t: string)
    ensures l.Number? ==> ParseInt(t) == Some(l.n)
    ensures !l.Number? ==> ParseInt(t).None?
  {
    match l
    case Number(n) => ParseShow(n); Show(n)
    case StackUnderflow => NotANumber("Stack underflow."); "Stack underflow."
    case StackOverflow => NotANumber("Stack Overflow."); "Stack Overflow."
    case StackEmpty => NotANumber("Stack empty."); "Stack empty."
    case DivideByZero => NotANumber("Divide by 0."); "Divide by 0."
    case Unrecognised(t) =>
      var u := "Unrecognised operator or operand \"" + t + "\".";
      NotANumber(u);
      u
  }

  /** Text that starts with a letter is not a number. */
  lemma NotANumber(t: string)
    requires |t| >= 1 && ('A' <= t[0] <= 'Z' || 'a' <= t[0] <= 'z')
    ensures ParseInt(t).None?
  {
    assert !IsDigit(t[0]);
  }

  /** Standard output. */
  class Console {
    var lines: seq<Line>

    constructor ()
      ensures lines == []
    {
      lines := [];
    }

    method Println(l: Line)
      modifies this
      ensures lines == old(lines) + [l]
    {
      lines := lines + [l];
    }
  }
}
