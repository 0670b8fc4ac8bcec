/** The part of `java.util.Stack<Integer>` the calculator uses. Element 0 of
    `items` is the bottom, the last element the top: the order in which the
    underlying `Vector` is iterated. */
module JavaStack {
  import opened JavaInt
  import opened Wrappers

  class IntStack {
    var items: seq<Int32>

    constructor ()
      ensures items == []
    {
      items := [];
    }

    function Size(): (n: nat)
      reads this
      ensures n == |items|
    {
      |items|
    }

    method Push(x: Int32)
      modifies this
      ensures items == old(items) + [x]
    {
      items := items + [x];
    }

    /** `pop()`; `None` stands for the `EmptyStackException` it throws on an
        empty stack, which leaves the stack as it was. */
    method Pop() returns (r: Option<Int32>)
      modifies this
      ensures old(items) == [] ==> r == None && items == []
      ensures old(items) != [] ==>
        r == Some(old(items)[|old(items)| - 1]) && items == old(items)[..|old(items)| - 1]
    {
      if items == [] {
        r := None;
      } else {
        r := Some(items[|items| - 1]);
        items := items[..|items| - 1];
      }
    }

    /** `peek()`; `None` stands for the `EmptyStackException`. */
    method Peek() returns (r: Option<Int32>)
      ensures r == (if items == [] then None else Some(items[|items| - 1]))
    {
      r := if items == [] then None else Some(items[|items| - 1]);
    }
  }
}
