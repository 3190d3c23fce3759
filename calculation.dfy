/** One recorded calculation, calculator/calculation.py: two operands and a
    reference to one of the four functions of calculator/operations.py. */
module Calculation {
  import Operations

  /** Which function of calculator/operations.py a calculation refers to. */
  datatype Op = Add | Subtract | Multiply | Divide

  /** The Python `__name__` of the referenced function: a non-empty
      identifier, so it holds no comma or parenthesis. */
  function Name(op: Op): (n: string)
    ensures |n| >= 3
    ensures ',' !in n && ')' !in n
  {
    match op
    case Add => "add"
    case Subtract => "subtract"
    case Multiply => "multiply"
    case Divide => "divide"
  }

  /** Distinct operations have distinct names, so filtering by name is
      filtering by operation. */
  lemma NameInjective(op1: Op, op2: Op)
    ensures Name(op1) == Name(op2) <==> op1 == op2
  {
  }

  /** The fields of a Calculation, assigned once by `__init__`. */
  datatype Calculation = Calculation(num1: real, num2: real, operation: Op)

  /** `Calculation.create`: the same value `__init__` builds. */
  function Create(num1: real, num2: real, operation: Op): (c: Calculation)
    ensures c.num1 == num1 && c.num2 == num2 && c.operation == operation
  {
    Calculation(num1, num2, operation)
  }

  /** `perform`: calls the referenced operation on the stored operands
      each time; only a division by an exact zero fails, and it fails with
      the error of `divide` unchanged. */
  function Perform(c: Calculation): (r: Operations.Result)
    ensures c.operation == Add ==> r == Operations.Ok(c.num1 + c.num2)
    ensures c.operation == Subtract ==> r == Operations.Ok(c.num1 - c.num2)
    ensures c.operation == Multiply ==> r == Operations.Ok(c.num1 * c.num2)
    ensures c.operation == Divide && c.num2 != 0.0 ==> r.Ok? && r.value * c.num2 == c.num1
    ensures r.Err? <==> c.operation == Divide && c.num2 == 0.0
    ensures r.Err? ==> r.message == Operations.DivideByZeroMessage
  {
    match c.operation
    case Add => Operations.Ok(Operations.Add(c.num1, c.num2))
    case Subtract => Operations.Ok(Operations.Subtract(c.num1, c.num2))
    case Multiply =>
      assert Operations.Multiply(c.num1, c.num2) == c.num1 * c.num2;
      Operations.Ok(Operations.Multiply(c.num1, c.num2))
    case Divide => Operations.Divide(c.num1, c.num2)
  }

  /** A Calculation driven through `create` performs exactly as one built
      by the constructor, and `perform` depends on the fields alone. */
  lemma CreatePerformsLikeConstructor(num1: real, num2: real, op: Op, c: Calculation)
    requires c.num1 == num1 && c.num2 == num2 && c.operation == op
    ensures Create(num1, num2, op) == c
    ensures Perform(Create(num1, num2, op)) == Perform(c)
  {
  }

  /** The calculations of tests/test_calculation.py. */
  lemma PerformCases()
    ensures Perform(Calculation(10.0, 5.0, Add)) == Operations.Ok(15.0)
    ensures Perform(Calculation(10.0, 5.0, Subtract)) == Operations.Ok(5.0)
    ensures Perform(Calculation(10.0, 5.0, Multiply)) == Operations.Ok(50.0)
    ensures Perform(Calculation(10.0, 2.0, Divide)) == Operations.Ok(5.0)
    ensures Perform(Calculation(10.5, 0.5, Add)) == Operations.Ok(11.0)
    ensures Perform(Calculation(10.5, 0.5, Subtract)) == Operations.Ok(10.0)
    ensures Perform(Calculation(10.5, 2.0, Multiply)) == Operations.Ok(21.0)
    ensures Perform(Calculation(10.0, 0.5, Divide)) == Operations.Ok(20.0)
    ensures Perform(Calculation(10.0, 0.0, Divide)) == Operations.Err("Cannot divide by zero")
  {
  }

  /** `__repr__`. How Python renders a Decimal is not modelled: `show`
      stands for `str` on the operands. */
  function Repr(c: Calculation, show: real -> string): (s: string)
    ensures |s| == |show(c.num1)| + |show(c.num2)| + |Name(c.operation)| + 17
    ensures s[..12] == "Calculation("
    ensures s[12..12 + |show(c.num1)|] == show(c.num1)
    ensures s[12 + |show(c.num1)|..14 + |show(c.num1)|] == ", "
    ensures s[14 + |show(c.num1)|..14 + |show(c.num1)| + |show(c.num2)|] == show(c.num2)
    ensures s[|s| - |Name(c.operation)| - 3..] == ", " + Name(c.operation) + ")"
  {
    "Calculation(" + show(c.num1) + ", " + show(c.num2) + ", " + Name(c.operation) + ")"
  }

  /** The representation names the operation unambiguously: two
      calculations that print alike refer to the same operation. */
  lemma ReprIdentifiesOperation(c1: Calculation, c2: Calculation, show: real -> string)
    requires Repr(c1, show) == Repr(c2, show)
    ensures c1.operation == c2.operation
  {
    var r := Repr(c1, show);
    var n1, n2 := Name(c1.operation), Name(c2.operation);
    // Both suffixes end the same string, so the shorter is a suffix of the
    // longer; the comma that opens it would have to be a letter of a name.
    assert r[|r| - |n1| - 3..] == ", " + n1 + ")";
    assert r[|r| - |n2| - 3..] == ", " + n2 + ")";
    var k := if |n1| <= |n2| then |n1| else |n2|;
    assert r[|r| - k - 3] == ',';
    assert |n1| == |n2|;
    assert n1 == r[|r| - |n1| - 1..|r| - 1] == n2;
    NameInjective(c1.operation, c2.operation);
  }

  /** Python's `str` of a Decimal holds no comma. When the renderings of
      the operands at hand hold no comma and tell those operands apart, the
      representation determines the calculation: the two calculations print
      alike exactly when they are equal. */
  lemma ReprRoundTrip(c1: Calculation, c2: Calculation, show: real -> string)
    requires show(c1.num1) == show(c2.num1) ==> c1.num1 == c2.num1
    requires show(c1.num2) == show(c2.num2) ==> c1.num2 == c2.num2
    requires ',' !in show(c1.num1) && ',' !in show(c2.num1)
    requires ',' !in show(c1.num2) && ',' !in show(c2.num2)
    ensures Repr(c1, show) == Repr(c2, show) <==> c1 == c2
  {
    if Repr(c1, show) == Repr(c2, show) {
      var n1, n2 := Name(c1.operation), Name(c2.operation);
      ReprAfterPrefix(c1, show);
      ReprAfterPrefix(c2, show);
      SplitAtComma(show(c1.num1), show(c1.num2) + ", " + (n1 + ")"),
                   show(c2.num1), show(c2.num2) + ", " + (n2 + ")"));
      SplitAtComma(show(c1.num2), n1 + ")", show(c2.num2), n2 + ")");
      assert n1 == (n1 + ")")[..|n1|] == (n2 + ")")[..|n2|] == n2;
      NameInjective(c1.operation, c2.operation);
    }
  }

  /** The representation after `Calculation(`, grouped from the right. */
  lemma ReprAfterPrefix(c: Calculation, show: real -> string)
    ensures Repr(c, show)[12..] == show(c.num1) + ", " + (show(c.num2) + ", " + (Name(c.operation) + ")"))
  {
    var r := Repr(c, show);
    assert r == "Calculation(" + (show(c.num1) + ", " + (show(c.num2) + ", " + (Name(c.operation) + ")")));
  }

  /** The test's renderings meet the round trip's conditions: `10 subtract 3`
      is told apart from `10 add 5` by its text. */
  lemma ReprRoundTripCase(show: real -> string)
    requires show(10.0) == "10" && show(5.0) == "5" && show(3.0) == "3"
    ensures Repr(Calculation(10.0, 5.0, Add), show) != Repr(Calculation(10.0, 3.0, Subtract), show)
  {
    ReprRoundTrip(Calculation(10.0, 5.0, Add), Calculation(10.0, 3.0, Subtract), show);
  }

  /** A comma-free head before ", " is recovered unambiguously. */
  lemma SplitAtComma(a1: string, t1: string, a2: string, t2: string)
    requires ',' !in a1 && ',' !in a2
    requires a1 + ", " + t1 == a2 + ", " + t2
    ensures a1 == a2 && t1 == t2
  {
    var s := a1 + ", " + t1;
    // The first comma of `s` ends the shorter head, and no head holds one.
    var k := if |a1| <= |a2| then |a1| else |a2|;
    assert s[k] == ',';
    assert |a1| == |a2|;
    assert a1 == s[..|a1|] == a2;
    assert t1 == s[|a1| + 2..] == t2;
  }

  /** The representation of tests/test_calculation.py. */
  lemma ReprCase(show: real -> string)
    requires show(10.0) == "10" && show(5.0) == "5"
    ensures Repr(Calculation(10.0, 5.0, Add), show) == "Calculation(10, 5, add)"
  {
  }
}
