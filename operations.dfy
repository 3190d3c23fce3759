/** The four binary operations of calculator/operations.py.
    Python's finite Decimal values are modelled exactly as `real`. Python
    rounds the result of each of the four operations to the 28 significant
    digits of the default context, raises `Overflow` above its largest
    exponent and underflows below its smallest; here every result is exact
    and nothing but a zero divisor fails. */
module Operations {

  /** The outcome of an operation: a value, or the error it raises. */
  datatype Result = Ok(value: real) | Err(message: string)

  /** The message of the ValueError raised by `divide`. */
  const DivideByZeroMessage: string := "Cannot divide by zero"

  /** `add(a, b)`: on finite values within the context's exponent range it
      never raises; the sum is the one
      value from which subtracting either operand leaves the other. */
  function Add(a: real, b: real): (r: real)
    ensures r - b == a && r - a == b
  {
    a + b
  }

  /** `subtract(a, b)`: on finite values within the context's exponent range it
      never raises; the difference
      is the one value that added to `b` gives back `a`. */
  function Subtract(a: real, b: real): (r: real)
    ensures r + b == a
  {
    a - b
  }

  /** `multiply(a, b)`: on finite values within the context's exponent range it
      never raises; the product is
      zero exactly when a factor is, and dividing it by a non-zero factor
      gives back the other. */
  function Multiply(a: real, b: real): (r: real)
    ensures r == 0.0 <==> a == 0.0 || b == 0.0
    ensures b != 0.0 ==> r / b == a
    ensures a != 0.0 ==> r / a == b
  {
    a * b
  }

  /** `divide(a, b)`: raises on an exactly zero divisor, otherwise returns
      the quotient, the one value that multiplied by `b` gives back `a`. */
  function Divide(a: real, b: real): (r: Result)
    ensures r.Err? <==> b == 0.0
    ensures r.Err? ==> r.message == DivideByZeroMessage
    ensures r.Ok? ==> r.value * b == a
  {
    if b == 0.0 then Err(DivideByZeroMessage) else Ok(a / b)
  }

  /** Subtracting undoes adding. */
  lemma SubtractUndoesAdd(a: real, b: real)
    ensures Subtract(Add(a, b), b) == a
    ensures Add(Subtract(a, b), b) == a
  {
  }

  /** Dividing by a non-zero factor undoes multiplying by it, and the
      quotient is the only value with `q * b == a`. */
  lemma DivideUndoesMultiply(a: real, b: real, q: real)
    requires b != 0.0
    ensures Divide(Multiply(a, b), b) == Ok(a)
    ensures Divide(a, b) == Ok(q) <==> Multiply(q, b) == a
  {
    if Multiply(q, b) == a {
      calc {
        q;
        q * b / b;
        a / b;
      }
    }
  }

  /** A zero divisor makes `divide` fail with the same message whatever `a` is. */
  lemma DivideByZeroAlwaysFails(a: real)
    ensures Divide(a, 0.0) == Err(DivideByZeroMessage)
  {
  }

  /** The exact decimal cases of tests/test_calculation.py. */
  lemma ExactDecimalCases()
    ensures Add(10.0, 5.0) == 15.0 && Subtract(10.0, 5.0) == 5.0
    ensures Multiply(10.0, 5.0) == 50.0 && Divide(10.0, 2.0) == Ok(5.0)
    ensures Add(10.5, 0.5) == 11.0 && Subtract(10.5, 0.5) == 10.0
    ensures Multiply(10.5, 2.0) == 21.0 && Divide(10.0, 0.5) == Ok(20.0)
  {
  }
}
