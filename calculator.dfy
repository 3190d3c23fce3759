/** The Calculator facade of calculator/__init__.py. Every call records a
    Calculation in the history store before it evaluates it, so a failing
    division is still recorded. */
module Calculator {
  import opened Operations
  import opened Calculation
  import opened Calculations

  /** `_perform_operation`: create, record, then perform. */
  method PerformOperation(store: Calculations, num1: real, num2: real, op: Op) returns (r: Result)
    modifies store
    ensures store.history == old(store.history) + [Calculation(num1, num2, op)]
    ensures r == Perform(Calculation(num1, num2, op))
  {
    var calculation := Create(num1, num2, op);
    store.AddCalculation(calculation);
    r := Perform(calculation);
  }

  /** `Calculator.add`: the sum, recorded under `add`. */
  method Add(store: Calculations, num1: real, num2: real) returns (r: Result)
    modifies store
    ensures store.history == old(store.history) + [Calculation(num1, num2, Op.Add)]
    ensures r == Perform(Calculation(num1, num2, Op.Add))
    ensures r == Ok(num1 + num2)
  {
    r := PerformOperation(store, num1, num2, Op.Add);
  }

  /** `Calculator.subtract`: the difference, recorded under `subtract`. */
  method Subtract(store: Calculations, num1: real, num2: real) returns (r: Result)
    modifies store
    ensures store.history == old(store.history) + [Calculation(num1, num2, Op.Subtract)]
    ensures r == Perform(Calculation(num1, num2, Op.Subtract))
    ensures r == Ok(num1 - num2)
  {
    r := PerformOperation(store, num1, num2, Op.Subtract);
  }

  /** `Calculator.multiply`: the product, recorded under `multiply`. */
  method Multiply(store: Calculations, num1: real, num2: real) returns (r: Result)
    modifies store
    ensures store.history == old(store.history) + [Calculation(num1, num2, Op.Multiply)]
    ensures r == Perform(Calculation(num1, num2, Op.Multiply))
    ensures r == Ok(num1 * num2)
  {
    r := PerformOperation(store, num1, num2, Op.Multiply);
  }

  /** `Calculator.divide`: the quotient, recorded under `divide`; a zero
      divisor raises the error of `divide`, after the entry is recorded. */
  method Divide(store: Calculations, num1: real, num2: real) returns (r: Result)
    modifies store
    ensures store.history == old(store.history) + [Calculation(num1, num2, Op.Divide)]
    ensures r == Perform(Calculation(num1, num2, Op.Divide))
    ensures r == Operations.Divide(num1, num2)
    ensures num2 == 0.0 ==> r == Err(DivideByZeroMessage)
  {
    r := PerformOperation(store, num1, num2, Op.Divide);
  }
}
