# Calculator core, modelled in Dafny

This project models the arithmetic and history layer of a small command-line
calculator:

- the four decimal operations `add`, `subtract`, `multiply` and `divide`; `divide` rejects a zero divisor with a `ValueError`;
- the `Calculation` value: two operands and the operation that `perform` re-applies;
- the `Calculations` history: a list that supports append, get-all, clear, latest and filter-by-operation-name;
- the `Calculator` facade: it records every calculation in the history *before* performing it;
- the batch entry point `calculate_and_print`: it checks both operand strings, parses them, selects the operation by its word, catches a zero divisor early, and either computes the result or reports why it did not.

Modelling choices:

- Finite Decimal values are exact `real` numbers, without the rounding of the 28-digit context.
- An operation is the closed datatype `Op`. `Name(op)` gives its Python `__name__`.
- A raised `ValueError` is the `Err` case of a `Result`.
- `None` is the `None` case of an `Option`.
- The history is a class `Calculations` with a `seq<Calculation>` field.
- The facade methods and `CalculateAndPrint` take the history object as a parameter and declare that they modify it.
- The printed line of `calculate_and_print` is an `Outcome` value:
  - `InvalidNumber(a, b)`;
  - `DivisionByZero`;
  - `UnknownOperation(word)`;
  - `Computed(num1, word, num2, value)`.

Files, one module each:

| file | module | source |
|---|---|---|
| `wrappers.dfy` | `Wrappers` | the `Option` type |
| `operations.dfy` | `Operations` | `calculator/operations.py` |
| `calculation.dfy` | `Calculation` | `calculator/calculation.py` |
| `calculations.dfy` | `Calculations` | `calculator/calculations.py` |
| `calculator.dfy` | `Calculator` | `calculator/__init__.py` |
| `batch.dfy` | `BatchEntry` | `calculate_and_print` in `main.py` |

## Model

| member | source | states |
|---|---|---|
| Operations.Add | calculator/operations.py:3-5 | the sum is the one value from which subtracting either operand leaves the other |
| Operations.Subtract | calculator/operations.py:7-9 | the difference is the one value that added to the subtrahend gives back the minuend |
| Operations.Multiply | calculator/operations.py:11-13 | the product is zero exactly when a factor is, and dividing it by a non-zero factor gives back the other |
| Operations.Divide | calculator/operations.py:15-23 | fails exactly when the divisor is zero, and then with the message "Cannot divide by zero"; otherwise the quotient times the divisor gives back the dividend |
| Operations.SubtractUndoesAdd | calculator/operations.py:3-9 | on finite values `add` and `subtract` never fail, and each undoes the other |
| Operations.DivideUndoesMultiply | calculator/operations.py:11-23 | for a non-zero divisor, dividing undoes multiplying, and `q` is the quotient if and only if `q * b == a` |
| Operations.DivideByZeroAlwaysFails | calculator/operations.py:21-22 | a zero divisor fails with the same error whatever the dividend |
| Operations.ExactDecimalCases | tests/test_calculation.py:15-23 | the test's operation values, including the exact decimals 10.5 + 0.5 = 11, 10.5 - 0.5 = 10, 10.5 * 2 = 21 and 10 / 0.5 = 20 |
| Calculation.Name | calculator/calculation.py:21 | the `__name__` of each operation is an identifier of at least three characters, with no comma or closing parenthesis |
| Calculation.NameInjective | calculator/calculation.py:21 | two operations have the same `__name__` if and only if they are the same operation |
| Calculation.Calculation | calculator/calculation.py:5-8 | the value `__init__` builds: the two operands and the operation, fixed once assigned |
| Calculation.Create | calculator/calculation.py:10-13 | the created calculation holds exactly the given operands and operation |
| Calculation.CreatePerformsLikeConstructor | calculator/calculation.py:5-13 | `create` builds the same value as the constructor, and it performs the same |
| Calculation.Perform | calculator/calculation.py:15-17 | applies the stored operation to the stored operands: the sum, the difference, the product, or a quotient that times `num2` gives `num1`; it fails exactly for a division by zero, with the error of `divide` unchanged; being a function of an immutable value, repeated calls agree |
| Calculation.PerformCases | tests/test_calculation.py:15-31 | the eight tabulated results, and the divide-by-zero error of tests/test_calculation.py:42-48 |
| Calculation.Repr | calculator/calculation.py:19-21 | the representation is `Calculation(`, the first operand, `, `, the second operand, and `, <name>)`, and its length is exactly the pieces' lengths added up |
| Calculation.ReprIdentifiesOperation | calculator/calculation.py:19-21 | two calculations with the same representation refer to the same operation |
| Calculation.ReprRoundTrip | calculator/calculation.py:19-21 | for two calculations whose operand renderings hold no comma, as `str` of a Decimal never does, and tell the operands of the same position apart, the two have the same representation if and only if they are equal |
| Calculation.ReprRoundTripCase | tests/test_calculation.py:33-40 | with the test's renderings of `10`, `5` and `3`, the round trip applies and tells `10 add 5` from `10 subtract 3` by the text |
| Calculation.ReprCase | tests/test_calculation.py:33-40 | `Calculation(10, 5, add)` when the operands render as `10` and `5` |
| Calculations.Latest | calculator/calculations.py:22-24 | `None` exactly for an empty history, otherwise its last entry |
| Calculations.FindByName | calculator/calculations.py:26-29 | the result is no longer than the history; it holds only history entries whose operation has that name; it holds every such entry |
| Calculations.FindIsSubsequence | calculator/calculations.py:27-29 | the filter keeps insertion order: its result is a subsequence of the history |
| Calculations.FindKeepsMultiplicity | calculator/calculations.py:27-29 | each matching entry occurs as often as in the history, and each other entry not at all |
| Calculations.FindAfterAppend | calculator/calculations.py:9-29 | appending an entry extends the filter by that entry if its name matches, and leaves it unchanged otherwise |
| Calculations.FindPartitionsHistory | calculator/calculations.py:27-29 | the four operation names split the history: their filter lengths sum to its length |
| Calculations.FindNothing | calculator/calculations.py:27-29 | a name no entry carries finds nothing |
| Calculations.LatestAfterAppend | calculator/calculations.py:9-24 | after an append the latest entry is the appended one; an empty history has no latest |
| Calculations.Calculations.constructor | calculator/calculations.py:6 | the history starts empty |
| Calculations.Calculations.AddCalculation | calculator/calculations.py:9-10 | the history is the old history with the entry appended at the end, without deduplication |
| Calculations.Calculations.GetHistory | calculator/calculations.py:12-15 | returns the whole history in insertion order, and changes nothing |
| Calculations.Calculations.ClearHistory | calculator/calculations.py:17-19 | the history is empty |
| Calculations.Calculations.GetLatest | calculator/calculations.py:21-24 | `None` for an empty history, otherwise its last entry; it never fails and changes nothing |
| Calculations.Calculations.FindByOperation | calculator/calculations.py:26-29 | the filter of the current history by operation name, with the properties of `FindByName`; changes nothing |
| Calculations.FixtureScenario | tests/test_calculations.py:15-67 | after a clear and two appends the history has two entries; the latest is `20 subtract 3`; each of `add` and `subtract` is found once; a cleared history is empty and has no latest |
| Calculator.PerformOperation | calculator/__init__.py:8-13 | appends exactly `Calculation(num1, num2, op)` to the history, leaving the earlier entries as they were, and returns what performing it gives |
| Calculator.Add | calculator/__init__.py:15-18 | records an `add` calculation and returns the sum |
| Calculator.Subtract | calculator/__init__.py:20-23 | records a `subtract` calculation and returns the difference |
| Calculator.Multiply | calculator/__init__.py:25-28 | records a `multiply` calculation and returns the product |
| Calculator.Divide | calculator/__init__.py:30-33 | records a `divide` calculation and returns what `divide` returns; with a zero divisor it fails, and the entry is still recorded |
| BatchEntry.IsDigitString | main.py:10 | `str.isdigit` on ASCII: at least one character, and every character a digit |
| BatchEntry.IndexOf | main.py:10 | the position of the first occurrence of the character, or the length when it does not occur |
| BatchEntry.ReplaceFirst | main.py:10 | `replace(".", "", 1)`: unchanged without a point, one character shorter with one |
| BatchEntry.IsValidNumber | main.py:10 | the operand check `s.replace(".", "", 1).isdigit()`: it accepts only non-empty strings, and `ValidNumberIff` names exactly the strings it accepts |
| BatchEntry.NoPointInDigits | main.py:10 | a digit string holds no point |
| BatchEntry.ValidNumberIff | main.py:10 | the check accepts a string if and only if it has only digits and points, at most one point, and at least one digit |
| BatchEntry.SplitAtFirstPoint | main.py:10 | dropping the first point leaves the parts before and after it, and the string's characters are those parts plus the point |
| BatchEntry.ValidIsWellFormed | main.py:10 | an accepted string has only digits and points, at most one point, and at least one digit |
| BatchEntry.WellFormedIsValid | main.py:10 | a string of digits and at most one point, with at least one digit, is accepted |
| BatchEntry.ValidNumberConsequences | main.py:10 | an accepted string is non-empty, has no sign, has at most one point, and is not `.` alone |
| BatchEntry.AcceptedNumbers | main.py:10 | `5`, `10.5`, `.5` and `5.` are accepted |
| BatchEntry.RejectsStrayCharacter | main.py:10 | a character that is neither a digit nor a point makes the string invalid |
| BatchEntry.RejectsSecondPoint | main.py:10 | a point after the first one makes the string invalid |
| BatchEntry.RejectedNumbers | tests/test_main.py:19-20 | `a` and `b` from the tests are rejected, as are the empty string, `.`, `-5` and `1.2.3` |
| BatchEntry.DigitsValue | main.py:14-15 | the value of a digit string, read most significant first, is below ten to the power of its length |
| BatchEntry.FractionDigits | main.py:14-15 | the number of places after the first point: zero without a point, and otherwise the first point stands exactly that many places from the end |
| BatchEntry.ParseDecimal | main.py:14-15 | an accepted string parses to a non-negative value |
| BatchEntry.DigitsValueAppend | main.py:14-15 | reading two digit strings in a row is reading the first shifted by the second's length, plus the second |
| BatchEntry.IndexOfAfterPrefix | main.py:10 | in `p + [ch] + rest`, where `p` has no `ch`, the first `ch` is the one after `p` |
| BatchEntry.PointAfterDigits | main.py:10-15 | in digits + `.` + fraction, the check drops that point, and the fraction digits are those after it |
| BatchEntry.ParseSplitsAtPoint | main.py:14-15 | digits + `.` + fraction is accepted, and it parses to the integer part plus the fraction digits over ten to their count |
| BatchEntry.FractionValue | main.py:14-15 | moving the point of a digit string left by the fraction's length gives the integer part plus the scaled fraction |
| BatchEntry.ParseInteger | main.py:14-15 | a plain digit string is accepted and parses to its integer value |
| BatchEntry.ParseCases | main.py:14-15 | `10.5` is accepted and parses to 10.5 |
| BatchEntry.ParseDigit | main.py:14-15 | a single digit is accepted and parses to its value |
| BatchEntry.ParseTestOperands | tests/test_main.py:11-13 | `10` and `20` are accepted and parse to 10 and 20 |
| BatchEntry.SelectOperation | main.py:17-30 | a word it selects an operation for is that operation's name |
| BatchEntry.SelectOperationInvertsName | main.py:17-30 | each operation's name selects that operation, and no operation is selected exactly when the word is no operation's name |
| BatchEntry.Outcome | main.py:11-32 | the four lines `calculate_and_print` prints: invalid input (main.py:11), division by zero (main.py:25), unknown operation (main.py:29) and the computed result (main.py:32) |
| BatchEntry.CalculateAndPrint | main.py:6-32 | an invalid operand gives the invalid-number outcome whatever the word; otherwise an unknown word gives the unknown-operation outcome, and `divide` by a parsed zero the division-by-zero outcome, all three recording nothing; otherwise the outcome holds the parsed operands, the word and the result of performing the selected operation, and exactly that calculation is appended to the history |
| BatchEntry.ComputedScenarios | tests/test_main.py:8-26 | `5 add 3`, `10 subtract 2`, `4 multiply 5` and `20 divide 4` compute 8, 8, 20 and 5, and each records one calculation, in order |
| BatchEntry.FailingScenarios | tests/test_main.py:8-26 | `1 divide 0` gives the division-by-zero outcome; `9 unknown 3` gives the unknown-operation outcome; `a add 3` and `5 subtract b` give the invalid-number outcome; none of them records anything |

The lemmas `Calculation.SplitAtComma`, `Calculation.ReprAfterPrefix`, `BatchEntry.ShiftByOneDigit`, `BatchEntry.ScaleDown` and `BatchEntry.MultisetAround`, the function `BatchEntry.Pow10` and the method `BatchEntry.ComputedRow` are proof steps and helpers. They model nothing of their own.

## Left out

- The `app` package (`App`, the command handler and its plugins) is the interactive command path. It lies outside the modelled core.
- `main()` and the interactive start-up (main.py:37-42) are process plumbing and are not modelled.
- Printing is not modelled. `BatchEntry.CalculateAndPrint` returns an `Outcome` instead of writing a line to standard output.
- How Python renders a `Decimal` as text (`11.0` against `11`) is not modelled. `Calculation.Repr` takes the rendering as a parameter `show`.
- Decimal context precision is not modelled. Python rounds the result of each of `add`, `subtract`, `multiply` and `divide` to the 28 significant digits of the default context. `Operations.Add`, `Operations.Subtract`, `Operations.Multiply` and `Operations.Divide` are exact real arithmetic, so they differ from Python once a result needs more than 28 digits.
- `Operations.Add`, `Operations.Subtract`, `Operations.Multiply`, `Operations.Divide`, `Calculator.Add`, `Calculator.Subtract`, `Calculator.Multiply`, `Calculator.Divide` and `BatchEntry.CalculateAndPrint` do not model the exponent limits of the default Decimal context.
  - Above the largest exponent (999999), Python raises `Overflow`. An example is `multiply` on two operands of `1` followed by 600000 zeros. The entry is already recorded, and main.py:34-35 does not catch `Overflow`, so it escapes `calculate_and_print`.
  - Below the smallest exponent, Python underflows towards zero.
  - The model stays exact and fails only for a zero divisor.
- Non-finite Decimal values (infinities and NaN) are not modelled, because `real` has none. In Python, `Infinity - Infinity` and `0 * Infinity` raise `InvalidOperation`.
- `BatchEntry.IsDigit` accepts only the ASCII digits `0`-`9`. Python's `str.isdigit` also accepts other Unicode digits, which the model does not.
- The `InvalidOperation` handler (main.py:34-35) is not modelled. Python reaches it in two ways. A string of digits that `str.isdigit` accepts but `Decimal` rejects, such as `²` (U+00B2) or `①`, passes the check at main.py:10 and fails at main.py:14. A test can also replace `Calculator.add` with a function that raises. The ASCII-only `BatchEntry.IsDigit` rules out the first way, and the model has no replaceable facade, which rules out the second.
- tests/conftest.py generates random test data. It has no application logic.
- Python object identity is not modelled. `Calculation` defines no `__eq__`, but the model compares calculations by value.
- `Calculations.Calculations.GetHistory` returns the history as a value. Python returns the live list itself, which a caller could then mutate.
- The history is one class-level list shared by the whole Python process. Here it is an explicit `Calculations` object that the facade and the batch entry point receive as a parameter.
