/** The batch entry point `calculate_and_print` of main.py: validate the
    two operand strings, parse them, select the operation by its word,
    pre-empt a division by zero, and compute through the Calculator facade.
    The printed line is modelled as an Outcome value. */
module BatchEntry {
  import opened Wrappers
  import opened Calculation
  import opened Calculations
  import Operations
  import Calculator

  // ---------------------------------------------------------------------
  // The digit-string check `s.replace(".", "", 1).isdigit()`
  // ---------------------------------------------------------------------

  /** An ASCII decimal digit (what `str.isdigit` accepts, less the other
      Unicode digits). */
  predicate IsDigit(ch: char)
  {
    '0' <= ch <= '9'
  }

  predicate AllDigits(s: string)
  {
    forall i :: 0 <= i < |s| ==> IsDigit(s[i])
  }

  /** `str.isdigit`: at least one character, and every character a digit. */
  predicate IsDigitString(s: string)
  {
    |s| > 0 && AllDigits(s)
  }

  /** The position of the first `ch` in `s`, or `|s|` when there is none. */
  function IndexOf(s: string, ch: char): (i: nat)
    ensures i <= |s|
    ensures i < |s| ==> s[i] == ch
    ensures ch !in s[..i]
  {
    if s == [] then 0
    else if s[0] == ch then 0
    else
      var j := IndexOf(s[1..], ch);
      assert s[1..][..j] == s[1..j + 1];
      1 + j
  }

  /** `s.replace(ch, "", 1)`: drops the first `ch` of `s`, if any. */
  function ReplaceFirst(s: string, ch: char): (t: string)
    ensures ch !in s ==> t == s
    ensures ch in s ==> |t| == |s| - 1
  {
    var i := IndexOf(s, ch);
    if i == |s| then
      assert s[..i] == s;
      s
    else
      s[..i] + s[i + 1..]
  }

  /** The check `calculate_and_print` applies to each operand string: a
      plain digit string always passes, and nothing shorter than one
      character does (ValidNumberIff gives the whole set). */
  predicate IsValidNumber(s: string): (r: bool)
    ensures r ==> |s| >= 1
  {
    IsDigitString(ReplaceFirst(s, '.'))
  }

  /** An independent description of the accepted strings: digits and points
      only, at most one point, and at least one digit. */
  ghost predicate WellFormedDecimal(s: string)
  {
    && (forall i :: 0 <= i < |s| ==> IsDigit(s[i]) || s[i] == '.')
    && multiset(s)['.'] <= 1
    && multiset(s)['.'] < |s|
  }

  /** Digits in `s` means no point in `s`. */
  lemma NoPointInDigits(s: string)
    requires AllDigits(s)
    ensures multiset(s)['.'] == 0
  {
  }

  /** The check accepts exactly the well-formed unsigned decimals. */
  lemma ValidNumberIff(s: string)
    ensures IsValidNumber(s) <==> WellFormedDecimal(s)
  {
    if IsValidNumber(s) {
      ValidIsWellFormed(s);
    }
    if WellFormedDecimal(s) {
      WellFormedIsValid(s);
    }
  }

  /** Splitting `s` around its first point, which the replacement drops. */
  lemma SplitAtFirstPoint(s: string)
    requires IndexOf(s, '.') < |s|
    ensures var i := IndexOf(s, '.');
      && ReplaceFirst(s, '.') == s[..i] + s[i + 1..]
      && multiset(s) == multiset(s[..i]) + multiset{'.'} + multiset(s[i + 1..])
  {
    var i := IndexOf(s, '.');
    assert s[i] == '.';
    assert ReplaceFirst(s, '.') == s[..i] + s[i + 1..];
    MultisetAround(s, i);
  }

  /** The multiset of `s`, seen from position `i`. */
  lemma MultisetAround(s: string, i: nat)
    requires i < |s|
    ensures multiset(s) == multiset(s[..i]) + multiset{s[i]} + multiset(s[i + 1..])
  {
    assert s == s[..i] + [s[i]] + s[i + 1..];
  }

  lemma ValidIsWellFormed(s: string)
    requires IsValidNumber(s)
    ensures WellFormedDecimal(s)
  {
    var i := IndexOf(s, '.');
    var t := ReplaceFirst(s, '.');
    if i == |s| {
      assert s[..i] == s;
      NoPointInDigits(s);
    } else {
      SplitAtFirstPoint(s);
      NoPointInDigits(t);
      assert multiset(t) == multiset(s[..i]) + multiset(s[i + 1..]);
      forall k | 0 <= k < |s|
        ensures IsDigit(s[k]) || s[k] == '.'
      {
        if k < i {
          assert t[k] == s[k];
        } else if k > i {
          assert t[k - 1] == s[k];
        }
      }
    }
  }

  lemma WellFormedIsValid(s: string)
    requires WellFormedDecimal(s)
    ensures IsValidNumber(s)
  {
    var i := IndexOf(s, '.');
    var t := ReplaceFirst(s, '.');
    if i == |s| {
      assert s[..i] == s;
      forall k | 0 <= k < |s|
        ensures IsDigit(s[k])
      {
        assert s[k] in s;
      }
    } else {
      SplitAtFirstPoint(s);
      var before, after := s[..i], s[i + 1..];
      assert multiset(before)['.'] == 0 && multiset(after)['.'] == 0;
      forall k | 0 <= k < |t|
        ensures IsDigit(t[k])
      {
        if k < i {
          assert t[k] == before[k] == s[k];
          assert before[k] in multiset(before);
        } else {
          assert t[k] == after[k - i] == s[k + 1];
          assert after[k - i] in multiset(after);
        }
      }
    }
  }

  /** Consequences: no sign, at most one point, and not the point alone. */
  lemma ValidNumberConsequences(s: string)
    requires IsValidNumber(s)
    ensures s != [] && s[0] != '-' && s[0] != '+'
    ensures multiset(s)['.'] <= 1
    ensures s != "."
  {
    ValidNumberIff(s);
    assert s[0] == '.' || IsDigit(s[0]);
  }

  /** Strings the check accepts: with and without a point, and with the
      point at either end. */
  lemma AcceptedNumbers()
    ensures IsValidNumber("5") && IsValidNumber("10.5") && IsValidNumber(".5") && IsValidNumber("5.")
  {
    ParseInteger("5");
    assert "10.5" == "10" + "." + "5";
    ParseSplitsAtPoint("10", "5");
    assert ".5" == "" + "." + "5";
    ParseSplitsAtPoint("", "5");
    assert "5." == "5" + "." + "";
    ParseSplitsAtPoint("5", "");
  }

  /** A character that is neither a digit nor the point sinks the string. */
  lemma RejectsStrayCharacter(s: string, k: nat)
    requires k < |s| && s[k] != '.' && !IsDigit(s[k])
    ensures !IsValidNumber(s)
  {
    ValidNumberIff(s);
  }

  /** A point after the first one survives the replacement and sinks the
      string. */
  lemma RejectsSecondPoint(s: string, j: nat)
    requires j < |s| && s[j] == '.' && IndexOf(s, '.') < j
    ensures !IsValidNumber(s)
  {
    var t := ReplaceFirst(s, '.');
    assert t[j - 1] == s[j];
  }

  /** Strings the check rejects: letters (tests/test_main.py), the empty
      string, the point alone, a sign, and two points. */
  lemma RejectedNumbers()
    ensures !IsValidNumber("a") && !IsValidNumber("b") && !IsValidNumber("")
    ensures !IsValidNumber(".") && !IsValidNumber("-5") && !IsValidNumber("1.2.3")
  {
    RejectsStrayCharacter("a", 0);
    RejectsStrayCharacter("b", 0);
    assert ReplaceFirst(".", '.') == "";
    RejectsStrayCharacter("-5", 0);
    assert IndexOf("1.2.3", '.') == 1 by {
      assert "1.2.3"[1..] == ".2.3";
    }
    RejectsSecondPoint("1.2.3", 3);
  }

  // ---------------------------------------------------------------------
  // `Decimal(s)` on an accepted string
  // ---------------------------------------------------------------------

  /** The value of a string of digits, read most significant first. */
  function DigitsValue(s: string): (v: nat)
    requires AllDigits(s)
    ensures v < Pow10(|s|)
  {
    if s == [] then 0
    else DigitsValue(s[..|s| - 1]) * 10 + (s[|s| - 1] as int - '0' as int)
  }

  function Pow10(k: nat): (p: nat)
    ensures p >= 1
  {
    if k == 0 then 1 else 10 * Pow10(k - 1)
  }

  /** How many characters follow the first point (0 when there is none). */
  function FractionDigits(s: string): (k: nat)
    ensures '.' !in s ==> k == 0
    ensures '.' in s ==> k < |s| && s[|s| - k - 1] == '.' && '.' !in s[..|s| - k - 1]
  {
    var i := IndexOf(s, '.');
    if i == |s| then 0 else |s| - i - 1
  }

  /** `Decimal(s)` for a string the check accepted: its digits, read as one
      integer, scaled down by the digits after the point. */
  function ParseDecimal(s: string): (r: real)
    requires IsValidNumber(s)
    ensures r >= 0.0
  {
    (DigitsValue(ReplaceFirst(s, '.')) as real) / (Pow10(FractionDigits(s)) as real)
  }

  /** Reading two digit strings one after the other. */
  lemma {:induction false} DigitsValueAppend(a: string, b: string)
    requires AllDigits(a) && AllDigits(b)
    ensures AllDigits(a + b)
    ensures DigitsValue(a + b) == DigitsValue(a) * Pow10(|b|) + DigitsValue(b)
  {
    if b == [] {
      assert a + b == a;
    } else {
      var b' := b[..|b| - 1];
      assert (a + b)[..|a + b| - 1] == a + b';
      assert (a + b)[|a + b| - 1] == b[|b| - 1];
      DigitsValueAppend(a, b');
      ShiftByOneDigit(DigitsValue(a), Pow10(|b'|), DigitsValue(b'), b[|b| - 1] as int - '0' as int);
    }
  }

  /** Appending one digit multiplies the shifted prefix by ten once more. */
  lemma ShiftByOneDigit(x: int, p: int, y: int, d: int)
    ensures (x * p + y) * 10 + d == x * (10 * p) + (y * 10 + d)
  {
    assert (x * p) * 10 == x * (10 * p);
  }

  /** The first `ch` of `p + [ch] + rest` is the one after `p` when `p`
      holds none. */
  lemma {:induction false} IndexOfAfterPrefix(p: string, ch: char, rest: string)
    requires ch !in p
    ensures IndexOf(p + [ch] + rest, ch) == |p|
  {
    if p != [] {
      assert (p + [ch] + rest)[1..] == p[1..] + [ch] + rest;
      IndexOfAfterPrefix(p[1..], ch, rest);
    }
  }

  /** In `ip + "." + fp` with digits before the point, the point shown is
      the first one: dropping it leaves `ip + fp`, and `fp` is the fraction. */
  lemma PointAfterDigits(ip: string, fp: string)
    requires AllDigits(ip)
    ensures ReplaceFirst(ip + "." + fp, '.') == ip + fp
    ensures FractionDigits(ip + "." + fp) == |fp|
  {
    var s := ip + "." + fp;
    NoPointInDigits(ip);
    IndexOfAfterPrefix(ip, '.', fp);
    assert s[..|ip|] == ip;
    assert s[|ip| + 1..] == fp;
  }

  /** The parse agrees with school notation: integer part plus fraction
      digits over a power of ten. */
  lemma ParseSplitsAtPoint(ip: string, fp: string)
    requires AllDigits(ip) && AllDigits(fp) && |ip| + |fp| > 0
    ensures IsValidNumber(ip + "." + fp)
    ensures ParseDecimal(ip + "." + fp)
         == DigitsValue(ip) as real + (DigitsValue(fp) as real) / (Pow10(|fp|) as real)
  {
    PointAfterDigits(ip, fp);
    FractionValue(ip, fp);
  }

  /** Reading `ip + fp` and moving the point `|fp|` places left. */
  lemma FractionValue(ip: string, fp: string)
    requires AllDigits(ip) && AllDigits(fp)
    ensures AllDigits(ip + fp)
    ensures (DigitsValue(ip + fp) as real) / (Pow10(|fp|) as real)
         == DigitsValue(ip) as real + (DigitsValue(fp) as real) / (Pow10(|fp|) as real)
  {
    DigitsValueAppend(ip, fp);
    ScaleDown(DigitsValue(ip), DigitsValue(fp), Pow10(|fp|));
  }

  /** Dividing an integer part shifted by `p` plus a fraction by `p`. */
  lemma ScaleDown(x: nat, y: nat, p: nat)
    requires p >= 1
    ensures ((x * p + y) as real) / (p as real) == x as real + (y as real) / (p as real)
  {
    var P := p as real;
    assert (x * p) as real == (x as real) * P;
    assert ((x * p + y) as real) == (x as real) * P + (y as real);
    calc {
      ((x as real) * P + (y as real)) / P;
      (x as real) * P / P + (y as real) / P;
      x as real + (y as real) / P;
    }
  }

  /** A plain integer string parses to its integer value. */
  lemma ParseInteger(s: string)
    requires IsDigitString(s)
    ensures IsValidNumber(s)
    ensures ParseDecimal(s) == DigitsValue(s) as real
  {
    NoPointInDigits(s);
    assert '.' !in s;
  }

  /** "10.5" becomes 10.5. */
  lemma ParseCases()
    ensures IsValidNumber("10.5") && ParseDecimal("10.5") == 10.5
  {
    assert "10.5" == "10" + "." + "5";
    assert DigitsValue("10") == 10 by {
      assert "10"[..1] == "1";
      assert "1"[..0] == "";
    }
    assert DigitsValue("5") == 5 by { assert "5"[..0] == ""; }
    ParseSplitsAtPoint("10", "5");
  }

  /** A single digit parses to its value. */
  lemma ParseDigit(d: char)
    requires IsDigit(d)
    ensures IsValidNumber([d]) && ParseDecimal([d]) == (d as int - '0' as int) as real
  {
    assert [d][..0] == "";
    ParseInteger([d]);
  }

  // ---------------------------------------------------------------------
  // Selecting the operation and the outcome
  // ---------------------------------------------------------------------

  /** The `if`/`elif` chain on the operation word. */
  function SelectOperation(word: string): (r: Option<Op>)
    ensures r.Some? ==> Name(r.value) == word
  {
    if word == "add" then Some(Add)
    else if word == "subtract" then Some(Subtract)
    else if word == "multiply" then Some(Multiply)
    else if word == "divide" then Some(Divide)
    else None
  }

  /** The words the batch entry point recognises are exactly the names the
      history store files calculations under. */
  lemma SelectOperationInvertsName(op: Op, word: string)
    ensures SelectOperation(Name(op)) == Some(op)
    ensures SelectOperation(word) == None <==> forall o: Op :: Name(o) != word
  {
  }

  /** What `calculate_and_print` prints, without its wording. */
  datatype Outcome =
    | InvalidNumber(a: string, b: string)
    | DivisionByZero
    | UnknownOperation(word: string)
    | Computed(num1: real, word: string, num2: real, value: real)

  /** `calculate_and_print(a, b, word)`. Invalid operands win over the
      operation word; a division by zero is caught before the facade is
      called, so only a computed result is recorded in the history. */
  method CalculateAndPrint(store: Calculations, a: string, b: string, word: string) returns (o: Outcome)
    modifies store
    ensures !(IsValidNumber(a) && IsValidNumber(b)) ==>
              o == InvalidNumber(a, b) && store.history == old(store.history)
    ensures IsValidNumber(a) && IsValidNumber(b) && SelectOperation(word) == None ==>
              o == UnknownOperation(word) && store.history == old(store.history)
    ensures IsValidNumber(a) && IsValidNumber(b) && SelectOperation(word).Some? ==>
              var c := Calculation(ParseDecimal(a), ParseDecimal(b), SelectOperation(word).value);
              if c.operation == Divide && c.num2 == 0.0 then
                o == DivisionByZero && store.history == old(store.history)
              else
                && Perform(c).Ok?
                && o == Computed(c.num1, word, c.num2, Perform(c).value)
                && store.history == old(store.history) + [c]
  {
    if !IsValidNumber(a) || !IsValidNumber(b) {
      return InvalidNumber(a, b);
    }
    var num1 := ParseDecimal(a);
    var num2 := ParseDecimal(b);
    var result: real;
    if word == "add" {
      var r := Calculator.Add(store, num1, num2);
      assert SelectOperation(word) == Some(Add);
      result := r.value;
    } else if word == "subtract" {
      var r := Calculator.Subtract(store, num1, num2);
      assert SelectOperation(word) == Some(Subtract);
      result := r.value;
    } else if word == "multiply" {
      var r := Calculator.Multiply(store, num1, num2);
      assert SelectOperation(word) == Some(Multiply);
      result := r.value;
    } else if word == "divide" {
      if num2 == 0.0 {
        return DivisionByZero;
      }
      var r := Calculator.Divide(store, num1, num2);
      assert SelectOperation(word) == Some(Divide);
      result := r.value;
    } else {
      assert SelectOperation(word) == None;
      return UnknownOperation(word);
    }
    o := Computed(num1, word, num2, result);
  }

  /** The successful rows of tests/test_main.py, run on one store: each
      records its calculation. */
  method ComputedScenarios() returns (outcomes: seq<Outcome>, history: seq<Calculation>)
    ensures outcomes == [
      Computed(5.0, "add", 3.0, 8.0),
      Computed(10.0, "subtract", 2.0, 8.0),
      Computed(4.0, "multiply", 5.0, 20.0),
      Computed(20.0, "divide", 4.0, 5.0)]
    ensures history == [
      Calculation(5.0, 3.0, Add),
      Calculation(10.0, 2.0, Subtract),
      Calculation(4.0, 5.0, Multiply),
      Calculation(20.0, 4.0, Divide)]
  {
    ParseDigit('5');
    ParseDigit('3');
    ParseDigit('2');
    ParseDigit('4');
    ParseTestOperands();
    var store := new Calculations();
    var o1 := ComputedRow(store, "5", "3", "add", 5.0, 3.0, Add, 8.0);
    var o2 := ComputedRow(store, "10", "2", "subtract", 10.0, 2.0, Subtract, 8.0);
    var o3 := ComputedRow(store, "4", "5", "multiply", 4.0, 5.0, Multiply, 20.0);
    var o4 := ComputedRow(store, "20", "4", "divide", 20.0, 4.0, Divide, 5.0);
    outcomes := [o1, o2, o3, o4];
    history := store.history;
  }

  /** One successful row: operands that parse to `num1` and `num2`, a word
      that selects `op`, and `value` the performed result. */
  method ComputedRow(store: Calculations, a: string, b: string, word: string,
                     num1: real, num2: real, op: Op, value: real) returns (o: Outcome)
    modifies store
    requires IsValidNumber(a) && ParseDecimal(a) == num1
    requires IsValidNumber(b) && ParseDecimal(b) == num2
    requires SelectOperation(word) == Some(op)
    requires Perform(Calculation(num1, num2, op)) == Operations.Ok(value)
    ensures o == Computed(num1, word, num2, value)
    ensures store.history == old(store.history) + [Calculation(num1, num2, op)]
  {
    o := CalculateAndPrint(store, a, b, word);
  }

  /** The failing rows of tests/test_main.py, run on one store: none of
      them records anything. */
  method FailingScenarios() returns (outcomes: seq<Outcome>, history: seq<Calculation>)
    ensures outcomes == [
      DivisionByZero,
      UnknownOperation("unknown"),
      InvalidNumber("a", "3"),
      InvalidNumber("5", "b")]
    ensures history == []
  {
    ParseDigit('1');
    ParseDigit('0');
    ParseDigit('9');
    ParseDigit('3');
    RejectedNumbers();
    var store := new Calculations();
    var o5 := CalculateAndPrint(store, "1", "0", "divide");
    var o6 := CalculateAndPrint(store, "9", "3", "unknown");
    var o7 := CalculateAndPrint(store, "a", "3", "add");
    var o8 := CalculateAndPrint(store, "5", "b", "subtract");
    outcomes := [o5, o6, o7, o8];
    history := store.history;
  }

  /** The two-digit operands of tests/test_main.py. */
  lemma ParseTestOperands()
    ensures IsValidNumber("10") && ParseDecimal("10") == 10.0
    ensures IsValidNumber("20") && ParseDecimal("20") == 20.0
  {
    assert DigitsValue("10") == 10 by { assert "10"[..1] == "1"; assert "1"[..0] == ""; }
    ParseInteger("10");
    assert DigitsValue("20") == 20 by { assert "20"[..1] == "2"; assert "2"[..0] == ""; }
    ParseInteger("20");
  }
}
