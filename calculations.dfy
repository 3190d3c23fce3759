/** The calculation history of calculator/calculations.py: an ordered,
    append-only (until cleared) list of Calculation values. */
module Calculations {
  import opened Wrappers
  import opened Calculation

  /** What `get_latest` answers for a given history: the last entry, or
      `None` for an empty history (it never raises). */
  function Latest(h: seq<Calculation>): (r: Option<Calculation>)
    ensures r.None? <==> h == []
    ensures r.Some? ==> r.value == h[|h| - 1]
  {
    if h == [] then None else Some(h[|h| - 1])
  }

  /** What `find_by_operation` answers for a given history: the entries whose
      operation is called `name`, in history order. */
  function FindByName(h: seq<Calculation>, name: string): (r: seq<Calculation>)
    ensures |r| <= |h|
    ensures forall c :: c in r ==> c in h && Name(c.operation) == name
    ensures forall i :: 0 <= i < |h| && Name(h[i].operation) == name ==> h[i] in r
  {
    if h == [] then []
    else
      assert forall i :: 1 <= i < |h| ==> h[i] == h[1..][i - 1];
      (if Name(h[0].operation) == name then [h[0]] else []) + FindByName(h[1..], name)
  }

  /** `a` is `b` with some entries dropped and the rest kept in order. */
  ghost predicate IsSubsequence(a: seq<Calculation>, b: seq<Calculation>)
    decreases |b|
  {
    if a == [] then true
    else if b == [] then false
    else if a[0] == b[0] then IsSubsequence(a[1..], b[1..])
    else IsSubsequence(a, b[1..])
  }

  /** The filter keeps insertion order: its result is a subsequence of the
      history. */
  lemma {:induction false} FindIsSubsequence(h: seq<Calculation>, name: string)
    ensures IsSubsequence(FindByName(h, name), h)
  {
    if h != [] {
      FindIsSubsequence(h[1..], name);
      var rest := FindByName(h[1..], name);
      if Name(h[0].operation) == name {
        assert FindByName(h, name) == [h[0]] + rest;
        assert ([h[0]] + rest)[1..] == rest;
      } else {
        // h[0] does not match, so it cannot open the filtered tail
        assert rest != [] ==> rest[0] in rest && rest[0] != h[0];
        assert FindByName(h, name) == rest;
      }
    }
  }

  /** The filter keeps every matching entry as often as the history holds it
      and no other entry, so together with FindIsSubsequence it is exactly
      the matching subsequence. */
  lemma {:induction false} FindKeepsMultiplicity(h: seq<Calculation>, name: string, c: Calculation)
    ensures multiset(FindByName(h, name))[c] == if Name(c.operation) == name then multiset(h)[c] else 0
  {
    if h != [] {
      FindKeepsMultiplicity(h[1..], name, c);
      assert h == [h[0]] + h[1..];
    }
  }

  /** Appending to the history appends to the filter when the new entry
      matches, and leaves the filter alone otherwise. */
  lemma {:induction false} FindAfterAppend(h: seq<Calculation>, c: Calculation, name: string)
    ensures FindByName(h + [c], name)
         == FindByName(h, name) + (if Name(c.operation) == name then [c] else [])
  {
    if h == [] {
      assert [] + [c] == [c];
    } else {
      assert (h + [c])[0] == h[0];
      assert (h + [c])[1..] == h[1..] + [c];
      FindAfterAppend(h[1..], c, name);
    }
  }

  /** Every entry is found under exactly one of the four names. */
  lemma {:induction false} FindPartitionsHistory(h: seq<Calculation>)
    ensures |FindByName(h, "add")| + |FindByName(h, "subtract")|
          + |FindByName(h, "multiply")| + |FindByName(h, "divide")| == |h|
  {
    if h != [] {
      FindPartitionsHistory(h[1..]);
    }
  }

  /** A name that no entry carries finds nothing. */
  lemma FindNothing(h: seq<Calculation>, name: string)
    requires forall i :: 0 <= i < |h| ==> Name(h[i].operation) != name
    ensures FindByName(h, name) == []
  {
  }

  /** The appended entry is the latest; a cleared history has none. */
  lemma LatestAfterAppend(h: seq<Calculation>, c: Calculation)
    ensures Latest(h + [c]) == Some(c)
    ensures Latest([]) == None
  {
  }

  /** The class-level history list. Python keeps one list for the whole
      process; here the store is an object handed to whoever uses it. */
  class Calculations {
    var history: seq<Calculation>

    /** The list starts empty. */
    constructor ()
      ensures history == []
    {
      history := [];
    }

    /** `add_calculation`: appends, without deduplication. */
    method AddCalculation(c: Calculation)
      modifies this
      ensures history == old(history) + [c]
    {
      history := history + [c];
    }

    /** `get_history`: the whole history, in insertion order. */
    method GetHistory() returns (h: seq<Calculation>)
      ensures h == history
    {
      h := history;
    }

    /** `clear_history`: empties the list. */
    method ClearHistory()
      modifies this
      ensures history == []
    {
      history := [];
    }

    /** `get_latest`: the most recent entry, or `None` when there is none. */
    method GetLatest() returns (r: Option<Calculation>)
      ensures history == [] ==> r == None
      ensures history != [] ==> r == Some(history[|history| - 1])
    {
      r := Latest(history);
    }

    /** `find_by_operation`: the entries whose operation has that name, in
        insertion order. */
    method FindByOperation(name: string) returns (r: seq<Calculation>)
      ensures r == FindByName(history, name)
      ensures |r| <= |history|
      ensures forall c :: c in r ==> c in history && Name(c.operation) == name
      ensures forall i :: 0 <= i < |history| && Name(history[i].operation) == name ==> history[i] in r
    {
      r := FindByName(history, name);
    }
  }

  /** The fixture of tests/test_calculations.py: clear, record two
      calculations, then query the store. */
  method FixtureScenario() returns (count: nat, latest: Option<Calculation>, adds: nat, subtracts: nat, cleared: nat, none: Option<Calculation>)
    ensures count == 2
    ensures latest == Some(Calculation(20.0, 3.0, Subtract))
    ensures adds == 1 && subtracts == 1
    ensures cleared == 0 && none == None
  {
    var store := new Calculations();
    store.ClearHistory();
    store.AddCalculation(Calculation(10.0, 5.0, Add));
    store.AddCalculation(Calculation(20.0, 3.0, Subtract));
    var h := store.GetHistory();
    count := |h|;
    latest := store.GetLatest();
    var found := store.FindByOperation("add");
    FindAfterAppend([Calculation(10.0, 5.0, Add)], Calculation(20.0, 3.0, Subtract), "add");
    adds := |found|;
    found := store.FindByOperation("subtract");
    FindAfterAppend([Calculation(10.0, 5.0, Add)], Calculation(20.0, 3.0, Subtract), "subtract");
    subtracts := |found|;
    store.ClearHistory();
    h := store.GetHistory();
    cleared := |h|;
    none := store.GetLatest();
  }
}
