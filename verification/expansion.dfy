/** The list transformation at the heart of `EasyTestRunner.computeTestMethods`:
    every test method that has data is replaced by one renamed copy per data
    row, and the methods without data are appended unchanged. */
module Expansion {
  import opened Outcomes

  /** A reflected `java.lang.reflect.Method`: its identity and its declared name. */
  datatype ReflectedMethod = ReflectedMethod(id: nat, name: string)

  /** JUnit's `FrameworkMethod` (named after its reflected method), or EasyTest's
      `EasyFrameworkMethod`, whose name has been overridden with `setName`. */
  datatype FrameworkMethod =
    | Declared(reflected: ReflectedMethod)
    | Renamed(reflected: ReflectedMethod, displayName: string)
  {
    /** `getName()` */
    function Name(): string {
      match this
      case Declared(m) => m.name
      case Renamed(_, n) => n
    }
  }

  /** The runner's `testName` override: the name reported for a method is its
      (possibly overridden) name, formatted with "%s". */
  function TestName(m: FrameworkMethod): string {
    m.Name()
  }

  /** Everything `computeTestMethods` reads. The collaborators the runner calls
      but does not define are fixed functions here:
      - `fqn`: `DataConverter.getFullyQualifiedTestName(_, testClass)` for this class;
      - `show`: `Map.toString` of a data row;
      - `framework`: the list `super.computeTestMethods()` returns;
      - `withData` / `noData`: the suite's `methodsWithData` / `methodsWithNoData`;
      - `data`: the contents of `DataContext.getData()` once loading is done. */
  datatype TestClass<!R> = TestClass(
    fqn: string -> string,
    show: R -> string,
    framework: seq<FrameworkMethod>,
    withData: seq<FrameworkMethod>,
    noData: seq<FrameworkMethod>,
    data: map<string, seq<R>>)

  /** The key under which the data for `m` is looked up. */
  function Key<R>(c: TestClass<R>, m: FrameworkMethod): string {
    c.fqn(m.Name())
  }

  /** Why `computeTestMethods` fails with `Assert.fail`: a matched method
      whose data lookup found nothing, or an empty method list. */
  datatype Failure = MissingData(key: string) | NoMethod

  /** What one turn, or the whole loop, of `computeTestMethods` produces. */
  type Entries = Result<seq<FrameworkMethod>, Failure>

  /** The text `Assert.fail` puts before and after the missing method's
      fully-qualified name. */
  const MissingDataPrefix: string := "Method with name : "
  const MissingDataSuffix: string :=
    " expects some input test data. But there doesnt seem to be any test "
    + "data for the given method. Please check the Test Data file for the method data. "
    + "Possible cause could be a spelling mismatch."

  /** The assertion message of each failure. */
  function Message(f: Failure): string {
    match f
    case MissingData(key) => MissingDataPrefix + key + MissingDataSuffix
    case NoMethod => "No method exists for the Test Runner"
  }

  /** The missing-data message names the method's fully-qualified name right
      after its fixed prefix, so different methods give different messages,
      and none of them is the empty-list message. */
  lemma MessageNamesMethod(key: string, other: string)
    ensures |MissingDataPrefix| + |key| <= |Message(MissingData(key))|
    ensures Message(MissingData(key))[..|MissingDataPrefix|] == MissingDataPrefix
    ensures Message(MissingData(key))[|MissingDataPrefix|..|MissingDataPrefix| + |key|] == key
    ensures Message(MissingData(key)) == Message(MissingData(other)) ==> key == other
    ensures Message(MissingData(key)) != Message(NoMethod)
  {
    Middle(MissingDataPrefix, key, MissingDataSuffix);
    Middle(MissingDataPrefix, other, MissingDataSuffix);
    assert |Message(NoMethod)| < |MissingDataPrefix| + |MissingDataSuffix|;
  }

  /** The middle part of a three-part concatenation can be read back. */
  lemma Middle<T>(p: seq<T>, k: seq<T>, s: seq<T>)
    ensures (p + k + s)[..|p|] == p
    ensures (p + k + s)[|p|..|p| + |k|] == k
    ensures |p + k + s| == |p| + |k| + |s|
  {
  }

  /** The index of the first framework method whose fully-qualified name is
      `key`; the inner loop stops there (`break`). */
  function FirstMatch(fw: seq<FrameworkMethod>, fqn: string -> string, key: string): (r: Option<nat>)
    ensures r.Some? ==> r.value < |fw| && fqn(fw[r.value].Name()) == key
    ensures r.Some? ==> forall j :: 0 <= j < r.value ==> fqn(fw[j].Name()) != key
    ensures r.None? <==> forall j :: 0 <= j < |fw| ==> fqn(fw[j].Name()) != key
  {
    if |fw| == 0 then None
    else if fqn(fw[0].Name()) == key then Some(0)
    else
      match FirstMatch(fw[1..], fqn, key)
      case None => None
      case Some(i) => Some(i + 1)
  }

  /** Some framework method shares `m`'s fully-qualified name (see the
      contract of `FirstMatch`). */
  predicate Matched<R>(c: TestClass<R>, m: FrameworkMethod) {
    FirstMatch(c.framework, c.fqn, Key(c, m)).Some?
  }

  /** `m` is matched, but the data lookup for it returns null. */
  ghost predicate Missing<R>(c: TestClass<R>, m: FrameworkMethod) {
    Matched(c, m) && Key(c, m) !in c.data
  }

  /** The number of entries `m` contributes: one per row when it is matched
      and its data is present, none otherwise. */
  ghost function RowCount<R>(c: TestClass<R>, m: FrameworkMethod): nat {
    if Matched(c, m) && Key(c, m) in c.data then |c.data[Key(c, m)]| else 0
  }

  /** The sum of `RowCount` over `ms`. */
  ghost function TotalRows<R>(c: TestClass<R>, ms: seq<FrameworkMethod>): nat {
    if |ms| == 0 then 0 else RowCount(c, ms[0]) + TotalRows(c, ms[1..])
  }

  /** Where the entries of `ms[k]` start in the expanded list. */
  ghost function Offset<R>(c: TestClass<R>, ms: seq<FrameworkMethod>, k: nat): nat
    requires k <= |ms|
  {
    TotalRows(c, ms[..k])
  }

  /** The index of the first method of `ms` whose data is missing, or `|ms|`. */
  ghost function FirstMissing<R>(c: TestClass<R>, ms: seq<FrameworkMethod>): (k: nat)
    ensures k <= |ms|
    ensures forall i :: 0 <= i < k ==> !Missing(c, ms[i])
    ensures k < |ms| ==> Missing(c, ms[k])
  {
    if |ms| == 0 then 0
    else if Missing(c, ms[0]) then 0
    else 1 + FirstMissing(c, ms[1..])
  }

  /** The `EasyFrameworkMethod` built for one data row: same reflected method,
      name = method name followed by the row's string form. */
  function Expanded<R>(m: FrameworkMethod, show: R -> string, row: R): FrameworkMethod {
    Renamed(m.reflected, m.Name() + show(row))
  }

  /** The innermost loop: one entry per row, in row order. */
  function ExpandRows<R>(m: FrameworkMethod, show: R -> string, rows: seq<R>): (r: seq<FrameworkMethod>)
    ensures |r| == |rows|
    ensures forall j :: 0 <= j < |rows| ==> r[j] == Expanded(m, show, rows[j])
    ensures forall j :: 0 <= j < |rows| ==>
              r[j].Renamed? && r[j].reflected == m.reflected && TestName(r[j]) == TestName(m) + show(rows[j])
  {
    if |rows| == 0 then []
    else [Expanded(m, show, rows[0])] + ExpandRows(m, show, rows[1..])
  }

  /** The entry generated for row `j` of the data of `m`. */
  ghost function Entry<R>(c: TestClass<R>, m: FrameworkMethod, j: nat): FrameworkMethod
    requires j < RowCount(c, m)
  {
    var i := FirstMatch(c.framework, c.fqn, Key(c, m)).value;
    Expanded(c.framework[i], c.show, c.data[Key(c, m)][j])
  }

  /** One iteration of the outer loop: find the first matching framework
      method, look its data up, expand it. */
  function ExpandMethod<R>(c: TestClass<R>, m: FrameworkMethod): (r: Entries)
    ensures r.Fail? <==> Missing(c, m)
    ensures r.Fail? ==> r.error == MissingData(Key(c, m))
    ensures r.Ok? ==> |r.value| == RowCount(c, m)
    ensures r.Ok? ==> forall j :: 0 <= j < RowCount(c, m) ==> r.value[j] == Entry(c, m, j)
  {
    var key := Key(c, m);
    match FirstMatch(c.framework, c.fqn, key)
    case None => Ok([])
    case Some(i) =>
      if key in c.data then Ok(ExpandRows(c.framework[i], c.show, c.data[key]))
      else Fail(MissingData(key))
  }

  /** Runs two stages in order: the first failure aborts, otherwise the
      entries are concatenated. */
  function Then(first: Entries, rest: Entries): Entries {
    match first
    case Fail(e) => Fail(e)
    case Ok(xs) =>
      match rest
      case Fail(e) => Fail(e)
      case Ok(ys) => Ok(xs + ys)
  }

  /** The whole outer loop over `ms`; the first missing lookup aborts it. */
  function ExpandAll<R>(c: TestClass<R>, ms: seq<FrameworkMethod>): (r: Entries)
    ensures r.Ok? ==> forall k :: 0 <= k < |r.value| ==> r.value[k].Renamed?
    ensures r.Fail? ==> r.error.MissingData?
  {
    if |ms| == 0 then Ok([])
    else Then(ExpandMethod(c, ms[0]), ExpandAll(c, ms[1..]))
  }

  /** Splitting the method list splits the loop: the expansion of `xs + ys`
      is that of `xs` followed by that of `ys`, and fails with the first
      failure met. */
  lemma {:induction false} ExpandAllAppend<R>(c: TestClass<R>, xs: seq<FrameworkMethod>, ys: seq<FrameworkMethod>)
    ensures ExpandAll(c, xs + ys) == Then(ExpandAll(c, xs), ExpandAll(c, ys))
  {
    if |xs| == 0 {
      assert xs + ys == ys;
      if ExpandAll(c, ys).Ok? {
        assert [] + ExpandAll(c, ys).value == ExpandAll(c, ys).value;
      }
    } else {
      assert (xs + ys)[0] == xs[0];
      assert (xs + ys)[1..] == xs[1..] + ys;
      ExpandAllAppend(c, xs[1..], ys);
      ThenAssociative(ExpandMethod(c, xs[0]), ExpandAll(c, xs[1..]), ExpandAll(c, ys));
    }
  }

  lemma ThenAssociative(a: Entries, b: Entries, d: Entries)
    ensures Then(a, Then(b, d)) == Then(Then(a, b), d)
  {
    if a.Ok? && b.Ok? && d.Ok? {
      assert a.value + (b.value + d.value) == (a.value + b.value) + d.value;
    }
  }

  /** The outer loop fails exactly when some matched method has no data; it
      then reports the first such method by its fully-qualified name. */
  lemma {:induction false} ExpandAllSpec<R>(c: TestClass<R>, ms: seq<FrameworkMethod>)
    ensures ExpandAll(c, ms).Ok? <==> FirstMissing(c, ms) == |ms|
    ensures ExpandAll(c, ms).Fail? ==>
              ExpandAll(c, ms).error == MissingData(Key(c, ms[FirstMissing(c, ms)]))
  {
    if |ms| > 0 {
      ExpandAllSpec(c, ms[1..]);
      ExpandAllStep(c, ms);
      FirstMissingCons(c, ms);
    }
  }

  /** One turn of the outer loop: it succeeds when the first method and the
      rest do, and otherwise reports the first of their failures. */
  lemma ExpandAllStep<R>(c: TestClass<R>, ms: seq<FrameworkMethod>)
    requires |ms| > 0
    ensures ExpandAll(c, ms).Ok? <==> ExpandMethod(c, ms[0]).Ok? && ExpandAll(c, ms[1..]).Ok?
    ensures ExpandAll(c, ms).Fail? ==>
              ExpandAll(c, ms).error
              == if ExpandMethod(c, ms[0]).Fail? then ExpandMethod(c, ms[0]).error else ExpandAll(c, ms[1..]).error
  {
  }

  /** A successful loop yields one entry per row of every matched method. */
  lemma {:induction false} ExpandAllLength<R>(c: TestClass<R>, ms: seq<FrameworkMethod>)
    requires ExpandAll(c, ms).Ok?
    ensures |ExpandAll(c, ms).value| == TotalRows(c, ms)
  {
    if |ms| > 0 {
      ExpandAllHead(c, ms);
      ExpandAllLength(c, ms[1..]);
    }
  }

  /** `FirstMissing` on a list with a head: 0 if the head is missing,
      otherwise one past the first missing method of the tail. */
  lemma FirstMissingCons<R>(c: TestClass<R>, ms: seq<FrameworkMethod>)
    requires |ms| > 0
    ensures Missing(c, ms[0]) ==> FirstMissing(c, ms) == 0
    ensures !Missing(c, ms[0]) ==> FirstMissing(c, ms) == 1 + FirstMissing(c, ms[1..])
    ensures FirstMissing(c, ms) == |ms| <==> !Missing(c, ms[0]) && FirstMissing(c, ms[1..]) == |ms| - 1
    ensures !Missing(c, ms[0]) && FirstMissing(c, ms) < |ms| ==>
              ms[FirstMissing(c, ms)] == ms[1..][FirstMissing(c, ms[1..])]
  {
  }

  /** The framework methods `DataLoaderUtil.loadData` is called on, in order:
      each matched method, up to and including the one whose data is missing. */
  function Loads<R>(c: TestClass<R>, ms: seq<FrameworkMethod>): (r: seq<FrameworkMethod>)
    ensures |r| <= |ms|
    ensures forall x :: x in r ==> x in c.framework
  {
    if |ms| == 0 then []
    else
      var key := Key(c, ms[0]);
      match FirstMatch(c.framework, c.fqn, key)
      case None => Loads(c, ms[1..])
      case Some(i) =>
        [c.framework[i]] + (if key in c.data then Loads(c, ms[1..]) else [])
  }

  /** The first matching framework method of every matched method of `ms`,
      in order, whatever the data holds. */
  function Matches<R>(c: TestClass<R>, ms: seq<FrameworkMethod>): seq<FrameworkMethod> {
    if |ms| == 0 then []
    else
      (match FirstMatch(c.framework, c.fqn, Key(c, ms[0]))
       case None => []
       case Some(i) => [c.framework[i]])
      + Matches(c, ms[1..])
  }

  /** How many methods of `ms` the outer loop gets through: all of them, or
      up to and including the first one whose data is missing. */
  ghost function Reached<R>(c: TestClass<R>, ms: seq<FrameworkMethod>): (n: nat)
    ensures n <= |ms|
  {
    if FirstMissing(c, ms) < |ms| then FirstMissing(c, ms) + 1 else |ms|
  }

  /** The load trace is exactly the matches of the methods the outer loop
      reaches: data is loaded once for each matched method before the first
      missing lookup, once for that method, and never after it. */
  lemma {:induction false} LoadsSpec<R>(c: TestClass<R>, ms: seq<FrameworkMethod>)
    ensures Loads(c, ms) == Matches(c, ms[..Reached(c, ms)])
  {
    if |ms| > 0 {
      FirstMissingCons(c, ms);
      var n := Reached(c, ms);
      assert n > 0;
      if Missing(c, ms[0]) {
        assert n == 1;
        assert ms[..n][1..] == [];
      } else {
        LoadsSpec(c, ms[1..]);
        assert n == 1 + Reached(c, ms[1..]);
        assert ms[..n][1..] == ms[1..][..n - 1];
      }
    }
  }

  /** `computeTestMethods` without its cache: the expanded entries followed by
      the methods without data; an empty list is a failure. */
  function Compute<R>(c: TestClass<R>): (r: Entries)
    ensures r.Ok? ==> |r.value| > 0
    ensures r == Fail(NoMethod) <==> ExpandAll(c, c.withData) == Ok([]) && c.noData == []
  {
    match ExpandAll(c, c.withData)
    case Fail(e) => Fail(e)
    case Ok(entries) =>
      var all := entries + c.noData;
      if |all| == 0 then Fail(NoMethod) else Ok(all)
  }

  /** `computeTestMethods` fails on the first missing lookup, reporting that
      method, and with "No method exists for the Test Runner" when the list
      would be empty; otherwise it succeeds. */
  lemma ComputeSpec<R>(c: TestClass<R>)
    ensures Compute(c).Ok? <==>
              FirstMissing(c, c.withData) == |c.withData| && TotalRows(c, c.withData) + |c.noData| > 0
    ensures Compute(c).Fail? && FirstMissing(c, c.withData) < |c.withData| ==>
              Compute(c).error == MissingData(Key(c, c.withData[FirstMissing(c, c.withData)]))
    ensures Compute(c).Fail? && FirstMissing(c, c.withData) == |c.withData| ==>
              Compute(c).error == NoMethod
  {
    ExpandAllSpec(c, c.withData);
    if ExpandAll(c, c.withData).Ok? {
      ExpandAllLength(c, c.withData);
    }
  }

  /** The computed list holds the entries of all rows followed by the
      methods without data, unchanged and in order. */
  lemma ComputeContents<R>(c: TestClass<R>)
    requires Compute(c).Ok?
    ensures |Compute(c).value| == TotalRows(c, c.withData) + |c.noData|
    ensures Compute(c).value[..TotalRows(c, c.withData)] == ExpandAll(c, c.withData).value
    ensures Compute(c).value[TotalRows(c, c.withData)..] == c.noData
  {
    ExpandAllLength(c, c.withData);
  }

  /** A successful loop succeeded on the first method and on the rest, and
      its entries are theirs, in that order. */
  lemma ExpandAllHead<R>(c: TestClass<R>, ms: seq<FrameworkMethod>)
    requires |ms| > 0 && ExpandAll(c, ms).Ok?
    ensures ExpandMethod(c, ms[0]).Ok? && ExpandAll(c, ms[1..]).Ok?
    ensures ExpandAll(c, ms).value == ExpandMethod(c, ms[0]).value + ExpandAll(c, ms[1..]).value
  {
  }

  /** Entry `Offset(k) + j` of the expanded list is row `j` of `ms[k]`: every
      method contributes its rows as one contiguous block, blocks in method
      order, rows in their original order, each built from the first matching
      framework method. */
  lemma {:induction false} ExpandAllPositions<R>(c: TestClass<R>, ms: seq<FrameworkMethod>, k: nat, j: nat)
    requires ExpandAll(c, ms).Ok?
    requires k < |ms| && j < RowCount(c, ms[k])
    ensures Offset(c, ms, k) + j < |ExpandAll(c, ms).value|
    ensures ExpandAll(c, ms).value[Offset(c, ms, k) + j] == Entry(c, ms[k], j)
  {
    ExpandAllHead(c, ms);
    OffsetCons(c, ms, k);
    if k > 0 {
      ExpandAllPositions(c, ms[1..], k - 1, j);
    }
  }

  /** The first block starts at 0; every later one is shifted by the rows of `ms[0]`. */
  lemma OffsetCons<R>(c: TestClass<R>, ms: seq<FrameworkMethod>, k: nat)
    requires k < |ms|
    ensures Offset(c, ms, k) == if k == 0 then 0 else RowCount(c, ms[0]) + Offset(c, ms[1..], k - 1)
  {
    if k == 0 {
      assert ms[..0] == [];
    } else {
      assert ms[..k][1..] == ms[1..][..k - 1];
      assert ms[..k][0] == ms[0];
    }
  }

  /** Names are not disambiguated: two rows of one method get the same test
      name exactly when their string forms are equal. */
  lemma DuplicateRowNames<R>(c: TestClass<R>, ms: seq<FrameworkMethod>, k: nat, j1: nat, j2: nat)
    requires ExpandAll(c, ms).Ok?
    requires k < |ms| && j1 < RowCount(c, ms[k]) && j2 < RowCount(c, ms[k])
    ensures Offset(c, ms, k) + j1 < |ExpandAll(c, ms).value|
    ensures Offset(c, ms, k) + j2 < |ExpandAll(c, ms).value|
    ensures TestName(ExpandAll(c, ms).value[Offset(c, ms, k) + j1])
            == TestName(ExpandAll(c, ms).value[Offset(c, ms, k) + j2])
            <==> c.show(c.data[Key(c, ms[k])][j1]) == c.show(c.data[Key(c, ms[k])][j2])
  {
    ExpandAllPositions(c, ms, k, j1);
    ExpandAllPositions(c, ms, k, j2);
    var i := FirstMatch(c.framework, c.fqn, Key(c, ms[k])).value;
    var prefix := c.framework[i].Name();
    var s1 := c.show(c.data[Key(c, ms[k])][j1]);
    var s2 := c.show(c.data[Key(c, ms[k])][j2]);
    assert (prefix + s1)[|prefix|..] == s1;
    assert (prefix + s2)[|prefix|..] == s2;
  }

  /** The data lookup of a rowless method yields no entries. */
  lemma RowlessMethodExpandsToNothing<R>(c: TestClass<R>, m: FrameworkMethod)
    requires !Missing(c, m) && RowCount(c, m) == 0
    ensures ExpandMethod(c, m) == Ok([])
  {
  }

  /** A method with data that matches no framework method, or whose row list
      is present but empty, contributes nothing and causes no failure,
      wherever it stands in the list. */
  lemma RowlessMethodContributesNothing<R>(
    c: TestClass<R>, before: seq<FrameworkMethod>, m: FrameworkMethod, after: seq<FrameworkMethod>)
    requires !Missing(c, m) && RowCount(c, m) == 0
    ensures ExpandAll(c, before + [m] + after) == ExpandAll(c, before + after)
  {
    RowlessMethodExpandsToNothing(c, m);
    assert ExpandAll(c, [m]) == Then(ExpandMethod(c, [m][0]), ExpandAll(c, [m][1..]));
    assert [m][1..] == [] && [m][0] == m;
    var none: seq<FrameworkMethod> := [];
    assert none + none == none;
    assert ExpandAll(c, [m]) == Ok(none);
    ExpandAllAppend(c, before + [m], after);
    ExpandAllAppend(c, before, [m]);
    ExpandAllAppend(c, before, after);
    if ExpandAll(c, before).Ok? {
      assert ExpandAll(c, before).value + [] == ExpandAll(c, before).value;
    }
  }
}
