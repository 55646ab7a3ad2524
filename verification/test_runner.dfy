/** `EasyTestRunner`'s cached method list: `computeTestMethods` keeps the list
    it computed in the `frameworkMethods` field and hands it back on every
    later call instead of expanding (and loading data) again. */
module TestRunner {
  import opened Outcomes
  import opened Expansion

  /** The runner: the class it runs and its `frameworkMethods` field
      (`None` while it is still null). */
  datatype Runner<!R> = Runner(testClass: TestClass<R>, frameworkMethods: Option<seq<FrameworkMethod>>)

  /** The outcome of one `computeTestMethods` call: the runner afterwards, the
      list returned (or the assertion failure thrown), and the framework
      methods on which data loading was triggered during the call. */
  datatype Call<!R> = Call(after: Runner<R>, result: Entries, loads: seq<FrameworkMethod>)

  /** The guard of the cache: the field is non-null and non-empty. */
  predicate Cached<R>(r: Runner<R>) {
    r.frameworkMethods.Some? && |r.frameworkMethods.value| > 0
  }

  function ComputeTestMethods<R>(r: Runner<R>): (call: Call<R>)
    ensures Cached(r) ==> call.after == r && call.result == Ok(r.frameworkMethods.value) && call.loads == []
    ensures !Cached(r) ==> call.result == Compute(r.testClass) && call.loads == Loads(r.testClass, r.testClass.withData)
    ensures call.after.testClass == r.testClass
    ensures call.result.Ok? ==> |call.result.value| > 0 && call.after.frameworkMethods == Some(call.result.value)
    ensures call.result.Fail? ==> call.after == r
  {
    if Cached(r) then Call(r, Ok(r.frameworkMethods.value), [])
    else
      var loads := Loads(r.testClass, r.testClass.withData);
      match Compute(r.testClass)
      case Fail(e) => Call(r, Fail(e), loads)
      case Ok(methods) => Call(r.(frameworkMethods := Some(methods)), Ok(methods), loads)
  }

  /** Once a call has succeeded, every later call returns the same list,
      leaves the runner as it is and loads no data. */
  lemma {:induction false} ComputeTestMethodsIdempotent<R>(r: Runner<R>, n: nat)
    requires ComputeTestMethods(r).result.Ok?
    ensures Repeat(ComputeTestMethods(r).after, n).frameworkMethods == ComputeTestMethods(r).after.frameworkMethods
    ensures ComputeTestMethods(Repeat(ComputeTestMethods(r).after, n)).result == ComputeTestMethods(r).result
    ensures ComputeTestMethods(Repeat(ComputeTestMethods(r).after, n)).loads == []
  {
    if n > 0 {
      ComputeTestMethodsIdempotent(r, n - 1);
    }
  }

  /** The runner after `n` further calls. */
  function Repeat<R>(r: Runner<R>, n: nat): Runner<R> {
    if n == 0 then r else ComputeTestMethods(Repeat(r, n - 1)).after
  }
}
