/** `instrumentClass`: every declared field carrying `@Intercept` is replaced
    by a proxy over its current value whose advice is an
    `InternalSpringInterceptor` delegating to a new instance of the named
    `MethodIntercepter` class; every other field is left alone. */
module Instrumentation {
  import opened Outcomes

  /** An instance of a user `MethodIntercepter` class. */
  datatype Interceptor = Interceptor(className: string)

  /** A field value: null, a plain object, or a Spring proxy over a target
      with one interceptor as advice. */
  datatype Value = Null | Object(id: nat) | Proxy(target: Value, advice: Interceptor)

  /** A declared field: its name, the interceptor class of its `@Intercept`
      annotation if it has one, and its value in the test instance. The two
      flags stand for the reflection checks on the field: `accessible` when
      `setAccessible(true)` succeeds (it fails under a security manager or in
      a package that is not opened), `settable` when `Field.set` may then
      write it (it may not for a `static final` field). */
  datatype Field = Field(name: string, intercept: Option<string>, value: Value, accessible: bool, settable: bool)

  /** The cause of the exception that aborts instrumentation (the loop wraps
      it in a `RuntimeException`): `setAccessible` was refused, `setTarget`
      refused a null target, the interceptor class could not be instantiated,
      no proxy could be generated for the target, or `Field.set` refused to
      store the proxy. */
  datatype InstrumentError =
    | Inaccessible
    | NullTarget
    | CannotInstantiate(className: string)
    | CannotProxy(target: Value)
    | CannotSet

  /** A method call on a field value: the method and its arguments. */
  datatype Invocation = Invocation(methodName: string, arguments: seq<Value>)

  /** The field can be instrumented: `setAccessible` succeeds, and when the
      field is annotated its value is non-null, `interceptorClass.newInstance()`
      succeeds, `getProxy()` can build a proxy for its value and `Field.set`
      may store that proxy. */
  predicate Instrumentable(f: Field, instantiate: string -> Option<Interceptor>, proxiable: Value -> bool) {
    && f.accessible
    && (f.intercept.Some? ==>
          !f.value.Null? && instantiate(f.intercept.value).Some? && proxiable(f.value) && f.settable)
  }

  /** One iteration of the loop over the declared fields. The steps that can
      throw run in the order `instrumentClass` calls them: `setAccessible` on
      every field, then, for an annotated one, `setTarget`, `newInstance`,
      `getProxy` and `Field.set`. */
  function InstrumentField(f: Field, instantiate: string -> Option<Interceptor>, proxiable: Value -> bool)
    : (r: Result<Field, InstrumentError>)
    ensures r.Ok? <==> Instrumentable(f, instantiate, proxiable)
    ensures r.Ok? ==> r.value.name == f.name && r.value.intercept == f.intercept
    ensures r.Ok? && f.intercept.None? ==> r.value == f
    ensures r.Ok? && f.intercept.Some? ==>
              r.value.value == Proxy(f.value, instantiate(f.intercept.value).value)
    ensures r.Fail? && !f.accessible ==> r.error == Inaccessible
    ensures r.Fail? && f.accessible ==> f.intercept.Some?
    ensures r.Fail? && f.accessible && f.value.Null? ==> r.error == NullTarget
    ensures r.Fail? && f.accessible && !f.value.Null? && instantiate(f.intercept.value).None? ==>
              r.error == CannotInstantiate(f.intercept.value)
    ensures r.Fail? && f.accessible && !f.value.Null? && instantiate(f.intercept.value).Some? ==>
              r.error == (if proxiable(f.value) then CannotSet else CannotProxy(f.value))
  {
    if !f.accessible then Fail(Inaccessible)
    else
      match f.intercept
      case None => Ok(f)
      case Some(cls) =>
        if f.value.Null? then Fail(NullTarget)
        else
          match instantiate(cls)
          case None => Fail(CannotInstantiate(cls))
          case Some(advice) =>
            if !proxiable(f.value) then Fail(CannotProxy(f.value))
            else if !f.settable then Fail(CannotSet)
            else Ok(f.(value := Proxy(f.value, advice)))
  }

  /** The whole loop; the first failing field aborts it. */
  function InstrumentFields(fs: seq<Field>, instantiate: string -> Option<Interceptor>, proxiable: Value -> bool)
    : (r: Result<seq<Field>, InstrumentError>)
    ensures r.Ok? <==> forall i :: 0 <= i < |fs| ==> Instrumentable(fs[i], instantiate, proxiable)
    ensures r.Ok? ==> |r.value| == |fs|
    ensures r.Ok? ==> forall i :: 0 <= i < |fs| ==>
              && r.value[i].name == fs[i].name
              && r.value[i].intercept == fs[i].intercept
              && (fs[i].intercept.None? ==> r.value[i].value == fs[i].value)
              && (fs[i].intercept.Some? ==>
                    r.value[i].value == Proxy(fs[i].value, instantiate(fs[i].intercept.value).value))
    ensures r.Fail? ==>
              exists i :: (0 <= i < |fs| && !Instrumentable(fs[i], instantiate, proxiable)
                           && (forall j :: 0 <= j < i ==> Instrumentable(fs[j], instantiate, proxiable))
                           && r.error == InstrumentField(fs[i], instantiate, proxiable).error)
  {
    if |fs| == 0 then Ok([])
    else
      match InstrumentField(fs[0], instantiate, proxiable)
      case Fail(e) => Fail(e)
      case Ok(f) =>
        match InstrumentFields(fs[1..], instantiate, proxiable)
        case Fail(e) => Fail(e)
        case Ok(rest) => Ok([f] + rest)
  }

  /** Removes the proxy that instrumentation put on an annotated field. */
  function Unwrap(f: Field): Field {
    if f.intercept.Some? && f.value.Proxy? then f.(value := f.value.target) else f
  }

  function UnwrapAll(fs: seq<Field>): (r: seq<Field>)
    ensures |r| == |fs|
  {
    if |fs| == 0 then [] else [Unwrap(fs[0])] + UnwrapAll(fs[1..])
  }

  /** Nothing but the proxies changes: removing them gives back the fields
      exactly as they were. */
  lemma {:induction false} UnwrapUndoesInstrument(
    fs: seq<Field>, instantiate: string -> Option<Interceptor>, proxiable: Value -> bool)
    requires InstrumentFields(fs, instantiate, proxiable).Ok?
    ensures UnwrapAll(InstrumentFields(fs, instantiate, proxiable).value) == fs
  {
    if |fs| > 0 {
      UnwrapUndoesInstrument(fs[1..], instantiate, proxiable);
      var out := InstrumentFields(fs, instantiate, proxiable).value;
      assert out == [out[0]] + out[1..];
      assert out[1..] == InstrumentFields(fs[1..], instantiate, proxiable).value;
      assert fs == [fs[0]] + fs[1..];
    }
  }

  /** Instrumenting an already instrumented field wraps the proxy in a second
      proxy: `field.get` reads the proxy and it becomes the new target; the
      existing proxy is not unwrapped first. */
  lemma InstrumentTwiceNests(
    fs: seq<Field>, instantiate: string -> Option<Interceptor>, proxiable: Value -> bool, i: nat)
    requires InstrumentFields(fs, instantiate, proxiable).Ok?
    requires InstrumentFields(InstrumentFields(fs, instantiate, proxiable).value, instantiate, proxiable).Ok?
    requires i < |fs| && fs[i].intercept.Some?
    ensures var advice := instantiate(fs[i].intercept.value).value;
            InstrumentFields(InstrumentFields(fs, instantiate, proxiable).value, instantiate, proxiable).value[i].value
            == Proxy(Proxy(fs[i].value, advice), advice)
  {
  }

  /** `InternalSpringInterceptor.invoke`: a call on a proxy goes to its
      interceptor with the method, the proxy's target and the arguments,
      unchanged; a call on anything else goes straight to it. */
  function Invoke<A>(v: Value, call: Invocation,
                     intercept: (Interceptor, string, Value, seq<Value>) -> A,
                     direct: (Value, Invocation) -> A): A {
    match v
    case Proxy(target, advice) => intercept(advice, call.methodName, target, call.arguments)
    case _ => direct(v, call)
  }

  /** The interceptor is handed the proxy's target, not the proxy: an
      interceptor that just proceeds with the call makes the proxy behave
      exactly like the object it wraps. */
  lemma PassThroughIsTransparent<A>(target: Value, advice: Interceptor, call: Invocation,
                                    direct: (Value, Invocation) -> A)
    ensures Invoke(Proxy(target, advice), call,
                   (a: Interceptor, m: string, t: Value, args: seq<Value>) => direct(t, Invocation(m, args)),
                   direct)
            == direct(target, call)
  {
    assert Invocation(call.methodName, call.arguments) == call;
  }

  /** After instrumentation a call on an annotated field reaches its
      interceptor with the field's original value as target; a call on any
      other field behaves as before. */
  lemma InstrumentedCallsForward<A>(
    fs: seq<Field>, instantiate: string -> Option<Interceptor>, proxiable: Value -> bool, i: nat,
    call: Invocation,
    intercept: (Interceptor, string, Value, seq<Value>) -> A,
    direct: (Value, Invocation) -> A)
    requires InstrumentFields(fs, instantiate, proxiable).Ok? && i < |fs|
    ensures i < |InstrumentFields(fs, instantiate, proxiable).value|
    ensures var after := InstrumentFields(fs, instantiate, proxiable).value[i].value;
            fs[i].intercept.Some? ==>
              Invoke(after, call, intercept, direct)
              == intercept(instantiate(fs[i].intercept.value).value, call.methodName, fs[i].value, call.arguments)
    ensures var after := InstrumentFields(fs, instantiate, proxiable).value[i].value;
            fs[i].intercept.None? ==>
              Invoke(after, call, intercept, direct) == Invoke(fs[i].value, call, intercept, direct)
  {
  }
}
