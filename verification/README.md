# EasyTest Spring runner core, modelled in Dafny

EasyTest runs a JUnit test method once per row of externally loaded test
data. Its Spring runner, `SpringTestRunner.EasyTestRunner`, has three pieces
of bookkeeping. This project models them as pure functions over immutable
datatypes and proves what they promise.

- **Method expansion** (`computeTestMethods`). Every test method with data is
  matched against the framework's method list by fully-qualified name. The
  first matching framework method is replaced by one renamed copy per data
  row, in row order, and each copy's name is the method name followed by the
  row's string form. The methods without data are then appended unchanged. A
  matched method whose data lookup finds nothing aborts the run with an
  assertion failure, and so does an empty result. The result is cached in
  the `frameworkMethods` field, and later calls hand it back without
  expanding or loading data again. Modules `Expansion` and `TestRunner`.
- **Loader information for the after-class write-back** (`withAfterClasses`).
  One pass over the `@Test` methods builds `testInfoList`. A method-level
  `@DataLoader` beats the class-level one. The local `testInfo` is declared
  once, before the loop, and is never reset. A method with no loader at
  either level therefore appends the previous method's `TestInfo` object a
  second time, and renames that shared object. Objects are modelled as
  indices into an allocation sequence so that this sharing is visible.
  Module `LoaderInfo`.
- **Field instrumentation** (`instrumentClass`). Every declared field that
  carries `@Intercept` is replaced by a Spring proxy over its current value.
  The proxy's advice delegates to a new instance of the named interceptor
  class. Every other field is left alone. `InternalSpringInterceptor.invoke`
  forwards the method, the proxy's target and the arguments to that
  interceptor. Module `Instrumentation`.

Module `Outcomes` holds `Option` (a Java reference that may be null) and
`Result` (a value, or the failure that aborted the computation).

The collaborators the runner calls but does not define are inputs of the
model:
- `DataConverter.getFullyQualifiedTestName` for the test class is the
  function `fqn`.
- `Map.toString` of a data row is `show`.
- The contents of `DataContext.getData()` once loading is done form the map
  `data`.
- `super.computeTestMethods()` is the list `framework`.
- `DataLoaderUtil.determineLoader` is represented by the annotation it was
  called with. "## Left out" states what this assumes.
- `Class.newInstance` for interceptor classes is the function `instantiate`.
  It returns `None` when instantiation throws.
- Whether Spring's `ProxyFactory.getProxy()` can build a proxy for a
  non-null target is the predicate `proxiable`. A null field value is the
  `Null` value; `setTarget` rejects it.
- The `DataLoaderUtil.loadData` calls are recorded as a trace (`Loads`)
  rather than performed, so the cache property can say that nothing is
  loaded again.

The failures of `computeTestMethods` are the datatype `Expansion.Failure`.
`Expansion.Message` gives the exact assertion message of each failure.
The failures of `instrumentClass` are the datatype
`Instrumentation.InstrumentError`: the cause that the source wraps in a
`RuntimeException`.

Two behaviours of the code are worth stating plainly:
- `instrumentClass` wraps whatever value the field holds. Instrumenting twice
  therefore nests two proxies (`Instrumentation.InstrumentTwiceNests`).
- Expanded display names are not disambiguated. Two rows that print alike
  give two entries with the same name (`Expansion.DuplicateRowNames`).

## Model

| member | source | states |
|---|---|---|
| Expansion.FirstMatch | src/main/java/org/easetech/easytest/runner/SpringTestRunner.java:266-269 | The result is the least index whose fully-qualified name equals the key. It is `None` exactly when no framework method has that name, so the inner loop stops at the first match (`break`, line 288). |
| Expansion.ExpandRows | src/main/java/org/easetech/easytest/runner/SpringTestRunner.java:279-284 | There is one entry per data row, in row order. Entry `j` is an `EasyFrameworkMethod` over the same reflected method, and its reported test name (`testName`, lines 243-245) is the method's name followed by row `j`'s string form. |
| Expansion.MessageNamesMethod | src/main/java/org/easetech/easytest/runner/SpringTestRunner.java:274-277 | The missing-data message has the method's fully-qualified name right after "Method with name : ". Different methods therefore give different messages, and none equals the empty-list message. |
| Expansion.ExpandMethod | src/main/java/org/easetech/easytest/runner/SpringTestRunner.java:266-289 | One turn of the outer loop fails exactly when the method is matched and its data lookup returns null, and the failure names the method's fully-qualified name. Otherwise it yields one entry per row of a matched method, and none for an unmatched one. Entry `j` is row `j` applied to the first matching framework method. |
| Expansion.ExpandAll | src/main/java/org/easetech/easytest/runner/SpringTestRunner.java:265-291 | Every entry of a successful loop is a renamed `EasyFrameworkMethod` (what each entry holds is stated by `ExpandAllPositions`), and every failure is a missing-data failure. |
| Expansion.ExpandAllSpec | src/main/java/org/easetech/easytest/runner/SpringTestRunner.java:265-291 | The outer loop succeeds exactly when no method before the end is matched with missing data. When it fails, the failure reports the first such method's fully-qualified name (`Assert.fail`, lines 272-278). |
| Expansion.ExpandAllLength | src/main/java/org/easetech/easytest/runner/SpringTestRunner.java:265-291 | A successful loop yields exactly the sum, over the methods with data, of their row counts. |
| Expansion.ExpandAllAppend | src/main/java/org/easetech/easytest/runner/SpringTestRunner.java:265-291 | Running the loop over `xs + ys` equals running it over `xs` and then over `ys`. The first failure wins; otherwise the entries are concatenated. |
| Expansion.ExpandAllPositions | src/main/java/org/easetech/easytest/runner/SpringTestRunner.java:265-291 | Entry `Offset(k) + j` of the expanded list is row `j` of method `k`. Each method's rows form one contiguous block, blocks follow method order, and rows keep their original order. |
| Expansion.DuplicateRowNames | src/main/java/org/easetech/easytest/runner/SpringTestRunner.java:281-282 | Two rows of one method get the same test name exactly when their string forms are equal: nothing disambiguates them. |
| Expansion.RowlessMethodExpandsToNothing | src/main/java/org/easetech/easytest/runner/SpringTestRunner.java:269-284 | A method that matches nothing, or whose row list is present but empty, yields no entries and no failure. |
| Expansion.RowlessMethodContributesNothing | src/main/java/org/easetech/easytest/runner/SpringTestRunner.java:265-291 | Inserting such a method anywhere in the list of methods with data leaves the whole expansion unchanged, including any failure. |
| Expansion.Loads | src/main/java/org/easetech/easytest/runner/SpringTestRunner.java:269-271 | Data is loaded only for framework methods of the class, at most once per method with data. |
| Expansion.LoadsSpec | src/main/java/org/easetech/easytest/runner/SpringTestRunner.java:265-278 | The framework methods `loadData` is called on are, in order, the first match of each matched method that the outer loop reaches: every method before the first missing lookup, and that method itself. Nothing is loaded after a missing lookup. |
| Expansion.Compute | src/main/java/org/easetech/easytest/runner/SpringTestRunner.java:262-295 | A computed list is never empty. The "No method exists for the Test Runner" failure happens exactly when no method expands to anything and there are no methods without data. |
| Expansion.ComputeSpec | src/main/java/org/easetech/easytest/runner/SpringTestRunner.java:262-295 | The uncached computation succeeds exactly when no matched method lacks data and the final list is non-empty. It fails with the missing-data failure of the first such method, or with "No method exists for the Test Runner" (line 294) when the list would be empty. |
| Expansion.ComputeContents | src/main/java/org/easetech/easytest/runner/SpringTestRunner.java:292 | A computed list holds the expanded entries of all rows, followed by the methods without data, unchanged and in order. Its length is the total row count plus the number of methods without data. |
| TestRunner.ComputeTestMethods | src/main/java/org/easetech/easytest/runner/SpringTestRunner.java:258-298 | A non-null, non-empty cache is returned as it is: the runner is unchanged and no data is loaded. Otherwise the list is computed, and data loading is triggered for the matched methods. Success stores the non-empty list in the cache (line 296); failure leaves the runner untouched. |
| TestRunner.ComputeTestMethodsIdempotent | src/main/java/org/easetech/easytest/runner/SpringTestRunner.java:259-261 | After one successful call, any number of further calls return the same list, keep the same cache and load no data. |
| LoaderInfo.Step | src/main/java/org/easetech/easytest/runner/SpringTestRunner.java:358-371 | One iteration appends at most one reference and never changes the references already in the list; the object `testInfo` refers to may be renamed. Every reference stays valid. |
| LoaderInfo.Collect | src/main/java/org/easetech/easytest/runner/SpringTestRunner.java:351-373 | After the loop over the `@Test` methods, the list has at most one entry per method and only valid references. |
| LoaderInfo.Lead | src/main/java/org/easetech/easytest/runner/SpringTestRunner.java:351-371 | The leading methods with no loader at either level are exactly those that run while `testInfo` is still null; the first method after them has a loader. |
| LoaderInfo.CollectLength | src/main/java/org/easetech/easytest/runner/SpringTestRunner.java:354-373 | Each `@Test` method appends at most one entry. The list is as long as the method list minus the leading loader-less methods, exactly as long when the class has a loader, and empty when no loader exists at either level. |
| LoaderInfo.CollectPrecedence | src/main/java/org/easetech/easytest/runner/SpringTestRunner.java:358-367 | The entry of a method with a loader is determined from the method's own `@DataLoader` when it has one, and from the class's otherwise. |
| LoaderInfo.CollectReappends | src/main/java/org/easetech/easytest/runner/SpringTestRunner.java:351-371 | A method with no loader at either level, met after some loader was determined, appends the same object as the previous entry. |
| LoaderInfo.CollectNames | src/main/java/org/easetech/easytest/runner/SpringTestRunner.java:368-370 | An object is named after the last method that appended it. The entry of method `i` carries `i`'s name when `i` is last or the next method has a loader. |
| LoaderInfo.CollectAgreesWhenEveryMethodHasLoader | src/main/java/org/easetech/easytest/runner/SpringTestRunner.java:351-373 | When every method has a loader at either level, the list equals the reference list: one `TestInfo` per method, from its effective annotation, named after it. |
| LoaderInfo.AliasingCounterexample | src/main/java/org/easetech/easytest/runner/SpringTestRunner.java:351-371 | Take a method with its own loader followed by one with none, and no class loader. The list holds the first method's object twice, named after the second method; the reference list holds one entry named after the first. |
| LoaderInfo.CollectReset | src/main/java/org/easetech/easytest/runner/SpringTestRunner.java:351-371 | The corrected loop, which resets `testInfo` for every method, also appends at most one entry per method and keeps every reference valid. |
| LoaderInfo.CollectResetMatchesReference | src/main/java/org/easetech/easytest/runner/SpringTestRunner.java:351-371 | With `testInfo` reset for every method, each method with a loader gets its own object, named after it, and methods without one append nothing. This is exactly the reference list. |
| Instrumentation.InstrumentField | src/main/java/org/easetech/easytest/runner/SpringTestRunner.java:202-214 | One iteration first calls `setAccessible`, which can fail on any field (line 202); an accessible unannotated field is left alone. An annotated field can then fail in the order of the code: `setTarget` rejects a null value (line 209), `newInstance` can fail (line 211), `getProxy` can fail (line 213), and `Field.set` can refuse the proxy, as for a `static final` field (line 214). Otherwise the field holds a proxy over its previous value, advised by the new interceptor. The field's name and annotation never change. |
| Instrumentation.InstrumentFields | src/main/java/org/easetech/easytest/runner/SpringTestRunner.java:197-222 | The loop succeeds exactly when every field can be made accessible and every annotated field has a non-null value, an instantiable interceptor class, a value Spring can proxy and a declaration `Field.set` may write. On success, field names, annotations and order are preserved, and unannotated fields keep their values. Each annotated field holds a proxy over its previous value, advised by a new instance of its interceptor. On failure, the cause is that of the first field that cannot be instrumented; the source wraps it in a `RuntimeException` (lines 218-220). |
| Instrumentation.UnwrapUndoesInstrument | src/main/java/org/easetech/easytest/runner/SpringTestRunner.java:201-215 | Removing the added proxies gives back the fields exactly as they were: nothing but the annotated fields' values changes. |
| Instrumentation.InstrumentTwiceNests | src/main/java/org/easetech/easytest/runner/SpringTestRunner.java:207-214 | When a second pass succeeds, it wraps the proxy in a second proxy over it: `field.get` reads the proxy, and the existing proxy is not unwrapped first. |
| Instrumentation.PassThroughIsTransparent | src/main/java/org/easetech/easytest/interceptor/InternalSpringInterceptor.java:57-58 | `invoke` hands the interceptor the proxy's target, not the proxy. An interceptor that just proceeds with the call therefore makes the proxy behave exactly like the object it wraps. |
| Instrumentation.InstrumentedCallsForward | src/main/java/org/easetech/easytest/interceptor/InternalSpringInterceptor.java:57-58 | After instrumentation, a call on an annotated field reaches its interceptor with the method, the field's original value as target, and the arguments unchanged. A call on any other field behaves as before. |

## Left out

- The runner's construction and lifecycle are not modelled: Spring test-context preparation and configuration loading (`SpringTestRunner.java:173-186`), `methodBlock` (which delegates to a statement class that is not part of this model), `createTest`, and the validation overrides. They are framework wiring with nothing to state about the lists.
- `RunAftersWithOutputData` and the report container are not part of this model. The model stops at the `testInfoList` they receive, because they perform file I/O.
- `DataLoaderUtil.loadData` and `DataContext` are not modelled as stateful. The data map is the one loading produces, fixed before expansion. Which methods trigger loading is recorded (`Expansion.Loads`), but its effect on the map is not.
- `DataConverter.getFullyQualifiedTestName`, `Map.toString`, `Class.newInstance` and `ProxyFactory.getProxy` are parameters, not implementations. Their code is not part of this model.
- LoaderInfo.Step: `DataLoaderUtil.determineLoader` is not a parameter. Its code is not part of this model, and the model assumes that every call returns a new, non-null `TestInfo` whose content is fixed by the annotation passed in. `CollectLength`, `Links`, `CollectResetMatchesReference` and the finding below rely on that assumption. If `determineLoader` returned null or a shared object, the list would differ.
- Expansion.ComputeSpec: `DataLoaderUtil.loadData` is assumed not to throw. An exception from it would abort `computeTestMethods` in a way the "exactly when" does not cover.
- Spring's `ProxyFactory` and reflection (`setAccessible`, `Field.get`, `Field.set`) are reduced to the `Proxy(target, advice)` value and the field's two flags `accessible` and `settable`. Interface-based and subclass-based proxies are not distinguished. `Field.get` is taken never to fail once the field is accessible.
- TestRunner.ComputeTestMethods: the source returns the cached list object itself (lines 260 and 296-297), not a copy. The model holds the cache as an immutable sequence and so assumes that no caller mutates the returned list; a caller that empties it would make the next call expand and load data again.
- Instrumentation.InstrumentFields: the model returns the cause of the failure. The `RuntimeException` that wraps it, and its message, are not modelled.
- Instrumentation.InstrumentFields: on a failure, the model reports only the first failing field. The fields already replaced before the exception stay replaced in the running program; the model does not describe that partial state.
- Instrumentation.InstrumentFields: `instantiate` is a function, so two fields naming the same interceptor class receive equal interceptor values, whereas `newInstance` makes a distinct object for each field.
- The example test classes are fixtures. Their behaviour depends on data files, converters and listeners that are not part of this model.
- Concurrency and scheduling are not modelled: the modelled code is sequential.

## Findings

| source | as written | input that shows it | evidently intended | confidence | as-written member | corrected member |
|---|---|---|---|---|---|---|
| src/main/java/org/easetech/easytest/runner/SpringTestRunner.java:351-371 | `testInfo` is declared once outside the loop and never reset. A method with no loader at either level therefore re-appends the previous `TestInfo` object and renames it with `setMethodName`, so the earlier method's entry loses its name and the list holds the same object twice. | `@Test` methods `withLoader` (own `@DataLoader`) then `withoutLoader` (none), and no class-level loader. The list holds two references to one object named `withoutLoader`. | The `testInfo != null` guard at line 368 is meant to skip methods without a loader, so `testInfo` should be reset for every method. Each method with a loader then gets its own, correctly named object. | medium, not executed | LoaderInfo.AliasingCounterexample | LoaderInfo.CollectResetMatchesReference |
