/** How `withAfterClasses` builds `testInfoList`, the loader information handed
    to the after-class write-back: one pass over the `@Test` methods in which
    a method-level `@DataLoader` beats the class-level one.

    `TestInfo` is a mutable object and the local `testInfo` is declared once,
    before the loop, and never reset. A method with no loader at either level
    therefore appends the object of the previous method a second time, and
    its `setMethodName` call renames that shared object. Objects are modelled
    as indices into an allocation sequence so that this sharing is visible. */
module LoaderInfo {
  import opened Outcomes

  /** A `@DataLoader` annotation, identified by the data files it names. */
  datatype DataLoader = DataLoader(filePaths: seq<string>)

  /** A `@Test` method: its name and its own `@DataLoader`, if any. */
  datatype TestMethod = TestMethod(name: string, loader: Option<DataLoader>)

  /** A `TestInfo` object: what `DataLoaderUtil.determineLoader` derived from
      an annotation (represented by that annotation) and the name that
      `setMethodName` last gave it. */
  datatype TestInfo = TestInfo(source: DataLoader, methodName: Option<string>)

  /** The loop's state: every `TestInfo` object allocated so far (its index is
      its identity), the local `testInfo`, and `testInfoList` as references. */
  datatype Collection = Collection(objects: seq<TestInfo>, testInfo: Option<nat>, testInfoList: seq<nat>)

  /** Every reference points at an allocated object. */
  predicate Valid(c: Collection) {
    && (c.testInfo.Some? ==> c.testInfo.value < |c.objects|)
    && forall p :: 0 <= p < |c.testInfoList| ==> c.testInfoList[p] < |c.objects|
  }

  /** The annotation `determineLoader` is called with for `m`, if any: the
      method's own, otherwise the class's. */
  function Effective(m: TestMethod, classLoader: Option<DataLoader>): Option<DataLoader> {
    if m.loader.Some? then m.loader else classLoader
  }

  const Start: Collection := Collection([], None, [])

  /** One iteration of the loop. */
  function Step(c: Collection, m: TestMethod, classLoader: Option<DataLoader>): (r: Collection)
    requires Valid(c)
    ensures Valid(r)
    ensures |c.testInfoList| <= |r.testInfoList| <= |c.testInfoList| + 1
    ensures r.testInfoList[..|c.testInfoList|] == c.testInfoList
  {
    var c1 :=
      match Effective(m, classLoader)
      case Some(a) => Collection(c.objects + [TestInfo(a, None)], Some(|c.objects|), c.testInfoList)
      case None => c;
    match c1.testInfo
    case None => c1
    case Some(ref) =>
      Collection(c1.objects[ref := c1.objects[ref].(methodName := Some(m.name))],
                 c1.testInfo, c1.testInfoList + [ref])
  }

  /** The loop over the `@Test` methods, as written. */
  function Collect(ms: seq<TestMethod>, classLoader: Option<DataLoader>): (c: Collection)
    ensures Valid(c)
    ensures |c.testInfoList| <= |ms|
    decreases |ms|
  {
    if |ms| == 0 then Start
    else Step(Collect(ms[..|ms| - 1], classLoader), ms[|ms| - 1], classLoader)
  }

  /** The list `RunAftersWithOutputData` receives: the referenced objects in
      their final state. */
  function Resolve(c: Collection): (infos: seq<TestInfo>)
    requires Valid(c)
    ensures |infos| == |c.testInfoList|
    ensures forall p :: 0 <= p < |infos| ==> infos[p] == c.objects[c.testInfoList[p]]
  {
    seq(|c.testInfoList|, p requires 0 <= p < |c.testInfoList| => c.objects[c.testInfoList[p]])
  }

  /** The number of leading methods with no loader at either level: they
      run before `testInfo` is first set, and append nothing. */
  function Lead(ms: seq<TestMethod>, classLoader: Option<DataLoader>): (n: nat)
    ensures n <= |ms|
    ensures forall j :: 0 <= j < n ==> Effective(ms[j], classLoader).None?
    ensures n < |ms| ==> Effective(ms[n], classLoader).Some?
  {
    if |ms| == 0 then 0
    else if Effective(ms[0], classLoader).Some? then 0
    else 1 + Lead(ms[1..], classLoader)
  }

  /** Appending a method moves `Lead` only while no loader has been seen. */
  lemma LeadSnoc(ms: seq<TestMethod>, m: TestMethod, classLoader: Option<DataLoader>)
    ensures Lead(ms + [m], classLoader)
            == if Lead(ms, classLoader) < |ms| then Lead(ms, classLoader)
               else if Effective(m, classLoader).Some? then |ms| else |ms| + 1
  {
    assert forall j :: 0 <= j < |ms| ==> (ms + [m])[j] == ms[j];
    assert (ms + [m])[|ms|] == m;
  }

  /** The shape of the loop state after the methods `ms`, of which the first
      `lead` appended nothing: entry `p` of the list belongs to method
      `lead + p`, and `testInfo` is the last entry. */
  ghost predicate Shape(ms: seq<TestMethod>, classLoader: Option<DataLoader>, lead: nat, c: Collection) {
    && Valid(c)
    && lead <= |ms|
    && (c.testInfo.Some? <==> lead < |ms|)
    && |c.testInfoList| == |ms| - lead
    && (|c.testInfoList| > 0 ==> c.testInfo == Some(c.testInfoList[|c.testInfoList| - 1]))
  }

  /** References in the list never decrease. */
  ghost predicate Ascending(list: seq<nat>) {
    forall p, q :: 0 <= p <= q < |list| ==> list[p] <= list[q]
  }

  /** A method with a loader appends a newer object than its predecessor; a
      method without one appends the same object again. */
  ghost predicate Links(ms: seq<TestMethod>, classLoader: Option<DataLoader>, lead: nat, list: seq<nat>)
    requires lead + |list| <= |ms|
  {
    forall p :: 0 < p < |list| ==>
      if Effective(ms[lead + p], classLoader).Some? then list[p - 1] < list[p] else list[p - 1] == list[p]
  }

  /** The object appended by a method with a loader was determined from that
      method's effective annotation. */
  ghost predicate Sources(ms: seq<TestMethod>, classLoader: Option<DataLoader>, lead: nat, c: Collection)
    requires Shape(ms, classLoader, lead, c)
  {
    forall p :: 0 <= p < |c.testInfoList| && Effective(ms[lead + p], classLoader).Some? ==>
      c.objects[c.testInfoList[p]].source == Effective(ms[lead + p], classLoader).value
  }

  /** An object is named after the last method that appended it. */
  ghost predicate Names(ms: seq<TestMethod>, classLoader: Option<DataLoader>, lead: nat, c: Collection)
    requires Shape(ms, classLoader, lead, c)
  {
    var list := c.testInfoList;
    forall p {:trigger list[p]} :: 0 <= p < |list| && (p == |list| - 1 || list[p] != list[p + 1]) ==>
      c.objects[list[p]].methodName == Some(ms[lead + p].name)
  }

  /** What the loop maintains. */
  ghost predicate Inv(ms: seq<TestMethod>, classLoader: Option<DataLoader>, c: Collection) {
    var lead := Lead(ms, classLoader);
    && Shape(ms, classLoader, lead, c)
    && Ascending(c.testInfoList)
    && Links(ms, classLoader, lead, c.testInfoList)
    && Sources(ms, classLoader, lead, c)
    && Names(ms, classLoader, lead, c)
  }

  /** A method with a loader: a fresh object is allocated, named and appended. */
  lemma StepFresh(
    ms: seq<TestMethod>, m: TestMethod, classLoader: Option<DataLoader>, c: Collection, lead: nat, lead': nat)
    requires Shape(ms, classLoader, lead, c) && Ascending(c.testInfoList)
    requires Links(ms, classLoader, lead, c.testInfoList)
    requires Sources(ms, classLoader, lead, c) && Names(ms, classLoader, lead, c)
    requires Effective(m, classLoader).Some?
    requires lead' == if lead < |ms| then lead else |ms|
    ensures Shape(ms + [m], classLoader, lead', Step(c, m, classLoader))
    ensures Ascending(Step(c, m, classLoader).testInfoList)
    ensures Links(ms + [m], classLoader, lead', Step(c, m, classLoader).testInfoList)
    ensures Sources(ms + [m], classLoader, lead', Step(c, m, classLoader))
    ensures Names(ms + [m], classLoader, lead', Step(c, m, classLoader))
  {
    var ms' := ms + [m];
    var r := Step(c, m, classLoader);
    var list := c.testInfoList;
    var n := |c.objects|;
    assert forall j :: 0 <= j < |ms| ==> ms'[j] == ms[j];
    assert ms'[|ms|] == m;
    assert r.testInfoList == list + [n];
    var loader := Effective(m, classLoader).value;
    assert r.objects == (c.objects + [TestInfo(loader, None)])[n := TestInfo(loader, Some(m.name))];
    assert forall p :: 0 <= p < |list| ==> r.objects[list[p]] == c.objects[list[p]];
    assert lead' + |list| == |ms|;
    assert Shape(ms', classLoader, lead', r);
    StepFreshLinks(ms, m, classLoader, c, lead, lead');
    StepFreshSources(ms, m, classLoader, c, lead, lead');
    StepFreshNames(ms, m, classLoader, c, lead, lead');
  }

  lemma StepFreshLinks(
    ms: seq<TestMethod>, m: TestMethod, classLoader: Option<DataLoader>, c: Collection, lead: nat, lead': nat)
    requires Shape(ms, classLoader, lead, c) && Ascending(c.testInfoList)
    requires Links(ms, classLoader, lead, c.testInfoList)
    requires Effective(m, classLoader).Some?
    requires lead' == if lead < |ms| then lead else |ms|
    requires Shape(ms + [m], classLoader, lead', Step(c, m, classLoader))
    ensures Ascending(Step(c, m, classLoader).testInfoList)
    ensures Links(ms + [m], classLoader, lead', Step(c, m, classLoader).testInfoList)
  {
    var ms' := ms + [m];
    var list := c.testInfoList;
    var list' := Step(c, m, classLoader).testInfoList;
    var n := |c.objects|;
    assert list' == list + [n];
    forall p | 0 < p < |list'|
      ensures if Effective(ms'[lead' + p], classLoader).Some? then list'[p - 1] < list'[p] else list'[p - 1] == list'[p]
    {
      if p < |list| {
        assert ms'[lead' + p] == ms[lead + p];
      } else {
        assert ms'[lead' + p] == m;
      }
    }
  }

  lemma StepFreshSources(
    ms: seq<TestMethod>, m: TestMethod, classLoader: Option<DataLoader>, c: Collection, lead: nat, lead': nat)
    requires Shape(ms, classLoader, lead, c) && Sources(ms, classLoader, lead, c)
    requires Effective(m, classLoader).Some?
    requires lead' == if lead < |ms| then lead else |ms|
    requires Shape(ms + [m], classLoader, lead', Step(c, m, classLoader))
    ensures Sources(ms + [m], classLoader, lead', Step(c, m, classLoader))
  {
    var ms' := ms + [m];
    var r := Step(c, m, classLoader);
    var list := c.testInfoList;
    var list' := r.testInfoList;
    var n := |c.objects|;
    assert list' == list + [n];
    forall p | 0 <= p < |list'| && Effective(ms'[lead' + p], classLoader).Some?
      ensures r.objects[list'[p]].source == Effective(ms'[lead' + p], classLoader).value
    {
      if p < |list| {
        assert r.objects[list[p]] == c.objects[list[p]];
        assert ms'[lead' + p] == ms[lead + p];
      } else {
        assert ms'[lead' + p] == m;
      }
    }
  }

  lemma StepFreshNames(
    ms: seq<TestMethod>, m: TestMethod, classLoader: Option<DataLoader>, c: Collection, lead: nat, lead': nat)
    requires Shape(ms, classLoader, lead, c) && Names(ms, classLoader, lead, c)
    requires Effective(m, classLoader).Some?
    requires lead' == if lead < |ms| then lead else |ms|
    requires Shape(ms + [m], classLoader, lead', Step(c, m, classLoader))
    ensures Names(ms + [m], classLoader, lead', Step(c, m, classLoader))
  {
    var ms' := ms + [m];
    var r := Step(c, m, classLoader);
    var list := c.testInfoList;
    var list' := r.testInfoList;
    var n := |c.objects|;
    assert list' == list + [n];
    forall p | 0 <= p < |list'| && (p == |list'| - 1 || list'[p] != list'[p + 1])
      ensures r.objects[list'[p]].methodName == Some(ms'[lead' + p].name)
    {
      if p < |list| {
        assert list'[p] == list[p];
        assert r.objects[list[p]] == c.objects[list[p]];
        assert ms'[lead' + p] == ms[lead + p];
      } else {
        assert ms'[lead' + p] == m;
      }
    }
  }

  /** A method with no loader once `testInfo` is set: the same object is
      renamed and appended again. */
  lemma StepShared(ms: seq<TestMethod>, m: TestMethod, classLoader: Option<DataLoader>, c: Collection, lead: nat)
    requires Shape(ms, classLoader, lead, c) && Ascending(c.testInfoList)
    requires Links(ms, classLoader, lead, c.testInfoList)
    requires Sources(ms, classLoader, lead, c) && Names(ms, classLoader, lead, c)
    requires Effective(m, classLoader).None? && c.testInfo.Some?
    ensures Shape(ms + [m], classLoader, lead, Step(c, m, classLoader))
    ensures Ascending(Step(c, m, classLoader).testInfoList)
    ensures Links(ms + [m], classLoader, lead, Step(c, m, classLoader).testInfoList)
    ensures Sources(ms + [m], classLoader, lead, Step(c, m, classLoader))
    ensures Names(ms + [m], classLoader, lead, Step(c, m, classLoader))
  {
    var r := Step(c, m, classLoader);
    var list := c.testInfoList;
    var ref := c.testInfo.value;
    assert r.testInfoList == list + [ref];
    assert r.objects == c.objects[ref := c.objects[ref].(methodName := Some(m.name))];
    assert Shape(ms + [m], classLoader, lead, r);
    StepSharedLinks(ms, m, classLoader, c, lead);
    StepSharedSources(ms, m, classLoader, c, lead);
    StepSharedNames(ms, m, classLoader, c, lead);
  }

  lemma StepSharedLinks(ms: seq<TestMethod>, m: TestMethod, classLoader: Option<DataLoader>, c: Collection, lead: nat)
    requires Shape(ms, classLoader, lead, c) && Ascending(c.testInfoList)
    requires Links(ms, classLoader, lead, c.testInfoList)
    requires Effective(m, classLoader).None? && c.testInfo.Some?
    requires Shape(ms + [m], classLoader, lead, Step(c, m, classLoader))
    ensures Ascending(Step(c, m, classLoader).testInfoList)
    ensures Links(ms + [m], classLoader, lead, Step(c, m, classLoader).testInfoList)
  {
    var ms' := ms + [m];
    var list := c.testInfoList;
    var list' := Step(c, m, classLoader).testInfoList;
    var ref := c.testInfo.value;
    assert list' == list + [ref];
    forall p | 0 < p < |list'|
      ensures if Effective(ms'[lead + p], classLoader).Some? then list'[p - 1] < list'[p] else list'[p - 1] == list'[p]
    {
      if p < |list| {
        assert ms'[lead + p] == ms[lead + p];
      } else {
        assert ms'[lead + p] == m;
      }
    }
  }

  lemma StepSharedSources(ms: seq<TestMethod>, m: TestMethod, classLoader: Option<DataLoader>, c: Collection, lead: nat)
    requires Shape(ms, classLoader, lead, c) && Sources(ms, classLoader, lead, c)
    requires Effective(m, classLoader).None? && c.testInfo.Some?
    requires Shape(ms + [m], classLoader, lead, Step(c, m, classLoader))
    ensures Sources(ms + [m], classLoader, lead, Step(c, m, classLoader))
  {
    var ms' := ms + [m];
    var r := Step(c, m, classLoader);
    var list := c.testInfoList;
    var list' := r.testInfoList;
    var ref := c.testInfo.value;
    assert list' == list + [ref];
    assert r.objects == c.objects[ref := c.objects[ref].(methodName := Some(m.name))];
    assert ms'[lead + |list|] == m;
    forall p | 0 <= p < |list'| && Effective(ms'[lead + p], classLoader).Some?
      ensures r.objects[list'[p]].source == Effective(ms'[lead + p], classLoader).value
    {
      assert p < |list|;
      assert ms'[lead + p] == ms[lead + p];
      assert r.objects[list[p]].source == c.objects[list[p]].source;
    }
  }

  lemma StepSharedNames(ms: seq<TestMethod>, m: TestMethod, classLoader: Option<DataLoader>, c: Collection, lead: nat)
    requires Shape(ms, classLoader, lead, c) && Ascending(c.testInfoList) && Names(ms, classLoader, lead, c)
    requires Effective(m, classLoader).None? && c.testInfo.Some?
    requires Shape(ms + [m], classLoader, lead, Step(c, m, classLoader))
    ensures Names(ms + [m], classLoader, lead, Step(c, m, classLoader))
  {
    var ms' := ms + [m];
    var r := Step(c, m, classLoader);
    var list := c.testInfoList;
    var list' := r.testInfoList;
    var ref := c.testInfo.value;
    assert list' == list + [ref];
    assert r.objects == c.objects[ref := c.objects[ref].(methodName := Some(m.name))];
    forall p | 0 <= p < |list'| && (p == |list'| - 1 || list'[p] != list'[p + 1])
      ensures r.objects[list'[p]].methodName == Some(ms'[lead + p].name)
    {
      if p < |list| {
        assert p < |list| - 1 && list[p] != list[p + 1];
        assert list[p] <= list[p + 1] <= ref;
        assert r.objects[list[p]] == c.objects[list[p]];
        assert ms'[lead + p] == ms[lead + p];
      } else {
        assert ms'[lead + p] == m;
      }
    }
  }

  lemma StepInv(ms: seq<TestMethod>, m: TestMethod, classLoader: Option<DataLoader>, c: Collection)
    requires Inv(ms, classLoader, c)
    ensures Inv(ms + [m], classLoader, Step(c, m, classLoader))
  {
    LeadSnoc(ms, m, classLoader);
    var lead := Lead(ms, classLoader);
    if Effective(m, classLoader).Some? {
      StepFresh(ms, m, classLoader, c, lead, Lead(ms + [m], classLoader));
    } else if c.testInfo.Some? {
      StepShared(ms, m, classLoader, c, lead);
    } else {
      assert Step(c, m, classLoader) == c;
    }
  }

  lemma {:induction false} CollectInv(ms: seq<TestMethod>, classLoader: Option<DataLoader>)
    ensures Inv(ms, classLoader, Collect(ms, classLoader))
  {
    if |ms| > 0 {
      var prefix := ms[..|ms| - 1];
      assert prefix + [ms[|ms| - 1]] == ms;
      CollectInv(prefix, classLoader);
      StepInv(prefix, ms[|ms| - 1], classLoader, Collect(prefix, classLoader));
    }
  }

  /** At most one entry per `@Test` method: none for the leading methods that
      have no loader at either level, exactly one for every method after the
      first one that has. With a class-level loader every method appends. */
  lemma CollectLength(ms: seq<TestMethod>, classLoader: Option<DataLoader>)
    ensures |Resolve(Collect(ms, classLoader))| == |ms| - Lead(ms, classLoader)
    ensures classLoader.Some? ==> |Resolve(Collect(ms, classLoader))| == |ms|
    ensures (forall i :: 0 <= i < |ms| ==> ms[i].loader.None?) && classLoader.None? ==>
              Resolve(Collect(ms, classLoader)) == []
  {
    CollectInv(ms, classLoader);
    var c := Collect(ms, classLoader);
    assert |Resolve(c)| == |c.testInfoList|;
    if classLoader.Some? && |ms| > 0 {
      assert Effective(ms[0], classLoader).Some?;
    }
  }

  /** A method-level `@DataLoader` beats the class-level one: the entry of a
      method with a loader is determined from its own annotation when it has
      one, and from the class's otherwise. */
  lemma CollectPrecedence(ms: seq<TestMethod>, classLoader: Option<DataLoader>, i: nat)
    requires i < |ms| && Effective(ms[i], classLoader).Some?
    ensures Lead(ms, classLoader) <= i
    ensures i - Lead(ms, classLoader) < |Resolve(Collect(ms, classLoader))|
    ensures Resolve(Collect(ms, classLoader))[i - Lead(ms, classLoader)].source
            == if ms[i].loader.Some? then ms[i].loader.value else classLoader.value
  {
    CollectInv(ms, classLoader);
    InvPrecedence(ms, classLoader, Collect(ms, classLoader), i);
  }

  lemma InvPrecedence(ms: seq<TestMethod>, classLoader: Option<DataLoader>, c: Collection, i: nat)
    requires Inv(ms, classLoader, c)
    requires i < |ms| && Effective(ms[i], classLoader).Some?
    ensures Lead(ms, classLoader) <= i
    ensures i - Lead(ms, classLoader) < |Resolve(c)|
    ensures Resolve(c)[i - Lead(ms, classLoader)].source
            == if ms[i].loader.Some? then ms[i].loader.value else classLoader.value
  {
    var lead := Lead(ms, classLoader);
    SourceAt(ms, classLoader, lead, c, i);
    assert Effective(ms[i], classLoader).value
           == if ms[i].loader.Some? then ms[i].loader.value else classLoader.value;
  }

  /** `Sources` read at the entry of method `i`. */
  lemma SourceAt(ms: seq<TestMethod>, classLoader: Option<DataLoader>, lead: nat, c: Collection, i: nat)
    requires Shape(ms, classLoader, lead, c) && Sources(ms, classLoader, lead, c)
    requires lead <= i < |ms| && Effective(ms[i], classLoader).Some?
    ensures i - lead < |Resolve(c)|
    ensures Resolve(c)[i - lead].source == Effective(ms[i], classLoader).value
  {
    var p := i - lead;
    assert ms[lead + p] == ms[i];
    assert Resolve(c)[p] == c.objects[c.testInfoList[p]];
  }

  /** `testInfo` is never reset: a method with no loader at either level, met
      after some loader was determined, appends the previous entry's object
      again, so the two entries are the same object. */
  lemma CollectReappends(ms: seq<TestMethod>, classLoader: Option<DataLoader>, i: nat)
    requires Lead(ms, classLoader) < i < |ms| && Effective(ms[i], classLoader).None?
    ensures i - Lead(ms, classLoader) < |Collect(ms, classLoader).testInfoList|
    ensures Collect(ms, classLoader).testInfoList[i - Lead(ms, classLoader)]
            == Collect(ms, classLoader).testInfoList[i - Lead(ms, classLoader) - 1]
    ensures Resolve(Collect(ms, classLoader))[i - Lead(ms, classLoader)]
            == Resolve(Collect(ms, classLoader))[i - Lead(ms, classLoader) - 1]
  {
    CollectInv(ms, classLoader);
    InvReappends(ms, classLoader, Collect(ms, classLoader), i);
  }

  lemma InvReappends(ms: seq<TestMethod>, classLoader: Option<DataLoader>, c: Collection, i: nat)
    requires Inv(ms, classLoader, c)
    requires Lead(ms, classLoader) < i < |ms| && Effective(ms[i], classLoader).None?
    ensures i - Lead(ms, classLoader) < |c.testInfoList|
    ensures c.testInfoList[i - Lead(ms, classLoader)] == c.testInfoList[i - Lead(ms, classLoader) - 1]
    ensures Resolve(c)[i - Lead(ms, classLoader)] == Resolve(c)[i - Lead(ms, classLoader) - 1]
  {
    ReappendAt(ms, classLoader, Lead(ms, classLoader), c, i);
  }

  /** `Links` read at the entry of a method with no loader. */
  lemma ReappendAt(ms: seq<TestMethod>, classLoader: Option<DataLoader>, lead: nat, c: Collection, i: nat)
    requires Shape(ms, classLoader, lead, c) && Links(ms, classLoader, lead, c.testInfoList)
    requires lead < i < |ms| && Effective(ms[i], classLoader).None?
    ensures i - lead < |c.testInfoList|
    ensures c.testInfoList[i - lead] == c.testInfoList[i - lead - 1]
    ensures Resolve(c)[i - lead] == Resolve(c)[i - lead - 1]
  {
    var p := i - lead;
    assert ms[lead + p] == ms[i];
    assert Resolve(c)[p] == c.objects[c.testInfoList[p]];
    assert Resolve(c)[p - 1] == c.objects[c.testInfoList[p - 1]];
  }

  /** An object ends up named after the last method that appended it: the
      entry of method `i` carries `i`'s name when `i` is the last method or
      the next method has a loader of its own. */
  lemma CollectNames(ms: seq<TestMethod>, classLoader: Option<DataLoader>, i: nat)
    requires Lead(ms, classLoader) <= i < |ms|
    requires i == |ms| - 1 || Effective(ms[i + 1], classLoader).Some?
    ensures i - Lead(ms, classLoader) < |Resolve(Collect(ms, classLoader))|
    ensures Resolve(Collect(ms, classLoader))[i - Lead(ms, classLoader)].methodName == Some(ms[i].name)
  {
    CollectInv(ms, classLoader);
    InvNames(ms, classLoader, Collect(ms, classLoader), i);
  }

  lemma InvNames(ms: seq<TestMethod>, classLoader: Option<DataLoader>, c: Collection, i: nat)
    requires Inv(ms, classLoader, c)
    requires Lead(ms, classLoader) <= i < |ms|
    requires i == |ms| - 1 || Effective(ms[i + 1], classLoader).Some?
    ensures i - Lead(ms, classLoader) < |Resolve(c)|
    ensures Resolve(c)[i - Lead(ms, classLoader)].methodName == Some(ms[i].name)
  {
    NameAt(ms, classLoader, Lead(ms, classLoader), c, i);
  }

  /** `Names` read at the entry of a method whose successor, if any, has a
      loader: `Links` shows the successor appended a different object. */
  lemma NameAt(ms: seq<TestMethod>, classLoader: Option<DataLoader>, lead: nat, c: Collection, i: nat)
    requires Shape(ms, classLoader, lead, c) && Links(ms, classLoader, lead, c.testInfoList)
    requires Names(ms, classLoader, lead, c)
    requires lead <= i < |ms|
    requires i == |ms| - 1 || Effective(ms[i + 1], classLoader).Some?
    ensures i - lead < |Resolve(c)|
    ensures Resolve(c)[i - lead].methodName == Some(ms[i].name)
  {
    var list := c.testInfoList;
    var p := i - lead;
    assert ms[lead + p] == ms[i];
    if i < |ms| - 1 {
      assert ms[lead + (p + 1)] == ms[i + 1];
      assert list[p] < list[p + 1];
    }
    assert c.objects[list[p]].methodName == Some(ms[lead + p].name);
    assert Resolve(c)[p] == c.objects[list[p]];
  }

  /** One entry per method that has a loader at either level, determined from
      its effective annotation and named after it: what the list would hold
      if every method got its own `TestInfo`. */
  function Reference(ms: seq<TestMethod>, classLoader: Option<DataLoader>): seq<TestInfo> {
    if |ms| == 0 then []
    else
      var m := ms[|ms| - 1];
      Reference(ms[..|ms| - 1], classLoader)
      + match Effective(m, classLoader)
        case Some(a) => [TestInfo(a, Some(m.name))]
        case None => []
  }

  /** The loop with `testInfo` reset at the start of every iteration. */
  function CollectReset(ms: seq<TestMethod>, classLoader: Option<DataLoader>): (c: Collection)
    ensures Valid(c)
    ensures |c.testInfoList| <= |ms|
    decreases |ms|
  {
    if |ms| == 0 then Start
    else
      var c := CollectReset(ms[..|ms| - 1], classLoader);
      Step(c.(testInfo := None), ms[|ms| - 1], classLoader)
  }

  /** With the reset, each method with a loader gets its own object, named
      after it, and methods without a loader append nothing. */
  lemma {:induction false} CollectResetMatchesReference(ms: seq<TestMethod>, classLoader: Option<DataLoader>)
    ensures Resolve(CollectReset(ms, classLoader)) == Reference(ms, classLoader)
    ensures forall p :: 0 <= p < |CollectReset(ms, classLoader).testInfoList| ==>
              CollectReset(ms, classLoader).testInfoList[p] == p
  {
    ResetInv(ms, classLoader);
    var c := CollectReset(ms, classLoader);
    assert Resolve(c) == c.objects;
  }

  lemma {:induction false} ResetInv(ms: seq<TestMethod>, classLoader: Option<DataLoader>)
    ensures |CollectReset(ms, classLoader).testInfoList| == |CollectReset(ms, classLoader).objects|
    ensures forall p :: 0 <= p < |CollectReset(ms, classLoader).testInfoList| ==>
              CollectReset(ms, classLoader).testInfoList[p] == p
    ensures CollectReset(ms, classLoader).objects == Reference(ms, classLoader)
  {
    if |ms| > 0 {
      var prefix := ms[..|ms| - 1];
      var m := ms[|ms| - 1];
      ResetInv(prefix, classLoader);
      var c := CollectReset(prefix, classLoader);
      var n := |c.objects|;
      match Effective(m, classLoader)
      case Some(a) =>
        assert (c.objects + [TestInfo(a, None)])[n := TestInfo(a, Some(m.name))]
               == c.objects + [TestInfo(a, Some(m.name))];
      case None =>
    }
  }

  /** The reference list when every method has a loader at either level. */
  lemma {:induction false} ReferenceEveryMethod(ms: seq<TestMethod>, classLoader: Option<DataLoader>)
    requires forall i :: 0 <= i < |ms| ==> Effective(ms[i], classLoader).Some?
    ensures |Reference(ms, classLoader)| == |ms|
    ensures forall i :: 0 <= i < |ms| ==>
              Reference(ms, classLoader)[i] == TestInfo(Effective(ms[i], classLoader).value, Some(ms[i].name))
  {
    if |ms| > 0 {
      var prefix := ms[..|ms| - 1];
      ReferenceEveryMethod(prefix, classLoader);
    }
  }

  /** The quirk only shows when some method has no loader at either level:
      otherwise the list as written equals the reference one. */
  lemma CollectAgreesWhenEveryMethodHasLoader(ms: seq<TestMethod>, classLoader: Option<DataLoader>)
    requires forall i :: 0 <= i < |ms| ==> Effective(ms[i], classLoader).Some?
    ensures Resolve(Collect(ms, classLoader)) == Reference(ms, classLoader)
  {
    CollectInv(ms, classLoader);
    ReferenceEveryMethod(ms, classLoader);
    InvEveryMethod(ms, classLoader, Collect(ms, classLoader));
  }

  lemma InvEveryMethod(ms: seq<TestMethod>, classLoader: Option<DataLoader>, c: Collection)
    requires Inv(ms, classLoader, c)
    requires forall i :: 0 <= i < |ms| ==> Effective(ms[i], classLoader).Some?
    requires |Reference(ms, classLoader)| == |ms|
    requires forall i :: 0 <= i < |ms| ==>
               Reference(ms, classLoader)[i] == TestInfo(Effective(ms[i], classLoader).value, Some(ms[i].name))
    ensures Resolve(c) == Reference(ms, classLoader)
  {
    assert Lead(ms, classLoader) == 0 by {
      if |ms| > 0 {
        assert Effective(ms[0], classLoader).Some?;
      }
    }
    assert Shape(ms, classLoader, 0, c) && Links(ms, classLoader, 0, c.testInfoList);
    assert Sources(ms, classLoader, 0, c) && Names(ms, classLoader, 0, c);
    EveryEntry(ms, classLoader, c);
  }

  /** With no leading method, entry `i` is method `i`'s own. */
  lemma EveryEntry(ms: seq<TestMethod>, classLoader: Option<DataLoader>, c: Collection)
    requires Shape(ms, classLoader, 0, c) && Links(ms, classLoader, 0, c.testInfoList)
    requires Sources(ms, classLoader, 0, c) && Names(ms, classLoader, 0, c)
    requires forall i :: 0 <= i < |ms| ==> Effective(ms[i], classLoader).Some?
    ensures |Resolve(c)| == |ms|
    ensures forall i :: 0 <= i < |ms| ==>
              Resolve(c)[i] == TestInfo(Effective(ms[i], classLoader).value, Some(ms[i].name))
  {
    forall i | 0 <= i < |ms|
      ensures Resolve(c)[i] == TestInfo(Effective(ms[i], classLoader).value, Some(ms[i].name))
    {
      SourceAt(ms, classLoader, 0, c, i);
      if i < |ms| - 1 {
        assert Effective(ms[i + 1], classLoader).Some?;
      }
      NameAt(ms, classLoader, 0, c, i);
    }
  }

  /** A method with a loader followed by one with none at either level: both
      entries are the first method's object, renamed after the second, and
      the first method's own entry is lost; the reference has one entry,
      named after the first method. */
  lemma AliasingCounterexample()
    ensures var loader := DataLoader(["input-data.xml"]);
            var ms := [TestMethod("withLoader", Some(loader)), TestMethod("withoutLoader", None)];
            && Resolve(Collect(ms, None))
               == [TestInfo(loader, Some("withoutLoader")), TestInfo(loader, Some("withoutLoader"))]
            && Reference(ms, None) == [TestInfo(loader, Some("withLoader"))]
  {
    var loader := DataLoader(["input-data.xml"]);
    var ms := [TestMethod("withLoader", Some(loader)), TestMethod("withoutLoader", None)];
    assert ms[..1] == [ms[0]];
    assert ms[..1][..0] == [];
    assert Reference(ms[..1], None) == [TestInfo(loader, Some("withLoader"))];
    assert Reference(ms, None) == Reference(ms[..1], None) + [];
  }
}
