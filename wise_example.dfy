/** The cross-reference example that ships with the current data clone:
    `obj = {a: {a1: 1, a2: "atwo"}, b: {b1: 1, b2: <a Date>}}` with
    `obj.a.more_b = obj.b` and `obj.b.more_a = obj.a`, cloned with
    MAX_DEPTH set to 2. */
module WiseExample {
  import opened JsValues
  import opened WiseDataClone
  import opened WiseProperties

  const Root := Ref(0)
  const A := Ref(1)
  const B := Ref(2)
  const When := Ref(3)

  /** The example's object graph; `iso` is what the Date's toISOString() gives. */
  function ExampleHeap(iso: string): (h: Heap) {
    map[0 := Obj(PlainObject, [Prop("a", A), Prop("b", B)]),
        1 := Obj(PlainObject, [Prop("a1", Num(1)), Prop("a2", Str("atwo")), Prop("more_b", B)]),
        2 := Obj(PlainObject, [Prop("b1", Num(1)), Prop("b2", When), Prop("more_a", A)]),
        3 := Obj(DateObject(iso), [])]
  }

  /** The output the example expects:
      `{"a":{"a1":1,"a2":"atwo","more_b":"{object:self.a.more_b}"},
        "b":{"b1":1,"b2":<iso>,"more_a":"{object:self.a}"}}`. */
  function Expected(iso: string): (out: Out) {
    Copy(false, [
      Field("a", Copy(false, [Field("a1", Leaf(Num(1))),
                              Field("a2", Leaf(Str("atwo"))),
                              Field("more_b", Text("{object:self.a.more_b}"))])),
      Field("b", Copy(false, [Field("b1", Leaf(Num(1))),
                              Field("b2", Text(iso)),
                              Field("more_a", Text("{object:self.a}"))]))])
  }

  /** The example's objects, one fact each, and its closure. */
  predicate Shaped(h: Heap, iso: string) {
    && 0 in h && h[0] == Obj(PlainObject, [Prop("a", A), Prop("b", B)])
    && 1 in h && h[1] == Obj(PlainObject, [Prop("a1", Num(1)), Prop("a2", Str("atwo")), Prop("more_b", B)])
    && 2 in h && h[2] == Obj(PlainObject, [Prop("b1", Num(1)), Prop("b2", When), Prop("more_a", A)])
    && 3 in h && h[3] == Obj(DateObject(iso), [])
  }

  lemma ExampleHeapShaped(iso: string)
    ensures Closed(ExampleHeap(iso)) && Shaped(ExampleHeap(iso), iso)
  {
  }

  lemma ExampleHeapWellFormed(iso: string)
    ensures WellFormed(ExampleHeap(iso))
  {
  }

  /** The defaults, MAX_DEPTH set to 2. */
  predicate DefaultsWithDepth2(c: Config) {
    c.maxDepth == 2 && c.ignoreTypes == ["function"] && c.ignoreNames == [StartsWith("_")]
    && c.referenceFormat == "{object:%s}" && c.selfLabel == "self"
  }

  // The `refs` map as the walk leaves it after each recorded value: seeded
  // with the root, then `a`, 1, "atwo", `b` and the Date, in that order.
  const SeededRefs: Paths := map[Root := "self"]
  const RefsWithA: Paths := SeededRefs[A := "self.a"]
  const RefsWithA1: Paths := RefsWithA[Num(1) := "self.a.a1"]
  const RefsWithA2: Paths := RefsWithA1[Str("atwo") := "self.a.a2"]
  const RefsWithMoreB: Paths := RefsWithA2[B := "self.a.more_b"]
  const RefsWithB2: Paths := RefsWithMoreB[When := "self.a.more_b.b2"]

  const CopyOfA: seq<Field> :=
    [Field("a1", Leaf(Num(1))), Field("a2", Leaf(Str("atwo"))), Field("more_b", Text("{object:self.a.more_b}"))]

  function CopyOfB(iso: string): (fields: seq<Field>) {
    [Field("b1", Leaf(Num(1))), Field("b2", Text(iso)), Field("more_a", Text("{object:self.a}"))]
  }

  /** One property step of the walk: the property is kept, `recorded` is the
      map after its value was looked up, and `sub` is what cloning it one
      level deeper gives. */
  lemma KeptStep(c: Config, h: Heap, parent: Value, props: seq<Prop>, depth: int,
                 refs: Paths, copy: seq<Field>, recorded: Paths, sub: Cloned)
    requires Closed(h) && AllInside(h, props) && depth <= c.maxDepth && props != []
    requires !Ignored(c, copy, props[0].name)
    requires recorded == if props[0].value in refs then refs
                         else refs[props[0].value := PathText(refs, parent) + "." + props[0].name]
    requires CloneAt(c, h, props[0].value, depth + 1, recorded) == sub
    ensures CloneProps(c, h, parent, props, depth, refs, copy)
         == CloneProps(c, h, parent, props[1..], depth, sub.refs, copy + [Field(props[0].name, sub.out)])
  {
  }

  /** A kept property whose name was not assigned yet and does not start
      with "_", under the default filters. */
  lemma FreshName(c: Config, copy: seq<Field>, name: string)
    requires DefaultsWithDepth2(c) && name !in Names(copy) && !LeadingUnderscore(name)
    ensures !Ignored(c, copy, name)
  {
    UnderscorePattern(name);
  }

  /** `a.a1` is kept and the number 1 is recorded as `self.a.a1`. */
  lemma CopyA1Step(c: Config, h: Heap, iso: string)
    requires DefaultsWithDepth2(c) && Closed(h) && Shaped(h, iso)
    ensures CloneProps(c, h, A, h[1].props, 2, RefsWithA, [])
         == CloneProps(c, h, A, h[1].props[1..], 2, RefsWithA1, [Field("a1", Leaf(Num(1)))])
  {
    FreshName(c, [], "a1");
    assert "self" + "." + "a" == "self.a";
    assert "self.a" + "." + "a1" == "self.a.a1";
    KeptStep(c, h, A, h[1].props, 2, RefsWithA, [], RefsWithA1, Cloned(Leaf(Num(1)), RefsWithA1));
  }

  /** `a.a2` is kept and the string "atwo" is recorded as `self.a.a2`. */
  lemma CopyA2Step(c: Config, h: Heap, iso: string)
    requires DefaultsWithDepth2(c) && Closed(h) && Shaped(h, iso)
    ensures CloneProps(c, h, A, h[1].props[1..], 2, RefsWithA1, [Field("a1", Leaf(Num(1)))])
         == CloneProps(c, h, A, h[1].props[2..], 2, RefsWithA2, [Field("a1", Leaf(Num(1))), Field("a2", Leaf(Str("atwo")))])
  {
    var f1 := [Field("a1", Leaf(Num(1)))];
    assert Names(f1) == ["a1"];
    FreshName(c, f1, "a2");
    assert "self.a" + "." + "a2" == "self.a.a2";
    KeptStep(c, h, A, h[1].props[1..], 2, RefsWithA1, f1, RefsWithA2, Cloned(Leaf(Str("atwo")), RefsWithA2));
  }

  /** `a.more_b` records `b` as `self.a.more_b` and becomes its marker. */
  lemma MarkMoreBStep(c: Config, h: Heap, iso: string)
    requires DefaultsWithDepth2(c) && Closed(h) && Shaped(h, iso)
    ensures CloneProps(c, h, A, h[1].props[2..], 2, RefsWithA2, [Field("a1", Leaf(Num(1))), Field("a2", Leaf(Str("atwo")))])
         == ClonedProps(CopyOfA, RefsWithMoreB)
  {
    var f2 := [Field("a1", Leaf(Num(1))), Field("a2", Leaf(Str("atwo")))];
    assert Names(f2) == ["a1", "a2"];
    FreshName(c, f2, "more_b");
    assert B !in RefsWithA2 && PathText(RefsWithA2, A) == "self.a";
    assert "self.a" + "." + "more_b" == "self.a.more_b";
    MoreBMarker(c, h, iso);
    KeptStep(c, h, A, h[1].props[2..], 2, RefsWithA2, f2, RefsWithMoreB, Cloned(Text("{object:self.a.more_b}"), RefsWithMoreB));
    assert h[1].props[3..] == [];
  }

  /** `b` met at depth 3 becomes the marker of the path it was just recorded under. */
  lemma MoreBMarker(c: Config, h: Heap, iso: string)
    requires DefaultsWithDepth2(c) && Closed(h) && Shaped(h, iso)
    ensures CloneAt(c, h, B, 3, RefsWithMoreB) == Cloned(Text("{object:self.a.more_b}"), RefsWithMoreB)
  {
    ObjectBeyondDepth(c, h, B, 3, RefsWithMoreB);
    assert PathText(RefsWithMoreB, B) == "self.a.more_b";
    assert "{object:" + "self.a.more_b" + "}" == "{object:self.a.more_b}";
  }

  /** `obj.a` at depth 2: `b` is recorded as `self.a.more_b` and, at depth 3,
      becomes its reference marker. */
  lemma ExampleA(c: Config, h: Heap, iso: string)
    requires DefaultsWithDepth2(c) && Closed(h) && Shaped(h, iso)
    ensures CloneAt(c, h, A, 2, RefsWithA) == Cloned(Copy(false, CopyOfA), RefsWithMoreB)
  {
    CopyA1Step(c, h, iso);
    CopyA2Step(c, h, iso);
    MarkMoreBStep(c, h, iso);
  }

  /** `b.b1` is kept; the number 1 is already recorded, so `refs` is unchanged. */
  lemma CopyB1Step(c: Config, h: Heap, iso: string)
    requires DefaultsWithDepth2(c) && Closed(h) && Shaped(h, iso)
    ensures CloneProps(c, h, B, h[2].props, 2, RefsWithMoreB, [])
         == CloneProps(c, h, B, h[2].props[1..], 2, RefsWithMoreB, [Field("b1", Leaf(Num(1)))])
  {
    FreshName(c, [], "b1");
    assert Num(1) in RefsWithMoreB;
    KeptStep(c, h, B, h[2].props, 2, RefsWithMoreB, [], RefsWithMoreB, Cloned(Leaf(Num(1)), RefsWithMoreB));
  }

  /** `b.b2` records the Date as `self.a.more_b.b2` and becomes its ISO string. */
  lemma NormalizeB2Step(c: Config, h: Heap, iso: string)
    requires DefaultsWithDepth2(c) && Closed(h) && Shaped(h, iso)
    ensures CloneProps(c, h, B, h[2].props[1..], 2, RefsWithMoreB, [Field("b1", Leaf(Num(1)))])
         == CloneProps(c, h, B, h[2].props[2..], 2, RefsWithB2, [Field("b1", Leaf(Num(1))), Field("b2", Text(iso))])
  {
    var f1 := [Field("b1", Leaf(Num(1)))];
    assert Names(f1) == ["b1"];
    FreshName(c, f1, "b2");
    assert "self.a.more_b" + "." + "b2" == "self.a.more_b.b2";
    BuiltInsNormalized(c, h, When, 3, RefsWithB2);
    KeptStep(c, h, B, h[2].props[1..], 2, RefsWithMoreB, f1, RefsWithB2, Cloned(Text(iso), RefsWithB2));
  }

  /** `b.more_a` meets `a`, already recorded as `self.a`, at depth 3: its marker. */
  lemma MarkMoreAStep(c: Config, h: Heap, iso: string)
    requires DefaultsWithDepth2(c) && Closed(h) && Shaped(h, iso)
    ensures CloneProps(c, h, B, h[2].props[2..], 2, RefsWithB2, [Field("b1", Leaf(Num(1))), Field("b2", Text(iso))])
         == ClonedProps(CopyOfB(iso), RefsWithB2)
  {
    var f2 := [Field("b1", Leaf(Num(1))), Field("b2", Text(iso))];
    assert Names(f2) == ["b1", "b2"];
    FreshName(c, f2, "more_a");
    assert A in RefsWithB2;
    MoreAMarker(c, h, iso);
    KeptStep(c, h, B, h[2].props[2..], 2, RefsWithB2, f2, RefsWithB2, Cloned(Text("{object:self.a}"), RefsWithB2));
    assert h[2].props[3..] == [];
  }

  /** `a` met at depth 3 becomes the marker of its path `self.a`. */
  lemma MoreAMarker(c: Config, h: Heap, iso: string)
    requires DefaultsWithDepth2(c) && Closed(h) && Shaped(h, iso)
    ensures CloneAt(c, h, A, 3, RefsWithB2) == Cloned(Text("{object:self.a}"), RefsWithB2)
  {
    ObjectBeyondDepth(c, h, A, 3, RefsWithB2);
    assert PathText(RefsWithB2, A) == "self.a";
    assert "{object:" + "self.a" + "}" == "{object:self.a}";
  }

  /** `obj.b` at depth 2, already known as `self.a.more_b`: its Date becomes
      the ISO string and `more_a`, at depth 3, the marker of `self.a`. */
  lemma ExampleB(c: Config, h: Heap, iso: string)
    requires DefaultsWithDepth2(c) && Closed(h) && Shaped(h, iso)
    ensures CloneAt(c, h, B, 2, RefsWithMoreB) == Cloned(Copy(false, CopyOfB(iso)), RefsWithB2)
  {
    CopyB1Step(c, h, iso);
    NormalizeB2Step(c, h, iso);
    MarkMoreAStep(c, h, iso);
  }

  /** The root's `a` is recorded as `self.a` and copied as `ExampleA` states. */
  lemma CopyRootAStep(c: Config, h: Heap, iso: string)
    requires DefaultsWithDepth2(c) && Closed(h) && Shaped(h, iso)
    ensures CloneProps(c, h, Root, h[0].props, 1, SeededRefs, [])
         == CloneProps(c, h, Root, h[0].props[1..], 1, RefsWithMoreB, [Field("a", Copy(false, CopyOfA))])
  {
    FreshName(c, [], "a");
    assert "self" + "." + "a" == "self.a";
    ExampleA(c, h, iso);
    KeptStep(c, h, Root, h[0].props, 1, SeededRefs, [], RefsWithA, Cloned(Copy(false, CopyOfA), RefsWithMoreB));
  }

  /** The root's `b`, already recorded, is copied as `ExampleB` states, which completes the copy. */
  lemma CopyRootBStep(c: Config, h: Heap, iso: string)
    requires DefaultsWithDepth2(c) && Closed(h) && Shaped(h, iso)
    ensures CloneProps(c, h, Root, h[0].props[1..], 1, RefsWithMoreB, [Field("a", Copy(false, CopyOfA))]).copy
         == Expected(iso).fields
  {
    var f1 := [Field("a", Copy(false, CopyOfA))];
    assert Names(f1) == ["a"];
    FreshName(c, f1, "b");
    assert B in RefsWithMoreB;
    ExampleB(c, h, iso);
    KeptStep(c, h, Root, h[0].props[1..], 1, RefsWithMoreB, f1, RefsWithMoreB, Cloned(Copy(false, CopyOfB(iso)), RefsWithB2));
    assert h[0].props[2..] == [];
  }

  /** With MAX_DEPTH 2, the clone of the example is the expected output: `b`
      is first met as `a.more_b`, so that is the path its marker shows. */
  lemma ExampleClone(c: Config, h: Heap, iso: string)
    requires DefaultsWithDepth2(c) && h == ExampleHeap(iso)
    ensures DataCloneCall(c, h, Root, None, None).out == Expected(iso)
  {
    ExampleHeapShaped(iso);
    assert map[Root := c.selfLabel] == SeededRefs;
    CopyRootAStep(c, h, iso);
    CopyRootBStep(c, h, iso);
  }

  /** The example as a script runs it: the function object with its
      defaults, MAX_DEPTH set to 2, then a call on the root alone. */
  method ExampleRun(iso: string) returns (copy: Out)
    ensures copy == Expected(iso)
  {
    var clone := new DataClone();
    clone.maxDepth := Num(2);
    var h := ExampleHeap(iso);
    ExampleHeapShaped(iso);
    ghost var settings := clone.Settings();
    ExampleClone(settings, h, iso);
    copy := clone.Clone(h, Root, None, null);
  }

  /** With the default filters `_secret` is dropped, but `doThing` is copied
      through: the type test reads the fresh copy, where the name is still
      unassigned, so "function" never matches. */
  lemma FilteringExample(c: Config)
    requires DefaultsWithDepth2(c)
    ensures CloneAt(c, FilterHeap(), Root, 1, SeededRefs).out == Copy(false, [Field("doThing", Leaf(Func(0)))])
  {
    var h := FilterHeap();
    var props := h[0].props;
    assert Closed(h);
    UnderscorePattern("_secret");
    assert Ignored(c, [], "_secret");
    FreshName(c, [], "doThing");
    assert Func(0) !in SeededRefs && PathText(SeededRefs, Root) == "self";
    assert "self" + "." + "doThing" == "self.doThing";
    NonObjectsPassThrough(c, h, Func(0), 2, SeededRefs[Func(0) := "self.doThing"]);
    KeptStep(c, h, Root, props[1..], 1, SeededRefs, [], SeededRefs[Func(0) := "self.doThing"],
             Cloned(Leaf(Func(0)), SeededRefs[Func(0) := "self.doThing"]));
    assert props[2..] == [];
  }
}
