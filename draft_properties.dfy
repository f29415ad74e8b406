/** What the earlier data clone promises: values that are not objects pass
    through, the depth limit and its two markers, the write-once path map,
    the name filters and the bound on nesting. */
module DraftProperties {
  import opened JsValues
  import opened WiseDataClone
  import opened WiseProperties
  import opened DraftDataClone

  /** A number, string, boolean, `undefined` or function comes back unchanged
      at any depth, and so does `null` within the depth limit. */
  lemma DraftNonObjectsPassThrough(h: Heap, filter: seq<string>, v: Value, depth: int, refs: Paths)
    requires Closed(h)
    requires !v.Ref? && (!v.Null? || depth <= MaxDepth)
    ensures DraftCloneAt(h, filter, v, depth, refs) == Cloned(Leaf(v), refs)
  {
  }

  /** Beyond depth 4 an object or `null` is not entered: a recorded one
      becomes "{object:<path>}", an unrecorded one the fixed marker. */
  lemma DraftBeyondDepth(h: Heap, filter: seq<string>, v: Value, depth: int, refs: Paths)
    requires Closed(h) && Inside(h, v) && depth > MaxDepth && (v.Ref? || v.Null?)
    ensures v in refs ==> DraftCloneAt(h, filter, v, depth, refs) == Cloned(Text("{object:" + refs[v] + "}"), refs)
    ensures v !in refs ==> DraftCloneAt(h, filter, v, depth, refs) == Cloned(Text(DepthExceeded), refs)
  {
    if v in refs {
      assert "{" + TypeOf(v) + ":" + refs[v] + "}" == "{object:" + refs[v] + "}";
    }
  }

  /** A Date, RegExp or Error within the limit gets no special form: like
      any other object that is not an array it becomes a prototype-less bag
      of its own keys, an empty one when it has none. */
  lemma BuiltInsBecomeBags(h: Heap, filter: seq<string>, v: Value, depth: int, refs: Paths)
    requires Closed(h) && v.Ref? && v.id in h && depth <= MaxDepth
    requires !h[v.id].cls.PlainObject? && !h[v.id].cls.ArrayObject?
    ensures var out := DraftCloneAt(h, filter, v, depth, refs).out;
            out == Copy(false, DraftCloneProps(h, filter, v, h[v.id].props, depth, refs, []).copy)
    ensures h[v.id].props == [] ==> DraftCloneAt(h, filter, v, depth, refs) == Cloned(Copy(false, []), refs)
  {
  }

  // ------------------------------------------------------ the path map

  /** `refs` is write-once: a call only adds entries. */
  lemma {:induction false} DraftKeepsPaths(h: Heap, filter: seq<string>, v: Value, depth: int, refs: Paths)
    requires Closed(h) && Inside(h, v)
    ensures Extends(refs, DraftCloneAt(h, filter, v, depth, refs).refs)
    decreases MaxDepth + 1 - depth, 1
  {
    if depth <= MaxDepth && v.Ref? {
      DraftPropsKeepPaths(h, filter, v, h[v.id].props, depth, refs, []);
    }
  }

  lemma {:induction false} DraftPropsKeepPaths(h: Heap, filter: seq<string>, parent: Value, props: seq<Prop>,
                                               depth: int, refs: Paths, copy: seq<Field>)
    requires Closed(h) && AllInside(h, props) && depth <= MaxDepth
    ensures Extends(refs, DraftCloneProps(h, filter, parent, props, depth, refs, copy).refs)
    decreases MaxDepth + 1 - depth, 0, |props|
  {
    if props != [] {
      var name, child := props[0].name, props[0].value;
      if !Copied(filter, copy, name) {
        DraftPropsKeepPaths(h, filter, parent, props[1..], depth, refs, copy);
      } else {
        var recorded := if child in refs then refs else refs[child := PathText(refs, parent) + "." + name];
        var sub := DraftCloneAt(h, filter, child, depth + 1, recorded);
        DraftKeepsPaths(h, filter, child, depth + 1, recorded);
        DraftPropsKeepPaths(h, filter, parent, props[1..], depth, sub.refs, copy + [Field(name, sub.out)]);
        ExtendsTransitive(refs, recorded, sub.refs);
        ExtendsTransitive(refs, sub.refs, DraftCloneProps(h, filter, parent, props, depth, refs, copy).refs);
      }
    }
  }

  /** A value first met as property `name` of `parent` is recorded under the
      parent's path followed by "." and `name`, and keeps that path. */
  lemma DraftFirstDiscovery(h: Heap, filter: seq<string>, parent: Value, props: seq<Prop>,
                            depth: int, refs: Paths, copy: seq<Field>)
    requires Closed(h) && AllInside(h, props) && depth <= MaxDepth
    requires props != [] && Copied(filter, copy, props[0].name) && props[0].value !in refs
    ensures var r := DraftCloneProps(h, filter, parent, props, depth, refs, copy).refs;
            props[0].value in r && r[props[0].value] == PathText(refs, parent) + "." + props[0].name
  {
    var name, child := props[0].name, props[0].value;
    var recorded := refs[child := PathText(refs, parent) + "." + name];
    var sub := DraftCloneAt(h, filter, child, depth + 1, recorded);
    DraftKeepsPaths(h, filter, child, depth + 1, recorded);
    DraftPropsKeepPaths(h, filter, parent, props[1..], depth, sub.refs, copy + [Field(name, sub.out)]);
  }

  /** A call without `refs` records the root as "self", and keeps it there. */
  lemma DraftRootSeeded(h: Heap, obj: Value, filter: Option<seq<string>>, depth: Option<int>)
    requires Closed(h) && Inside(h, obj)
    ensures var r := DraftCall(h, obj, filter, depth, None).refs;
            obj in r && r[obj] == "self"
  {
    DraftKeepsPaths(h, FilterOf(filter), obj, FirstDepth(depth), map[obj := "self"]);
  }

  /** No "[Max clone depth exceeded]" marker anywhere in `o`. */
  ghost predicate NoFallback(o: Out)
    decreases o
  {
    match o
    case Text(s) => s != DepthExceeded
    case Copy(_, fields) => forall i | 0 <= i < |fields| :: NoFallback(fields[i].value)
    case _ => true
  }

  /** No field of a copy holds the fixed marker. */
  ghost predicate FieldsNoFallback(fields: seq<Field>) {
    forall i | 0 <= i < |fields| :: NoFallback(fields[i].value)
  }

  /** A value that is already recorded never yields the fixed marker: every
      value reached below it is recorded before its recursive call. */
  lemma {:induction false} AtNoFallback(h: Heap, filter: seq<string>, v: Value, depth: int, refs: Paths)
    requires Closed(h) && Inside(h, v) && v in refs
    ensures NoFallback(DraftCloneAt(h, filter, v, depth, refs).out)
    decreases MaxDepth + 1 - depth, 1
  {
    if depth <= MaxDepth && v.Ref? {
      PropsNoFallback(h, filter, v, h[v.id].props, depth, refs, []);
    }
  }

  lemma {:induction false} PropsNoFallback(h: Heap, filter: seq<string>, parent: Value, props: seq<Prop>,
                                           depth: int, refs: Paths, copy: seq<Field>)
    requires Closed(h) && AllInside(h, props) && depth <= MaxDepth
    requires FieldsNoFallback(copy)
    ensures FieldsNoFallback(DraftCloneProps(h, filter, parent, props, depth, refs, copy).copy)
    decreases MaxDepth + 1 - depth, 0, |props|
  {
    if props != [] {
      var name, child := props[0].name, props[0].value;
      if !Copied(filter, copy, name) {
        PropsNoFallback(h, filter, parent, props[1..], depth, refs, copy);
      } else {
        var recorded := if child in refs then refs else refs[child := PathText(refs, parent) + "." + name];
        var sub := DraftCloneAt(h, filter, child, depth + 1, recorded);
        AtNoFallback(h, filter, child, depth + 1, recorded);
        PropsNoFallback(h, filter, parent, props[1..], depth, sub.refs, copy + [Field(name, sub.out)]);
      }
    }
  }

  /** A call without `refs` seeds the root, so "[Max clone depth exceeded]"
      appears nowhere in its result. */
  lemma NoFallbackWithoutRefs(h: Heap, obj: Value, filter: Option<seq<string>>, depth: Option<int>)
    requires Closed(h) && Inside(h, obj)
    ensures NoFallback(DraftCall(h, obj, filter, depth, None).out)
  {
    AtNoFallback(h, FilterOf(filter), obj, FirstDepth(depth), map[obj := "self"]);
  }

  // ------------------------------------------------------ filtering

  /** The names the copy keeps: with distinct keys `copy[name]` is always
      `undefined` when tested, so a name is dropped exactly when it starts
      with "_" or is listed in `filter`; function values are copied. */
  function DraftKeptNames(filter: seq<string>, props: seq<Prop>): (names: seq<string>) {
    if props == [] then []
    else
      var keep := !LeadingUnderscore(props[0].name) && props[0].name !in filter;
      (if keep then [props[0].name] else []) + DraftKeptNames(filter, props[1..])
  }

  lemma {:induction false} DraftPropsNames(h: Heap, filter: seq<string>, parent: Value, props: seq<Prop>,
                                           depth: int, refs: Paths, copy: seq<Field>)
    requires Closed(h) && AllInside(h, props) && depth <= MaxDepth
    requires DistinctNames(props)
    requires forall i | 0 <= i < |props| :: props[i].name !in Names(copy)
    ensures Names(DraftCloneProps(h, filter, parent, props, depth, refs, copy).copy)
         == Names(copy) + DraftKeptNames(filter, props)
    decreases |props|
  {
    if props != [] {
      var name, child := props[0].name, props[0].value;
      assert TypeOfSlot(copy, name) == "undefined";
      assert Copied(filter, copy, name) <==> !LeadingUnderscore(name) && name !in filter;
      assert DistinctNames(props[1..]) by {
        forall i, j | 0 <= i < j < |props[1..]| ensures props[1..][i].name != props[1..][j].name {
          assert props[i + 1].name != props[j + 1].name;
        }
      }
      if !Copied(filter, copy, name) {
        forall i | 0 <= i < |props[1..]| ensures props[1..][i].name !in Names(copy) {
          assert props[1..][i] == props[i + 1];
        }
        DraftPropsNames(h, filter, parent, props[1..], depth, refs, copy);
        assert DraftKeptNames(filter, props) == DraftKeptNames(filter, props[1..]);
        assert DraftCloneProps(h, filter, parent, props, depth, refs, copy)
            == DraftCloneProps(h, filter, parent, props[1..], depth, refs, copy);
      } else {
        var recorded := if child in refs then refs else refs[child := PathText(refs, parent) + "." + name];
        var sub := DraftCloneAt(h, filter, child, depth + 1, recorded);
        var copy' := copy + [Field(name, sub.out)];
        assert Names(copy') == Names(copy) + [name];
        forall i | 0 <= i < |props[1..]| ensures props[1..][i].name !in Names(copy') {
          assert props[1..][i] == props[i + 1];
          assert props[0].name != props[i + 1].name;
        }
        DraftPropsNames(h, filter, parent, props[1..], depth, sub.refs, copy');
        assert DraftKeptNames(filter, props) == [name] + DraftKeptNames(filter, props[1..]);
        assert DraftCloneProps(h, filter, parent, props, depth, refs, copy)
            == DraftCloneProps(h, filter, parent, props[1..], depth, sub.refs, copy');
        assert Names(copy) + ([name] + DraftKeptNames(filter, props[1..]))
            == Names(copy) + [name] + DraftKeptNames(filter, props[1..]);
      }
    }
  }

  /** Within the limit any object becomes an array (for an array) or a
      prototype-less bag holding exactly the kept names of its own keys, in
      `Object.keys` order. */
  lemma DraftExpandedCopy(h: Heap, filter: seq<string>, v: Value, depth: int, refs: Paths)
    requires WellFormed(h) && v.Ref? && v.id in h && depth <= MaxDepth
    ensures var out := DraftCloneAt(h, filter, v, depth, refs).out;
            out.Copy? && out.isArray == h[v.id].cls.ArrayObject?
            && Names(out.fields) == DraftKeptNames(filter, h[v.id].props)
  {
    DraftPropsNames(h, filter, v, h[v.id].props, depth, refs, []);
  }

  lemma {:induction false} DraftKeptUnderscoreFree(props: seq<Prop>)
    ensures DraftKeptNames([], props) == UnderscoreFree(props)
    decreases |props|
  {
    if props != [] {
      DraftKeptUnderscoreFree(props[1..]);
    }
  }

  /** With no filter, the earlier clone keeps the same names as the current
      one with its default IGNORE_TYPES and IGNORE_PROPERTY_NAMES. */
  lemma DefaultFiltersAgree(maxDepth: int, props: seq<Prop>)
    ensures DraftKeptNames([], props) == KeptNames(DefaultConfig(maxDepth), props)
  {
    DraftKeptUnderscoreFree(props);
    DefaultKeptNames(maxDepth, props);
  }

  // ------------------------------------------------------ depth

  function DraftLevelsLeft(depth: int): (n: int) {
    if depth > MaxDepth then 0 else MaxDepth + 1 - depth
  }

  /** The depth bound: a value cloned at `depth` holds at most 5 - depth
      levels of copied objects, and none beyond depth 4. */
  lemma {:induction false} DraftLevels(h: Heap, filter: seq<string>, v: Value, depth: int, refs: Paths)
    requires Closed(h) && Inside(h, v)
    ensures WithinLevels(DraftCloneAt(h, filter, v, depth, refs).out, DraftLevelsLeft(depth))
    decreases MaxDepth + 1 - depth, 1
  {
    if depth <= MaxDepth && v.Ref? {
      DraftPropsLevels(h, filter, v, h[v.id].props, depth, refs, []);
    }
  }

  lemma {:induction false} DraftPropsLevels(h: Heap, filter: seq<string>, parent: Value, props: seq<Prop>,
                                            depth: int, refs: Paths, copy: seq<Field>)
    requires Closed(h) && AllInside(h, props) && depth <= MaxDepth
    requires FieldsWithin(copy, MaxDepth - depth)
    ensures FieldsWithin(DraftCloneProps(h, filter, parent, props, depth, refs, copy).copy, MaxDepth - depth)
    decreases MaxDepth + 1 - depth, 0, |props|
  {
    if props != [] {
      var name, child := props[0].name, props[0].value;
      if !Copied(filter, copy, name) {
        DraftPropsLevels(h, filter, parent, props[1..], depth, refs, copy);
      } else {
        var recorded := if child in refs then refs else refs[child := PathText(refs, parent) + "." + name];
        var sub := DraftCloneAt(h, filter, child, depth + 1, recorded);
        DraftLevels(h, filter, child, depth + 1, recorded);
        DraftPropsLevels(h, filter, parent, props[1..], depth, sub.refs, copy + [Field(name, sub.out)]);
      }
    }
  }

  // ------------------------------------------------------ example

  /** On `{_secret: 1, doThing: <a function>}` without a filter, `_secret`
      is dropped and `doThing` copied through; listing "doThing" in the
      filter drops it too. */
  lemma DraftFilteringExample()
    ensures DraftCall(FilterHeap(), Ref(0), None, None, None).out
         == Copy(false, [Field("doThing", Leaf(Func(0)))])
    ensures DraftCall(FilterHeap(), Ref(0), Some(["doThing"]), None, None).out
         == Copy(false, [])
  {
    var h := FilterHeap();
    var root := Ref(0);
    var props := h[0].props;
    var seeded := map[root := "self"];
    assert Closed(h);
    assert !Copied([], [], "_secret") && !Copied(["doThing"], [], "_secret");
    assert Copied([], [], "doThing") && !Copied(["doThing"], [], "doThing");
    assert Func(0) !in seeded && PathText(seeded, root) == "self";
    var recorded := seeded[Func(0) := "self" + "." + "doThing"];
    DraftNonObjectsPassThrough(h, [], Func(0), 2, recorded);
    assert DraftCloneProps(h, [], root, props, 1, seeded, [])
        == DraftCloneProps(h, [], root, props[1..], 1, seeded, []);
    assert DraftCloneProps(h, [], root, props[1..], 1, seeded, [])
        == DraftCloneProps(h, [], root, props[2..], 1, recorded, [Field("doThing", Leaf(Func(0)))]);
    assert props[2..] == [];
  }
}
