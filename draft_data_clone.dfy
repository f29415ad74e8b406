/** The earlier data clone, `dataClone(obj, filter, depth, refs)`: a fixed
    depth limit of 4, a caller-supplied list of property names to skip, no
    special forms for built-in objects, and a fixed marker for objects met
    beyond the limit that were never recorded. */
module DraftDataClone {
  import opened JsValues

  /** The local MAX_DEPTH. */
  const MaxDepth := 4

  /** What an unrecorded object becomes beyond MAX_DEPTH. */
  const DepthExceeded := "[Max clone depth exceeded]"

  /** The depth a call works at: only a missing depth defaults to 1; any
      given depth, zero or negative included, is taken as it is. */
  function FirstDepth(depth: Option<int>): (r: int)
    ensures depth.None? ==> r == 1
    ensures depth.Some? ==> r == depth.value
  {
    if depth.None? then 1 else depth.value
  }

  /** The names a call skips: `filter`, or none when it is omitted. */
  function FilterOf(filter: Option<seq<string>>): (r: seq<string>)
    ensures filter.None? ==> r == []
    ensures filter.Some? ==> r == filter.value
  {
    if filter.None? then [] else filter.value
  }

  /** Whether property `name` is copied while the copy holds `copy`: its
      first character is not "_", `copy[name]` is not a function and the
      name is not in `filter`. */
  predicate Copied(filter: seq<string>, copy: seq<Field>, name: string)
    ensures name !in Names(copy) ==> (Copied(filter, copy, name) <==> !LeadingUnderscore(name) && name !in filter)
  {
    !LeadingUnderscore(name) && TypeOfSlot(copy, name) != "function" && name !in filter
  }

  /** What a value becomes once the depth exceeds MAX_DEPTH: an object
      (`null` included) recorded in `refs` becomes "{" + its type + ":" +
      its path + "}", an unrecorded one the fixed marker, anything else is
      returned as it is. */
  function DraftBeyond(v: Value, refs: Paths): (r: Out)
    ensures r.Leaf? <==> !v.Ref? && !v.Null?
    ensures r.Leaf? ==> r.v == v
    ensures !r.Leaf? ==> r.Text? && (r.s == DepthExceeded <==> v !in refs)
  {
    if v != Undefined && TypeOf(v) == "object" then
      if v in refs then
        var marker := "{" + TypeOf(v) + ":" + refs[v] + "}";
        assert marker[0] == '{' != DepthExceeded[0];
        Text(marker)
      else Text(DepthExceeded)
    else Leaf(v)
  }

  /** One recursive call `dataClone(v, filter, depth, refs)` with `filter`
      and `depth` already defaulted. Only a truthy object (a reference, never
      `null`) is expanded; whatever its class, it becomes an array or a
      prototype-less bag of its own keys. */
  function DraftCloneAt(h: Heap, filter: seq<string>, v: Value, depth: int, refs: Paths): (r: Cloned)
    requires Closed(h) && Inside(h, v)
    ensures r.out.Copy? <==> v.Ref? && depth <= MaxDepth
    ensures r.out.Copy? ==> r.out.isArray == h[v.id].cls.ArrayObject? && |r.out.fields| <= |h[v.id].props|
    ensures !r.out.Copy? ==> r.refs == refs
    decreases MaxDepth + 1 - depth, 1
  {
    if depth > MaxDepth then Cloned(DraftBeyond(v, refs), refs)
    else if v.Ref? then
      var o := h[v.id];
      var r := DraftCloneProps(h, filter, v, o.props, depth, refs, []);
      Cloned(Copy(o.cls.ArrayObject?, r.copy), r.refs)
    else Cloned(Leaf(v), refs)
  }

  /** The `keys.forEach` over `props` with `copy` already assigned: a copied
      property has its value recorded under the parent's path and its name
      when the value is not yet in `refs`, and is then cloned one level deeper. */
  function DraftCloneProps(h: Heap, filter: seq<string>, parent: Value, props: seq<Prop>, depth: int,
                           refs: Paths, copy: seq<Field>): (r: ClonedProps)
    requires Closed(h) && AllInside(h, props) && depth <= MaxDepth
    ensures |copy| <= |r.copy| <= |copy| + |props| && r.copy[..|copy|] == copy
    decreases MaxDepth + 1 - depth, 0, |props|
  {
    if props == [] then ClonedProps(copy, refs)
    else
      var name, child := props[0].name, props[0].value;
      if !Copied(filter, copy, name) then DraftCloneProps(h, filter, parent, props[1..], depth, refs, copy)
      else
        var recorded := if child in refs then refs else refs[child := PathText(refs, parent) + "." + name];
        var sub := DraftCloneAt(h, filter, child, depth + 1, recorded);
        DraftCloneProps(h, filter, parent, props[1..], depth, sub.refs, copy + [Field(name, sub.out)])
  }

  /** A call `dataClone(obj, filter, depth, refs)`: without `refs`, a fresh
      map holding `obj` under "self" is used. */
  function DraftCall(h: Heap, obj: Value, filter: Option<seq<string>>, depth: Option<int>,
                     refs: Option<Paths>): (r: Cloned)
    requires Closed(h) && Inside(h, obj)
    ensures r.out.Copy? <==> obj.Ref? && FirstDepth(depth) <= MaxDepth
    ensures refs.Some? && !r.out.Copy? ==> r.refs == refs.value
  {
    var seeded := if refs.None? then map[obj := "self"] else refs.value;
    DraftCloneAt(h, FilterOf(filter), obj, FirstDepth(depth), seeded)
  }

  /** `dataClone(obj, filter, depth, refs)`; a null `refs` stands for an omitted one. */
  method DataClone(h: Heap, obj: Value, filter: Option<seq<string>>, depth: Option<int>, refs: PathMap?)
    returns (copy: Out)
    requires Closed(h) && Inside(h, obj)
    modifies refs
    ensures refs == null ==> copy == DraftCall(h, obj, filter, depth, None).out
    ensures refs != null ==>
              var r := DraftCall(h, obj, filter, depth, Some(old(refs.paths)));
              copy == r.out && refs.paths == r.refs
    decreases MaxDepth + 1 - FirstDepth(depth), 2
  {
    copy := Leaf(obj);
    var paths: PathMap;
    if refs == null {
      paths := new PathMap();
      paths.Set(obj, "self");
    } else {
      paths := refs;
    }
    var names := if filter.None? then [] else filter.value;
    var d := if depth.None? then 1 else depth.value;
    if d > MaxDepth {
      if obj != Undefined && TypeOf(obj) == "object" {
        var known := paths.Has(obj);
        if known {
          var path := paths.Get(obj);
          copy := Text("{" + TypeOf(obj) + ":" + AsText(path) + "}");
        } else {
          copy := Text(DepthExceeded);
        }
      }
      return;
    }
    if obj.Ref? {
      var o := h[obj.id];
      var fields := DraftKeys(h, names, obj, o.props, d, paths);
      copy := Copy(o.cls.ArrayObject?, fields);
    }
  }

  /** The `keys.forEach` loop of one call at depth `depth` over the own
      properties `props` of `parent`, filling a fresh copy. */
  method DraftKeys(h: Heap, filter: seq<string>, parent: Value, props: seq<Prop>, depth: int, paths: PathMap)
    returns (fields: seq<Field>)
    requires Closed(h) && AllInside(h, props) && depth <= MaxDepth
    modifies paths
    ensures var r := DraftCloneProps(h, filter, parent, props, depth, old(paths.paths), []);
            fields == r.copy && paths.paths == r.refs
    decreases MaxDepth + 1 - depth, 1
  {
    ghost var start := paths.paths;
    fields := [];
    var i := 0;
    while i < |props|
      invariant 0 <= i <= |props|
      invariant DraftCloneProps(h, filter, parent, props[i..], depth, paths.paths, fields)
             == DraftCloneProps(h, filter, parent, props, depth, start, [])
    {
      assert props[i..][1..] == props[i + 1..];
      fields := DraftVisitKey(h, filter, parent, props[i..], depth, paths, fields);
      i := i + 1;
    }
  }

  /** The `forEach` callback for the first of `props`, with `fields`
      assigned so far: the property is skipped, or its value is recorded
      when new and its clone at `subDepth` = depth + 1 is assigned. */
  method DraftVisitKey(h: Heap, filter: seq<string>, parent: Value, props: seq<Prop>, depth: int,
                       paths: PathMap, fields: seq<Field>)
    returns (extended: seq<Field>)
    requires Closed(h) && AllInside(h, props) && props != [] && depth <= MaxDepth
    modifies paths
    ensures DraftCloneProps(h, filter, parent, props, depth, old(paths.paths), fields)
         == DraftCloneProps(h, filter, parent, props[1..], depth, paths.paths, extended)
    decreases MaxDepth + 1 - depth, 0
  {
    var name, child := props[0].name, props[0].value;
    extended := fields;
    var subDepth := depth;
    if (|name| == 0 || name[..1] != "_") && TypeOfSlot(fields, name) != "function" && name !in filter {
      assert Copied(filter, fields, name);
      var known := paths.Has(child);
      if !known {
        var parentPath := paths.Get(parent);
        paths.Set(child, AsText(parentPath) + "." + name);
      }
      subDepth := subDepth + 1;
      ghost var recorded := paths.paths;
      var sub := DataClone(h, child, Some(filter), Some(subDepth), paths);
      extended := fields + [Field(name, sub)];
      assert DraftCloneAt(h, filter, child, depth + 1, recorded) == Cloned(sub, paths.paths);
    } else {
      assert !Copied(filter, fields, name);
    }
  }
}
