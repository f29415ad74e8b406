/** The current data clone, `WISE.dataClone`: a function object whose
    fields hold its configuration, and which deep-copies an object graph into
    plain data, bounding the depth, recording the path of every value it meets,
    dropping properties by name pattern and turning Date, RegExp and Error into
    plain forms. */
module WiseDataClone {
  import opened JsValues

  /** The value an invalid MAX_DEPTH is replaced with. */
  const DefaultMaxDepth := 5

  /** The value MAX_DEPTH starts with. */
  const InitialMaxDepth := 4

  /** The entries of IGNORE_PROPERTY_NAMES: the regular expressions the model
      supports, each tested against a property name. */
  datatype NamePattern =
    | StartsWith(prefix: string)   // /^prefix/
    | Contains(infix: string)      // /infix/
    | Exactly(text: string)        // /^text$/

  predicate Matches(p: NamePattern, name: string)
    ensures p.StartsWith? && Matches(p, name) ==> |p.prefix| <= |name| && name[..|p.prefix|] == p.prefix
    ensures p.Contains? && Matches(p, name) ==> |p.infix| <= |name|
  {
    match p
    case StartsWith(prefix) => prefix <= name
    case Contains(infix) => exists i | 0 <= i <= |name| - |infix| :: infix <= name[i..]
    case Exactly(text) => name == text
  }

  predicate MatchesAny(patterns: seq<NamePattern>, name: string) {
    exists p | p in patterns :: Matches(p, name)
  }

  /** The configuration one call works with, MAX_DEPTH already checked. */
  datatype Config = Config(
    maxDepth: int,
    ignoreTypes: seq<string>,
    ignoreNames: seq<NamePattern>,
    referenceFormat: string,
    selfLabel: string)

  /** The check on MAX_DEPTH: anything but a number of at least 1 becomes 5. */
  function CheckedMaxDepth(v: Value): (r: Value)
    ensures r.Num? && r.n >= 1
    ensures r == v <==> v.Num? && v.n >= 1
    ensures r != v ==> r == Num(DefaultMaxDepth)
  {
    if !v.Num? || v.n < 1 then Num(DefaultMaxDepth) else v
  }

  /** The depth a call works at: a missing depth, or one below 1, is 1. */
  function StartDepth(depth: Option<int>): (r: int)
    ensures r >= 1
    ensures depth.Some? && depth.value >= 1 ==> r == depth.value
    ensures depth.None? || depth.value < 1 ==> r == 1
  {
    if depth.None? || depth.value < 1 then 1 else depth.value
  }

  predicate PlaceholderAt(s: string, i: int) {
    0 <= i && i + 2 <= |s| && s[i] == '%' && s[i + 1] == 's'
  }

  /** `format.replace("%s", text)` with a string pattern: only the first
      "%s" is replaced. */
  function ReplaceFirst(format: string, text: string): (r: string)
    ensures |r| == |format| || |r| == |format| - 2 + |text|
  {
    if |format| < 2 then format
    else if format[0] == '%' && format[1] == 's' then text + format[2..]
    else [format[0]] + ReplaceFirst(format[1..], text)
  }

  /** The plain form of a Date, a RegExp or an Error; None for any other object. */
  function Normalize(cls: Class): (r: Option<Out>)
    ensures r.Some? <==> !cls.PlainObject? && !cls.ArrayObject?
    ensures r.Some? ==> !r.value.Copy? && !r.value.Leaf?
  {
    match cls
    case DateObject(iso) => Some(Text(iso))
    case RegExpObject(text) => Some(Text(text))
    case ErrorObject(name, message) => Some(ErrorPair(name, message))
    case _ => None
  }

  /** Whether the property `name` is skipped while the copy holds `copy`:
      the type of `copy[name]` is listed in IGNORE_TYPES, or `name` matches
      one of IGNORE_PROPERTY_NAMES. */
  predicate Ignored(c: Config, copy: seq<Field>, name: string)
    ensures name !in Names(copy) ==>
              (Ignored(c, copy, name) <==> "undefined" in c.ignoreTypes || MatchesAny(c.ignoreNames, name))
  {
    TypeOfSlot(copy, name) in c.ignoreTypes || MatchesAny(c.ignoreNames, name)
  }

  /** What a value becomes once the depth exceeds MAX_DEPTH. `null` is an
      object to `typeof`, so it gets a reference marker too. */
  function Beyond(c: Config, h: Heap, v: Value, refs: Paths): (r: Out)
    requires Inside(h, v)
    ensures !r.Copy?
    ensures r.Leaf? <==> !v.Ref? && !v.Null?
    ensures r.Leaf? ==> r.v == v
  {
    if v.Ref? || v.Null? then
      var builtIn := if v.Ref? then Normalize(h[v.id].cls) else None;
      if builtIn.Some? then builtIn.value
      else Text(ReplaceFirst(c.referenceFormat, PathText(refs, v)))
    else Leaf(v)
  }

  /** One recursive call `dataClone(v, depth, refs)` once MAX_DEPTH has been
      checked and `depth` brought to at least 1. */
  function CloneAt(c: Config, h: Heap, v: Value, depth: int, refs: Paths): (r: Cloned)
    requires Closed(h) && Inside(h, v)
    ensures r.out.Copy? <==> v.Ref? && depth <= c.maxDepth && Normalize(h[v.id].cls).None?
    ensures r.out.Copy? ==> r.out.isArray == h[v.id].cls.ArrayObject? && |r.out.fields| <= |h[v.id].props|
    ensures !r.out.Copy? ==> r.refs == refs
    decreases c.maxDepth + 1 - depth, 1
  {
    if depth > c.maxDepth then Cloned(Beyond(c, h, v, refs), refs)
    else if v.Ref? then
      var o := h[v.id];
      match Normalize(o.cls)
      case Some(plain) => Cloned(plain, refs)
      case None =>
        var r := CloneProps(c, h, v, o.props, depth, refs, []);
        Cloned(Copy(o.cls.ArrayObject?, r.copy), r.refs)
    else Cloned(Leaf(v), refs)
  }

  /** The `forEach` over the keys of `parent`, from `props` on, with `copy`
      already assigned: a property that is not skipped has its value recorded
      under the parent's path and its name when the value is not yet in
      `refs`, and is then cloned one level deeper. */
  function CloneProps(c: Config, h: Heap, parent: Value, props: seq<Prop>, depth: int,
                      refs: Paths, copy: seq<Field>): (r: ClonedProps)
    requires Closed(h) && AllInside(h, props) && depth <= c.maxDepth
    ensures |copy| <= |r.copy| <= |copy| + |props| && r.copy[..|copy|] == copy
    decreases c.maxDepth + 1 - depth, 0, |props|
  {
    if props == [] then ClonedProps(copy, refs)
    else
      var name, child := props[0].name, props[0].value;
      if Ignored(c, copy, name) then CloneProps(c, h, parent, props[1..], depth, refs, copy)
      else
        var recorded := if child in refs then refs else refs[child := PathText(refs, parent) + "." + name];
        var sub := CloneAt(c, h, child, depth + 1, recorded);
        CloneProps(c, h, parent, props[1..], depth, sub.refs, copy + [Field(name, sub.out)])
  }

  /** A call `dataClone(obj, depth, refs)`: without `refs`, a fresh map
      holding `obj` under SELF is used. */
  function DataCloneCall(c: Config, h: Heap, obj: Value, depth: Option<int>, refs: Option<Paths>): (r: Cloned)
    requires Closed(h) && Inside(h, obj)
    ensures r.out.Copy? <==> obj.Ref? && StartDepth(depth) <= c.maxDepth && Normalize(h[obj.id].cls).None?
    ensures refs.Some? && !r.out.Copy? ==> r.refs == refs.value
  {
    var seeded := if refs.None? then map[obj := c.selfLabel] else refs.value;
    CloneAt(c, h, obj, StartDepth(depth), seeded)
  }

  /** The function object `WISE.dataClone` with its configuration fields. */
  class DataClone {
    var maxDepth: Value
    var ignoreTypes: seq<string>
    var ignorePropertyNames: seq<NamePattern>
    var objectReferenceFormat: string
    var selfLabel: string

    constructor ()
      ensures maxDepth == Num(InitialMaxDepth)
      ensures ignoreTypes == ["function"] && ignorePropertyNames == [StartsWith("_")]
      ensures objectReferenceFormat == "{object:%s}" && selfLabel == "self"
    {
      maxDepth := Num(InitialMaxDepth);
      ignoreTypes := ["function"];
      ignorePropertyNames := [StartsWith("_")];
      objectReferenceFormat := "{object:%s}";
      selfLabel := "self";
    }

    /** The configuration a call reads, with MAX_DEPTH as its check leaves it. */
    function Settings(): (cfg: Config)
      reads this
      ensures cfg.maxDepth >= 1
    {
      Config(CheckedMaxDepth(maxDepth).n, ignoreTypes, ignorePropertyNames, objectReferenceFormat, selfLabel)
    }

    /** `dataClone(obj, depth, refs)`; a null `refs` stands for an omitted one. */
    method Clone(h: Heap, obj: Value, depth: Option<int>, refs: PathMap?) returns (copy: Out)
      requires Closed(h) && Inside(h, obj)
      modifies this, refs
      ensures maxDepth == CheckedMaxDepth(old(maxDepth))
      ensures ignoreTypes == old(ignoreTypes) && ignorePropertyNames == old(ignorePropertyNames)
      ensures objectReferenceFormat == old(objectReferenceFormat) && selfLabel == old(selfLabel)
      ensures refs == null ==> copy == DataCloneCall(old(Settings()), h, obj, depth, None).out
      ensures refs != null ==>
                var r := DataCloneCall(old(Settings()), h, obj, depth, Some(old(refs.paths)));
                copy == r.out && refs.paths == r.refs
      decreases CheckedMaxDepth(maxDepth).n + 1 - StartDepth(depth), 2
    {
      copy := Leaf(obj);
      if !maxDepth.Num? || maxDepth.n < 1 {
        maxDepth := Num(DefaultMaxDepth);
      }
      var paths: PathMap;
      if refs == null {
        paths := new PathMap();
        paths.Set(obj, selfLabel);
      } else {
        paths := refs;
      }
      var d := if depth.None? || depth.value < 1 then 1 else depth.value;
      var limit := maxDepth.n;
      if d > limit {
        if obj.Ref? || obj.Null? {
          var builtIn := if obj.Ref? then Normalize(h[obj.id].cls) else None;
          if builtIn.Some? {
            copy := builtIn.value;
          } else {
            var path := paths.Get(obj);
            copy := Text(ReplaceFirst(objectReferenceFormat, AsText(path)));
          }
        }
        return;
      }
      if obj.Ref? {
        var o := h[obj.id];
        var builtIn := Normalize(o.cls);
        if builtIn.Some? {
          copy := builtIn.value;
        } else {
          var fields := CloneKeys(h, obj, o.props, d, paths);
          copy := Copy(o.cls.ArrayObject?, fields);
        }
      }
    }

    /** The `keys.forEach` loop of one call at depth `depth` over the own
        properties `props` of `parent`, filling a fresh copy. */
    method CloneKeys(h: Heap, parent: Value, props: seq<Prop>, depth: int, paths: PathMap)
      returns (fields: seq<Field>)
      requires Closed(h) && AllInside(h, props)
      requires maxDepth.Num? && 1 <= depth <= maxDepth.n
      modifies this, paths
      ensures maxDepth == old(maxDepth) && Settings() == old(Settings())
      ensures var r := CloneProps(old(Settings()), h, parent, props, depth, old(paths.paths), []);
              fields == r.copy && paths.paths == r.refs
      decreases maxDepth.n + 1 - depth, 1
    {
      ghost var cfg := Settings();
      ghost var start := paths.paths;
      fields := [];
      var i := 0;
      while i < |props|
        invariant 0 <= i <= |props|
        invariant maxDepth == old(maxDepth) && Settings() == cfg
        invariant CloneProps(cfg, h, parent, props[i..], depth, paths.paths, fields)
               == CloneProps(cfg, h, parent, props, depth, start, [])
      {
        assert props[i..][1..] == props[i + 1..];
        fields := VisitKey(h, parent, props[i..], depth, paths, fields);
        i := i + 1;
      }
    }

    /** The `forEach` callback for the first of `props`, with `fields`
        assigned so far: the property is skipped, or its value is recorded
        when new and its clone one level deeper is assigned. */
    method VisitKey(h: Heap, parent: Value, props: seq<Prop>, depth: int, paths: PathMap, fields: seq<Field>)
      returns (extended: seq<Field>)
      requires Closed(h) && AllInside(h, props) && props != []
      requires maxDepth.Num? && 1 <= depth <= maxDepth.n
      modifies this, paths
      ensures maxDepth == old(maxDepth) && Settings() == old(Settings())
      ensures CloneProps(old(Settings()), h, parent, props, depth, old(paths.paths), fields)
           == CloneProps(old(Settings()), h, parent, props[1..], depth, paths.paths, extended)
      decreases maxDepth.n + 1 - depth, 0
    {
      ghost var cfg := Settings();
      var name, child := props[0].name, props[0].value;
      extended := fields;
      var ignoreThis := TypeOfSlot(fields, name) in ignoreTypes
                        || exists p | p in ignorePropertyNames :: Matches(p, name);
      assert ignoreThis == Ignored(cfg, fields, name);
      if !ignoreThis {
        var known := paths.Has(child);
        if !known {
          var parentPath := paths.Get(parent);
          paths.Set(child, AsText(parentPath) + "." + name);
        }
        ghost var recorded := paths.paths;
        var sub := Clone(h, child, Some(depth + 1), paths);
        extended := fields + [Field(name, sub)];
        assert CloneAt(cfg, h, child, depth + 1, recorded) == Cloned(sub, paths.paths);
      }
    }
  }
}
