/** What the current data clone promises, proved about its specification
    `CloneAt`/`CloneProps`, which `DataClone.Clone` is proved to compute. */
module WiseProperties {
  import opened JsValues
  import opened WiseDataClone

  /** The configuration the function object starts with, MAX_DEPTH set to `maxDepth`. */
  function DefaultConfig(maxDepth: int): (c: Config) {
    Config(maxDepth, ["function"], [StartsWith("_")], "{object:%s}", "self")
  }

  // ---------------------------------------------------------------- formats

  lemma {:induction false} ReplaceFirstAt(format: string, text: string, i: int)
    requires PlaceholderAt(format, i)
    requires forall j | 0 <= j < i :: !PlaceholderAt(format, j)
    ensures ReplaceFirst(format, text) == format[..i] + text + format[i + 2..]
    decreases i
  {
    if i > 0 {
      var rest := format[1..];
      assert !PlaceholderAt(format, 0);
      assert ReplaceFirst(format, text) == [format[0]] + ReplaceFirst(rest, text);
      assert PlaceholderAt(rest, i - 1);
      forall j | 0 <= j < i - 1 ensures !PlaceholderAt(rest, j) {
        assert !PlaceholderAt(format, j + 1);
      }
      ReplaceFirstAt(rest, text, i - 1);
      assert format[..i] == [format[0]] + rest[..i - 1];
      assert format[i + 2..] == rest[i + 1..];
    }
  }

  lemma {:induction false} ReplaceFirstAbsent(format: string, text: string)
    requires forall j | 0 <= j :: !PlaceholderAt(format, j)
    ensures ReplaceFirst(format, text) == format
    decreases |format|
  {
    if |format| >= 2 {
      assert !PlaceholderAt(format, 0);
      forall j | 0 <= j ensures !PlaceholderAt(format[1..], j) {
        assert !PlaceholderAt(format, j + 1);
      }
      ReplaceFirstAbsent(format[1..], text);
      assert format == [format[0]] + format[1..];
    }
  }

  /** The default OBJECT_REFERENCE_FORMAT renders a path as `{object:<path>}`. */
  lemma DefaultReferenceFormat(path: string)
    ensures ReplaceFirst("{object:%s}", path) == "{object:" + path + "}"
  {
    var format := "{object:%s}";
    forall j | 0 <= j < 8 ensures !PlaceholderAt(format, j) {
      assert format[j] != '%';
    }
    ReplaceFirstAt(format, path, 8);
    assert format[..8] == "{object:";
    assert format[10..] == "}";
  }

  // ------------------------------------------------------ configuration

  /** An invalid MAX_DEPTH is replaced once; after that the check leaves it alone. */
  lemma CheckIsStable(v: Value)
    ensures CheckedMaxDepth(CheckedMaxDepth(v)) == CheckedMaxDepth(v)
    ensures CheckedMaxDepth(Num(InitialMaxDepth)) == Num(InitialMaxDepth)
  {
  }

  // ------------------------------------------------------ single values

  /** A number, string, boolean, `undefined` or function comes back unchanged
      at any depth, and so does `null` within MAX_DEPTH; nothing is recorded. */
  lemma NonObjectsPassThrough(c: Config, h: Heap, v: Value, depth: int, refs: Paths)
    requires Closed(h)
    requires !v.Ref? && (!v.Null? || depth <= c.maxDepth)
    ensures CloneAt(c, h, v, depth, refs) == Cloned(Leaf(v), refs)
  {
  }

  /** Beyond MAX_DEPTH, `null` is an object to the clone: it becomes the
      reference format filled with its recorded path, "undefined" when none. */
  lemma NullBeyondDepth(c: Config, h: Heap, depth: int, refs: Paths)
    requires Closed(h) && depth > c.maxDepth
    ensures CloneAt(c, h, Null, depth, refs)
         == Cloned(Text(ReplaceFirst(c.referenceFormat, PathText(refs, Null))), refs)
  {
  }

  /** A Date becomes its ISO string, a RegExp its text and an Error a fresh
      `{name, message}` pair, within and beyond MAX_DEPTH alike. */
  lemma BuiltInsNormalized(c: Config, h: Heap, v: Value, depth: int, refs: Paths)
    requires Closed(h) && v.Ref? && v.id in h
    ensures h[v.id].cls.DateObject? ==> CloneAt(c, h, v, depth, refs) == Cloned(Text(h[v.id].cls.iso), refs)
    ensures h[v.id].cls.RegExpObject? ==> CloneAt(c, h, v, depth, refs) == Cloned(Text(h[v.id].cls.text), refs)
    ensures h[v.id].cls.ErrorObject? ==>
              CloneAt(c, h, v, depth, refs) == Cloned(ErrorPair(h[v.id].cls.name, h[v.id].cls.message), refs)
  {
  }

  /** Beyond MAX_DEPTH an ordinary object or array is not entered: it becomes
      the reference format filled with its recorded path, and with the default
      format that is `{object:<path>}`. */
  lemma ObjectBeyondDepth(c: Config, h: Heap, v: Value, depth: int, refs: Paths)
    requires Closed(h) && v.Ref? && v.id in h && depth > c.maxDepth
    requires h[v.id].cls.PlainObject? || h[v.id].cls.ArrayObject?
    ensures CloneAt(c, h, v, depth, refs) == Cloned(Text(ReplaceFirst(c.referenceFormat, PathText(refs, v))), refs)
    ensures c.referenceFormat == "{object:%s}" ==>
              CloneAt(c, h, v, depth, refs) == Cloned(Text("{object:" + PathText(refs, v) + "}"), refs)
  {
    DefaultReferenceFormat(PathText(refs, v));
  }

  // ------------------------------------------------------ the path map

  lemma ExtendsTransitive(a: Paths, b: Paths, c: Paths)
    requires Extends(a, b) && Extends(b, c)
    ensures Extends(a, c)
  {
  }

  /** `refs` is write-once: a call only adds entries, it never removes or
      overwrites one. */
  lemma {:induction false} ClonePreservesPaths(c: Config, h: Heap, v: Value, depth: int, refs: Paths)
    requires Closed(h) && Inside(h, v)
    ensures Extends(refs, CloneAt(c, h, v, depth, refs).refs)
    decreases c.maxDepth + 1 - depth, 1
  {
    if depth <= c.maxDepth && v.Ref? && Normalize(h[v.id].cls).None? {
      PropsPreservePaths(c, h, v, h[v.id].props, depth, refs, []);
    }
  }

  lemma {:induction false} PropsPreservePaths(c: Config, h: Heap, parent: Value, props: seq<Prop>,
                                              depth: int, refs: Paths, copy: seq<Field>)
    requires Closed(h) && AllInside(h, props) && depth <= c.maxDepth
    ensures Extends(refs, CloneProps(c, h, parent, props, depth, refs, copy).refs)
    decreases c.maxDepth + 1 - depth, 0, |props|
  {
    if props != [] {
      var name, child := props[0].name, props[0].value;
      if Ignored(c, copy, name) {
        PropsPreservePaths(c, h, parent, props[1..], depth, refs, copy);
      } else {
        var recorded := if child in refs then refs else refs[child := PathText(refs, parent) + "." + name];
        var sub := CloneAt(c, h, child, depth + 1, recorded);
        ClonePreservesPaths(c, h, child, depth + 1, recorded);
        PropsPreservePaths(c, h, parent, props[1..], depth, sub.refs, copy + [Field(name, sub.out)]);
        ExtendsTransitive(refs, recorded, sub.refs);
        ExtendsTransitive(refs, sub.refs, CloneProps(c, h, parent, props, depth, refs, copy).refs);
      }
    }
  }

  /** A value first met as property `name` of `parent` is recorded under the
      parent's path followed by "." and `name`, and keeps that path for the
      rest of the call: the first discovery in depth-first key order wins. */
  lemma FirstDiscoveryRecorded(c: Config, h: Heap, parent: Value, props: seq<Prop>,
                               depth: int, refs: Paths, copy: seq<Field>)
    requires Closed(h) && AllInside(h, props) && depth <= c.maxDepth
    requires props != [] && !Ignored(c, copy, props[0].name) && props[0].value !in refs
    ensures var r := CloneProps(c, h, parent, props, depth, refs, copy).refs;
            props[0].value in r && r[props[0].value] == PathText(refs, parent) + "." + props[0].name
  {
    var name, child := props[0].name, props[0].value;
    var recorded := refs[child := PathText(refs, parent) + "." + name];
    var sub := CloneAt(c, h, child, depth + 1, recorded);
    ClonePreservesPaths(c, h, child, depth + 1, recorded);
    PropsPreservePaths(c, h, parent, props[1..], depth, sub.refs, copy + [Field(name, sub.out)]);
  }

  /** A call without `refs` records the root under SELF, and keeps it there. */
  lemma RootRecordedAsSelf(c: Config, h: Heap, obj: Value, depth: Option<int>)
    requires Closed(h) && Inside(h, obj)
    ensures var r := DataCloneCall(c, h, obj, depth, None).refs;
            obj in r && r[obj] == c.selfLabel
  {
    ClonePreservesPaths(c, h, obj, StartDepth(depth), map[obj := c.selfLabel]);
  }

  // ------------------------------------------------------ filtering

  /** The names the copy keeps: with distinct keys `copy[name]` is always
      `undefined` when tested, so a name is dropped exactly when "undefined"
      is an ignored type or the name matches an ignored pattern. */
  function KeptNames(c: Config, props: seq<Prop>): (names: seq<string>) {
    if props == [] then []
    else
      var keep := !("undefined" in c.ignoreTypes || MatchesAny(c.ignoreNames, props[0].name));
      (if keep then [props[0].name] else []) + KeptNames(c, props[1..])
  }

  lemma {:induction false} KeptNamesAreKeys(c: Config, props: seq<Prop>)
    ensures forall n | n in KeptNames(c, props) :: exists i | 0 <= i < |props| :: props[i].name == n
    ensures forall i | 0 <= i < |props| && !("undefined" in c.ignoreTypes) && !MatchesAny(c.ignoreNames, props[i].name)
              :: props[i].name in KeptNames(c, props)
    decreases |props|
  {
    if props != [] {
      KeptNamesAreKeys(c, props[1..]);
      forall n | n in KeptNames(c, props) ensures exists i | 0 <= i < |props| :: props[i].name == n {
        if n != props[0].name {
          assert n in KeptNames(c, props[1..]);
          var i :| 0 <= i < |props[1..]| && props[1..][i].name == n;
          assert props[i + 1].name == n;
        }
      }
      forall i | 0 <= i < |props| && !("undefined" in c.ignoreTypes) && !MatchesAny(c.ignoreNames, props[i].name)
        ensures props[i].name in KeptNames(c, props)
      {
        if i > 0 {
          assert props[1..][i - 1] == props[i];
        }
      }
    }
  }

  /** With the default IGNORE_TYPES no property is dropped by type, and with the
      default IGNORE_PROPERTY_NAMES exactly the names starting with "_" are dropped. */
  lemma {:induction false} DefaultKeptNames(maxDepth: int, props: seq<Prop>)
    ensures KeptNames(DefaultConfig(maxDepth), props)
         == UnderscoreFree(props)
    decreases |props|
  {
    if props != [] {
      var name := props[0].name;
      UnderscorePattern(name);
      DefaultKeptNames(maxDepth, props[1..]);
    }
  }

  /** The default pattern `/^_/` matches exactly the names that start with an underscore. */
  lemma UnderscorePattern(name: string)
    ensures MatchesAny([StartsWith("_")], name) <==> LeadingUnderscore(name)
  {
    var pattern := StartsWith("_");
    assert [pattern][0] == pattern;
    if MatchesAny([pattern], name) {
      var p :| p in [pattern] && Matches(p, name);
      assert p == pattern;
      assert "_" <= name;
      assert name[0] == "_"[0];
    }
    if LeadingUnderscore(name) {
      assert name[..1] == "_";
      assert Matches(pattern, name);
    }
  }

  /** The names of `props` that do not start with an underscore, in order. */
  function UnderscoreFree(props: seq<Prop>): (names: seq<string>) {
    if props == [] then []
    else (if LeadingUnderscore(props[0].name) then [] else [props[0].name]) + UnderscoreFree(props[1..])
  }

  lemma {:induction false} PropsNames(c: Config, h: Heap, parent: Value, props: seq<Prop>,
                                      depth: int, refs: Paths, copy: seq<Field>)
    requires Closed(h) && AllInside(h, props) && depth <= c.maxDepth
    requires DistinctNames(props)
    requires forall i | 0 <= i < |props| :: props[i].name !in Names(copy)
    ensures Names(CloneProps(c, h, parent, props, depth, refs, copy).copy) == Names(copy) + KeptNames(c, props)
    decreases |props|
  {
    if props != [] {
      var name, child := props[0].name, props[0].value;
      assert TypeOfSlot(copy, name) == "undefined";
      assert DistinctNames(props[1..]) by {
        forall i, j | 0 <= i < j < |props[1..]| ensures props[1..][i].name != props[1..][j].name {
          assert props[i + 1].name != props[j + 1].name;
        }
      }
      if Ignored(c, copy, name) {
        forall i | 0 <= i < |props[1..]| ensures props[1..][i].name !in Names(copy) {
          assert props[1..][i] == props[i + 1];
        }
        PropsNames(c, h, parent, props[1..], depth, refs, copy);
      } else {
        var recorded := if child in refs then refs else refs[child := PathText(refs, parent) + "." + name];
        var sub := CloneAt(c, h, child, depth + 1, recorded);
        var copy' := copy + [Field(name, sub.out)];
        assert Names(copy') == Names(copy) + [name];
        forall i | 0 <= i < |props[1..]| ensures props[1..][i].name !in Names(copy') {
          assert props[1..][i] == props[i + 1];
          assert props[0].name != props[i + 1].name;
        }
        PropsNames(c, h, parent, props[1..], depth, sub.refs, copy');
      }
    }
  }

  /** Within MAX_DEPTH an array becomes an array and any other object that is
      not a Date, RegExp or Error a prototype-less bag, holding exactly the
      kept names of the source's own keys, in `Object.keys` order. */
  lemma ExpandedCopy(c: Config, h: Heap, v: Value, depth: int, refs: Paths)
    requires WellFormed(h) && v.Ref? && v.id in h && depth <= c.maxDepth
    requires h[v.id].cls.PlainObject? || h[v.id].cls.ArrayObject?
    ensures var out := CloneAt(c, h, v, depth, refs).out;
            out.Copy? && out.isArray == h[v.id].cls.ArrayObject?
            && Names(out.fields) == KeptNames(c, h[v.id].props)
  {
    PropsNames(c, h, v, h[v.id].props, depth, refs, []);
  }

  // ------------------------------------------------------ depth

  function LevelsLeft(c: Config, depth: int): (n: int) {
    if depth > c.maxDepth then 0 else c.maxDepth + 1 - depth
  }

  /** The depth bound: a value cloned at `depth` holds at most
      MAX_DEPTH + 1 - depth levels of copied objects, and none beyond MAX_DEPTH. */
  lemma {:induction false} CloneLevels(c: Config, h: Heap, v: Value, depth: int, refs: Paths)
    requires Closed(h) && Inside(h, v)
    ensures WithinLevels(CloneAt(c, h, v, depth, refs).out, LevelsLeft(c, depth))
    decreases c.maxDepth + 1 - depth, 1
  {
    if depth <= c.maxDepth && v.Ref? && Normalize(h[v.id].cls).None? {
      PropsLevels(c, h, v, h[v.id].props, depth, refs, []);
    }
  }

  lemma {:induction false} PropsLevels(c: Config, h: Heap, parent: Value, props: seq<Prop>,
                                       depth: int, refs: Paths, copy: seq<Field>)
    requires Closed(h) && AllInside(h, props) && depth <= c.maxDepth
    requires FieldsWithin(copy, c.maxDepth - depth)
    ensures FieldsWithin(CloneProps(c, h, parent, props, depth, refs, copy).copy, c.maxDepth - depth)
    decreases c.maxDepth + 1 - depth, 0, |props|
  {
    if props != [] {
      var name, child := props[0].name, props[0].value;
      if Ignored(c, copy, name) {
        PropsLevels(c, h, parent, props[1..], depth, refs, copy);
      } else {
        var recorded := if child in refs then refs else refs[child := PathText(refs, parent) + "." + name];
        var sub := CloneAt(c, h, child, depth + 1, recorded);
        CloneLevels(c, h, child, depth + 1, recorded);
        PropsLevels(c, h, parent, props[1..], depth, sub.refs, copy + [Field(name, sub.out)]);
      }
    }
  }
}
