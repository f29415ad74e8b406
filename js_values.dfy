/** The JavaScript values the data clone reads, the object graph they live in,
    the plain data it produces, and the `refs` Map that records paths. */
module JsValues {

  datatype Option<+T> = None | Some(value: T)

  type ObjId = nat

  /** A JavaScript value: a primitive, `undefined`, `null`, a function, or a
      reference to an object of the heap (compared by identity). */
  datatype Value =
    | Num(n: int)
    | Str(s: string)
    | Bool(b: bool)
    | Undefined
    | Null
    | Func(fid: nat)
    | Ref(id: ObjId)

  /** The `typeof` operator. */
  function TypeOf(v: Value): (t: string)
    ensures t == "object" <==> v.Ref? || v.Null?
    ensures t == "function" <==> v.Func?
    ensures t == "undefined" <==> v.Undefined?
  {
    match v
    case Num(_) => "number"
    case Str(_) => "string"
    case Bool(_) => "boolean"
    case Undefined => "undefined"
    case Null => "object"
    case Func(_) => "function"
    case Ref(_) => "object"
  }

  /** What `Object.prototype.toString` tells the clone about an object,
      together with the state it reads from the three built-in kinds. */
  datatype Class =
    | PlainObject                               // any other tag: Object, Map, Set, ...
    | ArrayObject                               // "[object Array]"
    | DateObject(iso: string)                   // "[object Date]" and its toISOString()
    | RegExpObject(text: string)                // "[object RegExp]" and its toString()
    | ErrorObject(name: Value, message: Value)  // "[object Error]" and its name and message

  /** An own enumerable property. */
  datatype Prop = Prop(name: string, value: Value)

  /** An object: its class and its own enumerable properties in `Object.keys` order. */
  datatype Obj = Obj(cls: Class, props: seq<Prop>)

  type Heap = map<ObjId, Obj>

  predicate Inside(h: Heap, v: Value) {
    v.Ref? ==> v.id in h
  }

  predicate AllInside(h: Heap, props: seq<Prop>) {
    forall i | 0 <= i < |props| :: Inside(h, props[i].value)
  }

  /** Every reference stored in a property points at an object of the heap. */
  ghost predicate Closed(h: Heap) {
    forall id | id in h :: AllInside(h, h[id].props)
  }

  /** `Object.keys` never lists a name twice. */
  ghost predicate DistinctNames(props: seq<Prop>) {
    forall i, j | 0 <= i < j < |props| :: props[i].name != props[j].name
  }

  ghost predicate WellFormed(h: Heap) {
    Closed(h) && forall id | id in h :: DistinctNames(h[id].props)
  }

  /** The name starts with an underscore. */
  predicate LeadingUnderscore(name: string) {
    |name| > 0 && name[0] == '_'
  }

  /** A property assigned on the copy under construction. */
  datatype Field = Field(name: string, value: Out)

  /** What the clone returns: a value passed through unchanged, a string
      (an ISO date, a regular expression's text, a reference marker), the
      `{name, message}` pair of an error, or a fresh array or prototype-less
      bag holding the copied properties in assignment order. */
  datatype Out =
    | Leaf(v: Value)
    | Text(s: string)
    | ErrorPair(name: Value, message: Value)
    | Copy(isArray: bool, fields: seq<Field>)

  function Names(fields: seq<Field>): (r: seq<string>)
    ensures |r| == |fields| && forall i | 0 <= i < |fields| :: r[i] == fields[i].name
  {
    seq(|fields|, i requires 0 <= i < |fields| => fields[i].name)
  }

  function TypeOfOut(o: Out): (t: string) {
    match o
    case Leaf(v) => TypeOf(v)
    case Text(_) => "string"
    case ErrorPair(_, _) => "object"
    case Copy(_, _) => "object"
  }

  /** `typeof copy[name]` on a fresh copy that has been assigned `fields`:
      the last assignment under `name` decides, and a name never assigned
      reads as `undefined`. */
  function TypeOfSlot(fields: seq<Field>, name: string): (t: string)
    ensures name !in Names(fields) ==> t == "undefined"
  {
    if fields == [] then "undefined"
    else
      var last := fields[|fields| - 1];
      if last.name == name then TypeOfOut(last.value)
      else
        assert Names(fields[..|fields| - 1]) == Names(fields)[..|fields| - 1];
        TypeOfSlot(fields[..|fields| - 1], name)
  }

  /** `o` holds at most `n` levels of nested copies. */
  ghost predicate WithinLevels(o: Out, n: int)
    decreases o
  {
    match o
    case Copy(_, fields) =>
      n >= 1 && forall i | 0 <= i < |fields| :: WithinLevels(fields[i].value, n - 1)
    case _ => true
  }

  /** Every field of a copy holds at most `n` levels of nested copies. */
  ghost predicate FieldsWithin(fields: seq<Field>, n: int) {
    forall i | 0 <= i < |fields| :: WithinLevels(fields[i].value, n)
  }

  type Paths = map<Value, string>

  /** `before` is kept in `after`: no entry was removed or overwritten. */
  ghost predicate Extends(before: Paths, after: Paths) {
    forall v | v in before :: v in after && after[v] == before[v]
  }

  /** The string a `Map.get` result turns into under `+`: a missing entry
      reads as "undefined". */
  function AsText(p: Option<string>): (s: string) {
    match p
    case Some(s) => s
    case None => "undefined"
  }

  function PathText(paths: Paths, v: Value): (r: string)
    ensures v in paths ==> r == paths[v]
    ensures v !in paths ==> r == "undefined"
  {
    AsText(if v in paths then Some(paths[v]) else None)
  }

  /** The `refs` Map: each value met so far (objects by identity) with the
      dotted path it was first found under. */
  class PathMap {
    var paths: Paths

    constructor ()
      ensures paths == map[]
    {
      paths := map[];
    }

    method Has(v: Value) returns (b: bool)
      ensures b <==> v in paths
    {
      b := v in paths;
    }

    method Get(v: Value) returns (p: Option<string>)
      ensures v in paths ==> p == Some(paths[v])
      ensures v !in paths ==> p == None
    {
      p := if v in paths then Some(paths[v]) else None;
    }

    method Set(v: Value, path: string)
      modifies this
      ensures paths == old(paths)[v := path]
    {
      paths := paths[v := path];
    }
  }

  /** The two results threaded through the recursion: the copy and the
      `refs` map as the call leaves it. */
  datatype Cloned = Cloned(out: Out, refs: Paths)
  datatype ClonedProps = ClonedProps(copy: seq<Field>, refs: Paths)

  /** A one-object graph for the name and type filters:
      `{_secret: 1, doThing: <a function>}`. */
  function FilterHeap(): (h: Heap) {
    map[0 := Obj(PlainObject, [Prop("_secret", Num(1)), Prop("doThing", Func(0))])]
  }
}
