/** Configuration trees as the reflection walk sees them, and their pruned shape. */
module Values {
  import opened Paths

  datatype Option<+T> = None | Some(value: T)

  /** A reflected value.
      `Leaf.text` is the outcome of leafString (None: the marshaller failed), `Leaf.zero` what
      isEmptyJSONValue says of it, and `Leaf.struct` whether its kind is struct (a struct with a marshaller). */
  datatype Value =
    | Leaf(text: Option<string>, zero: bool, struct: bool)
    | Ptr(target: Option<Value>)
    | Iface(held: Option<Value>)
    | Struct(fields: seq<Field>)
    | Map(stringKeys: bool, entries: map<string, Value>)
    | Slice(items: seq<Value>)
    | Other

  datatype Field = Field(goName: string, exported: bool, jsonTag: string, allowEmpty: bool, anonymous: bool,
                         value: Value)

  datatype FieldName = Skip | Named(name: string, omitEmpty: bool)

  function JsonFieldName(f: Field): FieldName
  {
    if f.jsonTag == "-" then Skip
    else
      var parts := SplitOn(',', f.jsonTag);
      Named(if parts[0] != "" then parts[0] else f.goName, "omitempty" in parts[1..])
  }

  function IsEmptyJSONValue(v: Value): bool
  {
    match v
    case Leaf(_, zero, _) => zero
    case Ptr(t) => t.None?
    case Iface(t) => t.None?
    case Map(_, entries) => |entries| == 0
    case Slice(items) => |items| == 0
    case Struct(_) => false
    case Other => false
  }

  predicate StructKind(v: Value)
  {
    v.Struct? || (v.Leaf? && v.struct)
  }

  /** Field belongs to the type's JSON form. */
  predicate Visible(f: Field)
  {
    f.exported && JsonFieldName(f).Named?
  }

  predicate Walked(f: Field)
  {
    Visible(f) && !(JsonFieldName(f).omitEmpty && IsEmptyJSONValue(f.value))
  }

  predicate Embedded(f: Field)
    requires Visible(f)
  {
    f.anonymous && JsonFieldName(f).name == f.goName
  }

  // ---------- failure ----------

  /** Some value that the walk would visit cannot be rendered. */
  ghost predicate Fails(v: Value)
  {
    match v
    case Leaf(text, _, _) => text.None?
    case Ptr(t) => t.Some? && Fails(t.value)
    case Iface(t) => t.Some? && Fails(t.value)
    case Struct(fs) => exists i :: 0 <= i < |fs| && Walked(fs[i]) && Fails(fs[i].value)
    case Map(stringKeys, es) => |es| != 0 && (!stringKeys || exists k :: k in es && Fails(es[k]))
    case Slice(items) => exists i :: 0 <= i < |items| && Fails(items[i])
    case Other => false
  }

  // ---------- names ----------

  const PROTOCOLS := {"http", "tcp", "udp"}
  const KINDS := {"routers", "services", "middlewares"}

  /** reKeyName on the segments of a path. */
  predicate NamesAt(path: seq<string>)
  {
    |path| == 3 && path[0] == "traefik" && path[1] in PROTOCOLS && path[2] in KINDS
  }

  function MapKey(path: seq<string>, key: string): (r: string)
    ensures Plain(key) ==> Plain(r)
  {
    if NamesAt(path) then StripDocker(key) else key
  }

  /** Embedded fields are structs or pointers to structs. */
  predicate Record(v: Value)
  {
    v.Struct? || (v.Ptr? && (v.target.None? || v.target.value.Struct?))
  }

  function RecordNames(v: Value): set<string>
    decreases v, 1
  {
    match v
    case Struct(fs) => FieldNames(fs)
    case Ptr(t) => if t.Some? then RecordNames(t.value) else {}
    case Leaf(_, _, _) => {}
    case Iface(_) => {}
    case Map(_, _) => {}
    case Slice(_) => {}
    case Other => {}
  }

  function NamesOf(f: Field): set<string>
    decreases f, 1
  {
    if !Visible(f) then {}
    else if Embedded(f) then RecordNames(f.value)
    else {JsonFieldName(f).name}
  }

  function FieldNames(fs: seq<Field>): set<string>
    decreases fs, 0
  {
    if fs == [] then {} else FieldNames(fs[..|fs| - 1]) + NamesOf(fs[|fs| - 1])
  }

  /** The standing assumptions: slash-free names, distinct among siblings once "@docker" is stripped. */
  ghost predicate Wf(path: seq<string>, v: Value)
    decreases v, 1
  {
    match v
    case Leaf(_, _, _) => true
    case Ptr(t) => t.Some? ==> Wf(path, t.value)
    case Iface(t) => t.Some? ==> Wf(path, t.value)
    case Struct(fs) => WfFields(path, fs)
    case Map(_, es) =>
      && (forall k :: k in es ==> Plain(k) && Wf(path + [MapKey(path, k)], es[k]))
      && (forall k, l :: k in es && l in es && MapKey(path, k) == MapKey(path, l) ==> k == l)
    case Slice(items) => forall i :: 0 <= i < |items| ==> Wf(path + [Dec(i)], items[i])
    case Other => true
  }

  ghost predicate WfField(path: seq<string>, f: Field)
    decreases f, 1
  {
    Visible(f) ==>
      if Embedded(f) then Record(f.value) && Wf(path, f.value)
      else Plain(JsonFieldName(f).name) && Wf(path + [JsonFieldName(f).name], f.value)
  }

  ghost predicate WfFields(path: seq<string>, fs: seq<Field>)
    decreases fs, 0
  {
    fs == [] ||
    var rest, f := fs[..|fs| - 1], fs[|fs| - 1];
    WfFields(path, rest) && WfField(path, f) && FieldNames(rest) !! NamesOf(f)
  }

  // ---------- pruned shape ----------

  /** What is left of a tree when only emitted text and the names leading to it are kept. */
  datatype Trie = Tip(text: string) | Node(kids: map<string, Trie>)

  function Pack(kids: map<string, Trie>): Option<Trie>
  {
    if kids == map[] then None else Some(Node(kids))
  }

  function Kids(t: Option<Trie>): map<string, Trie>
  {
    if t.Some? && t.value.Node? then t.value.kids else map[]
  }

  function One(name: string, t: Option<Trie>): map<string, Trie>
  {
    if t.Some? then map[name := t.value] else map[]
  }

  /** The pruned form of `v` found at `path`; `allow` is walkOptions.allowEmpty. */
  ghost function Shape(path: seq<string>, v: Value, allow: bool): Option<Trie>
    requires Wf(path, v)
    decreases v, 2
  {
    match v
    case Leaf(text, _, _) => if text.Some? && text.value != "" then Some(Tip(text.value)) else None
    case Ptr(t) =>
      if t.None? then None
      else
        var s := Shape(path, t.value, false);
        if s.None? && allow && StructKind(t.value) then Some(Tip("true")) else s
    case Iface(t) => if t.None? then None else Shape(path, t.value, allow)
    case Struct(fs) => Pack(FieldsKids(path, fs))
    case Map(_, es) => Pack(MapKids(path, v, es.Keys))
    case Slice(items) => Pack(SliceKids(path, items, |items|))
    case Other => None
  }

  ghost function FieldKids(path: seq<string>, f: Field): map<string, Trie>
    requires WfField(path, f)
    decreases f, 1
  {
    if !Walked(f) then map[]
    else if Embedded(f) then Kids(Shape(path, f.value, false))
    else One(JsonFieldName(f).name, Shape(path + [JsonFieldName(f).name], f.value, f.allowEmpty))
  }

  ghost function FieldsKids(path: seq<string>, fs: seq<Field>): map<string, Trie>
    requires WfFields(path, fs)
    decreases fs, 0
  {
    if fs == [] then map[]
    else FieldsKids(path, fs[..|fs| - 1]) + FieldKids(path, fs[|fs| - 1])
  }

  /** The contribution of the entries whose keys are in `ks`. */
  ghost function MapKids(path: seq<string>, v: Value, ks: set<string>): map<string, Trie>
    requires v.Map? && Wf(path, v) && ks <= v.entries.Keys
    decreases v, 1
  {
    map k | k in ks && Shape(path + [MapKey(path, k)], v.entries[k], false).Some?
      :: MapKey(path, k) := Shape(path + [MapKey(path, k)], v.entries[k], false).value
  }

  /** The contribution of the first `n` items. */
  ghost function SliceKids(path: seq<string>, items: seq<Value>, n: nat): map<string, Trie>
    requires n <= |items|
    requires forall i :: 0 <= i < |items| ==> Wf(path + [Dec(i)], items[i])
    decreases items, 1, n
  {
    if n == 0 then map[]
    else SliceKids(path, items, n - 1) + One(Dec(n - 1), Shape(path + [Dec(n - 1)], items[n - 1], false))
  }
}
