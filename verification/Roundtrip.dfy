/** Reading a published configuration back: a decoder that knows only the types, and the proof that what it
    returns is the original tree with its empty parts pruned and "@docker" stripped. */
module Roundtrip {
  import opened Paths
  import opened Values
  import opened Flatten
  import opened Config
  import opened Published

  // ---------- types ----------

  datatype Ty = TLeaf | TPtr(to: Ty) | TStruct(fields: seq<TyField>) | TMap(of: Ty) | TSlice(of: Ty) | TAny | TOther

  datatype TyField = TyField(goName: string, exported: bool, jsonTag: string, allowEmpty: bool, anonymous: bool, ty: Ty)

  /** A field of this type, to ask for its name. */
  function Sample(f: TyField): Field
  {
    Field(f.goName, f.exported, f.jsonTag, f.allowEmpty, f.anonymous, Other)
  }

  predicate SameHead(tf: TyField, f: Field)
  {
    Sample(tf) == f.(value := Other)
  }

  predicate RecordTy(t: Ty)
  {
    t.TStruct? || (t.TPtr? && t.to.TStruct?)
  }

  function TyNames(t: Ty): set<string>
    decreases t, 1
  {
    match t
    case TStruct(fs) => TyFieldNames(fs)
    case TPtr(to) => TyNames(to)
    case TLeaf => {}
    case TMap(_) => {}
    case TSlice(_) => {}
    case TAny => {}
    case TOther => {}
  }

  function TyNamesOf(f: TyField): set<string>
    decreases f, 1
  {
    if !Visible(Sample(f)) then {}
    else if Embedded(Sample(f)) then TyNames(f.ty)
    else {JsonFieldName(Sample(f)).name}
  }

  function TyFieldNames(fs: seq<TyField>): set<string>
    decreases fs, 0
  {
    if fs == [] then {} else TyFieldNames(fs[..|fs| - 1]) + TyNamesOf(fs[|fs| - 1])
  }

  /** Sibling fields have their own names; embedded fields are structs or pointers to structs. */
  ghost predicate TyWf(t: Ty)
  {
    match t
    case TLeaf => true
    case TPtr(to) => TyWf(to)
    case TStruct(fs) =>
      && (forall i :: 0 <= i < |fs| ==>
            TyWf(fs[i].ty) && (Visible(Sample(fs[i])) && Embedded(Sample(fs[i])) ==> RecordTy(fs[i].ty)))
      && (forall i, j :: 0 <= i < j < |fs| ==> TyNamesOf(fs[i]) !! TyNamesOf(fs[j]))
    case TMap(of) => TyWf(of)
    case TSlice(of) => TyWf(of)
    case TAny => true
    case TOther => true
  }

  ghost predicate HasTy(t: Ty, v: Value)
  {
    match t
    case TLeaf => v.Leaf?
    case TPtr(to) => v.Ptr? && (v.target.Some? ==> HasTy(to, v.target.value))
    case TStruct(tfs) => v.Struct? && |v.fields| == |tfs|
                         && forall i :: 0 <= i < |tfs| ==>
                              SameHead(tfs[i], v.fields[i]) && HasTy(tfs[i].ty, v.fields[i].value)
    case TMap(of) => v.Map? && forall k :: k in v.entries ==> HasTy(of, v.entries[k])
    case TSlice(of) => v.Slice? && forall i :: 0 <= i < |v.items| ==> HasTy(of, v.items[i])
    case TAny => v.Iface?
    case TOther => v.Other?
  }

  // ---------- pruned values ----------

  /** A value without its empty parts. Fields keep their position, list items their index. */
  datatype PVal = Nothing | Text(s: string) | Fields(fields: seq<PVal>) | Dict(entries: map<string, PVal>)
                | List(items: map<nat, PVal>) | Raw(m: PathMap)

  predicate AllNothing(ps: seq<PVal>)
  {
    forall i :: 0 <= i < |ps| ==> ps[i] == Nothing
  }

  function PackRec(ps: seq<PVal>): PVal
  {
    if AllNothing(ps) then Nothing else Fields(ps)
  }

  function PackDict(es: map<string, PVal>): PVal
  {
    if es == map[] then Nothing else Dict(es)
  }

  function PackList(items: map<nat, PVal>): PVal
  {
    if items == map[] then Nothing else List(items)
  }

  ghost function FlatOf(t: Option<Trie>): PathMap
  {
    if t.None? then map[] else Flat(t.value)
  }

  /** The original without empty parts; a present but empty pointer target that must not be lost is "true". */
  ghost function Prune(path: seq<string>, v: Value, allow: bool): PVal
    requires Wf(path, v)
    decreases v, 1
  {
    match v
    case Leaf(text, _, _) => if text.Some? && text.value != "" then Text(text.value) else Nothing
    case Ptr(t) =>
      if t.None? then Nothing
      else
        var p := Prune(path, t.value, false);
        if p == Nothing && allow && StructKind(t.value) then Text("true") else p
    case Iface(t) =>
      if t.None? || Shape(path, t.value, allow).None? then Nothing else Raw(FlatOf(Shape(path, t.value, allow)))
    case Struct(fs) => PackRec(PruneFields(path, fs))
    case Map(_, _) => PackDict(PruneEntries(path, v))
    case Slice(_) => PackList(PruneItems(path, v))
    case Other => Nothing
  }

  ghost function PruneEntries(path: seq<string>, v: Value): map<string, PVal>
    requires v.Map? && Wf(path, v)
    decreases v, 0
  {
    map k | k in v.entries && Prune(path + [MapKey(path, k)], v.entries[k], false) != Nothing
      :: MapKey(path, k) := Prune(path + [MapKey(path, k)], v.entries[k], false)
  }

  ghost function PruneItems(path: seq<string>, v: Value): map<nat, PVal>
    requires v.Slice? && Wf(path, v)
    decreases v, 0
  {
    map i: nat | 0 <= i < |v.items| && Prune(path + [Dec(i)], v.items[i], false) != Nothing ::
      Prune(path + [Dec(i)], v.items[i], false)
  }

  ghost function PruneField(path: seq<string>, f: Field): PVal
    requires WfField(path, f)
    decreases f, 1
  {
    if !Walked(f) then Nothing
    else if Embedded(f) then Prune(path, f.value, false)
    else Prune(path + [JsonFieldName(f).name], f.value, f.allowEmpty)
  }

  ghost function PruneFields(path: seq<string>, fs: seq<Field>): seq<PVal>
    requires WfFields(path, fs)
    decreases fs, 0
  {
    if fs == [] then [] else PruneFields(path, fs[..|fs| - 1]) + [PruneField(path, fs[|fs| - 1])]
  }

  // ---------- the decoder ----------

  function Heads(m: PathMap): set<string>
  {
    set q | q in m && |q| > 0 :: q[0]
  }

  /** What lies below a name. */
  function Sub(m: PathMap, name: string): PathMap
  {
    map p: seq<string> | p in (set q | q in m && |q| > 0 && q[0] == name :: q[1..]) && [name] + p in m :: m[[name] + p]
  }

  function Restrict(m: PathMap, names: set<string>): PathMap
  {
    map q | q in m && |q| > 0 && q[0] in names :: m[q]
  }

  function DigitValue(c: char): nat
  {
    if '0' <= c <= '9' then c as int - '0' as int else 0
  }

  /** strconv.Atoi on the names of list items. */
  function UnDec(s: string): nat
  {
    if s == "" then 0 else 10 * UnDec(s[..|s| - 1]) + DigitValue(s[|s| - 1])
  }

  lemma {:induction false} UnDecDec(n: nat)
    ensures UnDec(Dec(n)) == n
  {
    var s := Dec(n);
    assert DigitValue(Digit(n % 10)) == n % 10;
    if n >= 10 {
      UnDecDec(n / 10);
      assert s[..|s| - 1] == Dec(n / 10);
    } else {
      assert s[..|s| - 1] == "";
    }
  }

  function Decode(t: Ty, m: PathMap): PVal
    decreases t, 1
  {
    match t
    case TLeaf => if [] in m then Text(m[[]]) else Nothing
    case TPtr(to) => if to.TStruct? && [] in m then Text(m[[]]) else Decode(to, m)
    case TStruct(fs) => PackRec(DecodeFields(fs, m))
    case TMap(of) => PackDict(DecodeEntries(of, m))
    case TSlice(of) => PackList(DecodeItems(of, m))
    case TAny => if m == map[] then Nothing else Raw(m)
    case TOther => Nothing
  }

  function DecodeEntries(of: Ty, m: PathMap): map<string, PVal>
    decreases of, 2
  {
    map k | k in Heads(m) :: Decode(of, Sub(m, k))
  }

  function DecodeItems(of: Ty, m: PathMap): map<nat, PVal>
    decreases of, 2
  {
    map i | i in (set s | s in Heads(m) :: UnDec(s)) && Dec(i) in Heads(m) :: Decode(of, Sub(m, Dec(i)))
  }

  function DecodeField(f: TyField, m: PathMap): PVal
    decreases f, 1
  {
    if !Visible(Sample(f)) then Nothing
    else if Embedded(Sample(f)) then Decode(f.ty, Restrict(m, TyNames(f.ty)))
    else Decode(f.ty, Sub(m, JsonFieldName(Sample(f)).name))
  }

  function DecodeFields(fs: seq<TyField>, m: PathMap): seq<PVal>
    decreases fs, 0
  {
    if fs == [] then [] else DecodeFields(fs[..|fs| - 1], m) + [DecodeField(fs[|fs| - 1], m)]
  }

  // ---------- path maps of shapes ----------

  /** No empty node, and only slash-free names. */
  ghost predicate Solid(t: Trie)
  {
    t.Node? ==> t.kids != map[] && forall k :: k in t.kids ==> Plain(k) && Solid(t.kids[k])
  }

  ghost predicate AllSolid(kids: map<string, Trie>)
  {
    forall k :: k in kids ==> Plain(k) && Solid(kids[k])
  }

  lemma {:induction false} SolidFlat(t: Trie)
    requires Solid(t)
    ensures Flat(t) != map[]
  {
    match t
    case Tip(text) => assert [] in Flat(t);
    case Node(kids) =>
      assert kids.Keys != {};
      var k :| k in kids;
      SolidFlat(kids[k]);
      assert Flat(kids[k]).Keys != {};
      var p :| p in Flat(kids[k]);
      assert ([k] + p)[1..] == p;
      FlatNode(kids, [k] + p);
  }

  lemma {:induction false} ShapeSolid(path: seq<string>, v: Value, allow: bool)
    requires Wf(path, v) && Shape(path, v, allow).Some?
    ensures Solid(Shape(path, v, allow).value)
    decreases v, 2
  {
    match v
    case Leaf(_, _, _) =>
    case Ptr(t) => if Shape(path, t.value, false).Some? { ShapeSolid(path, t.value, false); }
    case Iface(t) => ShapeSolid(path, t.value, allow);
    case Struct(fs) => FieldsSolid(path, fs);
    case Map(_, es) =>
      forall k | k in es && Shape(path + [MapKey(path, k)], es[k], false).Some?
        ensures Solid(Shape(path + [MapKey(path, k)], es[k], false).value)
      {
        ShapeSolid(path + [MapKey(path, k)], es[k], false);
      }
    case Slice(items) => ItemsSolid(path, items, |items|);
    case Other =>
  }

  lemma {:induction false} FieldsSolid(path: seq<string>, fs: seq<Field>)
    requires WfFields(path, fs)
    ensures AllSolid(FieldsKids(path, fs))
    decreases fs, 0
  {
    if fs != [] {
      FieldsSolid(path, fs[..|fs| - 1]);
      FieldSolid(path, fs[|fs| - 1]);
    }
  }

  lemma FieldSolid(path: seq<string>, f: Field)
    requires WfField(path, f)
    ensures AllSolid(FieldKids(path, f))
    decreases f, 1
  {
    if Walked(f) {
      if Embedded(f) {
        if Shape(path, f.value, false).Some? { ShapeSolid(path, f.value, false); }
      } else {
        var p := path + [JsonFieldName(f).name];
        if Shape(p, f.value, f.allowEmpty).Some? { ShapeSolid(p, f.value, f.allowEmpty); }
      }
    }
  }

  lemma {:induction false} ItemsSolid(path: seq<string>, items: seq<Value>, n: nat)
    requires n <= |items|
    requires forall i :: 0 <= i < |items| ==> Wf(path + [Dec(i)], items[i])
    ensures AllSolid(SliceKids(path, items, n))
    decreases items, 1, n
  {
    if n > 0 {
      ItemsSolid(path, items, n - 1);
      DecPlain(n - 1);
      if Shape(path + [Dec(n - 1)], items[n - 1], false).Some? { ShapeSolid(path + [Dec(n - 1)], items[n - 1], false); }
    }
  }

  lemma SubAt(m: PathMap, name: string, p: seq<string>)
    ensures p in Sub(m, name) <==> [name] + p in m
    ensures p in Sub(m, name) ==> Sub(m, name)[p] == m[[name] + p]
  {
    if [name] + p in m {
      var q := [name] + p;
      assert q[0] == name && q[1..] == p;
    }
  }

  lemma SubFlat(kids: map<string, Trie>, name: string)
    ensures Sub(Flat(Node(kids)), name) == FlatOf(At(kids, name))
  {
    hide Flat, Sub;
    var a, b := Sub(Flat(Node(kids)), name), FlatOf(At(kids, name));
    forall p: seq<string>
      ensures p in a <==> p in b
      ensures p in a ==> a[p] == b[p]
    {
      SubAt(Flat(Node(kids)), name, p);
      FlatNode(kids, [name] + p);
      assert ([name] + p)[1..] == p;
    }
    assert a.Keys == b.Keys;
  }

  lemma HeadsFlat(kids: map<string, Trie>)
    requires AllSolid(kids)
    ensures Heads(Flat(Node(kids))) == kids.Keys
  {
    hide Flat, Solid;
    forall k ensures k in Heads(Flat(Node(kids))) <==> k in kids {
      if k in kids {
        SolidFlat(kids[k]);
        assert Flat(kids[k]).Keys != {};
        var p :| p in Flat(kids[k]);
        assert ([k] + p)[1..] == p;
        FlatNode(kids, [k] + p);
        assert ([k] + p)[0] == k;
      }
      if k in Heads(Flat(Node(kids))) {
        var q :| q in Flat(Node(kids)) && |q| > 0 && q[0] == k;
        FlatNode(kids, q);
      }
    }
  }

  function Narrow(kids: map<string, Trie>, names: set<string>): map<string, Trie>
  {
    map k | k in kids && k in names :: kids[k]
  }

  lemma RestrictFlat(kids: map<string, Trie>, names: set<string>)
    ensures Restrict(Flat(Node(kids)), names) == Flat(Node(Narrow(kids, names)))
  {
    hide Flat;
    var a, b := Restrict(Flat(Node(kids)), names), Flat(Node(Narrow(kids, names)));
    forall q: seq<string>
      ensures q in a <==> q in b
      ensures q in a ==> a[q] == b[q]
    {
      FlatNode(kids, q);
      FlatNode(Narrow(kids, names), q);
    }
    assert a.Keys == b.Keys;
  }

  lemma FlatPack(kids: map<string, Trie>)
    ensures FlatOf(Pack(kids)) == Flat(Node(kids))
  {
    if kids == map[] {
      hide Flat;
      forall q: seq<string> ensures q !in Flat(Node(kids)) { FlatNode(kids, q); }
      assert Flat(Node(kids)).Keys == {};
    }
  }

  lemma NodeHasNoText(kids: map<string, Trie>)
    ensures [] !in Flat(Node(kids))
  {
    FlatNode(kids, []);
  }

  // ---------- the decoder inverts the walk ----------

  lemma SubNothing(name: string)
    ensures Sub(map[], name) == map[]
  {
  }

  lemma {:induction false} DecodeEmpty(t: Ty)
    ensures Decode(t, map[]) == Nothing
    decreases t, 1
  {
    match t
    case TPtr(to) => DecodeEmpty(to);
    case TStruct(fs) => DecodeFieldsEmpty(fs);
    case TLeaf =>
    case TMap(_) =>
    case TSlice(_) =>
    case TAny =>
    case TOther =>
  }

  lemma {:induction false} DecodeFieldsEmpty(fs: seq<TyField>)
    ensures AllNothing(DecodeFields(fs, map[]))
    decreases fs, 0
  {
    if fs != [] {
      DecodeFieldsEmpty(fs[..|fs| - 1]);
      var f := fs[|fs| - 1];
      assert Restrict(map[], TyNames(f.ty)) == map[];
      SubNothing(JsonNameOr(Sample(f)));
      DecodeEmpty(f.ty);
    }
  }

  function JsonNameOr(f: Field): string
  {
    if Visible(f) then JsonFieldName(f).name else ""
  }

  lemma HeadName(tf: TyField, f: Field)
    requires SameHead(tf, f)
    ensures JsonFieldName(Sample(tf)) == JsonFieldName(f) && Visible(Sample(tf)) == Visible(f)
    ensures Visible(f) ==> Embedded(Sample(tf)) == Embedded(f)
  {
  }

  lemma NamesTy(t: Ty, v: Value)
    requires HasTy(t, v)
    ensures RecordNames(v) <= TyNames(t)
    decreases t, 1
  {
    match t
    case TPtr(to) => if v.target.Some? { NamesTy(to, v.target.value); }
    case TStruct(tfs) =>
      FieldNamesTy(tfs, v.fields, |tfs|);
      assert v.fields[..|tfs|] == v.fields && tfs[..|tfs|] == tfs;
    case TLeaf =>
    case TMap(_) =>
    case TSlice(_) =>
    case TAny =>
    case TOther =>
  }

  lemma {:induction false} FieldNamesTy(tfs: seq<TyField>, fs: seq<Field>, n: nat)
    requires n <= |tfs| == |fs|
    requires forall i :: 0 <= i < |tfs| ==> SameHead(tfs[i], fs[i]) && HasTy(tfs[i].ty, fs[i].value)
    ensures FieldNames(fs[..n]) <= TyFieldNames(tfs[..n])
    decreases tfs, 0, n
  {
    if n > 0 {
      hide JsonFieldName;
      FieldNamesTy(tfs, fs, n - 1);
      assert fs[..n][..n - 1] == fs[..n - 1] && tfs[..n][..n - 1] == tfs[..n - 1];
      HeadName(tfs[n - 1], fs[n - 1]);
      NamesTy(tfs[n - 1].ty, fs[n - 1].value);
    }
    assert n == |fs| ==> fs[..n] == fs && tfs[..n] == tfs;
  }

  lemma NamesOfTy(tf: TyField, f: Field)
    requires SameHead(tf, f) && HasTy(tf.ty, f.value)
    ensures NamesOf(f) <= TyNamesOf(tf)
  {
    HeadName(tf, f);
    NamesTy(tf.ty, f.value);
  }

  /** The kids of one embedded field among those of the whole struct. */
  lemma {:induction false} NarrowFields(path: seq<string>, tfs: seq<TyField>, fs: seq<Field>, i: nat, n: nat)
    requires WfFields(path, fs) && TyWf(TStruct(tfs)) && HasTy(TStruct(tfs), Struct(fs)) && i < |fs| && n <= |fs|
    ensures WfFields(path, fs[..n]) && WfField(path, fs[i])
    ensures Narrow(FieldsKids(path, fs[..n]), TyNamesOf(tfs[i])) == if i < n then FieldKids(path, fs[i]) else map[]
  {
    hide FieldKids, TyNamesOf, NamesOf, TyWf, HasTy, WfFields, WfField, FieldNames, Narrow;
    WfPrefix(path, fs, n);
    WfPrefix(path, fs, i);
    SameLength(tfs, fs);
    if n > 0 {
      NarrowFields(path, tfs, fs, i, n - 1);
      NarrowOne(path, tfs, fs, i, n - 1);
      FieldsKidsSnoc(path, fs, n - 1);
      NarrowUnion(FieldsKids(path, fs[..n - 1]), FieldKids(path, fs[n - 1]), TyNamesOf(tfs[i]));
      MapUnits(FieldKids(path, fs[i]));
    } else {
      NarrowNone(TyNamesOf(tfs[i]));
    }
  }

  lemma MapUnits(a: map<string, Trie>)
    ensures a + map[] == a && map[] + a == a
  {
  }

  lemma NarrowNone(names: set<string>)
    ensures Narrow(map[], names) == map[]
  {
  }

  lemma NarrowUnion(a: map<string, Trie>, b: map<string, Trie>, names: set<string>)
    ensures Narrow(a + b, names) == Narrow(a, names) + Narrow(b, names)
  {
  }

  lemma NarrowOne(path: seq<string>, tfs: seq<TyField>, fs: seq<Field>, i: nat, j: nat)
    requires WfFields(path, fs) && TyWf(TStruct(tfs)) && HasTy(TStruct(tfs), Struct(fs)) && i < |fs| && j < |fs|
    ensures |tfs| == |fs| && WfField(path, fs[j])
    ensures Narrow(FieldKids(path, fs[j]), TyNamesOf(tfs[i])) == if i == j then FieldKids(path, fs[j]) else map[]
  {
    hide FieldKids, TyNamesOf, NamesOf, TyWf, HasTy, WfFields, WfField, FieldNames;
    WfPrefix(path, fs, j);
    FieldKidsNames(path, fs[j]);
    OneField(tfs, fs, j);
    ApartFields(tfs, i, j);
  }

  lemma FieldsKidsSnoc(path: seq<string>, fs: seq<Field>, n: nat)
    requires WfFields(path, fs) && n < |fs|
    ensures WfFields(path, fs[..n]) && WfFields(path, fs[..n + 1]) && WfField(path, fs[n])
    ensures FieldsKids(path, fs[..n + 1]) == FieldsKids(path, fs[..n]) + FieldKids(path, fs[n])
    ensures PruneFields(path, fs[..n + 1]) == PruneFields(path, fs[..n]) + [PruneField(path, fs[n])]
  {
    hide FieldKids, PruneField, WfField;
    WfPrefix(path, fs, n);
    WfPrefix(path, fs, n + 1);
    assert fs[..n + 1][..n] == fs[..n];
  }

  lemma OneField(tfs: seq<TyField>, fs: seq<Field>, i: nat)
    requires HasTy(TStruct(tfs), Struct(fs)) && i < |fs|
    ensures |tfs| == |fs| && SameHead(tfs[i], fs[i]) && HasTy(tfs[i].ty, fs[i].value)
    ensures NamesOf(fs[i]) <= TyNamesOf(tfs[i])
  {
    NamesOfTy(tfs[i], fs[i]);
  }

  lemma ApartFields(tfs: seq<TyField>, i: nat, j: nat)
    requires TyWf(TStruct(tfs)) && i < |tfs| && j < |tfs|
    ensures i != j ==> TyNamesOf(tfs[i]) !! TyNamesOf(tfs[j])
  {
  }

  ghost predicate Inverts(path: seq<string>, t: Ty, v: Value, allow: bool)
    requires Wf(path, v)
  {
    && Decode(t, FlatOf(Shape(path, v, allow))) == Prune(path, v, allow)
    && (Prune(path, v, allow) == Nothing <==> Shape(path, v, allow) == None)
  }

  /** Decoding what a well-typed value emits gives its pruned form, at every level of the tree. */
  lemma {:induction false} DecodeShape(path: seq<string>, t: Ty, v: Value, allow: bool)
    requires Wf(path, v) && TyWf(t) && HasTy(t, v)
    ensures Inverts(path, t, v, allow)
    decreases v, 2
  {
    match t
    case TLeaf =>
    case TPtr(to) =>
      if v.target.Some? {
        DecodeShape(path, to, v.target.value, false);
        PointerInverts(path, to, v, allow);
      } else {
        DecodeEmpty(t);
      }
    case TStruct(tfs) =>
      FieldsInvert(path, tfs, v.fields, |tfs|);
      StructInverts(path, tfs, v, allow);
    case TMap(of) =>
      forall k | k in v.entries ensures Inverts(path + [MapKey(path, k)], of, v.entries[k], false) {
        DecodeShape(path + [MapKey(path, k)], of, v.entries[k], false);
      }
      MapInverts(path, of, v, allow);
    case TSlice(of) =>
      forall i | 0 <= i < |v.items| ensures Inverts(path + [Dec(i)], of, v.items[i], false) {
        DecodeShape(path + [Dec(i)], of, v.items[i], false);
      }
      SliceInverts(path, of, v, allow);
    case TAny =>
      if Shape(path, v, allow).Some? {
        ShapeSolid(path, v, allow);
        SolidFlat(Shape(path, v, allow).value);
      }
    case TOther =>
  }

  lemma PointerInverts(path: seq<string>, to: Ty, v: Value, allow: bool)
    requires v.Ptr? && Wf(path, v) && v.target.Some? && HasTy(to, v.target.value)
    requires Inverts(path, to, v.target.value, false)
    ensures Inverts(path, TPtr(to), v, allow)
  {
    hide HasTy;
    var x := v.target.value;
    if to.TStruct? {
      IsStruct(to, x);
      StructShape(path, x);
    } else if Shape(path, x, false).None? && allow && StructKind(x) {
      IsLeaf(to, x);
    }
  }

  lemma IsStruct(t: Ty, v: Value)
    requires HasTy(t, v) && t.TStruct?
    ensures v.Struct?
  {
  }

  lemma IsLeaf(t: Ty, v: Value)
    requires HasTy(t, v) && StructKind(v) && !t.TStruct?
    ensures t.TLeaf?
  {
  }

  lemma StructShape(path: seq<string>, v: Value)
    requires v.Struct? && Wf(path, v)
    ensures [] !in FlatOf(Shape(path, v, false))
  {
    var kids := FieldsKids(path, v.fields);
    hide FieldsKids, Flat;
    FlatPack(kids);
    NodeHasNoText(kids);
  }

  ghost predicate FieldInverts(path: seq<string>, tf: TyField, f: Field, m: PathMap)
    requires WfField(path, f)
  {
    && DecodeField(tf, m) == PruneField(path, f)
    && (PruneField(path, f) == Nothing <==> FieldKids(path, f) == map[])
  }

  lemma {:induction false} FieldsInvert(path: seq<string>, tfs: seq<TyField>, fs: seq<Field>, n: nat)
    requires WfFields(path, fs) && TyWf(TStruct(tfs)) && HasTy(TStruct(tfs), Struct(fs)) && n <= |fs|
    ensures WfFields(path, fs[..n]) && |tfs| == |fs|
    ensures DecodeFields(tfs[..n], Flat(Node(FieldsKids(path, fs)))) == PruneFields(path, fs[..n])
    ensures AllNothing(PruneFields(path, fs[..n])) <==> FieldsKids(path, fs[..n]) == map[]
    decreases fs, 1, n
  {
    hide Flat, FieldKids, PruneField, DecodeField, HasTy, TyWf, WfField, FieldNames, WfFields, FieldsKids, PruneFields,
      AllNothing;
    var m := Flat(Node(FieldsKids(path, fs)));
    SameLength(tfs, fs);
    if n > 0 {
      FieldsInvert(path, tfs, fs, n - 1);
      FieldInvertsAt(path, tfs, fs, n - 1);
      FieldsKidsSnoc(path, fs, n - 1);
      DecodeSnoc(tfs, m, n - 1);
      UnionEmpty(FieldsKids(path, fs[..n - 1]), FieldKids(path, fs[n - 1]));
      NothingSnoc(PruneFields(path, fs[..n - 1]), PruneField(path, fs[n - 1]));
    } else {
      NoFields(path, tfs, fs, m);
    }
  }

  lemma SameLength(tfs: seq<TyField>, fs: seq<Field>)
    requires HasTy(TStruct(tfs), Struct(fs))
    ensures |tfs| == |fs|
  {
  }

  lemma NoFields(path: seq<string>, tfs: seq<TyField>, fs: seq<Field>, m: PathMap)
    ensures WfFields(path, fs[..0]) && DecodeFields(tfs[..0], m) == PruneFields(path, fs[..0]) == []
    ensures AllNothing(PruneFields(path, fs[..0])) && FieldsKids(path, fs[..0]) == map[]
  {
  }

  lemma DecodeSnoc(tfs: seq<TyField>, m: PathMap, n: nat)
    requires n < |tfs|
    ensures DecodeFields(tfs[..n + 1], m) == DecodeFields(tfs[..n], m) + [DecodeField(tfs[n], m)]
  {
    hide DecodeField;
    assert tfs[..n + 1][..n] == tfs[..n];
  }

  lemma NothingSnoc(ps: seq<PVal>, p: PVal)
    ensures AllNothing(ps + [p]) <==> AllNothing(ps) && p == Nothing
  {
    if AllNothing(ps + [p]) {
      assert (ps + [p])[|ps|] == p;
      forall i | 0 <= i < |ps| ensures ps[i] == Nothing { assert (ps + [p])[i] == ps[i]; }
    }
  }

  lemma FieldInvertsAt(path: seq<string>, tfs: seq<TyField>, fs: seq<Field>, i: nat)
    requires WfFields(path, fs) && TyWf(TStruct(tfs)) && HasTy(TStruct(tfs), Struct(fs)) && i < |fs|
    ensures |tfs| == |fs| && WfField(path, fs[i]) && FieldInverts(path, tfs[i], fs[i], Flat(Node(FieldsKids(path, fs))))
    decreases fs, 0
  {
    var kids, m, f, tf := FieldsKids(path, fs), Flat(Node(FieldsKids(path, fs))), fs[i], tfs[i];
    WfPrefix(path, fs, i);
    HeadName(tf, f);
    if Visible(f) {
      if Embedded(f) {
        if Walked(f) { DecodeShape(path, tf.ty, f.value, false); }
        EmbeddedInverts(path, tfs, fs, i);
      } else {
        if Walked(f) { DecodeShape(path + [JsonFieldName(f).name], tf.ty, f.value, f.allowEmpty); }
        NamedInverts(path, tf, fs, i);
      }
    }
  }

  lemma NamedInverts(path: seq<string>, tf: TyField, fs: seq<Field>, i: nat)
    requires WfFields(path, fs) && i < |fs| && SameHead(tf, fs[i]) && Visible(fs[i]) && !Embedded(fs[i])
    requires WfField(path, fs[i])
    requires Walked(fs[i]) ==> Inverts(path + [JsonFieldName(fs[i]).name], tf.ty, fs[i].value, fs[i].allowEmpty)
    ensures FieldInverts(path, tf, fs[i], Flat(Node(FieldsKids(path, fs))))
  {
    hide Flat, Shape, Prune, Decode, FieldsKids, FieldNames, WfFields, JsonFieldName;
    var name := JsonFieldName(fs[i]).name;
    HeadName(tf, fs[i]);
    FieldsKidsAt(path, fs, i);
    SubFlat(FieldsKids(path, fs), name);
    DecodeEmpty(tf.ty);
    assert At(FieldsKids(path, fs), name) == FieldShape(path, fs[i]);
    assert One(name, FieldShape(path, fs[i])) == map[] <==> FieldShape(path, fs[i]).None? by {
      assert FieldShape(path, fs[i]).Some? ==> name in One(name, FieldShape(path, fs[i]));
    }
  }

  lemma EmbeddedInverts(path: seq<string>, tfs: seq<TyField>, fs: seq<Field>, i: nat)
    requires WfFields(path, fs) && TyWf(TStruct(tfs)) && HasTy(TStruct(tfs), Struct(fs)) && i < |fs|
    requires Visible(fs[i]) && Embedded(fs[i]) && WfField(path, fs[i]) && |tfs| == |fs|
    requires Walked(fs[i]) ==> Inverts(path, tfs[i].ty, fs[i].value, false)
    ensures FieldInverts(path, tfs[i], fs[i], Flat(Node(FieldsKids(path, fs))))
  {
    OneField(tfs, fs, i);
    NarrowFields(path, tfs, fs, i, |fs|);
    assert fs[..|fs|] == fs;
    HeadName(tfs[i], fs[i]);
    hide Flat, Shape, Prune, Decode, FieldsKids, FieldNames, WfFields, JsonFieldName, HasTy, TyWf, NamesOf, TyNames;
    RestrictFlat(FieldsKids(path, fs), TyNamesOf(tfs[i]));
    var kids := FieldKids(path, fs[i]);
    FlatPack(kids);
    if Walked(fs[i]) {
      RecordKids(path, fs[i].value, false);
    } else {
      FlatPack(map[]);
      DecodeEmpty(tfs[i].ty);
    }
  }

  lemma StructInverts(path: seq<string>, tfs: seq<TyField>, v: Value, allow: bool)
    requires v.Struct? && Wf(path, v) && |tfs| == |v.fields| && WfFields(path, v.fields[..|tfs|])
    requires DecodeFields(tfs[..|tfs|], Flat(Node(FieldsKids(path, v.fields)))) == PruneFields(path, v.fields[..|tfs|])
    requires AllNothing(PruneFields(path, v.fields[..|tfs|])) <==> FieldsKids(path, v.fields[..|tfs|]) == map[]
    ensures Inverts(path, TStruct(tfs), v, allow)
  {
    hide Flat, FieldsKids, PruneFields, DecodeFields, WfFields;
    assert tfs[..|tfs|] == tfs && v.fields[..|tfs|] == v.fields;
    FlatPack(FieldsKids(path, v.fields));
  }

  lemma MapInverts(path: seq<string>, of: Ty, v: Value, allow: bool)
    requires v.Map? && Wf(path, v)
    requires forall k :: k in v.entries ==> Inverts(path + [MapKey(path, k)], of, v.entries[k], false)
    ensures Inverts(path, TMap(of), v, allow)
  {
    hide MapKids, Flat, Inverts, Shape, Prune, PruneEntries, Heads, Sub, Decode, DecodeEntries, AllSolid;
    var kids, b := MapKids(path, v, v.entries.Keys), PruneEntries(path, v);
    MapSolid(path, v);
    HeadsFlat(kids);
    var m := Flat(Node(kids));
    var a := DecodeEntries(of, m);
    forall s
      ensures s in a <==> s in b
      ensures s in b <==> s in kids
      ensures s in a ==> a[s] == b[s]
    {
      DecodeEntriesAt(of, m, s);
      EntryInverts(path, of, v, s);
    }
    assert a.Keys == b.Keys;
    assert b.Keys == kids.Keys;
    assert a == b;
    MapFinish(path, of, v, allow);
  }

  lemma DecodeEntriesAt(of: Ty, m: PathMap, s: string)
    ensures s in DecodeEntries(of, m) <==> s in Heads(m)
    ensures s in DecodeEntries(of, m) ==> DecodeEntries(of, m)[s] == Decode(of, Sub(m, s))
  {
    hide Heads, Decode, Sub;
  }

  lemma MapFinish(path: seq<string>, of: Ty, v: Value, allow: bool)
    requires v.Map? && Wf(path, v)
    requires DecodeEntries(of, Flat(Node(MapKids(path, v, v.entries.Keys)))) == PruneEntries(path, v)
    requires PruneEntries(path, v).Keys == MapKids(path, v, v.entries.Keys).Keys
    ensures Inverts(path, TMap(of), v, allow)
  {
    hide MapKids, Flat, DecodeEntries, PruneEntries;
    FlatPack(MapKids(path, v, v.entries.Keys));
  }

  lemma MapSolid(path: seq<string>, v: Value)
    requires v.Map? && Wf(path, v)
    ensures AllSolid(MapKids(path, v, v.entries.Keys))
  {
    var kids := MapKids(path, v, v.entries.Keys);
    if kids != map[] {
      hide MapKids;
      ShapeSolid(path, v, false);
    }
  }

  lemma PruneEntriesAt(path: seq<string>, v: Value, s: string)
    requires v.Map? && Wf(path, v)
    ensures s in PruneEntries(path, v) <==> exists k ::
      k in v.entries && MapKey(path, k) == s && Prune(path + [MapKey(path, k)], v.entries[k], false) != Nothing
    ensures forall k :: k in v.entries && MapKey(path, k) == s && s in PruneEntries(path, v)
              ==> PruneEntries(path, v)[s] == Prune(path + [MapKey(path, k)], v.entries[k], false)
  {
    hide Prune, MapKey;
  }

  lemma EntryInverts(path: seq<string>, of: Ty, v: Value, s: string)
    requires v.Map? && Wf(path, v)
    requires forall k :: k in v.entries ==> Inverts(path + [MapKey(path, k)], of, v.entries[k], false)
    ensures var kids, b := MapKids(path, v, v.entries.Keys), PruneEntries(path, v);
      (s in kids <==> s in b) && (s in kids ==> Decode(of, Sub(Flat(Node(kids)), s)) == b[s])
  {
    var kids, b := MapKids(path, v, v.entries.Keys), PruneEntries(path, v);
    hide MapKids, Flat, Shape, Decode, Sub, Prune, PruneEntries, MapKey;
    MapKidsAt(path, v, v.entries.Keys, s);
    PruneEntriesAt(path, v, s);
    SubFlat(kids, s);
  }

  lemma ItemInverts(path: seq<string>, of: Ty, v: Value, kids: map<string, Trie>, b: map<nat, PVal>, i: nat)
    requires v.Slice? && Wf(path, v)
    requires forall j :: 0 <= j < |v.items| ==> Inverts(path + [Dec(j)], of, v.items[j], false)
    requires kids == SliceKids(path, v.items, |v.items|) && b == PruneItems(path, v)
    ensures (Dec(i) in kids <==> i in b) && (i in b ==> Decode(of, Sub(Flat(Node(kids)), Dec(i))) == b[i])
  {
    hide SliceKids, Flat, Shape, Decode, Sub, Prune, Dec;
    SubFlat(kids, Dec(i));
    if i < |v.items| {
      SliceKidsAt(path, v.items, |v.items|, i);
    } else if Dec(i) in kids {
      NotAnItem(path, v, i);
    }
  }

  lemma NotAnItem(path: seq<string>, v: Value, i: nat)
    requires v.Slice? && Wf(path, v) && Dec(i) in SliceKids(path, v.items, |v.items|)
    ensures i < |v.items|
  {
    hide SliceKids;
    SliceKidsNames(path, v.items, |v.items|, Dec(i));
    var j :| 0 <= j < |v.items| && Dec(i) == Dec(j);
    DecInjective(i, j);
  }

  lemma DecodeItemsAt(of: Ty, m: PathMap, i: nat)
    ensures i in DecodeItems(of, m) <==> Dec(i) in Heads(m)
    ensures i in DecodeItems(of, m) ==> DecodeItems(of, m)[i] == Decode(of, Sub(m, Dec(i)))
  {
    hide Heads, Decode, Sub, UnDec;
    UnDecDec(i);
  }

  lemma SliceInverts(path: seq<string>, of: Ty, v: Value, allow: bool)
    requires v.Slice? && Wf(path, v)
    requires forall i :: 0 <= i < |v.items| ==> Inverts(path + [Dec(i)], of, v.items[i], false)
    ensures Inverts(path, TSlice(of), v, allow)
  {
    hide SliceKids, Flat, Inverts, Shape, Prune, PruneItems, Heads, Sub, Decode, DecodeItems, Dec, AllSolid;
    var kids, b := SliceKids(path, v.items, |v.items|), PruneItems(path, v);
    ItemsSolid(path, v.items, |v.items|);
    HeadsFlat(kids);
    var m := Flat(Node(kids));
    var a := DecodeItems(of, m);
    forall i: nat
      ensures i in a <==> i in b
      ensures i in a ==> a[i] == b[i]
    {
      DecodeItemsAt(of, m, i);
      ItemInverts(path, of, v, kids, b, i);
    }
    assert a.Keys == b.Keys;
    assert a == b;
    ItemsEmpty(path, of, v);
    SliceFinish(path, of, v, allow);
  }

  lemma SliceFinish(path: seq<string>, of: Ty, v: Value, allow: bool)
    requires v.Slice? && Wf(path, v)
    requires DecodeItems(of, Flat(Node(SliceKids(path, v.items, |v.items|)))) == PruneItems(path, v)
    requires PruneItems(path, v) == map[] <==> SliceKids(path, v.items, |v.items|) == map[]
    ensures Inverts(path, TSlice(of), v, allow)
  {
    hide SliceKids, Flat, DecodeItems, PruneItems;
    FlatPack(SliceKids(path, v.items, |v.items|));
  }

  lemma ItemsEmpty(path: seq<string>, of: Ty, v: Value)
    requires v.Slice? && Wf(path, v)
    requires forall i :: 0 <= i < |v.items| ==> Inverts(path + [Dec(i)], of, v.items[i], false)
    ensures PruneItems(path, v) == map[] <==> SliceKids(path, v.items, |v.items|) == map[]
  {
    var kids, b := SliceKids(path, v.items, |v.items|), PruneItems(path, v);
    hide SliceKids, PruneItems, Inverts, Dec, Flat;
    forall i: nat ensures Dec(i) in kids <==> i in b { ItemInverts(path, of, v, kids, b, i); }
    forall s | s in kids ensures exists i: nat :: s == Dec(i) && i in b {
      SliceKidsNames(path, v.items, |v.items|, s);
      var i :| 0 <= i < |v.items| && s == Dec(i);
    }
    assert kids.Keys == {} ==> b.Keys == {};
    assert b.Keys == {} ==> kids.Keys == {};
  }

  // ---------- from string keys ----------

  /** The published keys below "traefik", split into segments. */
  function PathsOf(kv: map<string, string>): PathMap
  {
    map q: seq<string> | q in (set k | k in kv && Split(k)[0] == "traefik" :: Split(k)[1..]) && Join(ROOT + q) in kv ::
      kv[Join(ROOT + q)]
  }

  lemma PathsOfAt(kv: map<string, string>, q: seq<string>)
    ensures q in PathsOf(kv) <==> AllPlain(q) && Join(ROOT + q) in kv
    ensures q in PathsOf(kv) ==> PathsOf(kv)[q] == kv[Join(ROOT + q)]
  {
    hide Split, Join;
    if AllPlain(q) && Join(ROOT + q) in kv {
      var k := Join(ROOT + q);
      SplitJoin(ROOT + q);
      assert Split(k)[0] == "traefik" && Split(k)[1..] == q;
    }
    if q in PathsOf(kv) {
      var k :| k in kv && Split(k)[0] == "traefik" && q == Split(k)[1..];
      SplitPlain(k);
    }
  }

  lemma {:induction false} SolidPlain(t: Trie, q: seq<string>)
    requires Solid(t) && q in Flat(t)
    ensures AllPlain(q)
    decreases t
  {
    if t.Node? {
      FlatNode(t.kids, q);
      SolidPlain(t.kids[q[0]], q[1..]);
      assert q == [q[0]] + q[1..];
    }
  }

  lemma IgnoredIs(q: seq<string>)
    requires AllPlain(q)
    ensures Ignored(Join(ROOT + q)) <==> |q| > 1 && q[0] == "tls"
  {
    hide Split, Join, Ignored;
    SplitJoin(ROOT + q);
    IgnoredBelow(Join(ROOT + q));
    TlsPrefix(q);
  }

  lemma TlsPrefix(q: seq<string>)
    ensures ["traefik", "tls"] < ROOT + q <==> |q| > 1 && q[0] == "tls"
  {
    var p, s := ["traefik", "tls"], ROOT + q;
    assert |q| > 0 ==> s[1] == q[0];
    assert p < s <==> |p| < |s| && p[0] == s[0] && p[1] == s[1];
  }

  lemma IgnoredBelow(key: string)
    ensures Ignored(key) <==> Below(["traefik", "tls"], key)
  {
    hide Split, Join, Below;
    JoinSnoc(ROOT, "tls");
    assert ROOT + ["tls"] == ["traefik", "tls"];
    assert Join(ROOT) == "traefik" by { JoinOne("traefik"); }
    assert TLS == Join(["traefik", "tls"]) + "/";
    GlobIsBelow(["traefik", "tls"], key);
  }

  lemma KvPathsAt(c: Configuration, q: seq<string>)
    requires WfConf(c) && KvOf(c).Some?
    ensures q in PathsOf(KvOf(c).value) <==> q in FlatOf(ConfShape(c)) && !(|q| > 1 && q[0] == "tls")
    ensures q in PathsOf(KvOf(c).value) ==> PathsOf(KvOf(c).value)[q] == FlatOf(ConfShape(c))[q]
  {
    hide KvOf, ConfShape, Flat, Join, Split, PathsOf, Ignored, AllPlain;
    PathsOfAt(KvOf(c).value, q);
    if AllPlain(q) {
      PlainRootPath(q);
      KvAt(c, Join(ROOT + q));
      IgnoredIs(q);
    } else if q in FlatOf(ConfShape(c)) {
      ConfSolid(c);
      SolidPlain(ConfShape(c).value, q);
      assert false;
    }
  }

  lemma PlainRootPath(q: seq<string>)
    requires AllPlain(q)
    ensures Split(Join(ROOT + q)) == ROOT + q && (ROOT + q)[1..] == q && ROOT <= ROOT + q
  {
    SplitJoin(ROOT + q);
  }

  lemma ConfSolid(c: Configuration)
    requires WfConf(c) && ConfShape(c).Some?
    ensures Solid(ConfShape(c).value)
  {
    hide ConfFields;
    ShapeSolid(ROOT, ConfValue(c), false);
  }

  /** The configuration without the part that is never published. */
  function NoTls(c: Configuration): Configuration
  {
    c.(tls := None)
  }

  lemma NoTlsWf(c: Configuration)
    requires WfConf(c)
    ensures WfConf(NoTls(c))
  {
    var a, b := ConfFields(c), ConfFields(NoTls(c));
    JsonNameOf("tls", a[3].value);
    JsonNameOf("tls", b[3].value);
    hide Wf, JsonFieldName, FieldNames, SectionFields;
    assert a[..3] == b[..3];
    ConfWf(c);
    assert WfFields(ROOT, a[..3]) && FieldNames(a[..3]) !! NamesOf(a[3]);
    PtrWf(ROOT + ["tls"]);
    assert WfFields(ROOT, b);
    ConfWf(NoTls(c));
  }

  lemma PtrWf(path: seq<string>)
    ensures Wf(path, Ptr(None))
  {
  }

  lemma TlsKids(c: Configuration)
    requires WfConf(c)
    ensures WfFields(ROOT, ConfFields(c)[..3]) && WfField(ROOT, ConfFields(c)[3])
    ensures ConfShape(c) == Pack(FieldsKids(ROOT, ConfFields(c)[..3]) + FieldKids(ROOT, ConfFields(c)[3]))
    ensures "tls" !in FieldsKids(ROOT, ConfFields(c)[..3]) && FieldKids(ROOT, ConfFields(c)[3]).Keys <= {"tls"}
    ensures c.tls.None? ==> FieldKids(ROOT, ConfFields(c)[3]) == map[]
    ensures forall k :: k in FieldKids(ROOT, ConfFields(c)[3]) ==> FieldKids(ROOT, ConfFields(c)[3])[k].Node?
  {
    var fs := ConfFields(c);
    ConfWf(c);
    WfPrefix(ROOT, fs, 3);
    JsonNameOf("tls", fs[3].value);
    FieldsKidsNames(ROOT, fs[..3]);
    FieldKidsNames(ROOT, fs[3]);
    if c.tls.Some? { RecNode(ROOT + ["tls"], c.tls.value); }
    hide ConfFields, FieldsKids, FieldKids, JsonFieldName, FieldNames;
    assert fs[..4] == fs && fs[..4][..3] == fs[..3];
    FieldsKidsSnoc(ROOT, fs, 3);
  }

  lemma RecNode(path: seq<string>, fs: seq<Field>)
    requires Wf(path, Rec(fs))
    ensures Shape(path, Rec(fs), false).Some? ==> Shape(path, Rec(fs), false).value.Node?
  {
    assert Wf(path, Struct(fs));
    RecShape(path, fs);
  }

  /** What can be read back from the published map is the shape of the configuration outside tls. */
  lemma PathsOfKv(c: Configuration)
    requires WfConf(c) && KvOf(c).Some?
    ensures WfConf(NoTls(c)) && PathsOf(KvOf(c).value) == FlatOf(ConfShape(NoTls(c)))
  {
    NoTlsWf(c);
    hide KvOf, WfConf, ConfShape, Flat, PathsOf, FlatOf;
    var m, n := PathsOf(KvOf(c).value), FlatOf(ConfShape(NoTls(c)));
    forall q: seq<string>
      ensures q in m <==> q in n
      ensures q in m ==> m[q] == n[q]
    {
      KvPathsAt(c, q);
      TlsSplit(c, q);
    }
    assert m.Keys == n.Keys;
  }

  lemma TlsSplit(c: Configuration, q: seq<string>)
    requires WfConf(c) && WfConf(NoTls(c))
    ensures q in FlatOf(ConfShape(NoTls(c))) <==> q in FlatOf(ConfShape(c)) && !(|q| > 1 && q[0] == "tls")
    ensures q in FlatOf(ConfShape(NoTls(c))) ==> FlatOf(ConfShape(NoTls(c)))[q] == FlatOf(ConfShape(c))[q]
  {
    hide KvOf, WfConf, ConfShape, Flat, FieldsKids, FieldKids, ConfFields;
    TlsKids(c);
    TlsKids(NoTls(c));
    SameHead3(c);
    var a, b := FieldsKids(ROOT, ConfFields(c)[..3]), FieldKids(ROOT, ConfFields(c)[3]);
    MapUnits(a);
    FlatPack(a + b);
    FlatPack(a);
    FlatNode(a + b, q);
    FlatNode(a, q);
    if |q| == 1 && q[0] == "tls" && "tls" in b {
      NodeHasNoText(b["tls"].kids);
      OneTail(q);
    }
  }

  lemma OneTail(q: seq<string>)
    requires |q| == 1
    ensures q[1..] == []
  {
  }

  lemma SameHead3(c: Configuration)
    ensures |ConfFields(c)| == 4 && |ConfFields(NoTls(c))| == 4 && ConfFields(NoTls(c))[..3] == ConfFields(c)[..3]
  {
  }

  lemma NoTlsTy(c: Configuration, t: Ty)
    requires HasTy(t, ConfValue(c))
    ensures HasTy(t, ConfValue(NoTls(c)))
  {
    var a, b := ConfFields(c), ConfFields(NoTls(c));
    assert a[..3] == b[..3];
    forall i | 0 <= i < 4 ensures SameHead(t.fields[i], b[i]) && HasTy(t.fields[i].ty, b[i].value) {
      if i < 3 {
        assert a[i] == a[..3][i] && b[i] == b[..3][i];
      } else {
        assert HasTy(t.fields[3].ty, a[3].value);
      }
    }
  }

  /** Round trip: decoding the published map by type alone gives the original configuration, empty parts pruned,
      "@docker" stripped, without its tls part. */
  lemma RoundTrip(c: Configuration, t: Ty)
    requires WfConf(c) && KvOf(c).Some? && TyWf(t) && HasTy(t, ConfValue(c))
    ensures WfConf(NoTls(c)) && Decode(t, PathsOf(KvOf(c).value)) == Prune(ROOT, ConfValue(NoTls(c)), false)
  {
    hide KvOf, ConfFields, HasTy, TyWf, Decode, Prune, PathsOf, Flat, Wf;
    PathsOfKv(c);
    NoTlsTy(c, t);
    DecodeShape(ROOT, t, ConfValue(NoTls(c)), false);
  }

  /** So two configurations of one type with the same published map have the same pruned form outside tls. */
  lemma SameMapSamePruned(c: Configuration, d: Configuration, t: Ty)
    requires WfConf(c) && WfConf(d) && KvOf(c).Some? && KvOf(c) == KvOf(d)
    requires TyWf(t) && HasTy(t, ConfValue(c)) && HasTy(t, ConfValue(d))
    ensures WfConf(NoTls(c)) && WfConf(NoTls(d))
    ensures Prune(ROOT, ConfValue(NoTls(c)), false) == Prune(ROOT, ConfValue(NoTls(d)), false)
  {
    hide KvOf, ConfFields, HasTy, TyWf, Decode, Prune, PathsOf, Wf;
    RoundTrip(c, t);
    RoundTrip(d, t);
  }
}
