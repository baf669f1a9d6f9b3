/** From a pruned shape to the published key-value map, and the facts about published keys
    that prefix deletion relies on. */
module Flatten {
  import opened Paths
  import opened Values

  type PathMap = map<seq<string>, string>

  /** Every emitted text with its path below the root of the shape. */
  ghost function Flat(t: Trie): PathMap
  {
    match t
    case Tip(text) => map[[] := text]
    case Node(kids) =>
      map q: seq<string> | q in (set k, p | k in kids && p in Flat(kids[k]) :: [k] + p) :: Flat(kids[q[0]])[q[1..]]
  }

  lemma FlatNode(kids: map<string, Trie>, q: seq<string>)
    ensures q in Flat(Node(kids)) <==> |q| > 0 && q[0] in kids && q[1..] in Flat(kids[q[0]])
    ensures q in Flat(Node(kids)) ==> Flat(Node(kids))[q] == Flat(kids[q[0]])[q[1..]]
  {
    if |q| > 0 && q[0] in kids && q[1..] in Flat(kids[q[0]]) {
      assert q == [q[0]] + q[1..];
    }
  }

  // ---------- keys ----------

  const TLS := "traefik/tls/"

  /** Keys that KV.add drops. */
  predicate Ignored(key: string)
  {
    TLS <= key
  }

  predicate Hit(base: seq<string>, m: PathMap, key: string)
  {
    base <= Split(key) && Split(key)[|base|..] in m && !Ignored(key)
  }

  /** The path map rendered as string keys under `base`. */
  function Keyed(base: seq<string>, m: PathMap): map<string, string>
    requires |base| > 0
  {
    map s | s in (set p | p in m :: Join(base + p)) && Hit(base, m, s) :: m[Split(s)[|base|..]]
  }

  lemma KeyedAt(base: seq<string>, m: PathMap, s: string)
    requires |base| > 0
    ensures s in Keyed(base, m) <==> Hit(base, m, s)
    ensures s in Keyed(base, m) ==> Keyed(base, m)[s] == m[Split(s)[|base|..]]
  {
    if Hit(base, m, s) {
      var p := Split(s)[|base|..];
      assert Split(s) == base + p;
      JoinSplit(s);
      assert Join(base + p) == s;
    }
  }

  ghost function Emitted(base: seq<string>, t: Option<Trie>): map<string, string>
    requires |base| > 0
  {
    if t.None? then map[] else Keyed(base, Flat(t.value))
  }

  ghost function EmittedKids(base: seq<string>, kids: map<string, Trie>): map<string, string>
    requires |base| > 0
  {
    Keyed(base, Flat(Node(kids)))
  }

  lemma EmittedPack(base: seq<string>, kids: map<string, Trie>)
    requires |base| > 0
    ensures Emitted(base, Pack(kids)) == EmittedKids(base, kids)
  {
    if kids == map[] {
      forall s ensures s !in EmittedKids(base, kids) {
        KeyedAt(base, Flat(Node(kids)), s);
        if base <= Split(s) { FlatNode(kids, Split(s)[|base|..]); }
      }
    }
  }

  /** `m` is the path map of a node with these children. */
  ghost predicate IsFlat(kids: map<string, Trie>, m: PathMap)
  {
    && (forall q :: q in m <==> |q| > 0 && q[0] in kids && q[1..] in Flat(kids[q[0]]))
    && (forall q :: q in m ==> m[q] == Flat(kids[q[0]])[q[1..]])
  }

  lemma FlatIs(kids: map<string, Trie>)
    ensures IsFlat(kids, Flat(Node(kids)))
  {
    forall q: seq<string> { FlatNode(kids, q); }
  }

  lemma IsFlatUnion(a: map<string, Trie>, b: map<string, Trie>, fa: PathMap, fb: PathMap, fc: PathMap)
    requires a.Keys !! b.Keys && IsFlat(a, fa) && IsFlat(b, fb) && IsFlat(a + b, fc)
    ensures fc == fa + fb && fa.Keys !! fb.Keys
  {
    hide Flat;
    forall q: seq<string>
      ensures q in fc <==> q in fa || q in fb
      ensures q in fa ==> q !in fb && fc[q] == fa[q]
      ensures q in fb ==> fc[q] == fb[q]
    {
    }
    assert fc.Keys == (fa + fb).Keys;
  }

  lemma FlatUnion(a: map<string, Trie>, b: map<string, Trie>)
    requires a.Keys !! b.Keys
    ensures Flat(Node(a + b)) == Flat(Node(a)) + Flat(Node(b))
    ensures Flat(Node(a)).Keys !! Flat(Node(b)).Keys
  {
    hide Flat;
    FlatIs(a);
    FlatIs(b);
    FlatIs(a + b);
    IsFlatUnion(a, b, Flat(Node(a)), Flat(Node(b)), Flat(Node(a + b)));
  }

  lemma KeyedUnion(base: seq<string>, a: PathMap, b: PathMap)
    requires |base| > 0 && a.Keys !! b.Keys
    ensures Keyed(base, a + b) == Keyed(base, a) + Keyed(base, b)
  {
    var ka, kb, kc := Keyed(base, a), Keyed(base, b), Keyed(base, a + b);
    forall s
      ensures s in kc <==> s in ka || s in kb
      ensures s in ka ==> s !in kb && kc[s] == ka[s]
      ensures s in kb ==> kc[s] == kb[s]
    {
      KeyedAt(base, a, s);
      KeyedAt(base, b, s);
      KeyedAt(base, a + b, s);
    }
    assert kc.Keys == (ka + kb).Keys;
  }

  lemma EmittedUnion(base: seq<string>, a: map<string, Trie>, b: map<string, Trie>)
    requires |base| > 0 && a.Keys !! b.Keys
    ensures EmittedKids(base, a + b) == EmittedKids(base, a) + EmittedKids(base, b)
  {
    FlatUnion(a, b);
    KeyedUnion(base, Flat(Node(a)), Flat(Node(b)));
  }

  lemma PrefixSnoc(base: seq<string>, name: string, p: seq<string>)
    ensures base + [name] <= p <==> base <= p && |p| > |base| && p[|base|] == name
    ensures base + [name] <= p ==> p[|base|..][1..] == p[|base + [name]|..] && p[|base|..][0] == name
  {
  }

  /** `m` is `below` moved under one more segment. */
  ghost predicate IsShift(name: string, below: PathMap, m: PathMap)
  {
    && (forall q :: q in m <==> |q| > 0 && q[0] == name && q[1..] in below)
    && (forall q :: q in m ==> m[q] == below[q[1..]])
  }

  /** A single child shifts the base of the keys by its name. */
  lemma KeyedShift(base: seq<string>, name: string, below: PathMap, m: PathMap)
    requires |base| > 0 && IsShift(name, below, m)
    ensures Keyed(base, m) == Keyed(base + [name], below)
  {
    var a, b := Keyed(base, m), Keyed(base + [name], below);
    forall s
      ensures s in a <==> s in b
      ensures s in a ==> a[s] == b[s]
    {
      KeyedAt(base, m, s);
      KeyedAt(base + [name], below, s);
      PrefixSnoc(base, name, Split(s));
    }
    assert a.Keys == b.Keys;
  }

  lemma FlatOne(name: string, t: Trie)
    ensures IsShift(name, Flat(t), Flat(Node(map[name := t])))
  {
    FlatIs(map[name := t]);
  }

  lemma EmittedOne(base: seq<string>, name: string, t: Option<Trie>)
    requires |base| > 0
    ensures EmittedKids(base, One(name, t)) == Emitted(base + [name], t)
  {
    if t.None? {
      EmittedPack(base, map[]);
    } else {
      FlatOne(name, t.value);
      KeyedShift(base, name, Flat(t.value), Flat(Node(map[name := t.value])));
    }
  }

  // ---------- which names a shape uses ----------

  lemma RecordKids(path: seq<string>, v: Value, allow: bool)
    requires Wf(path, v) && Record(v)
    ensures Shape(path, v, false) == Pack(Kids(Shape(path, v, false)))
    ensures Kids(Shape(path, v, false)).Keys <= RecordNames(v)
    decreases v, 2
  {
    match v
    case Struct(fs) => FieldsKidsNames(path, fs);
    case Ptr(t) => if t.Some? { RecordKids(path, t.value, false); }
  }

  lemma FieldKidsNames(path: seq<string>, f: Field)
    requires WfField(path, f)
    ensures FieldKids(path, f).Keys <= NamesOf(f)
    decreases f, 1
  {
    if Walked(f) && Embedded(f) {
      RecordKids(path, f.value, false);
    }
  }

  lemma {:induction false} FieldsKidsNames(path: seq<string>, fs: seq<Field>)
    requires WfFields(path, fs)
    ensures FieldsKids(path, fs).Keys <= FieldNames(fs)
    decreases fs, 0
  {
    if fs != [] {
      FieldsKidsNames(path, fs[..|fs| - 1]);
      FieldKidsNames(path, fs[|fs| - 1]);
    }
  }

  /** Membership in MapKids, by the unstripped key it comes from. */
  lemma MapKidsAt(path: seq<string>, v: Value, ks: set<string>, s: string)
    requires v.Map? && Wf(path, v) && ks <= v.entries.Keys
    ensures s in MapKids(path, v, ks) <==> exists k ::
      k in ks && MapKey(path, k) == s && Shape(path + [MapKey(path, k)], v.entries[k], false).Some?
    ensures forall k :: k in ks && MapKey(path, k) == s && s in MapKids(path, v, ks)
              ==> Shape(path + [MapKey(path, k)], v.entries[k], false) == Some(MapKids(path, v, ks)[s])
  {
  }

  lemma MapKidsAdd(path: seq<string>, v: Value, ks: set<string>, k: string)
    requires v.Map? && Wf(path, v) && ks <= v.entries.Keys && k in v.entries && k !in ks
    ensures var one := One(MapKey(path, k), Shape(path + [MapKey(path, k)], v.entries[k], false));
            MapKids(path, v, ks + {k}) == MapKids(path, v, ks) + one && MapKids(path, v, ks).Keys !! one.Keys
  {
    hide MapKids, Shape;
    assert forall l :: l in ks && MapKey(path, l) == MapKey(path, k) ==> l == k;
    var one := One(MapKey(path, k), Shape(path + [MapKey(path, k)], v.entries[k], false));
    var a, b := MapKids(path, v, ks), MapKids(path, v, ks + {k});
    forall s
      ensures s in b <==> s in a || s in one
      ensures s in a ==> s !in one && b[s] == a[s]
      ensures s in one ==> b[s] == one[s]
    {
      MapKidsAt(path, v, ks, s);
      MapKidsAt(path, v, ks + {k}, s);
    }
    assert b.Keys == (a + one).Keys;
  }

  lemma {:induction false} SliceKidsNames(path: seq<string>, items: seq<Value>, n: nat, name: string)
    requires n <= |items|
    requires forall i :: 0 <= i < |items| ==> Wf(path + [Dec(i)], items[i])
    ensures name in SliceKids(path, items, n) ==> exists i :: 0 <= i < n && name == Dec(i)
  {
    if n > 0 {
      SliceKidsNames(path, items, n - 1, name);
    }
  }

  lemma SliceKidsFresh(path: seq<string>, items: seq<Value>, n: nat)
    requires n < |items|
    requires forall i :: 0 <= i < |items| ==> Wf(path + [Dec(i)], items[i])
    ensures Dec(n) !in SliceKids(path, items, n)
  {
    SliceKidsNames(path, items, n, Dec(n));
    if Dec(n) in SliceKids(path, items, n) {
      var i :| 0 <= i < n && Dec(n) == Dec(i);
      DecInjective(n, i);
    }
  }

  /** A child of a node by name. */
  function At(kids: map<string, Trie>, name: string): Option<Trie>
  {
    if name in kids then Some(kids[name]) else None
  }

  lemma {:induction false} SliceKidsAt(path: seq<string>, items: seq<Value>, n: nat, i: nat)
    requires i < n <= |items|
    requires forall j :: 0 <= j < |items| ==> Wf(path + [Dec(j)], items[j])
    ensures At(SliceKids(path, items, n), Dec(i)) == Shape(path + [Dec(i)], items[i], false)
  {
    hide Shape, Dec;
    if i < n - 1 {
      SliceKidsAt(path, items, n - 1, i);
      if Dec(i) == Dec(n - 1) { DecInjective(i, n - 1); }
    } else {
      SliceKidsFresh(path, items, n - 1);
    }
  }

  // ---------- one step of the walk ----------

  lemma KeyedHere(base: seq<string>, text: string, m: PathMap, key: string)
    requires |base| > 0 && AllPlain(base) && m == map[[] := text]
    ensures key in Keyed(base, m) <==> key == Join(base) && !Ignored(key)
    ensures key in Keyed(base, m) ==> Keyed(base, m)[key] == text
  {
    hide Keyed, Join, Split, AllPlain;
    KeyedAt(base, m, key);
    SplitJoin(base);
    JoinSplit(key);
    var segs := Split(key);
    if base <= segs && segs[|base|..] in m {
      assert segs == base + segs[|base|..] == base;
    }
    if key == Join(base) {
      assert segs == base && segs[|base|..] == [];
    }
  }

  lemma EmittedTip(base: seq<string>, text: string)
    requires |base| > 0 && AllPlain(base)
    ensures Emitted(base, Some(Tip(text))) == if Ignored(Join(base)) then map[] else map[Join(base) := text]
  {
    hide Keyed;
    var m: PathMap := map[[] := text];
    forall key { KeyedHere(base, text, m, key); }
    assert Keyed(base, m).Keys == if Ignored(Join(base)) then {} else {Join(base)};
  }

  lemma EmittedNothing(base: seq<string>)
    requires |base| > 0
    ensures Emitted(base, None) == map[] && EmittedKids(base, map[]) == map[]
  {
    EmittedPack(base, map[]);
  }

  lemma {:induction false} WfPrefix(base: seq<string>, fs: seq<Field>, n: nat)
    requires n <= |fs| && WfFields(base, fs)
    ensures WfFields(base, fs[..n])
    ensures n < |fs| ==> WfField(base, fs[n]) && FieldNames(fs[..n]) !! NamesOf(fs[n])
    decreases |fs|
  {
    if n == |fs| {
      assert fs[..n] == fs;
    } else if n < |fs| - 1 {
      WfPrefix(base, fs[..|fs| - 1], n);
      assert fs[..|fs| - 1][..n] == fs[..n];
    }
  }

  lemma UnionEmpty(a: map<string, Trie>, b: map<string, Trie>)
    ensures a + b == map[] <==> a == map[] && b == map[]
  {
    assert (a + b).Keys == a.Keys + b.Keys;
    if a + b == map[] {
      assert a.Keys == {} && b.Keys == {};
    }
  }

  lemma UnionAssoc(a: map<string, string>, b: map<string, string>, c: map<string, string>)
    ensures (a + b) + c == a + (b + c)
    ensures a + map[] == a
  {
  }

  /** One more child: the keys it adds, and whether anything has been added. */
  lemma Grow(base: seq<string>, kids: map<string, Trie>, name: string, t: Option<Trie>, kids': map<string, Trie>)
    requires |base| > 0 && kids' == kids + One(name, t) && kids.Keys !! One(name, t).Keys
    ensures EmittedKids(base, kids') == EmittedKids(base, kids) + Emitted(base + [name], t)
    ensures kids' != map[] <==> kids != map[] || t.Some?
  {
    hide EmittedKids, Emitted;
    EmittedOne(base, name, t);
    EmittedUnion(base, kids, One(name, t));
    UnionEmpty(kids, One(name, t));
    assert t.Some? ==> name in One(name, t);
  }

  /** Where the walk of a field goes, and what the field adds. */
  function Goal(base: seq<string>, f: Field): seq<string>
    requires Visible(f)
  {
    if Embedded(f) then base else base + [JsonFieldName(f).name]
  }

  ghost function FieldShape(base: seq<string>, f: Field): Option<Trie>
    requires WfField(base, f)
  {
    if !Walked(f) then None
    else Shape(Goal(base, f), f.value, !Embedded(f) && f.allowEmpty)
  }

  lemma FieldEmits(base: seq<string>, f: Field)
    requires |base| > 0 && WfField(base, f)
    ensures EmittedKids(base, FieldKids(base, f))
            == if Visible(f) then Emitted(Goal(base, f), FieldShape(base, f)) else map[]
    ensures FieldKids(base, f) != map[] <==> FieldShape(base, f).Some?
  {
    hide EmittedKids, Emitted;
    EmittedNothing(base);
    if Walked(f) {
      if Embedded(f) {
        RecordKids(base, f.value, false);
        EmittedPack(base, FieldKids(base, f));
      } else {
        EmittedOne(base, JsonFieldName(f).name, FieldShape(base, f));
        assert FieldShape(base, f).Some? ==> JsonFieldName(f).name in FieldKids(base, f);
      }
    } else if Visible(f) {
      EmittedNothing(Goal(base, f));
    }
  }

  lemma FieldsStep(base: seq<string>, fs: seq<Field>, i: nat)
    requires |base| > 0 && i < |fs| && WfFields(base, fs)
    ensures WfFields(base, fs[..i]) && WfFields(base, fs[..i + 1]) && WfField(base, fs[i])
    ensures EmittedKids(base, FieldsKids(base, fs[..i + 1])) == EmittedKids(base, FieldsKids(base, fs[..i])) +
              if Visible(fs[i]) then Emitted(Goal(base, fs[i]), FieldShape(base, fs[i])) else map[]
    ensures FieldsKids(base, fs[..i + 1]) != map[]
            <==> FieldsKids(base, fs[..i]) != map[] || FieldShape(base, fs[i]).Some?
  {
    hide EmittedKids, Emitted, FieldShape, FieldKids;
    WfPrefix(base, fs, i);
    WfPrefix(base, fs, i + 1);
    assert fs[..i + 1][..i] == fs[..i];
    var a, b := FieldsKids(base, fs[..i]), FieldKids(base, fs[i]);
    FieldsKidsNames(base, fs[..i]);
    FieldKidsNames(base, fs[i]);
    EmittedUnion(base, a, b);
    UnionEmpty(a, b);
    FieldEmits(base, fs[i]);
  }

  lemma PackShape(base: seq<string>, v: Value, allow: bool)
    requires Wf(base, v)
    ensures v.Struct? ==> Shape(base, v, allow) == Pack(FieldsKids(base, v.fields))
    ensures v.Map? ==> Shape(base, v, allow) == Pack(MapKids(base, v, v.entries.Keys))
    ensures v.Slice? ==> Shape(base, v, allow) == Pack(SliceKids(base, v.items, |v.items|))
  {
  }

  lemma NoChildren(base: seq<string>, v: Value)
    requires |base| > 0 && Wf(base, v)
    ensures v.Struct? ==>
      WfFields(base, v.fields) && WfFields(base, v.fields[..0]) && FieldsKids(base, v.fields[..0]) == map[]
    ensures v.Map? ==> MapKids(base, v, {}) == map[]
    ensures v.Slice? ==> SliceKids(base, v.items, 0) == map[]
    ensures (v.Map? && v.entries == map[]) || (v.Slice? && v.items == []) || (v.Struct? && v.fields == []) ==>
      Shape(base, v, false) == None
  {
  }

  lemma MapStep(base: seq<string>, v: Value, done: set<string>, k: string)
    requires |base| > 0 && v.Map? && Wf(base, v) && done <= v.entries.Keys && k in v.entries && k !in done
    ensures var key := MapKey(base, k); var t := Shape(base + [key], v.entries[k], false);
            && EmittedKids(base, MapKids(base, v, done + {k}))
               == EmittedKids(base, MapKids(base, v, done)) + Emitted(base + [key], t)
            && (MapKids(base, v, done + {k}) != map[] <==> MapKids(base, v, done) != map[] || t.Some?)
  {
    hide EmittedKids, Emitted, Shape;
    var key := MapKey(base, k);
    MapKidsAdd(base, v, done, k);
    Grow(base, MapKids(base, v, done), key, Shape(base + [key], v.entries[k], false), MapKids(base, v, done + {k}));
  }

  lemma SliceStep(base: seq<string>, items: seq<Value>, i: nat)
    requires |base| > 0 && i < |items|
    requires forall j :: 0 <= j < |items| ==> Wf(base + [Dec(j)], items[j])
    ensures var t := Shape(base + [Dec(i)], items[i], false);
            && EmittedKids(base, SliceKids(base, items, i + 1))
               == EmittedKids(base, SliceKids(base, items, i)) + Emitted(base + [Dec(i)], t)
            && (SliceKids(base, items, i + 1) != map[] <==> SliceKids(base, items, i) != map[] || t.Some?)
  {
    hide EmittedKids, Emitted, Shape;
    SliceKidsFresh(base, items, i);
    Grow(base, SliceKids(base, items, i), Dec(i), Shape(base + [Dec(i)], items[i], false),
         SliceKids(base, items, i + 1));
  }
}
