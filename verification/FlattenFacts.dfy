/** Global facts about flattened keys: no key is an ancestor of another, and no key is ever overwritten. */
module FlattenFacts {
  import opened Paths
  import opened Values
  import opened Flatten

  // ---------- prefix freedom ----------

  lemma {:induction false} FlatPrefixFree(t: Trie, p: seq<string>, q: seq<string>)
    requires p in Flat(t) && q in Flat(t) && p <= q
    ensures p == q
    decreases t
  {
    match t
    case Tip(_) =>
    case Node(kids) =>
      FlatNode(kids, p);
      FlatNode(kids, q);
      assert p[0] == q[0] && p[1..] <= q[1..];
      FlatPrefixFree(kids[p[0]], p[1..], q[1..]);
      assert p == [p[0]] + p[1..] && q == [q[0]] + q[1..];
  }

  /** No emitted key is a '/'-ancestor of another one. */
  lemma KeysPrefixFree(base: seq<string>, v: Value, allow: bool, s: string, t: string)
    requires |base| > 0 && Wf(base, v)
    requires s in Emitted(base, Shape(base, v, allow)) && t in Emitted(base, Shape(base, v, allow))
    ensures !(s + "/" <= t)
  {
    hide Keyed, Flat, Shape;
    var m := Flat(Shape(base, v, allow).value);
    KeyedAt(base, m, s);
    KeyedAt(base, m, t);
    if s + "/" <= t {
      SplitPlain(s);
      JoinSplit(s);
      GlobImpliesBelow(Split(s), t);
      var p, q := Split(s)[|base|..], Split(t)[|base|..];
      assert p <= q;
      FlatPrefixFree(Shape(base, v, allow).value, p, q);
    }
  }

  // ---------- nothing is overwritten ----------

  ghost function Pick(ks: set<string>): (k: string)
    requires ks != {}
    ensures k in ks
  {
    var k :| k in ks; k
  }

  function OneIf(b: bool): nat
  {
    if b then 1 else 0
  }

  /** The number of leaf positions the walk emits at, outside traefik/tls/, counted on the tree itself. */
  ghost function Count(path: seq<string>, v: Value, allow: bool): nat
    requires |path| > 0 && Wf(path, v)
    decreases v, 2
  {
    match v
    case Leaf(text, _, _) => OneIf(text.Some? && text.value != "" && !Ignored(Join(path)))
    case Ptr(t) =>
      if t.None? then 0
      else if Shape(path, t.value, false).None? && allow && StructKind(t.value) then OneIf(!Ignored(Join(path)))
      else Count(path, t.value, false)
    case Iface(t) => if t.None? then 0 else Count(path, t.value, allow)
    case Struct(fs) => CountFields(path, fs)
    case Map(_, es) => CountEntries(path, v, es.Keys)
    case Slice(items) => CountItems(path, items, |items|)
    case Other => 0
  }

  ghost function CountField(path: seq<string>, f: Field): nat
    requires |path| > 0 && WfField(path, f)
    decreases f, 1
  {
    if !Walked(f) then 0
    else if Embedded(f) then Count(path, f.value, false)
    else Count(path + [JsonFieldName(f).name], f.value, f.allowEmpty)
  }

  ghost function CountFields(path: seq<string>, fs: seq<Field>): nat
    requires |path| > 0 && WfFields(path, fs)
    decreases fs, 0
  {
    if fs == [] then 0 else CountFields(path, fs[..|fs| - 1]) + CountField(path, fs[|fs| - 1])
  }

  ghost function CountEntries(path: seq<string>, v: Value, ks: set<string>): nat
    requires |path| > 0 && v.Map? && Wf(path, v) && ks <= v.entries.Keys
    decreases v, 1, ks
  {
    if ks == {} then 0
    else
      var k := Pick(ks);
      CountEntries(path, v, ks - {k}) + Count(path + [MapKey(path, k)], v.entries[k], false)
  }

  ghost function CountItems(path: seq<string>, items: seq<Value>, n: nat): nat
    requires |path| > 0 && n <= |items|
    requires forall i :: 0 <= i < |items| ==> Wf(path + [Dec(i)], items[i])
    decreases items, 1, n
  {
    if n == 0 then 0 else CountItems(path, items, n - 1) + Count(path + [Dec(n - 1)], items[n - 1], false)
  }

  lemma UnionSize(base: seq<string>, a: map<string, Trie>, b: map<string, Trie>)
    requires |base| > 0 && a.Keys !! b.Keys
    ensures |EmittedKids(base, a + b)| == |EmittedKids(base, a)| + |EmittedKids(base, b)|
  {
    hide Keyed, Flat;
    EmittedUnion(base, a, b);
    FlatUnion(a, b);
    var ka, kb := EmittedKids(base, a), EmittedKids(base, b);
    forall s ensures !(s in ka && s in kb) {
      KeyedAt(base, Flat(Node(a)), s);
      KeyedAt(base, Flat(Node(b)), s);
    }
    assert (ka + kb).Keys == ka.Keys + kb.Keys;
    assert |(ka + kb).Keys| == |ka.Keys| + |kb.Keys|;
  }

  lemma OneSize(base: seq<string>, kids: map<string, Trie>, name: string, t: Option<Trie>)
    requires |base| > 0 && kids.Keys !! One(name, t).Keys
    ensures |EmittedKids(base, kids + One(name, t))| == |EmittedKids(base, kids)| + |Emitted(base + [name], t)|
  {
    hide EmittedKids, Emitted;
    UnionSize(base, kids, One(name, t));
    EmittedOne(base, name, t);
  }

  /** The map has exactly one key per emitted leaf position. */
  lemma {:induction false} NothingOverwritten(path: seq<string>, v: Value, allow: bool)
    requires |path| > 0 && AllPlain(path) && Wf(path, v)
    ensures |Emitted(path, Shape(path, v, allow))| == Count(path, v, allow)
    decreases v, 2
  {
    hide Emitted, EmittedKids;
    EmittedNothing(path);
    match v
    case Leaf(text, _, _) => if text.Some? { EmittedTip(path, text.value); }
    case Ptr(t) =>
      EmittedTip(path, "true");
      if t.Some? { NothingOverwritten(path, t.value, false); }
    case Iface(t) => if t.Some? { NothingOverwritten(path, t.value, allow); }
    case Struct(fs) =>
      EmittedPack(path, FieldsKids(path, fs));
      CountFieldsIs(path, fs);
    case Map(_, es) =>
      EmittedPack(path, MapKids(path, v, es.Keys));
      CountEntriesIs(path, v, es.Keys);
    case Slice(items) =>
      EmittedPack(path, SliceKids(path, items, |items|));
      CountItemsIs(path, items, |items|);
    case Other =>
  }

  lemma {:induction false} CountFieldsIs(path: seq<string>, fs: seq<Field>)
    requires |path| > 0 && AllPlain(path) && WfFields(path, fs)
    ensures |EmittedKids(path, FieldsKids(path, fs))| == CountFields(path, fs)
    decreases fs, 0
  {
    hide Emitted, EmittedKids;
    EmittedNothing(path);
    if fs != [] {
      var n := |fs| - 1;
      CountFieldsIs(path, fs[..n]);
      FieldEmits(path, fs[n]);
      FieldsKidsNames(path, fs[..n]);
      FieldKidsNames(path, fs[n]);
      UnionSize(path, FieldsKids(path, fs[..n]), FieldKids(path, fs[n]));
      if Walked(fs[n]) {
        NothingOverwritten(Goal(path, fs[n]), fs[n].value, !Embedded(fs[n]) && fs[n].allowEmpty);
      } else if Visible(fs[n]) {
        EmittedNothing(Goal(path, fs[n]));
      }
    }
  }

  lemma EntrySize(path: seq<string>, v: Value, ks: set<string>, k: string)
    requires |path| > 0 && v.Map? && Wf(path, v) && ks <= v.entries.Keys && k in ks
    ensures |EmittedKids(path, MapKids(path, v, ks))| == |EmittedKids(path, MapKids(path, v, ks - {k}))|
              + |Emitted(path + [MapKey(path, k)], Shape(path + [MapKey(path, k)], v.entries[k], false))|
  {
    hide EmittedKids, Emitted, Shape, MapKids;
    MapKidsAdd(path, v, ks - {k}, k);
    assert ks - {k} + {k} == ks;
    OneSize(path, MapKids(path, v, ks - {k}), MapKey(path, k), Shape(path + [MapKey(path, k)], v.entries[k], false));
  }

  lemma {:induction false} CountEntriesIs(path: seq<string>, v: Value, ks: set<string>)
    requires |path| > 0 && AllPlain(path) && v.Map? && Wf(path, v) && ks <= v.entries.Keys
    ensures |EmittedKids(path, MapKids(path, v, ks))| == CountEntries(path, v, ks)
    decreases v, 1, ks
  {
    hide Emitted, EmittedKids, Shape;
    EmittedNothing(path);
    if ks == {} {
      NoChildren(path, v);
    } else {
      var k := Pick(ks);
      CountEntriesIs(path, v, ks - {k});
      NothingOverwritten(path + [MapKey(path, k)], v.entries[k], false);
      EntrySize(path, v, ks, k);
    }
  }

  lemma {:induction false} CountItemsIs(path: seq<string>, items: seq<Value>, n: nat)
    requires |path| > 0 && AllPlain(path) && n <= |items|
    requires forall i :: 0 <= i < |items| ==> Wf(path + [Dec(i)], items[i])
    ensures |EmittedKids(path, SliceKids(path, items, n))| == CountItems(path, items, n)
    decreases items, 1, n
  {
    hide Emitted, EmittedKids;
    EmittedNothing(path);
    if n > 0 {
      CountItemsIs(path, items, n - 1);
      DecPlain(n - 1);
      NothingOverwritten(path + [Dec(n - 1)], items[n - 1], false);
      SliceKidsFresh(path, items, n - 1);
      OneSize(path, SliceKids(path, items, n - 1), Dec(n - 1), Shape(path + [Dec(n - 1)], items[n - 1], false));
    }
  }
}
