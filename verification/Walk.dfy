/** The reflection walk of kv.go: recursive methods that add to a mutable map in place,
    proved to add exactly the keys of the pruned shape, whatever the map iteration order. */
module Walk {
  import opened Paths
  import opened Values
  import opened Flatten

  lemma FailsStruct(v: Value)
    requires v.Struct?
    ensures Fails(v) <==> exists i :: 0 <= i < |v.fields| && Walked(v.fields[i]) && Fails(v.fields[i].value)
  {
  }

  lemma FailsMap(v: Value)
    requires v.Map?
    ensures v.entries != map[] && !v.stringKeys ==> Fails(v)
    ensures v.stringKeys ==> (Fails(v) <==> exists k :: k in v.entries && Fails(v.entries[k]))
    ensures v.entries == map[] ==> !Fails(v)
  {
    if k :| k in v.entries && Fails(v.entries[k]) {
      assert v.entries.Keys != {};
    }
  }

  lemma FailsSlice(v: Value)
    requires v.Slice?
    ensures Fails(v) <==> exists i :: 0 <= i < |v.items| && Fails(v.items[i])
  {
  }

  lemma WfMap(base: seq<string>, v: Value)
    requires v.Map? && Wf(base, v)
    ensures forall k :: k in v.entries ==> Plain(MapKey(base, k)) && Wf(base + [MapKey(base, k)], v.entries[k])
  {
  }

  lemma WfSlice(base: seq<string>, v: Value)
    requires v.Slice? && Wf(base, v)
    ensures forall i :: 0 <= i < |v.items| ==> Wf(base + [Dec(i)], v.items[i])
  {
  }

  class KV {
    var data: map<string, string>

    constructor ()
      ensures data == map[]
    {
      data := map[];
    }

    method Add(val: string, path: string)
      modifies this
      ensures data == if val == "" || Ignored(path) then old(data) else old(data)[path := val]
    {
      if val == "" {
        return;
      }
      if TLS <= path {
        return;
      }
      data := data[path := val];
    }

    method WalkTypedValue(path: string, value: Value, allowEmpty: bool) returns (added: bool, ok: bool)
      requires Wf(Split(path), value)
      modifies this
      ensures ok == !Fails(value)
      ensures ok ==> added == Shape(Split(path), value, allowEmpty).Some?
      ensures ok ==> data == old(data) + Emitted(Split(path), Shape(Split(path), value, allowEmpty))
      decreases value, 2
    {
      hide Emitted, EmittedKids, Keyed, Flat;
      ghost var base := Split(path);
      EmittedNothing(base);
      var v := value;
      while v.Iface?
        invariant v == value || v < value
        invariant Wf(base, v) && Fails(v) == Fails(value)
        invariant Shape(base, v, allowEmpty) == Shape(base, value, allowEmpty)
        invariant data == old(data)
        decreases v
      {
        if v.held.None? {
          return false, true;
        }
        v := v.held.value;
      }
      SplitPlain(path);
      JoinSplit(path);
      match v {
        case Ptr(target) =>
          if target.None? {
            return false, true;
          }
          added, ok := WalkTypedValue(path, target.value, false);
          if !ok {
            return false, false;
          }
          if !added && allowEmpty && StructKind(target.value) {
            EmittedTip(base, "true");
            Add("true", path);
            return true, true;
          }
        case Leaf(text, _, _) =>
          if text.None? {
            return false, false;
          }
          if text.value != "" {
            EmittedTip(base, text.value);
            Add(text.value, path);
            return true, true;
          }
          return false, true;
        case Struct(fields) =>
          added, ok := WalkStructValue(path, v);
        case Map(_, _) =>
          added, ok := WalkMapValue(path, v);
        case Slice(_) =>
          added, ok := WalkSliceValue(path, v);
        case Other =>
          return false, true;
      }
    }

    method WalkStructValue(path: string, v: Value) returns (addedAny: bool, ok: bool)
      requires v.Struct? && Wf(Split(path), v)
      modifies this
      ensures ok == !Fails(v)
      ensures ok ==> addedAny == Shape(Split(path), v, false).Some?
      ensures ok ==> data == old(data) + Emitted(Split(path), Shape(Split(path), v, false))
      decreases v, 1
    {
      hide Emitted, EmittedKids, FieldKids, FieldsKids, Split, Shape, Fails, FieldNames, WfFields, JsonFieldName,
        IsEmptyJSONValue, Wf;
      FailsStruct(v);
      NoChildren(Split(path), v);
      addedAny := false;
      ghost var base := Split(path);
      var fs := v.fields;
      EmittedNothing(base);
      for i := 0 to |fs|
        invariant WfFields(base, fs[..i])
        invariant forall j :: 0 <= j < i && Walked(fs[j]) ==> !Fails(fs[j].value)
        invariant addedAny == (FieldsKids(base, fs[..i]) != map[])
        invariant data == old(data) + EmittedKids(base, FieldsKids(base, fs[..i]))
      {
        var field := fs[i];
        FieldsStep(base, fs, i);
        UnionAssoc(old(data), EmittedKids(base, FieldsKids(base, fs[..i])),
          if Visible(field) then Emitted(Goal(base, field), FieldShape(base, field)) else map[]);
        if !field.exported {
          continue;
        }
        var jn := JsonFieldName(field);
        if jn.Skip? {
          continue;
        }
        if jn.omitEmpty && IsEmptyJSONValue(field.value) {
          EmittedNothing(Goal(base, field));
          continue;
        }
        var added;
        if field.anonymous && jn.name == field.goName {
          added, ok := WalkTypedValue(path, field.value, false);
        } else {
          SplitSegment(path, jn.name);
          added, ok := WalkTypedValue(path + "/" + jn.name, field.value, field.allowEmpty);
        }
        if !ok {
          return false, false;
        }
        addedAny := addedAny || added;
      }
      assert fs[..|fs|] == fs;
      PackShape(base, v, false);
      EmittedPack(base, FieldsKids(base, fs));
      return addedAny, true;
    }

    /** Go leaves the iteration order open: any remaining key may come next. */
    method WalkMapValue(path: string, v: Value) returns (addedAny: bool, ok: bool)
      requires v.Map? && Wf(Split(path), v)
      modifies this
      ensures ok == !Fails(v)
      ensures ok ==> addedAny == Shape(Split(path), v, false).Some?
      ensures ok ==> data == old(data) + Emitted(Split(path), Shape(Split(path), v, false))
      decreases v, 1
    {
      hide Emitted, EmittedKids, MapKids, Split, Shape, Fails, Wf, MapKey, Plain;
      WfMap(Split(path), v);
      ghost var base := Split(path);
      EmittedNothing(base);
      NoChildren(base, v);
      FailsMap(v);
      if |v.entries| == 0 {
        assert v.entries == map[];
        return false, true;
      }
      if !v.stringKeys {
        return false, false;
      }
      addedAny := false;
      var todo := v.entries.Keys;
      ghost var done: set<string> := {};
      while todo != {}
        invariant todo <= v.entries.Keys && done == v.entries.Keys - todo
        invariant forall k :: k in done ==> !Fails(v.entries[k])
        invariant addedAny == (MapKids(base, v, done) != map[])
        invariant data == old(data) + EmittedKids(base, MapKids(base, v, done))
        decreases todo
      {
        var k :| k in todo;
        todo := todo - {k};
        var key := MapKey(Split(path), k);
        SplitSegment(path, key);
        var added;
        added, ok := WalkTypedValue(path + "/" + key, v.entries[k], false);
        if !ok {
          return false, false;
        }
        MapStep(base, v, done, k);
        UnionAssoc(old(data), EmittedKids(base, MapKids(base, v, done)),
                   Emitted(base + [key], Shape(base + [key], v.entries[k], false)));
        assert v.entries.Keys - todo == done + {k};
        done := done + {k};
        addedAny := addedAny || added;
      }
      assert done == v.entries.Keys;
      PackShape(base, v, false);
      EmittedPack(base, MapKids(base, v, v.entries.Keys));
      return addedAny, true;
    }

    method WalkSliceValue(path: string, v: Value) returns (addedAny: bool, ok: bool)
      requires v.Slice? && Wf(Split(path), v)
      modifies this
      ensures ok == !Fails(v)
      ensures ok ==> addedAny == Shape(Split(path), v, false).Some?
      ensures ok ==> data == old(data) + Emitted(Split(path), Shape(Split(path), v, false))
      decreases v, 1
    {
      hide Emitted, EmittedKids, SliceKids, Split, Shape, Fails, Dec, Wf;
      WfSlice(Split(path), v);
      ghost var base := Split(path);
      EmittedNothing(base);
      NoChildren(base, v);
      FailsSlice(v);
      if |v.items| == 0 {
        return false, true;
      }
      addedAny := false;
      for i := 0 to |v.items|
        invariant forall j :: 0 <= j < i ==> !Fails(v.items[j])
        invariant addedAny == (SliceKids(base, v.items, i) != map[])
        invariant data == old(data) + EmittedKids(base, SliceKids(base, v.items, i))
      {
        DecPlain(i);
        SplitSegment(path, Dec(i));
        var added;
        added, ok := WalkTypedValue(path + "/" + Dec(i), v.items[i], false);
        if !ok {
          return false, false;
        }
        SliceStep(base, v.items, i);
        UnionAssoc(old(data), EmittedKids(base, SliceKids(base, v.items, i)),
                   Emitted(base + [Dec(i)], Shape(base + [Dec(i)], v.items[i], false)));
        addedAny := addedAny || added;
      }
      PackShape(base, v, false);
      EmittedPack(base, SliceKids(base, v.items, |v.items|));
      return addedAny, true;
    }
  }
}
