/** The JSON round trip: dumping a well-formed value tree to JSON and importing
    the JSON against the tree's template writes the tree's serialized form,
    `BinaryLayout.Encode`. */
module JsonRoundTrip {
  import opened Wrappers
  import opened AssetsTypes
  import opened JsonTree
  import opened AssetTypeHelper
  import opened ExportCodec
  import opened ImportCodec
  import opened BinaryLayout

  /** A value tree that agrees with its template: arrays have their size and
      element templates and elements of the element template; structs have
      one child per template child; scalars hold a value of the template's
      kind within its range; registries have a supported version and objects
      whose data the resolver's template describes. */
  predicate WellFormed(f: ValueField, resolve: Resolver)
    decreases f, 2
  {
    var t := f.template;
    if t.isArray then
      |t.children| == 2 && !t.children[0].isArray &&
      if t.valueType == ByteArray then f.value.Some? && f.value.value.VByteArray?
      else
        t.valueType == Array &&
        forall i | 0 <= i < |f.children| :: f.children[i].template == t.children[1] && WellFormed(f.children[i], resolve)
    else if f.value.None? then
      !t.HasValue() && |f.children| == |t.children| &&
      forall i | 0 <= i < |f.children| :: f.children[i].template == t.children[i] && WellFormed(f.children[i], resolve)
    else
      var v := f.value.value;
      t.valueType == v.ValueType() &&
      match v
      case VRegistry(reg) =>
        IsValidManagedReferencesVersion(reg.version) &&
        forall i | 0 <= i < |reg.references| :: RefWellFormed(f, i, resolve)
      case VInt(it, i) => InRange(it, i)
      case VArray(_) => false
      case VByteArray(_) => false
      case _ => true
  }

  /** Object `i` of a registry: a version-2 rid fits 64 bits, and an object
      with a type has struct data whose template the resolver returns. */
  predicate RefWellFormed(f: ValueField, i: nat, resolve: Resolver)
    requires HasRegistry(f) && i < |RegistryOf(f).references|
    decreases f, 1
  {
    var reg := RegistryOf(f);
    var r := reg.references[i];
    (reg.version != 1 ==> InRange(I64, r.rid)) &&
    (r.typeRef != Terminus ==>
      IsStruct(r.data.template) && r.data.value.None? &&
      resolve(r.typeRef) == Some(r.data.template) && WellFormed(r.data, resolve))
  }

  /** A well-formed array's elements are well-formed and of its element template. */
  lemma ElementWellFormed(f: ValueField, i: nat, resolve: Resolver)
    requires WellFormed(f, resolve) && f.template.isArray && f.template.valueType != ByteArray
    requires i < |f.children|
    ensures WellFormed(f.children[i], resolve) && f.children[i].template == f.template.children[1]
  {
  }

  /** A well-formed struct's fields are well-formed and of its child templates. */
  lemma FieldWellFormed(f: ValueField, i: nat, resolve: Resolver)
    requires WellFormed(f, resolve) && !f.template.isArray && f.value.None?
    requires i < |f.children|
    ensures WellFormed(f.children[i], resolve) && f.children[i].template == f.template.children[i]
  {
  }

  // ---------------------------------------------------------------------------
  // The shape of the JSON dump

  /** The dumped elements of an array, in order. */
  lemma {:induction false} DumpItemsShape(f: ValueField, i: nat, acc: seq<Json>)
    requires i <= |f.children| && JsonDumpItems(f, i, acc).Ok?
    ensures var r := JsonDumpItems(f, i, acc).value;
      |r| == |acc| + |f.children| - i && r[..|acc|] == acc &&
      forall k :: i <= k < |f.children| ==> JsonDump(f.children[k]).Ok? && r[|acc| + k - i] == JsonDump(f.children[k]).value
    decreases |f.children| - i, 1
  {
    if i < |f.children| {
      DumpItemsFrom(f, i, acc);
    }
  }

  /** DumpItemsShape before the last element: one element, then the rest. */
  lemma {:induction false} DumpItemsFrom(f: ValueField, i: nat, acc: seq<Json>)
    requires i < |f.children| && JsonDumpItems(f, i, acc).Ok?
    ensures var r := JsonDumpItems(f, i, acc).value;
      |r| == |acc| + |f.children| - i && r[..|acc|] == acc &&
      forall k :: i <= k < |f.children| ==> JsonDump(f.children[k]).Ok? && r[|acc| + k - i] == JsonDump(f.children[k]).value
    decreases |f.children| - i, 0
  {
    var j := JsonDump(f.children[i]).value;
    DumpItemsShape(f, i + 1, acc + [j]);
    var r := JsonDumpItems(f, i, acc).value;
    assert r[..|acc| + 1] == acc + [j];
    assert r[..|acc|] == r[..|acc| + 1][..|acc|];
    assert r[|acc|] == r[..|acc| + 1][|acc|];
  }

  /** The whole dumped element list of an array. */
  lemma DumpItemsAll(f: ValueField)
    requires JsonDumpItems(f, 0, []).Ok?
    ensures var r := JsonDumpItems(f, 0, []).value;
      |r| == |f.children| &&
      forall k :: 0 <= k < |r| ==> JsonDump(f.children[k]).Ok? && r[k] == JsonDump(f.children[k]).value
  {
    var none: seq<Json> := [];
    DumpItemsShape(f, 0, none);
    var r := JsonDumpItems(f, 0, none).value;
    assert |r| == |f.children|;
    forall k | 0 <= k < |r|
      ensures JsonDump(f.children[k]).Ok? && r[k] == JsonDump(f.children[k]).value
    {
      assert 0 <= k < |f.children| && |none| + k - 0 == k;
      assert JsonDump(f.children[k]).Ok? && r[|none| + k - 0] == JsonDump(f.children[k]).value;
    }
  }

  /** Keys that occur once each. */
  predicate DistinctKeys(props: seq<Prop>)
  {
    forall a, b :: 0 <= a < b < |props| ==> props[a].key != props[b].key
  }

  /** The dumped properties of a struct: one per child, keyed by the child's
      name, in child order, no key twice. */
  lemma {:induction false} DumpPropsShape(f: ValueField, i: nat, acc: seq<Prop>)
    requires i <= |f.children| && JsonDumpProps(f, i, acc).Ok? && DistinctKeys(acc)
    ensures var r := JsonDumpProps(f, i, acc).value;
      |r| == |acc| + |f.children| - i && r[..|acc|] == acc && DistinctKeys(r) &&
      forall k :: i <= k < |f.children| ==>
        JsonDump(f.children[k]).Ok? && r[|acc| + k - i] == Prop(f.children[k].template.name, JsonDump(f.children[k]).value)
    decreases |f.children| - i, 1
  {
    if i < |f.children| {
      DumpPropsFrom(f, i, acc);
    }
  }

  /** DumpPropsShape before the last child: one property, then the rest. */
  lemma {:induction false} DumpPropsFrom(f: ValueField, i: nat, acc: seq<Prop>)
    requires i < |f.children| && JsonDumpProps(f, i, acc).Ok? && DistinctKeys(acc)
    ensures var r := JsonDumpProps(f, i, acc).value;
      |r| == |acc| + |f.children| - i && r[..|acc|] == acc && DistinctKeys(r) &&
      forall k :: i <= k < |f.children| ==>
        JsonDump(f.children[k]).Ok? && r[|acc| + k - i] == Prop(f.children[k].template.name, JsonDump(f.children[k]).value)
    decreases |f.children| - i, 0
  {
    var j := JsonDump(f.children[i]).value;
    var name := f.children[i].template.name;
    var acc1 := acc + [Prop(name, j)];
    AddPropDistinct(acc, name, j);
    DumpPropsShape(f, i + 1, acc1);
    var r := JsonDumpProps(f, i, acc).value;
    assert r[..|acc| + 1] == acc1;
    assert r[..|acc|] == r[..|acc| + 1][..|acc|];
    assert r[|acc|] == r[..|acc| + 1][|acc|];
  }

  /** A property added to keys that occur once each leaves them so. */
  lemma AddPropDistinct(acc: seq<Prop>, name: string, j: Json)
    requires DistinctKeys(acc) && AddProp(acc, name, j).Ok?
    ensures AddProp(acc, name, j) == Ok(acc + [Prop(name, j)]) && DistinctKeys(acc + [Prop(name, j)])
  {
    var acc1 := acc + [Prop(name, j)];
    assert name !in Keys(acc);
    forall a, b | 0 <= a < b < |acc1|
      ensures acc1[a].key != acc1[b].key
    {
      if b == |acc| {
        assert Keys(acc)[a] == acc[a].key;
      }
    }
  }

  /** In an object whose keys occur once each, a key finds its own property. */
  lemma IndexDistinct(props: seq<Prop>, k: nat)
    requires k < |props| && DistinctKeys(props)
    ensures Index(JObject(props), props[k].key) == Found(props[k].val)
  {
    var f := FindKey(props, props[k].key);
    assert f.Some?;
    assert f.value == k;
  }

  /** The dumped objects of a registry, in order. */
  lemma {:induction false} DumpRefsShape(f: ValueField, i: nat, acc: seq<Json>)
    requires HasRegistry(f) && i <= |RegistryOf(f).references| && JsonDumpRefs(f, i, acc).Ok?
    ensures var r := JsonDumpRefs(f, i, acc).value;
      var refs := RegistryOf(f).references;
      |r| == |acc| + |refs| - i && r[..|acc|] == acc &&
      forall k :: i <= k < |refs| ==>
        JsonDumpProps(refs[k].data, 0, []).Ok? &&
        r[|acc| + k - i] == RefObject(RegistryOf(f).version, refs[k].rid, refs[k].typeRef, JsonDumpProps(refs[k].data, 0, []).value)
    decreases |RegistryOf(f).references| - i, 1
  {
    if i < |RegistryOf(f).references| {
      DumpRefsFrom(f, i, acc);
    }
  }

  /** DumpRefsShape before the last registry entry: one object, then the rest. */
  lemma {:induction false} DumpRefsFrom(f: ValueField, i: nat, acc: seq<Json>)
    requires HasRegistry(f) && i < |RegistryOf(f).references| && JsonDumpRefs(f, i, acc).Ok?
    ensures var r := JsonDumpRefs(f, i, acc).value;
      var refs := RegistryOf(f).references;
      |r| == |acc| + |refs| - i && r[..|acc|] == acc &&
      forall k :: i <= k < |refs| ==>
        JsonDumpProps(refs[k].data, 0, []).Ok? &&
        r[|acc| + k - i] == RefObject(RegistryOf(f).version, refs[k].rid, refs[k].typeRef, JsonDumpProps(refs[k].data, 0, []).value)
    decreases |RegistryOf(f).references| - i, 0
  {
    var reg := RegistryOf(f);
    var x := reg.references[i];
    var j := RefObject(reg.version, x.rid, x.typeRef, JsonDumpProps(x.data, 0, []).value);
    DumpRefsShape(f, i + 1, acc + [j]);
    var r := JsonDumpRefs(f, i, acc).value;
    assert r == JsonDumpRefs(f, i + 1, acc + [j]).value;
    assert r[..|acc| + 1] == acc + [j];
    assert r[..|acc|] == r[..|acc| + 1][..|acc|];
    forall k | i <= k < |reg.references|
      ensures r[|acc| + k - i] == RefObject(reg.version, reg.references[k].rid, reg.references[k].typeRef,
                                            JsonDumpProps(reg.references[k].data, 0, []).value)
    {
      if k == i {
        assert r[|acc|] == r[..|acc| + 1][|acc|];
      }
    }
  }

  // ---------------------------------------------------------------------------
  // One step of the importer at a time

  lemma AlignIfAppend(acc: seq<Write>, x: seq<Write>, align: bool)
    ensures AlignIf(acc + x, align) == acc + AlignIf(x, align)
  {
    if align {
      assert acc + x + [WAlign] == acc + (x + [WAlign]);
    }
  }

  /** A token that does not trigger the single-array wrapper shortcut. */
  predicate NoWrapper(t: TemplateField, tok: Json)
  {
    !(|t.children| == 1 && t.children[0].isArray && tok.JArray?)
  }

  lemma StructStep(t: TemplateField, tok: Json, resolve: Resolver, mode: Mode, acc: seq<Write>, out: seq<Write>)
    requires NoWrapper(t, tok) && IsStruct(t)
    requires JsonImportFields(t, tok, 0, resolve, mode, acc) == Ok(out)
    ensures JsonImport(t, tok, resolve, mode, acc) == Ok(AlignIf(out, t.isAligned))
  {
  }

  lemma RegistryStep(t: TemplateField, tok: Json, resolve: Resolver, mode: Mode, acc: seq<Write>)
    requires NoWrapper(t, tok) && t.valueType == ManagedReferencesRegistry
    ensures JsonImport(t, tok, resolve, mode, acc) == JsonImportRegistry(t, tok, resolve, mode, acc)
  {
  }

  lemma ValueStep(t: TemplateField, tok: Json, resolve: Resolver, acc: seq<Write>, out: seq<Write>)
    requires NoWrapper(t, tok) && t.HasValue() && t.valueType != ManagedReferencesRegistry
    requires !t.isArray || t.valueType == ByteArray
    requires JsonImportValue(t, tok, Corrected, acc) == Ok(out)
    ensures JsonImport(t, tok, resolve, Corrected, acc) == Ok(AlignIf(out, t.isAligned || t.valueType == String))
  {
  }

  lemma ArrayStep(t: TemplateField, tok: Json, resolve: Resolver, acc: seq<Write>, out: seq<Write>)
    requires NoWrapper(t, tok) && t.isArray && t.HasValue() && t.valueType != ByteArray
    requires t.valueType != ManagedReferencesRegistry && t.valueType != String
    requires |t.children| >= 2 && tok.JArray?
    requires JsonImportItems(t.children[1], tok, 0, resolve, Corrected, acc + [WInt(I32, |tok.items|)]) == Ok(out)
    ensures JsonImport(t, tok, resolve, Corrected, acc) == Ok(AlignIf(out, t.isAligned))
  {
    assert JsonImportValue(t, tok, Corrected, acc) == Ok(acc);
    assert JsonImportArray(t, tok, resolve, Corrected, acc) == Ok(out);
  }

  lemma ItemsStep(elem: TemplateField, tok: Json, i: nat, resolve: Resolver, acc: seq<Write>, mid: seq<Write>)
    requires tok.JArray? && i < |tok.items|
    requires JsonImport(elem, tok.items[i], resolve, Corrected, acc) == Ok(mid)
    ensures JsonImportItems(elem, tok, i, resolve, Corrected, acc) == JsonImportItems(elem, tok, i + 1, resolve, Corrected, mid)
  {
  }

  lemma FieldsStep(t: TemplateField, tok: Json, i: nat, resolve: Resolver, v: Json, acc: seq<Write>, mid: seq<Write>)
    requires i < |t.children|
    requires Index(tok, t.children[i].name) == Found(v)
    requires JsonImport(t.children[i], v, resolve, Corrected, acc) == Ok(mid)
    ensures JsonImportFields(t, tok, i, resolve, Corrected, acc) == JsonImportFields(t, tok, i + 1, resolve, Corrected, mid)
  {
  }

  lemma RefsStep(t: TemplateField, tok: Json, refIds: Json, version: int, i: nat, resolve: Resolver, acc: seq<Write>,
                 rid: seq<Write>, typeRef: TypeReference, data: Json, mid: seq<Write>)
    requires refIds.JArray? && Size(refIds) < Size(tok) && i < |refIds.items|
    requires RidWrites(t, refIds.items[i], version, i, Corrected) == Ok(rid)
    requires EntryType(t, refIds.items[i]) == Ok(typeRef)
    requires ExpectAndReadField(refIds.items[i], "data", Some(t)) == Ok(data)
    requires typeRef == Terminus ==> mid == acc + rid + TypeRefWrites(typeRef)
    requires typeRef != Terminus ==> (resolve(typeRef).Some? &&
      JsonImport(resolve(typeRef).value, data, resolve, Corrected, acc + rid + TypeRefWrites(typeRef)) == Ok(mid))
    ensures JsonImportRefs(t, tok, refIds, version, i, resolve, Corrected, acc)
      == JsonImportRefs(t, tok, refIds, version, i + 1, resolve, Corrected, mid)
  {
  }

  // ---------------------------------------------------------------------------
  // Reading the dump back

  lemma ExpectFound(token: Json, name: string, parent: Option<TemplateField>, v: Json)
    requires Index(token, name) == Found(v)
    ensures ExpectAndReadField(token, name, parent) == Ok(v)
  {
  }

  /** The keys of a dumped registry object: `rid` only after version 1, then
      `type` and `data`. */
  lemma RefObjectIndex(version: int, rid: int, r: TypeReference, data: seq<Prop>)
    ensures var o := RefObject(version, rid, r, data);
      Index(o, "type") == Found(CreateManagedReferencesJObject(r.className, r.ns, r.asmName)) &&
      Index(o, "data") == Found(JObject(data)) &&
      (version == 1 ==> Index(o, "rid") == Absent) &&
      (version != 1 ==> Index(o, "rid") == Found(JInt(rid)))
  {
    var o := RefObject(version, rid, r, data);
    if version == 1 {
      assert FindKey(o.props[1..], "data") == Some(0);
    } else {
      assert FindKey(o.props[1..], "type") == Some(0);
      assert FindKey(o.props[1..][1..], "data") == Some(0);
    }
  }

  /** The type triple of a dumped registry object reads back as itself. */
  lemma EntryTypeOfDump(t: TemplateField, version: int, rid: int, r: TypeReference, data: seq<Prop>)
    ensures EntryType(t, RefObject(version, rid, r, data)) == Ok(r)
  {
    var typeObj := CreateManagedReferencesJObject(r.className, r.ns, r.asmName);
    RefObjectIndex(version, rid, r, data);
    ManagedReferencesJObjectKeys(r.className, r.ns, r.asmName);
    ExpectFound(RefObject(version, rid, r, data), "type", Some(t), typeObj);
    ExpectFound(typeObj, "class", Some(t), JString(r.className));
    ExpectFound(typeObj, "ns", Some(t), JString(r.ns));
    ExpectFound(typeObj, "asm", Some(t), JString(r.asmName));
  }

  /** The corrected importer reads the JSON dump of a well-formed value tree
      back into the tree's serialized form. */
  lemma {:induction false} JsonRoundTripAt(f: ValueField, resolve: Resolver, acc: seq<Write>)
    requires WellFormed(f, resolve) && JsonDump(f).Ok?
    ensures JsonImport(f.template, JsonDump(f).value, resolve, Corrected, acc) == Ok(acc + Encode(f))
    decreases f, 3
  {
    var t := f.template;
    if t.isArray {
      if t.valueType == ByteArray {
        ByteArrayRoundTrip(f, resolve, acc);
      } else {
        ArrayRoundTrip(f, resolve, acc);
      }
    } else if f.value.None? {
      StructRoundTrip(f, resolve, acc);
    } else if f.value.value.VRegistry? {
      RegistryRoundTrip(f, resolve, acc);
    } else {
      ScalarRoundTrip(f, resolve, acc);
    }
  }

  lemma ByteArrayRoundTrip(f: ValueField, resolve: Resolver, acc: seq<Write>)
    requires WellFormed(f, resolve) && JsonDump(f).Ok?
    requires f.template.isArray && f.template.valueType == ByteArray
    ensures JsonImport(f.template, JsonDump(f).value, resolve, Corrected, acc) == Ok(acc + Encode(f))
  {
    var t := f.template;
    var bytes := f.value.value.bytes;
    var tok := JArray(ByteItems(bytes));
    assert JsonDump(f).value == tok;
    assert ByteValues(tok.items).value == bytes;
    var out := acc + [WInt(I32, |bytes|), WBytes(bytes)];
    assert JsonImportValue(t, tok, Corrected, acc) == Ok(out);
    ValueStep(t, tok, resolve, acc, out);
    assert Encode(f) == AlignIf([WInt(I32, |bytes|), WBytes(bytes)], t.isAligned);
    AlignIfAppend(acc, [WInt(I32, |bytes|), WBytes(bytes)], t.isAligned);
  }

  lemma {:induction false} ArrayRoundTrip(f: ValueField, resolve: Resolver, acc: seq<Write>)
    requires WellFormed(f, resolve) && JsonDump(f).Ok?
    requires f.template.isArray && f.template.valueType != ByteArray
    ensures JsonImport(f.template, JsonDump(f).value, resolve, Corrected, acc) == Ok(acc + Encode(f))
    decreases f, 2
  {
    var items := JsonDumpItems(f, 0, []).value;
    ArrayDumpItems(f);
    var head := acc + [WInt(I32, |f.children|)];
    ItemsRoundTrip(f, items, 0, resolve, head);
    ArrayImportOfDump(f, resolve, acc, head + EncodeChildren(f, 0));
    ArrayEncodeShape(f, acc);
  }

  /** The JSON dump of an array is the array of its elements' dumps. */
  lemma ArrayDumpItems(f: ValueField)
    requires JsonDump(f).Ok? && f.template.isArray && f.template.valueType != ByteArray
    ensures JsonDumpItems(f, 0, []).Ok? && JsonDump(f).value == JArray(JsonDumpItems(f, 0, []).value)
    ensures var r := JsonDumpItems(f, 0, []).value;
      |r| == |f.children| &&
      forall k :: 0 <= k < |r| ==> JsonDump(f.children[k]).Ok? && r[k] == JsonDump(f.children[k]).value
  {
    assert JsonDump(f).value == JArray(JsonDumpItems(f, 0, []).value);
    DumpItemsAll(f);
  }

  /** An array's dump is imported by reading its count, then its items. */
  lemma ArrayImportOfDump(f: ValueField, resolve: Resolver, acc: seq<Write>, out: seq<Write>)
    requires WellFormed(f, resolve) && JsonDump(f).Ok?
    requires f.template.isArray && f.template.valueType != ByteArray
    requires JsonDumpItems(f, 0, []).Ok? && JsonDump(f).value == JArray(JsonDumpItems(f, 0, []).value)
    requires |JsonDumpItems(f, 0, []).value| == |f.children|
    requires JsonImportItems(f.template.children[1], JsonDump(f).value, 0, resolve, Corrected,
                             acc + [WInt(I32, |f.children|)]) == Ok(out)
    ensures JsonImport(f.template, JsonDump(f).value, resolve, Corrected, acc) == Ok(AlignIf(out, f.template.isAligned))
  {
    ArrayStep(f.template, JsonDump(f).value, resolve, acc, out);
  }

  /** An array is serialized as its count, then its children, aligned as the array is. */
  lemma ArrayEncodeShape(f: ValueField, acc: seq<Write>)
    requires f.template.isArray && f.template.valueType != ByteArray
    ensures AlignIf(acc + [WInt(I32, |f.children|)] + EncodeChildren(f, 0), f.template.isAligned) == acc + Encode(f)
  {
    var t := f.template;
    assert Encode(f) == AlignIf([WInt(I32, |f.children|)] + EncodeChildren(f, 0), t.isAligned);
    assert acc + [WInt(I32, |f.children|)] + EncodeChildren(f, 0) == acc + ([WInt(I32, |f.children|)] + EncodeChildren(f, 0));
    AlignIfAppend(acc, [WInt(I32, |f.children|)] + EncodeChildren(f, 0), t.isAligned);
  }

  lemma {:induction false} ItemsRoundTrip(f: ValueField, items: seq<Json>, i: nat, resolve: Resolver, acc: seq<Write>)
    requires WellFormed(f, resolve) && f.template.isArray && f.template.valueType != ByteArray
    requires i <= |f.children| == |items|
    requires forall k :: 0 <= k < |items| ==> JsonDump(f.children[k]).Ok? && items[k] == JsonDump(f.children[k]).value
    ensures JsonImportItems(f.template.children[1], JArray(items), i, resolve, Corrected, acc) == Ok(acc + EncodeChildren(f, i))
    decreases f, 1, |f.children| - i
  {
    if i < |items| {
      var c := f.children[i];
      ElementWellFormed(f, i, resolve);
      JsonRoundTripAt(c, resolve, acc);
      ItemsStep(f.template.children[1], JArray(items), i, resolve, acc, acc + Encode(c));
      ItemsRoundTrip(f, items, i + 1, resolve, acc + Encode(c));
      EncodeChildrenStep(f, i, acc);
    } else {
      EncodeChildrenStep(f, i, acc);
    }
  }

  lemma {:induction false} StructRoundTrip(f: ValueField, resolve: Resolver, acc: seq<Write>)
    requires WellFormed(f, resolve) && JsonDump(f).Ok?
    requires !f.template.isArray && f.value.None?
    ensures JsonImport(f.template, JsonDump(f).value, resolve, Corrected, acc) == Ok(acc + Encode(f))
    decreases f, 2
  {
    var t := f.template;
    var props := JsonDumpProps(f, 0, []).value;
    assert JsonDump(f).value == JObject(props);
    DumpPropsShape(f, 0, []);
    FieldsRoundTrip(f, props, 0, resolve, acc);
    StructStep(t, JObject(props), resolve, Corrected, acc, acc + EncodeChildren(f, 0));
    assert Encode(f) == AlignIf(EncodeChildren(f, 0), t.isAligned);
    AlignIfAppend(acc, EncodeChildren(f, 0), t.isAligned);
  }

  /** The properties of a struct's JSON object: one per field, in order,
      with distinct keys. */
  predicate FieldProps(f: ValueField, props: seq<Prop>, resolve: Resolver)
  {
    WellFormed(f, resolve) && !f.template.isArray && f.value.None? &&
    |f.children| == |props| && DistinctKeys(props) &&
    forall k :: 0 <= k < |props| ==>
      JsonDump(f.children[k]).Ok? && props[k] == Prop(f.children[k].template.name, JsonDump(f.children[k]).value)
  }

  lemma {:induction false} FieldsRoundTrip(f: ValueField, props: seq<Prop>, i: nat, resolve: Resolver, acc: seq<Write>)
    requires FieldProps(f, props, resolve) && i <= |props|
    ensures JsonImportFields(f.template, JObject(props), i, resolve, Corrected, acc) == Ok(acc + EncodeChildren(f, i))
    decreases f, 1, |f.children| - i, 2
  {
    if i < |props| {
      FieldsFrom(f, props, i, resolve, acc);
    } else {
      EncodeChildrenStep(f, i, acc);
    }
  }

  /** FieldsRoundTrip before the last field: one field, then the rest. */
  lemma {:induction false} FieldsFrom(f: ValueField, props: seq<Prop>, i: nat, resolve: Resolver, acc: seq<Write>)
    requires FieldProps(f, props, resolve) && i < |props|
    ensures JsonImportFields(f.template, JObject(props), i, resolve, Corrected, acc) == Ok(acc + EncodeChildren(f, i))
    decreases f, 1, |f.children| - i, 1
  {
    var c := f.children[i];
    FieldStepAt(f, props, i, resolve, acc);
    FieldsRoundTrip(f, props, i + 1, resolve, acc + Encode(c));
    EncodeChildrenStep(f, i, acc);
  }

  /** The field at `i` is read back from its property and the reading moves on. */
  lemma FieldStepAt(f: ValueField, props: seq<Prop>, i: nat, resolve: Resolver, acc: seq<Write>)
    requires FieldProps(f, props, resolve) && i < |props|
    ensures JsonImportFields(f.template, JObject(props), i, resolve, Corrected, acc) ==
      JsonImportFields(f.template, JObject(props), i + 1, resolve, Corrected, acc + Encode(f.children[i]))
    decreases f, 1, |f.children| - i, 0
  {
    var c := f.children[i];
    IndexDistinct(props, i);
    FieldWellFormed(f, i, resolve);
    JsonRoundTripAt(c, resolve, acc);
    FieldsStep(f.template, JObject(props), i, resolve, JsonDump(c).value, acc, acc + Encode(c));
  }

  lemma ScalarRoundTrip(f: ValueField, resolve: Resolver, acc: seq<Write>)
    requires WellFormed(f, resolve) && JsonDump(f).Ok?
    requires !f.template.isArray && f.value.Some? && !f.value.value.VRegistry?
    ensures JsonImport(f.template, JsonDump(f).value, resolve, Corrected, acc) == Ok(acc + Encode(f))
  {
    var t := f.template;
    var v := f.value.value;
    var tok := ConvertValueFieldToJToken(f);
    assert JsonDump(f).value == tok;
    if v.VString? {
      ValueStep(t, tok, resolve, acc, acc + [WString(v.s)]);
      assert acc + [WString(v.s)] + [WAlign] == acc + [WString(v.s), WAlign];
    } else {
      ScalarJsonRoundTrip(f);
      var w := match v
        case VBool(b) => WBool(b)
        case VInt(it, i) => WInt(it, i)
        case VFloat(isDouble, token) => if isDouble then WDouble(token) else WFloat(token);
      assert ValueTypeWrite(t.valueType, BoxOf(v)) == Ok(w) by {
        if v.VInt? {
          assert IntTypeOf(t.valueType) == Some(v.t);
        }
      }
      ValueStep(t, tok, resolve, acc, acc + [w]);
      assert Encode(f) == AlignIf([w], t.isAligned);
      AlignIfAppend(acc, [w], t.isAligned);
    }
  }

  lemma {:induction false} RegistryRoundTrip(f: ValueField, resolve: Resolver, acc: seq<Write>)
    requires WellFormed(f, resolve) && JsonDump(f).Ok?
    requires !f.template.isArray && f.value.Some? && f.value.value.VRegistry?
    ensures JsonImport(f.template, JsonDump(f).value, resolve, Corrected, acc) == Ok(acc + Encode(f))
    decreases f, 2
  {
    var t := f.template;
    var reg := RegistryOf(f);
    var refs := JsonDumpRefs(f, 0, []).value;
    var tok := RegistryHeaderReads(f, resolve, Corrected, acc);
    DumpRefsShape(f, 0, []);
    var head := acc + [WInt(I32, reg.version)] + (if reg.version != 1 then [WInt(I32, |refs|)] else []);
    RefsFromOkAll(f, refs, resolve, 0);
    RefsRoundTrip(f, tok, refs, 0, resolve, head);
    EncodeRegistryShape(f, acc);
  }

  /** The version and the object list of a dumped registry read back. */
  lemma RegistryHeaderReads(f: ValueField, resolve: Resolver, mode: Mode, acc: seq<Write>) returns (tok: Json)
    requires WellFormed(f, resolve) && JsonDump(f).Ok?
    requires !f.template.isArray && f.value.Some? && f.value.value.VRegistry?
    ensures JsonDumpRefs(f, 0, []).Ok? && tok == JsonDump(f).value
    ensures Size(JArray(JsonDumpRefs(f, 0, []).value)) < Size(tok)
    ensures JsonImport(f.template, tok, resolve, mode, acc) ==
      RegistryBody(f.template, tok, JArray(JsonDumpRefs(f, 0, []).value), RegistryOf(f).version, resolve, mode, acc)
  {
    var reg := RegistryOf(f);
    var refIds := JArray(JsonDumpRefs(f, 0, []).value);
    tok := JObject([Prop("version", JInt(reg.version)), Prop("RefIds", refIds)]);
    assert JsonDump(f).value == tok;
    RegistryObjectReads(f.template, reg.version, refIds, resolve, mode, acc);
  }

  /** A registry object holding a valid version, then an array of objects,
      reads back as the body of that version and those objects. */
  lemma RegistryObjectReads(t: TemplateField, v: int, refIds: Json, resolve: Resolver, mode: Mode, acc: seq<Write>)
    requires t.valueType == ManagedReferencesRegistry && refIds.JArray?
    requires InRange(I32, v) && IsValidManagedReferencesVersion(v)
    ensures var tok := JObject([Prop("version", JInt(v)), Prop("RefIds", refIds)]);
      Size(refIds) < Size(tok) &&
      JsonImport(t, tok, resolve, mode, acc) == RegistryBody(t, tok, refIds, v, resolve, mode, acc)
  {
    var tok := JObject([Prop("version", JInt(v)), Prop("RefIds", refIds)]);
    RegistryStep(t, tok, resolve, mode, acc);
    ExpectFound(tok, "version", Some(t), JInt(v));
    assert FindKey(tok.props[1..], "RefIds") == Some(0);
    ExpectFound(tok, "RefIds", Some(t), refIds);
    PropSmaller(tok.props, 1);
  }

  /** `RegistryBody` on the dump gives the registry's serialized form once its
      objects do. */
  lemma EncodeRegistryShape(f: ValueField, acc: seq<Write>)
    requires HasRegistry(f) && !f.template.isArray
    ensures var reg := RegistryOf(f);
      var head := acc + [WInt(I32, reg.version)] + (if reg.version != 1 then [WInt(I32, |reg.references|)] else []);
      head + EncodeRefs(f, 0) + (if reg.version == 1 then TypeRefWrites(Terminus) else [WAlign]) == acc + Encode(f)
  {
    var reg := RegistryOf(f);
    assert Encode(f) == EncodeRegistry(f);
  }

  /** One dumped registry object read back: its rid writes, its type and its data. */
  lemma RefEntryReads(f: ValueField, refs: seq<Json>, i: nat, resolve: Resolver)
    requires HasRegistry(f) && |RegistryOf(f).references| == |refs| && i < |refs| && RefAt(f, refs, resolve, i)
    ensures var x := RegistryOf(f).references[i];
      var t := f.template;
      RidWrites(t, refs[i], RegistryOf(f).version, i, Corrected) == Ok(if RegistryOf(f).version != 1 then [WInt(I64, x.rid)] else []) &&
      EntryType(t, refs[i]) == Ok(x.typeRef) &&
      ExpectAndReadField(refs[i], "data", Some(t)) == Ok(JObject(JsonDumpProps(x.data, 0, []).value))
  {
    var t := f.template;
    var reg := RegistryOf(f);
    var x := reg.references[i];
    var data := JsonDumpProps(x.data, 0, []).value;
    var entry := refs[i];
    RefObjectIndex(reg.version, x.rid, x.typeRef, data);
    if reg.version != 1 {
      ExpectFound(entry, "rid", Some(t), JInt(x.rid));
    }
    EntryTypeOfDump(t, reg.version, x.rid, x.typeRef, data);
    ExpectFound(entry, "data", Some(t), JObject(data));
  }

  /** A typed registry object's data is a well-formed struct the resolver describes. */
  lemma RefDataWellFormed(f: ValueField, i: nat, resolve: Resolver)
    requires HasRegistry(f) && i < |RegistryOf(f).references| && RefWellFormed(f, i, resolve)
    requires RegistryOf(f).references[i].typeRef != Terminus
    ensures var x := RegistryOf(f).references[i];
      WellFormed(x.data, resolve) && x.data.value.None? && !x.data.template.isArray &&
      resolve(x.typeRef) == Some(x.data.template)
  {
    assert RefWellFormed(f, i, resolve);
  }

  /** `EncodeRefs` one object at a time, after some earlier writes. */
  lemma EncodeRefsStep(f: ValueField, i: nat, acc: seq<Write>)
    requires HasRegistry(f) && i <= |RegistryOf(f).references|
    ensures i == |RegistryOf(f).references| ==> acc + EncodeRefs(f, i) == acc
    ensures i < |RegistryOf(f).references| ==>
      var reg := RegistryOf(f);
      var x := reg.references[i];
      var acc1 := acc + (if reg.version != 1 then [WInt(I64, x.rid)] else []) + TypeRefWrites(x.typeRef);
      (if x.typeRef == Terminus then acc1 else acc1 + Encode(x.data)) + EncodeRefs(f, i + 1)
      == acc + EncodeRefs(f, i)
  {
    var reg := RegistryOf(f);
    if i == |reg.references| {
      assert acc + [] == acc;
    } else {
      var x := reg.references[i];
      var a := if reg.version != 1 then [WInt(I64, x.rid)] else [];
      var c := if x.typeRef == Terminus then [] else Encode(x.data);
      var t := TypeRefWrites(x.typeRef);
      var e := EncodeRefs(f, i + 1);
      assert EncodeRefs(f, i) == a + t + c + e;
      assert acc + a + t + c + e == acc + (a + t + c + e);
      assert (if x.typeRef == Terminus then acc + a + t else acc + a + t + Encode(x.data)) == acc + a + t + c;
    }
  }

  /** The objects of a registry's JSON dump: one per object, in order. */
  predicate RefProps(f: ValueField, refs: seq<Json>, resolve: Resolver)
  {
    HasRegistry(f) && |RegistryOf(f).references| == |refs| &&
    forall k :: 0 <= k < |refs| ==> RefAt(f, refs, resolve, k)
  }

  /** Object `k` of a registry's JSON dump is the dump of registry entry `k`. */
  predicate RefAt(f: ValueField, refs: seq<Json>, resolve: Resolver, k: nat)
    requires HasRegistry(f) && |RegistryOf(f).references| == |refs| && k < |refs|
  {
    RefWellFormed(f, k, resolve) && JsonDumpProps(RegistryOf(f).references[k].data, 0, []).Ok? &&
    refs[k] == RefObject(RegistryOf(f).version, RegistryOf(f).references[k].rid, RegistryOf(f).references[k].typeRef,
                         JsonDumpProps(RegistryOf(f).references[k].data, 0, []).value)
  }

  /** The objects from `i` on read back as the serialized registry entries from `i` on. */
  predicate RefsReadBack(f: ValueField, tok: Json, refs: seq<Json>, i: nat, resolve: Resolver, acc: seq<Write>)
    requires HasRegistry(f) && i <= |RegistryOf(f).references| && i <= |refs| && Size(JArray(refs)) < Size(tok)
  {
    JsonImportRefs(f.template, tok, JArray(refs), RegistryOf(f).version, i, resolve, Corrected, acc)
      == Ok(acc + EncodeRefs(f, i))
  }

  /** The objects from `i` on are the dumps of the registry entries from `i` on. */
  predicate RefsFromOk(f: ValueField, refs: seq<Json>, resolve: Resolver, i: nat)
    requires HasRegistry(f) && |RegistryOf(f).references| == |refs| && i <= |refs|
    decreases |refs| - i
  {
    i == |refs| || (RefAt(f, refs, resolve, i) && RefsFromOk(f, refs, resolve, i + 1))
  }

  lemma {:induction false} RefsFromOkAll(f: ValueField, refs: seq<Json>, resolve: Resolver, i: nat)
    requires RefProps(f, refs, resolve) && i <= |refs|
    ensures RefsFromOk(f, refs, resolve, i)
    decreases |refs| - i
  {
    if i < |refs| {
      RefsFromOkAll(f, refs, resolve, i + 1);
    }
  }

  lemma {:induction false} RefsRoundTrip(f: ValueField, tok: Json, refs: seq<Json>, i: nat, resolve: Resolver, acc: seq<Write>)
    requires HasRegistry(f) && |RegistryOf(f).references| == |refs| && i <= |refs| && RefsFromOk(f, refs, resolve, i)
    requires Size(JArray(refs)) < Size(tok)
    ensures RefsReadBack(f, tok, refs, i, resolve, acc)
    decreases f, 1, |refs| - i, 2
  {
    if i < |refs| {
      RefsFrom(f, tok, refs, i, resolve, acc);
    } else {
      RefsDone(f, tok, refs, resolve, acc);
    }
  }

  /** RefsRoundTrip before the last object: one object, then the rest. */
  lemma {:induction false} RefsFrom(f: ValueField, tok: Json, refs: seq<Json>, i: nat, resolve: Resolver, acc: seq<Write>)
    requires HasRegistry(f) && |RegistryOf(f).references| == |refs| && i < |refs| && RefsFromOk(f, refs, resolve, i)
    requires Size(JArray(refs)) < Size(tok)
    ensures RefsReadBack(f, tok, refs, i, resolve, acc)
    decreases f, 1, |refs| - i, 1
  {
    var mid := RefRoundTrip(f, tok, refs, i, resolve, acc);
    RefsRoundTrip(f, tok, refs, i + 1, resolve, mid);
  }

  /** RefsRoundTrip past the last object. */
  lemma RefsDone(f: ValueField, tok: Json, refs: seq<Json>, resolve: Resolver, acc: seq<Write>)
    requires HasRegistry(f) && |RegistryOf(f).references| == |refs| && Size(JArray(refs)) < Size(tok)
    ensures RefsReadBack(f, tok, refs, |refs|, resolve, acc)
  {
    RefsEnd(f.template, tok, refs, RegistryOf(f).version, resolve, acc);
    EncodeRefsStep(f, |refs|, acc);
  }

  /** Past the last object, nothing more is read. */
  lemma RefsEnd(t: TemplateField, tok: Json, refs: seq<Json>, v: int, resolve: Resolver, acc: seq<Write>)
    requires Size(JArray(refs)) < Size(tok)
    ensures JsonImportRefs(t, tok, JArray(refs), v, |refs|, resolve, Corrected, acc) == Ok(acc)
  {
  }

  /** One registry object read back from its dump. */
  lemma {:induction false} RefRoundTrip(f: ValueField, tok: Json, refs: seq<Json>, i: nat, resolve: Resolver, acc: seq<Write>)
      returns (mid: seq<Write>)
    requires HasRegistry(f) && |RegistryOf(f).references| == |refs| && i < |refs| && RefAt(f, refs, resolve, i)
    requires Size(JArray(refs)) < Size(tok)
    ensures RefsReadBack(f, tok, refs, i + 1, resolve, mid) ==> RefsReadBack(f, tok, refs, i, resolve, acc)
    decreases f, 1, |refs| - i, 0
  {
    var t := f.template;
    var reg := RegistryOf(f);
    var x := reg.references[i];
    var data := JsonDumpProps(x.data, 0, []).value;
    RefEntryReads(f, refs, i, resolve);
    var rid: seq<Write> := if reg.version != 1 then [WInt(I64, x.rid)] else [];
    var acc1 := acc + rid + TypeRefWrites(x.typeRef);
    mid := if x.typeRef == Terminus then acc1 else acc1 + Encode(x.data);
    if x.typeRef != Terminus {
      RefDataWellFormed(f, i, resolve);
      assert JsonDump(x.data) == Ok(JObject(data));
      JsonRoundTripAt(x.data, resolve, acc1);
    }
    RefsStep(t, tok, JArray(refs), reg.version, i, resolve, acc, rid, x.typeRef, JObject(data), mid);
    EncodeRefsStep(f, i, acc);
  }

  /** `ImportJsonAsset` after `DumpJsonAsset`: the corrected importer turns the
      JSON dump of a well-formed value tree into its serialized form. */
  lemma JsonDumpRoundTrip(f: ValueField, resolve: Resolver)
    requires WellFormed(f, resolve) && JsonDump(f).Ok?
    ensures ImportJson(f.template, JsonDump(f).value, resolve, Corrected) == Ok(Encode(f))
  {
    JsonRoundTripAt(f, resolve, []);
    assert [] + Encode(f) == Encode(f);
  }
}
