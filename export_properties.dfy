/** Properties of the two dumps: the shape of every text line, the layout of
    byte arrays and of both registry versions, the version check, and the
    shape of the JSON tree. */
module ExportProperties {
  import opened Wrappers
  import opened NetStrings
  import opened AssetsTypes
  import opened JsonTree
  import opened AssetTypeHelper
  import opened ExportCodec

  /** A dump line at depth `d` or deeper: its leading spaces are followed by
      an alignment flag `0`/`1` or, on an index line, by `[`. */
  predicate DumpLine(l: string, d: nat)
  {
    var k := LeadingSpaces(l);
    d <= k < |l| && (l[k] == '0' || l[k] == '1' || l[k] == '[')
  }

  lemma LineDepth(k: nat, content: string)
    requires |content| > 0 && content[0] != ' '
    ensures LeadingSpaces(Line(k, content)) == k
  {
    var l := Line(k, content);
    var r := LeadingSpaces(l);
    assert l[k] == content[0];
  }

  lemma LineIsDumpLine(k: nat, content: string, d: nat)
    requires d <= k && |content| > 0 && (content[0] == '0' || content[0] == '1' || content[0] == '[')
    ensures DumpLine(Line(k, content), d)
  {
    LineDepth(k, content);
    assert Line(k, content)[k] == content[0];
  }

  /** `r`, when it succeeds, is `acc` followed only by dump lines at depth `d`
      or deeper. */
  predicate Extends(r: Result<seq<string>, Error>, acc: seq<string>, d: nat)
  {
    r.Ok? ==>
      && |acc| <= |r.value|
      && r.value[..|acc|] == acc
      && forall i :: |acc| <= i < |r.value| ==> DumpLine(r.value[i], d)
  }

  predicate AllDumpLines(ls: seq<string>, d: nat)
  {
    forall i :: 0 <= i < |ls| ==> DumpLine(ls[i], d)
  }

  lemma ExtendsTrans(acc: seq<string>, more: seq<string>, r: Result<seq<string>, Error>, d: nat)
    requires AllDumpLines(more, d) && Extends(r, acc + more, d)
    ensures Extends(r, acc, d)
  {
    if r.Ok? {
      assert r.value[..|acc|] == (acc + more)[..|acc|];
      forall i | |acc| <= i < |r.value| ensures DumpLine(r.value[i], d) {
        if i < |acc + more| {
          assert r.value[i] == (acc + more)[i] == more[i - |acc|];
        }
      }
    }
  }

  lemma ExtendsStep(acc: seq<string>, r1: Result<seq<string>, Error>, r: Result<seq<string>, Error>, d: nat)
    requires Extends(r1, acc, d) && (r1.Err? ==> r == Prop1Err(r1)) && (r1.Ok? ==> Extends(r, r1.value, d))
    ensures Extends(r, acc, d)
  {
    if r1.Ok? {
      var more := r1.value[|acc|..];
      assert acc + more == r1.value;
      ExtendsTrans(acc, more, r, d);
    }
  }

  function Prop1Err(r: Result<seq<string>, Error>): Result<seq<string>, Error>
    requires r.Err?
  {
    Err(r.error)
  }

  lemma FlagLine(k: nat, flag: string, rest: string, d: nat)
    requires d <= k && (flag == "0" || flag == "1")
    ensures DumpLine(Line(k, flag + rest), d)
  {
    LineIsDumpLine(k, flag + rest, d);
  }

  /** A line whose content is `prefix + x + suffix`, with a literal prefix
      starting with a flag. */
  lemma FlagContentLine(k: nat, prefix: string, x: string, suffix: string, d: nat)
    requires d <= k && |prefix| > 0 && (prefix[0] == '0' || prefix[0] == '1')
    ensures DumpLine(Line(k, prefix + x + suffix), d)
  {
    var c := prefix + x + suffix;
    assert c[0] == prefix[0];
    LineIsDumpLine(k, c, d);
  }

  lemma TypeRefLinesShape(r: TypeReference, k: nat, d: nat)
    requires d <= k
    ensures AllDumpLines(TypeRefLines(r, k), d)
  {
    TypeRefLineShape(k, "class", r.className, d);
    TypeRefLineShape(k, "ns", r.ns, d);
    TypeRefLineShape(k, "asm", r.asmName, d);
  }

  lemma TypeRefLineShape(k: nat, key: string, s: string, d: nat)
    requires d <= k
    ensures DumpLine(TypeRefLine(k, key, s), d)
  {
    var prefix := "1 string " + key + " = \"";
    assert prefix[0] == '1';
    FlagContentLine(k, prefix, EscapeTextDumpString(s), "\"", d);
  }

  lemma ExtendsWeaken(r: Result<seq<string>, Error>, acc: seq<string>, d: nat, d': nat)
    requires d' <= d && Extends(r, acc, d)
    ensures Extends(r, acc, d')
  {
  }

  lemma HeaderLinesShape(t: TemplateField, value: Option<Value>, size: int, sizeTemplate: TemplateField, d: nat)
    ensures DumpLine(Line(d, FieldLine(t, value)), d)
    ensures AllDumpLines([Line(d, ArrayHeader(t, size)), Line(d + 1, SizeLine(sizeTemplate, size))], d)
  {
    assert FieldLine(t, value)[0] == AlignFlag(t)[0];
    assert ArrayHeader(t, size)[0] == AlignFlag(t)[0];
    assert SizeLine(sizeTemplate, size)[0] == Flag(sizeTemplate.isAligned)[0];
    LineIsDumpLine(d, FieldLine(t, value), d);
    LineIsDumpLine(d, ArrayHeader(t, size), d);
    LineIsDumpLine(d + 1, SizeLine(sizeTemplate, size), d);
  }

  lemma {:induction false} ByteLinesShape(data: seq<uint8>, d: nat)
    ensures AllDumpLines(ByteLines(data, d), d)
  {
    if |data| > 0 {
      var n := |data| - 1;
      ByteLinesShape(data[..n], d);
      assert IndexLine(n)[0] == '[';
      LineIsDumpLine(d + 1, IndexLine(n), d);
      FlagContentLine(d + 2, "0 UInt8 data = ", IntToString(data[n]), "", d);
      assert "0 UInt8 data = " + IntToString(data[n]) + "" == "0 UInt8 data = " + IntToString(data[n]);
    }
  }

  /** Every line of the text dump of a field at depth `d` is `d` or more
      spaces followed by an alignment flag or an index bracket, and the dump
      only ever appends to what was written before. */
  lemma {:induction false} TextDumpShape(f: ValueField, d: nat, acc: seq<string>)
    ensures Extends(TextDump(f, d, acc), acc, d)
    decreases f, 2, 0
  {
    var t := f.template;
    if t.isArray {
      if |t.children| > 0 {
        if t.valueType != ByteArray {
          if f.value.Some? && f.value.value.VArray? {
            var size := f.value.value.size;
            var hdr := [Line(d, ArrayHeader(t, size)), Line(d + 1, SizeLine(t.children[0], size))];
            HeaderLinesShape(t, f.value, size, t.children[0], d);
            TextDumpElementsShape(f, 0, d, acc + hdr);
            ExtendsTrans(acc, hdr, TextDump(f, d, acc), d);
          }
        } else if f.value.Some? && f.value.value.VByteArray? {
          ByteArrayShape(f, d, acc);
        }
      }
    } else {
      var line := [Line(d, FieldLine(t, f.value))];
      HeaderLinesShape(t, f.value, 0, t, d);
      if HasRegistry(f) {
        TextDumpRegistryShape(f, d, acc + line);
      } else {
        TextDumpFieldsShape(f, 0, d + 1, acc + line);
        ExtendsWeaken(TextDumpFields(f, 0, d + 1, acc + line), acc + line, d + 1, d);
      }
      ExtendsTrans(acc, line, TextDump(f, d, acc), d);
    }
  }

  /** A byte array: its header and size lines, then one block per byte. */
  lemma ByteArrayShape(f: ValueField, d: nat, acc: seq<string>)
    requires f.template.isArray && |f.template.children| > 0 && f.template.valueType == ByteArray
    requires f.value.Some? && f.value.value.VByteArray?
    ensures Extends(TextDump(f, d, acc), acc, d)
  {
    var t := f.template;
    var data := f.value.value.bytes;
    var hdr := [Line(d, ArrayHeader(t, |data|)), Line(d + 1, SizeLine(t.children[0], |data|))];
    HeaderLinesShape(t, f.value, |data|, t.children[0], d);
    ByteLinesShape(data, d);
    AllDumpLinesConcat(hdr, ByteLines(data, d), [], d);
    assert hdr + ByteLines(data, d) + [] == hdr + ByteLines(data, d);
    assert acc + hdr + ByteLines(data, d) == acc + (hdr + ByteLines(data, d));
    ExtendsTrans(acc, hdr + ByteLines(data, d), TextDump(f, d, acc), d);
  }

  lemma {:induction false} TextDumpElementsShape(f: ValueField, i: nat, d: nat, acc: seq<string>)
    requires i <= |f.children|
    ensures Extends(TextDumpElements(f, i, d, acc), acc, d)
    decreases f, 1, |f.children| - i
  {
    if i < |f.children| {
      var idx := [Line(d + 1, IndexLine(i))];
      assert IndexLine(i)[0] == '[';
      LineIsDumpLine(d + 1, IndexLine(i), d);
      var r1 := TextDump(f.children[i], d + 2, acc + idx);
      TextDumpShape(f.children[i], d + 2, acc + idx);
      ExtendsWeaken(r1, acc + idx, d + 2, d);
      ExtendsTrans(acc, idx, r1, d);
      if r1.Ok? {
        TextDumpElementsShape(f, i + 1, d, r1.value);
      }
      ExtendsStep(acc, r1, TextDumpElements(f, i, d, acc), d);
    }
  }

  lemma {:induction false} TextDumpFieldsShape(f: ValueField, i: nat, d: nat, acc: seq<string>)
    requires i <= |f.children|
    ensures Extends(TextDumpFields(f, i, d, acc), acc, d)
    decreases f, 1, |f.children| - i
  {
    if i < |f.children| {
      var r1 := TextDump(f.children[i], d, acc);
      TextDumpShape(f.children[i], d, acc);
      if r1.Ok? {
        TextDumpFieldsShape(f, i + 1, d, r1.value);
      }
      ExtendsStep(acc, r1, TextDumpFields(f, i, d, acc), d);
    }
  }

  lemma RegistryHeaderShape(version: int, count: nat, d: nat)
    ensures AllDumpLines([Line(d + 1, "0 int version = " + IntToString(version))], d)
    ensures AllDumpLines([Line(d + 1, "0 int version = " + IntToString(version)),
                          Line(d + 1, "0 vector RefIds"),
                          Line(d + 2, "1 Array Array"),
                          Line(d + 3, "0 int size = " + IntToString(count))], d)
  {
    PrefixedLine(d + 1, "0 int version = ", IntToString(version), d);
    LineIsDumpLine(d + 1, "0 vector RefIds", d);
    LineIsDumpLine(d + 2, "1 Array Array", d);
    PrefixedLine(d + 3, "0 int size = ", IntToString(count), d);
    FourDumpLines(Line(d + 1, "0 int version = " + IntToString(version)), Line(d + 1, "0 vector RefIds"),
                  Line(d + 2, "1 Array Array"), Line(d + 3, "0 int size = " + IntToString(count)), d);
  }

  lemma PrefixedLine(k: nat, prefix: string, x: string, d: nat)
    requires d <= k && |prefix| > 0 && (prefix[0] == '0' || prefix[0] == '1')
    ensures DumpLine(Line(k, prefix + x), d)
  {
    assert (prefix + x)[0] == prefix[0];
    LineIsDumpLine(k, prefix + x, d);
  }

  lemma TwoDumpLines(l1: string, l2: string, d: nat)
    requires DumpLine(l1, d) && DumpLine(l2, d)
    ensures AllDumpLines([l1, l2], d)
  {
  }

  lemma ThreeDumpLines(l1: string, l2: string, l3: string, d: nat)
    requires DumpLine(l1, d) && DumpLine(l2, d) && DumpLine(l3, d)
    ensures AllDumpLines([l1, l2, l3], d)
  {
  }

  lemma FourDumpLines(l1: string, l2: string, l3: string, l4: string, d: nat)
    requires DumpLine(l1, d) && DumpLine(l2, d) && DumpLine(l3, d) && DumpLine(l4, d)
    ensures AllDumpLines([l1], d) && AllDumpLines([l1, l2, l3, l4], d)
  {
  }

  lemma {:induction false} TextDumpRegistryShape(f: ValueField, d: nat, acc: seq<string>)
    requires HasRegistry(f)
    ensures Extends(TextDumpRegistry(f, d, acc), acc, d)
    decreases f, 1, 0
  {
    var reg := RegistryOf(f);
    RegistryHeaderShape(reg.version, |reg.references|, d);
    var v := Line(d + 1, "0 int version = " + IntToString(reg.version));
    if reg.version == 1 {
      TextDumpRefsV1Shape(f, 0, d, acc + [v]);
      ExtendsTrans(acc, [v], TextDumpRegistry(f, d, acc), d);
    } else if reg.version == 2 {
      var hdr := [v, Line(d + 1, "0 vector RefIds"), Line(d + 2, "1 Array Array"),
                  Line(d + 3, "0 int size = " + IntToString(|reg.references|))];
      TextDumpRefsV2Shape(f, 0, d, acc + hdr);
      ExtendsTrans(acc, hdr, TextDumpRegistry(f, d, acc), d);
    }
  }

  lemma RefHeaderV1Shape(i: nat, r: TypeReference, d: nat)
    ensures AllDumpLines(RefHeaderV1(i, r, d), d)
  {
    RefOpeningV1Shape(i, d);
    TypeRefLinesShape(r, d + 3, d);
    DataLineShape(d + 2, d);
    AllDumpLinesConcat(RefOpeningV1(i, d), TypeRefLines(r, d + 3), [Line(d + 2, "0 ReferencedObjectData data")], d);
  }

  lemma RefOpeningV1Shape(i: nat, d: nat)
    ensures AllDumpLines(RefOpeningV1(i, d), d)
  {
    PrefixedLine(d + 1, "0 ReferencedObject ", ZeroPad(i, 8), d);
    LineIsDumpLine(d + 2, "0 ReferencedManagedType type", d);
    TwoDumpLines(Line(d + 1, "0 ReferencedObject " + ZeroPad(i, 8)), Line(d + 2, "0 ReferencedManagedType type"), d);
  }

  lemma DataLineShape(k: nat, d: nat)
    requires d <= k
    ensures AllDumpLines([Line(k, "0 ReferencedObjectData data")], d)
  {
    LineIsDumpLine(k, "0 ReferencedObjectData data", d);
  }

  lemma AllDumpLinesConcat(a: seq<string>, b: seq<string>, c: seq<string>, d: nat)
    requires AllDumpLines(a, d) && AllDumpLines(b, d) && AllDumpLines(c, d)
    ensures AllDumpLines(a + b + c, d)
  {
    forall i | 0 <= i < |a + b + c|
      ensures DumpLine((a + b + c)[i], d)
    {
      if i < |a| {
        assert (a + b + c)[i] == a[i];
      } else if i < |a| + |b| {
        assert (a + b + c)[i] == b[i - |a|];
      } else {
        assert (a + b + c)[i] == c[i - |a| - |b|];
      }
    }
  }

  lemma RefHeaderV2Shape(rid: int, r: TypeReference, d: nat)
    ensures AllDumpLines(RefHeaderV2(rid, r, d), d)
  {
    RefOpeningV2Shape(rid, d);
    TypeRefLinesShape(r, d + 5, d);
    DataLineShape(d + 4, d);
    AllDumpLinesConcat(RefOpeningV2(rid, d), TypeRefLines(r, d + 5), [Line(d + 4, "0 ReferencedObjectData data")], d);
  }

  lemma RefOpeningV2Shape(rid: int, d: nat)
    ensures AllDumpLines(RefOpeningV2(rid, d), d)
  {
    LineIsDumpLine(d + 3, "0 ReferencedObject data", d);
    PrefixedLine(d + 4, "0 SInt64 rid = ", IntToString(rid), d);
    LineIsDumpLine(d + 4, "0 ReferencedManagedType type", d);
    ThreeDumpLines(Line(d + 3, "0 ReferencedObject data"), Line(d + 4, "0 SInt64 rid = " + IntToString(rid)),
                   Line(d + 4, "0 ReferencedManagedType type"), d);
  }

  lemma {:induction false} TextDumpRefsV1Shape(f: ValueField, i: nat, d: nat, acc: seq<string>)
    requires HasRegistry(f) && i <= |RegistryOf(f).references|
    ensures Extends(TextDumpRefsV1(f, i, d, acc), acc, d)
    decreases f, 0, |RegistryOf(f).references| - i
  {
    var refs := RegistryOf(f).references;
    RefHeaderV1Shape(i, if i == |refs| then Terminus else refs[i].typeRef, d);
    if i == |refs| {
      ExtendsTrans(acc, RefHeaderV1(i, Terminus, d), TextDumpRefsV1(f, i, d, acc), d);
    } else {
      var hdr := RefHeaderV1(i, refs[i].typeRef, d);
      var r1 := TextDumpFields(refs[i].data, 0, d + 3, acc + hdr);
      TextDumpFieldsShape(refs[i].data, 0, d + 3, acc + hdr);
      ExtendsWeaken(r1, acc + hdr, d + 3, d);
      ExtendsTrans(acc, hdr, r1, d);
      if r1.Ok? {
        TextDumpRefsV1Shape(f, i + 1, d, r1.value);
      }
      ExtendsStep(acc, r1, TextDumpRefsV1(f, i, d, acc), d);
    }
  }

  lemma {:induction false} TextDumpRefsV2Shape(f: ValueField, i: nat, d: nat, acc: seq<string>)
    requires HasRegistry(f) && i <= |RegistryOf(f).references|
    ensures Extends(TextDumpRefsV2(f, i, d, acc), acc, d)
    decreases f, 0, |RegistryOf(f).references| - i, 1
  {
    var refs := RegistryOf(f).references;
    if i < |refs| {
      var r1 := TextDumpFields(refs[i].data, 0, d + 5, acc + RefHeaderV2(refs[i].rid, refs[i].typeRef, d));
      var r := TextDumpRefsV2(f, i, d, acc);
      RefsV2Unfold(f, i, d, acc);
      RefBlockV2Shape(f, i, d, acc);
      if r1.Ok? {
        TextDumpRefsV2Shape(f, i + 1, d, r1.value);
      }
      ExtendsStep(acc, r1, r, d);
    }
  }

  /** One step of TextDumpRefsV2: object `i`'s block, then the rest. */
  lemma RefsV2Unfold(f: ValueField, i: nat, d: nat, acc: seq<string>)
    requires HasRegistry(f) && i < |RegistryOf(f).references|
    ensures var x := RegistryOf(f).references[i];
      var r1 := TextDumpFields(x.data, 0, d + 5, acc + RefHeaderV2(x.rid, x.typeRef, d));
      && (r1.Ok? ==> TextDumpRefsV2(f, i, d, acc) == TextDumpRefsV2(f, i + 1, d, r1.value))
      && (r1.Err? ==> TextDumpRefsV2(f, i, d, acc) == Prop1Err(r1))
  {
  }

  /** Object `i` of a version-2 registry: its header, then its data. */
  lemma {:induction false} RefBlockV2Shape(f: ValueField, i: nat, d: nat, acc: seq<string>)
    requires HasRegistry(f) && i < |RegistryOf(f).references|
    ensures var x := RegistryOf(f).references[i];
      Extends(TextDumpFields(x.data, 0, d + 5, acc + RefHeaderV2(x.rid, x.typeRef, d)), acc, d)
    decreases f, 0, |RegistryOf(f).references| - i, 0
  {
    var x := RegistryOf(f).references[i];
    var hdr := RefHeaderV2(x.rid, x.typeRef, d);
    RefHeaderV2Shape(x.rid, x.typeRef, d);
    var r1 := TextDumpFields(x.data, 0, d + 5, acc + hdr);
    TextDumpFieldsShape(x.data, 0, d + 5, acc + hdr);
    ExtendsWeaken(r1, acc + hdr, d + 5, d);
    ExtendsTrans(acc, hdr, r1, d);
  }

  // ---------------------------------------------------------------------------
  // Byte arrays, version-1 blocks and unsupported versions

  /** Block `i` of a byte array: its `[i]` line, then its byte's line. */
  lemma {:induction false} ByteLinesContent(data: seq<uint8>, d: nat)
    ensures forall i :: 0 <= i < |data| ==>
      ByteLines(data, d)[2 * i] == Line(d + 1, IndexLine(i)) &&
      ByteLines(data, d)[2 * i + 1] == Line(d + 2, ByteDataLine(data[i]))
  {
    if |data| > 0 {
      var n := |data| - 1;
      ByteLinesContent(data[..n], d);
      ByteLinesKeep(data, d);
    }
  }

  /** Adding a byte keeps the blocks before it. */
  lemma ByteLinesKeep(data: seq<uint8>, d: nat)
    requires |data| > 0
    requires var n := |data| - 1;
      forall i :: 0 <= i < n ==>
        ByteLines(data[..n], d)[2 * i] == Line(d + 1, IndexLine(i)) &&
        ByteLines(data[..n], d)[2 * i + 1] == Line(d + 2, ByteDataLine(data[..n][i]))
    ensures forall i :: 0 <= i < |data| ==>
      ByteLines(data, d)[2 * i] == Line(d + 1, IndexLine(i)) &&
      ByteLines(data, d)[2 * i + 1] == Line(d + 2, ByteDataLine(data[i]))
  {
    var n := |data| - 1;
    var init := ByteLines(data[..n], d);
    var ls := ByteLines(data, d);
    assert ls == init + [Line(d + 1, IndexLine(n)), Line(d + 2, ByteDataLine(data[n]))];
    forall i | 0 <= i < n
      ensures ls[2 * i] == Line(d + 1, IndexLine(i)) && ls[2 * i + 1] == Line(d + 2, ByteDataLine(data[i]))
    {
      assert data[..n][i] == data[i];
      assert ls[2 * i] == init[2 * i] && ls[2 * i + 1] == init[2 * i + 1];
    }
  }
  /** A byte array of `n` bytes dumps to `2n + 2` lines: its header, its
      size, and for each byte in order an index line and a data line. */
  lemma ByteArrayDump(f: ValueField, d: nat, acc: seq<string>)
    requires f.template.isArray && |f.template.children| > 0 && f.template.valueType == ByteArray
    requires f.value.Some? && f.value.value.VByteArray?
    ensures var data := f.value.value.bytes;
      var r := TextDump(f, d, acc);
      r.Ok? && |r.value| == |acc| + 2 * |data| + 2 && r.value[..|acc|] == acc &&
      r.value[|acc|] == Line(d, ArrayHeader(f.template, |data|)) &&
      r.value[|acc| + 1] == Line(d + 1, SizeLine(f.template.children[0], |data|)) &&
      forall i :: 0 <= i < |data| ==>
        r.value[|acc| + 2 + 2 * i] == Line(d + 1, IndexLine(i)) &&
        r.value[|acc| + 3 + 2 * i] == Line(d + 2, ByteDataLine(data[i]))
  {
    var data := f.value.value.bytes;
    var hdr := [Line(d, ArrayHeader(f.template, |data|)), Line(d + 1, SizeLine(f.template.children[0], |data|))];
    var ls := acc + hdr + ByteLines(data, d);
    assert TextDump(f, d, acc) == Ok(ls);
    ByteLinesContent(data, d);
    forall i | 0 <= i < |data|
      ensures ls[|acc| + 2 + 2 * i] == Line(d + 1, IndexLine(i))
      ensures ls[|acc| + 3 + 2 * i] == Line(d + 2, ByteDataLine(data[i]))
    {
      assert ls[|acc| + 2 + 2 * i] == ByteLines(data, d)[2 * i];
      assert ls[|acc| + 3 + 2 * i] == ByteLines(data, d)[2 * i + 1];
    }
  }

  /** The lines of `ls` indented by exactly `k` spaces, in order. */
  function Indented(ls: seq<string>, k: nat): (r: seq<string>)
    ensures |r| <= |ls|
  {
    if |ls| == 0 then []
    else
      var n := |ls| - 1;
      Indented(ls[..n], k) + (if LeadingSpaces(ls[n]) == k then [ls[n]] else [])
  }

  lemma {:induction false} IndentedAppend(a: seq<string>, b: seq<string>, k: nat)
    ensures Indented(a + b, k) == Indented(a, k) + Indented(b, k)
    decreases |b|
  {
    if |b| == 0 {
      assert a + b == a;
    } else {
      var n := |b| - 1;
      var ab := a + b;
      var last: seq<string> := if LeadingSpaces(b[n]) == k then [b[n]] else [];
      assert ab[..|a| + n] == a + b[..n] && ab[|a| + n] == b[n];
      assert Indented(ab, k) == Indented(a + b[..n], k) + last;
      assert Indented(b, k) == Indented(b[..n], k) + last;
      IndentedAppend(a, b[..n], k);
      AppendAssoc(Indented(a, k), Indented(b[..n], k), last);
    }
  }

  /** Lines all deeper than `k` have none indented by exactly `k`. */
  lemma {:induction false} IndentedDeeper(ls: seq<string>, k: nat)
    requires AllDumpLines(ls, k + 1)
    ensures Indented(ls, k) == []
  {
    if |ls| > 0 {
      var n := |ls| - 1;
      assert DumpLine(ls[n], k + 1);
      IndentedDeeper(ls[..n], k);
    }
  }

  /** The object line of block `i` of a version-1 registry. */
  function ObjectLine(i: nat, d: nat): string
  {
    Line(d + 1, "0 ReferencedObject " + ZeroPad(i, 8))
  }

  /** The object lines of blocks `i` to `n`, in order. */
  function ObjectLines(i: nat, n: nat, d: nat): (r: seq<string>)
    requires i <= n
    ensures |r| == n - i + 1
    decreases n - i
  {
    if i == n then [ObjectLine(n, d)] else [ObjectLine(i, d)] + ObjectLines(i + 1, n, d)
  }

  /** A line at depth `k` is the one line of its own at that depth. */
  lemma IndentedSingle(k: nat, content: string)
    requires |content| > 0 && content[0] != ' '
    ensures Indented([Line(k, content)], k) == [Line(k, content)]
  {
    LineDepth(k, content);
    var ls := [Line(k, content)];
    assert ls[..0] == [];
  }

  /** Of a version-1 object's header, only its object line sits one level
      below the registry. */
  lemma RefHeaderV1Indented(i: nat, r: TypeReference, d: nat)
    ensures Indented(RefHeaderV1(i, r, d), d + 1) == [ObjectLine(i, d)]
  {
    var h := RefHeaderV1(i, r, d);
    RefHeaderV1Tail(i, r, d);
    IndentedDeeper(h[1..], d + 1);
    IndentedAppend([h[0]], h[1..], d + 1);
    assert [h[0]] + h[1..] == h;
    IndentedSingle(d + 1, "0 ReferencedObject " + ZeroPad(i, 8));
  }

  /** Below the object line, a version-1 header is two levels deeper. */
  lemma RefHeaderV1Tail(i: nat, r: TypeReference, d: nat)
    ensures var h := RefHeaderV1(i, r, d);
      h[0] == ObjectLine(i, d) && AllDumpLines(h[1..], d + 2)
  {
    var h := RefHeaderV1(i, r, d);
    LineIsDumpLine(d + 2, "0 ReferencedManagedType type", d + 2);
    TypeRefLinesShape(r, d + 3, d + 2);
    DataLineShape(d + 2, d + 2);
    AllDumpLinesConcat([Line(d + 2, "0 ReferencedManagedType type")], TypeRefLines(r, d + 3),
                       [Line(d + 2, "0 ReferencedObjectData data")], d + 2);
    assert h[1..] == [Line(d + 2, "0 ReferencedManagedType type")] + TypeRefLines(r, d + 3)
                     + [Line(d + 2, "0 ReferencedObjectData data")];
  }

  /** Version 1 from object `i`: the object lines one level below the
      registry are those of blocks `i` to `|references|`, the last being the
      terminus, and the dump ends with the terminus block, whose class,
      namespace and assembly are empty and which has no data lines. */
  lemma {:induction false} RefsV1Blocks(f: ValueField, i: nat, d: nat, acc: seq<string>)
    requires HasRegistry(f) && i <= |RegistryOf(f).references|
    ensures var refs := RegistryOf(f).references;
      var r := TextDumpRefsV1(f, i, d, acc);
      r.Ok? ==> (|acc| + 6 <= |r.value| && r.value[..|acc|] == acc &&
        Indented(r.value[|acc|..], d + 1) == ObjectLines(i, |refs|, d) &&
        r.value[|r.value| - 6..] == RefHeaderV1(|refs|, Terminus, d))
    decreases |RegistryOf(f).references| - i, 1
  {
    var refs := RegistryOf(f).references;
    if i == |refs| {
      RefHeaderV1Indented(i, Terminus, d);
      assert TextDumpRefsV1(f, i, d, acc).value[|acc|..] == RefHeaderV1(i, Terminus, d);
    } else {
      RefsV1BlockFrom(f, i, d, acc);
    }
  }

  /** Object `i` of a version-1 registry, then the blocks after it. */
  lemma {:induction false} RefsV1BlockFrom(f: ValueField, i: nat, d: nat, acc: seq<string>)
    requires HasRegistry(f) && i < |RegistryOf(f).references|
    ensures var refs := RegistryOf(f).references;
      var r := TextDumpRefsV1(f, i, d, acc);
      r.Ok? ==> (|acc| + 6 <= |r.value| && r.value[..|acc|] == acc &&
        Indented(r.value[|acc|..], d + 1) == ObjectLines(i, |refs|, d) &&
        r.value[|r.value| - 6..] == RefHeaderV1(|refs|, Terminus, d))
    decreases |RegistryOf(f).references| - i, 0
  {
    var refs := RegistryOf(f).references;
    var hdr := RefHeaderV1(i, refs[i].typeRef, d);
    var r1 := TextDumpFields(refs[i].data, 0, d + 3, acc + hdr);
    var r := TextDumpRefsV1(f, i, d, acc);
    if r1.Ok? && r.Ok? {
      var block := BlockIndented(refs[i], i, d, acc);
      assert r == TextDumpRefsV1(f, i + 1, d, r1.value);
      RefsV1Blocks(f, i + 1, d, r1.value);
      JoinBlock(acc, block, r1.value, r.value, d + 1);
    }
  }

  /** A block after `acc` and a dump after the block: the dump's lines at
      depth `k` past `acc` are the block's, then those past the block. */
  lemma JoinBlock(acc: seq<string>, block: seq<string>, mid: seq<string>, s: seq<string>, k: nat)
    requires mid == acc + block
    requires |mid| <= |s| && s[..|mid|] == mid
    ensures s[..|acc|] == acc
    ensures Indented(s[|acc|..], k) == Indented(block, k) + Indented(s[|mid|..], k)
  {
    var rest := s[|mid|..];
    SplitPrefix(s, mid);
    AppendAssoc(acc, block, rest);
    SplitPrefix(s, acc);
    IndentedAppend(block, rest, k);
  }

  /** A sequence that starts with `p` is `p` followed by the rest. */
  lemma SplitPrefix(s: seq<string>, p: seq<string>)
    requires |p| <= |s| && s[..|p|] == p
    ensures s == p + s[|p|..]
  {
  }

  /** What a successful extension adds is made of dump lines. */
  lemma ExtendsSplit(r: Result<seq<string>, Error>, acc: seq<string>, d: nat)
    requires r.Ok? && Extends(r, acc, d)
    ensures r.value == acc + r.value[|acc|..] && AllDumpLines(r.value[|acc|..], d)
  {
    var body := r.value[|acc|..];
    forall j | 0 <= j < |body|
      ensures DumpLine(body[j], d)
    {
      assert body[j] == r.value[|acc| + j];
    }
  }

  /** The block of one version-1 object: its header, then its data, of which
      only the object line sits one level below the registry. */
  lemma BlockIndented(x: ReferencedObject, i: nat, d: nat, acc: seq<string>) returns (block: seq<string>)
    ensures var r1 := TextDumpFields(x.data, 0, d + 3, acc + RefHeaderV1(i, x.typeRef, d));
      r1.Ok? ==> (r1.value == acc + block && |block| >= 6 && Indented(block, d + 1) == [ObjectLine(i, d)])
  {
    var hdr := RefHeaderV1(i, x.typeRef, d);
    var r1 := TextDumpFields(x.data, 0, d + 3, acc + hdr);
    block := [];
    if r1.Ok? {
      TextDumpFieldsShape(x.data, 0, d + 3, acc + hdr);
      var body := r1.value[|acc + hdr|..];
      ExtendsSplit(r1, acc + hdr, d + 2);
      IndentedDeeper(body, d + 1);
      RefHeaderV1Indented(i, x.typeRef, d);
      IndentedAppend(hdr, body, d + 1);
      block := hdr + body;
      AppendAssoc(acc, hdr, body);
    }
  }

  /** The version line of a version-1 registry. */
  lemma VersionOneLine(d: nat)
    ensures Line(d + 1, "0 int version = " + IntToString(1)) == Line(d + 1, "0 int version = 1")
  {
    assert IntToString(1) == "1";
  }

  /** A version-1 registry: after its version line, one object line per
      object and one for the terminus, `|references| + 1` in all, and the
      dump ends with the empty terminus block. */
  lemma RegistryV1Dump(f: ValueField, d: nat, acc: seq<string>)
    requires HasRegistry(f) && RegistryOf(f).version == 1
    ensures var refs := RegistryOf(f).references;
      var r := TextDumpRegistry(f, d, acc);
      r.Ok? ==> (|acc| + 7 <= |r.value| && r.value[..|acc|] == acc &&
        Indented(r.value[|acc|..], d + 1) == [Line(d + 1, "0 int version = 1")] + ObjectLines(0, |refs|, d) &&
        |ObjectLines(0, |refs|, d)| == |refs| + 1 &&
        r.value[|r.value| - 6..] == RefHeaderV1(|refs|, Terminus, d))
  {
    var reg := RegistryOf(f);
    var v := Line(d + 1, "0 int version = " + IntToString(reg.version));
    var r := TextDumpRefsV1(f, 0, d, acc + [v]);
    RefsV1Blocks(f, 0, d, acc + [v]);
    VersionOneLine(d);
    if r.Ok? {
      IndentedSingle(d + 1, "0 int version = 1");
      var n := |reg.references|;
      LeadWith(r.value, acc, v, d + 1, ObjectLines(0, n, d), RefHeaderV1(n, Terminus, d));
    }
    assert TextDumpRegistry(f, d, acc) == r;
  }

  /** A dump that continues `acc` with the line `v` at depth `k`. */
  lemma LeadWith(s: seq<string>, acc: seq<string>, v: string, k: nat, more: seq<string>, tail: seq<string>)
    requires |acc + [v]| + 6 <= |s| && s[..|acc + [v]|] == acc + [v] && s[|s| - 6..] == tail
    requires Indented([v], k) == [v] && Indented(s[|acc + [v]|..], k) == more
    ensures |acc| + 7 <= |s| && s[..|acc|] == acc && s[|s| - 6..] == tail
    ensures Indented(s[|acc|..], k) == [v] + more
  {
    var rest := s[|acc + [v]|..];
    SplitPrefix(s, acc + [v]);
    AppendAssoc(acc, [v], rest);
    SplitPrefix(s, acc);
    IndentedAppend([v], rest, k);
  }

  /** A registry version other than 1 and 2 fails both dumps. */
  lemma UnsupportedVersionDumps(f: ValueField, d: nat, acc: seq<string>)
    requires !f.template.isArray && HasRegistry(f) && !(1 <= RegistryOf(f).version <= 2)
    ensures TextDump(f, d, acc) == Err(NotSupportedRegistryVersion(RegistryOf(f).version))
    ensures JsonDump(f) == Err(NotSupportedRegistryVersion(RegistryOf(f).version))
  {
  }
}
