/** The text round trip: the text dump of a well-formed value tree, read back
    by the corrected text import (whose index lines push an entry of their
    own, see `Findings`), writes the tree's serialized form
    `BinaryLayout.Encode`, a byte blob read as one byte write per byte; the
    scan stops at the end of the input with the alignments of the fields
    still open on its stack unwritten. The proof follows the dump field by
    field: a field dumped at depth `d` and read from a stack of height `d`
    settles to its serialized form (see `TextLines.Settles`). */
module TextRoundTrip {
  import opened Wrappers
  import opened NetStrings
  import opened AssetsTypes
  import opened AssetTypeHelper
  import opened ExportCodec
  import opened ExportProperties
  import opened ImportCodec
  import opened BinaryLayout
  import opened TextLines

  // ---------------------------------------------------------------------------
  // Trees whose dump reads back

  /** The one write of a scalar value. */
  function ScalarWrite(v: Value): Write
    requires v.VBool? || v.VInt? || v.VFloat? || v.VString?
  {
    match v
    case VBool(b) => WBool(b)
    case VInt(it, i) => WInt(it, i)
    case VFloat(isDouble, token) => if isDouble then WDouble(token) else WFloat(token)
    case VString(s) => WString(s)
  }

  /** A scalar whose line reads back as its write: a string under the type
      name `string`, or a value under a type name of the table whose parser
      reads the rendered value back (an integer in the range of its type, a
      float token that is a literal and has no white space at its ends). */
  predicate ScalarTextWellFormed(t: TemplateField, v: Value)
  {
    t.valueType == v.ValueType() &&
    match v
    case VString(_) => t.typeName == "string"
    case VBool(_) => t.typeName in TypeParsers && TypeParsers[t.typeName] == BoolParser
    case VInt(it, i) => t.typeName in TypeParsers && TypeParsers[t.typeName] == IntParser(it) && InRange(it, i)
    case VFloat(isDouble, token) =>
      t.typeName in TypeParsers && TypeParsers[t.typeName] == (if isDouble then DoubleParser else FloatParser) &&
      IsFloatLiteral(token) && |token| > 0 && !IsWhiteSpace(token[0]) && !IsWhiteSpace(token[|token| - 1])
    case _ => false
  }

  /** The data of a registry object as both the dump and the serialized
      form see it: a struct that is not aligned, empty when the object's
      type is the empty triple (whose data the serialized form skips). */
  predicate RefDataOk(r: ReferencedObject)
  {
    r.data.value.None? && !r.data.template.isArray && !r.data.template.isAligned &&
    (r.typeRef == Terminus ==> |r.data.children| == 0)
  }

  /** A value tree whose text dump reads back as its serialized form: names
      without `=`; arrays whose element count is their size, within 32 bits,
      with a 32-bit unaligned size field; structs not typed as strings;
      scalars as `ScalarTextWellFormed` says, without children; registries
      of version 1 or 2 that are not aligned, whose objects are as
      `RefsTextOk` says. */
  predicate TextWellFormed(f: ValueField)
    decreases f, 1
  {
    var t := f.template;
    PlainNames(t) &&
    if t.isArray then
      |t.children| > 0 && SizeTemplateOk(t.children[0]) &&
      if t.valueType == ByteArray then
        f.value.Some? && f.value.value.VByteArray? && InRange(I32, |f.value.value.bytes|)
      else
        t.valueType == Array && f.value == Some(VArray(|f.children|)) && InRange(I32, |f.children|) &&
        forall i :: 0 <= i < |f.children| ==> TextWellFormed(f.children[i])
    else if f.value.None? then
      t.valueType != String && forall i :: 0 <= i < |f.children| ==> TextWellFormed(f.children[i])
    else if f.value.value.VRegistry? then
      var reg := f.value.value.registry;
      t.valueType == ManagedReferencesRegistry && !t.isAligned &&
      (reg.version == 1 || (reg.version == 2 && InRange(I32, |reg.references|))) &&
      RefsTextOk(reg)
    else
      ScalarTextWellFormed(t, f.value.value) && |f.children| == 0
  }

  /** The objects of a registry whose dump reads back: version-2 rids within
      64 bits, data as `RefDataOk` says, and data fields that read back. */
  predicate RefsTextOk(reg: Registry)
    decreases reg, 0
  {
    forall k :: 0 <= k < |reg.references| ==>
      (reg.version == 2 ==> InRange(I64, reg.references[k].rid)) && RefDataOk(reg.references[k]) &&
      forall j :: 0 <= j < |reg.references[k].data.children| ==> TextWellFormed(reg.references[k].data.children[j])
  }

  // ---------------------------------------------------------------------------
  // Small facts

  lemma SuffixAfter(h: string, x: string)
    ensures h + (" = " + x) == h + " = " + x
  {
  }

  lemma QuotedSuffix(h: string, e: string)
    ensures h + (" = \"" + e + "\"") == h + " = " + ("\"" + e + "\"")
  {
  }

  /** Writes made before an alignment. */
  lemma AlignAfter(out: seq<Write>, ws: seq<Write>, a: bool)
    ensures AlignIf(out + ws, a) == out + AlignIf(ws, a)
  {
  }

  lemma NormAlign(x: seq<Write>, a: bool)
    ensures Norm(AlignIf(x, a)) == AlignIf(Norm(x), a)
  {
    if a {
      NormAppend(x, [WAlign]);
    }
  }

  lemma NormTypeRef(r: TypeReference)
    ensures Norm(TypeRefWrites(r)) == TypeRefWrites(r)
  {
  }

  /** The lines a result adds after `mid`, and those `mid` adds after `acc`. */
  lemma AddedAfter(r: Result<seq<string>, Error>, acc: seq<string>, mid: seq<string>)
    requires acc <= mid && Grows(r, mid)
    ensures Grows(r, acc) && Added(r, acc) == mid[|acc|..] + Added(r, mid)
  {
    assert r.value == mid + Added(r, mid);
  }

  /** A block that starts with a line or a block of known effect. */
  lemma FirstLine(l: string, rest: seq<string>, st: TextState, s1: TextState)
    requires ImportLine(l, st, Corrected) == Ok(s1)
    ensures ImportLines([l] + rest, st, Corrected) == ImportLines(rest, s1, Corrected)
  {
    assert ([l] + rest)[0] == l && ([l] + rest)[1..] == rest;
  }

  lemma FirstBlock(a: seq<string>, rest: seq<string>, st: TextState, s1: TextState)
    requires ImportLines(a, st, Corrected) == Ok(s1)
    ensures ImportLines(a + rest, st, Corrected) == ImportLines(rest, s1, Corrected)
  {
    ImportLinesAppend(a, rest, st, Corrected);
  }

  /** Two entries pushed unaligned on a stack of height `d`, popped again. */
  lemma UnwindTwoFalse(stack: seq<bool>, out: seq<Write>)
    ensures Unwind(stack + [false, false], |stack|, out) == TextState(stack, out)
  {
    UnwindTwice(stack + [false, false], out, |stack|, |stack| + 1);
    assert (stack + [false, false])[..|stack| + 1] == stack + [false];
    UnwindPushed(stack + [false], false, out);
    UnwindPushed(stack, false, out);
  }

  // ---------------------------------------------------------------------------
  // Field lines

  /** The text after ` = ` on a scalar's line: the quoted, escaped string,
      `true`/`false`, the decimal integer or the float token. */
  lemma ScalarSuffix(v: Value) returns (val: string)
    requires v.VBool? || v.VInt? || v.VFloat? || v.VString?
    requires v.VFloat? ==> |v.token| > 0 && !IsWhiteSpace(v.token[0]) && !IsWhiteSpace(v.token[|v.token| - 1])
    ensures ValueSuffix(Some(v)) == " = " + val && Trim(" " + val) == val
    ensures v.VString? ==> val == Quoted(v.s)
    ensures v.VBool? ==> val == if v.b then "true" else "false"
    ensures v.VInt? ==> val == IntToString(v.i)
    ensures v.VFloat? ==> val == v.token
  {
    if v.VString? {
      val := StringSuffix(v.s);
    } else {
      val := AsString(v);
      IsScalarCode(v);
      if v.VInt? {
        TrimNumber(v.i);
      } else {
        TrimSpaced(val);
      }
    }
  }

  /** A string's suffix: ` = ` and the quoted, escaped string. */
  lemma StringSuffix(s: string) returns (val: string)
    ensures ValueSuffix(Some(VString(s))) == " = " + val && val == Quoted(s)
  {
    val := Quoted(s);
    assert " = \"" + EscapeTextDumpString(s) + "\"" == " = " + val;
  }

  /** The scalar kinds other than strings have codes 1 to 11, and their
      suffix is ` = ` and the rendered value. */
  lemma IsScalarCode(v: Value)
    requires v.VBool? || v.VInt? || v.VFloat?
    ensures 1 <= Code(v.ValueType()) <= 11
    ensures ValueSuffix(Some(v)) == " = " + AsString(v)
  {
    if v.VInt? {
      assert 2 <= Code(KindOf(v.t)) <= 9;
    }
  }

  /** A scalar's line is `{flag} {type} {name} = {val}`, and the scan reads
      the scalar's write back from it. */
  lemma ScalarText(t: TemplateField, v: Value) returns (val: string)
    requires ScalarTextWellFormed(t, v)
    ensures FieldLine(t, Some(v)) == AlignFlag(t) + " " + t.typeName + " " + t.name + " = " + val
    ensures Trim(" " + val) == val
    ensures LeafWrites(t.typeName + " " + (t.name + " = " + val), val) == Ok([ScalarWrite(v)])
  {
    match v
    case VString(s) => val := StringText(t, s);
    case VBool(b) => val := BoolText(t, b);
    case VInt(it, i) => val := IntText(t, it, i);
    case VFloat(isDouble, token) => val := FloatText(t, isDouble, token);
  }

  /** ScalarText for a string. */
  lemma StringText(t: TemplateField, s: string) returns (val: string)
    requires ScalarTextWellFormed(t, VString(s))
    ensures FieldLine(t, Some(VString(s))) == AlignFlag(t) + " " + t.typeName + " " + t.name + " = " + val
    ensures Trim(" " + val) == val
    ensures LeafWrites(t.typeName + " " + (t.name + " = " + val), val) == Ok([ScalarWrite(VString(s))])
  {
    val := ScalarSuffix(VString(s));
    StringLeafWrites(t.name + " = " + val, s);
    SuffixAfter(AlignFlag(t) + " " + t.typeName + " " + t.name, val);
  }

  /** ScalarText for a boolean. */
  lemma BoolText(t: TemplateField, b: bool) returns (val: string)
    requires ScalarTextWellFormed(t, VBool(b))
    ensures FieldLine(t, Some(VBool(b))) == AlignFlag(t) + " " + t.typeName + " " + t.name + " = " + val
    ensures Trim(" " + val) == val
    ensures LeafWrites(t.typeName + " " + (t.name + " = " + val), val) == Ok([ScalarWrite(VBool(b))])
  {
    val := ScalarSuffix(VBool(b));
    BoolLeaf(t.typeName, t.name + " = " + val, b);
    SuffixAfter(AlignFlag(t) + " " + t.typeName + " " + t.name, val);
  }

  /** ScalarText for an integer. */
  lemma IntText(t: TemplateField, it: IntType, i: int) returns (val: string)
    requires ScalarTextWellFormed(t, VInt(it, i))
    ensures FieldLine(t, Some(VInt(it, i))) == AlignFlag(t) + " " + t.typeName + " " + t.name + " = " + val
    ensures Trim(" " + val) == val
    ensures LeafWrites(t.typeName + " " + (t.name + " = " + val), val) == Ok([ScalarWrite(VInt(it, i))])
  {
    val := ScalarSuffix(VInt(it, i));
    IntLeaf(t.typeName, t.name + " = " + val, it, i);
    SuffixAfter(AlignFlag(t) + " " + t.typeName + " " + t.name, val);
  }

  /** ScalarText for a float or a double. */
  lemma FloatText(t: TemplateField, isDouble: bool, token: string) returns (val: string)
    requires ScalarTextWellFormed(t, VFloat(isDouble, token))
    ensures FieldLine(t, Some(VFloat(isDouble, token))) == AlignFlag(t) + " " + t.typeName + " " + t.name + " = " + val
    ensures Trim(" " + val) == val
    ensures LeafWrites(t.typeName + " " + (t.name + " = " + val), val) == Ok([ScalarWrite(VFloat(isDouble, token))])
  {
    val := ScalarSuffix(VFloat(isDouble, token));
    FloatLeaf(t.typeName, t.name + " = " + val, isDouble, token);
    SuffixAfter(AlignFlag(t) + " " + t.typeName + " " + t.name, val);
  }

  /** A scalar is serialized as its write, aligned as its line's flag says;
      it holds no blob. */
  lemma EncodeScalar(f: ValueField)
    requires !f.template.isArray && f.value.Some? && ScalarTextWellFormed(f.template, f.value.value)
    ensures Encode(f) == AlignIf([ScalarWrite(f.value.value)], AlignFlag(f.template) == "1")
    ensures Norm(Encode(f)) == Encode(f)
  {
    var w := ScalarWrite(f.value.value);
    EncodeScalarAligned(f);
    NormOne(w);
    NormAlign([w], AlignFlag(f.template) == "1");
  }

  lemma EncodeScalarAligned(f: ValueField)
    requires !f.template.isArray && f.value.Some? && ScalarTextWellFormed(f.template, f.value.value)
    ensures Encode(f) == AlignIf([ScalarWrite(f.value.value)], AlignFlag(f.template) == "1")
  {
  }

  /** A scalar's line writes the scalar's serialized form. */
  lemma ScalarLineAt(f: ValueField, d: nat, st: TextState, m: Mode)
    requires !f.template.isArray && f.value.Some? && PlainNames(f.template)
    requires ScalarTextWellFormed(f.template, f.value.value)
    ensures var u := Unwind(st.stack, d, st.out);
      ImportLine(Line(d, FieldLine(f.template, f.value)), st, m) == Ok(TextState(u.stack, u.out + Encode(f)))
  {
    var t, v := f.template, f.value.value;
    var val := ScalarText(t, v);
    LeafLineWrites(d, AlignFlag(t), t.typeName, t.name, val, st, m, [ScalarWrite(v)]);
    EncodeScalar(f);
    AlignAfter(Unwind(st.stack, d, st.out).out, [ScalarWrite(v)], AlignFlag(t) == "1");
  }

  /** A scalar's line, as a block read at the height of the stack. */
  lemma ScalarBlockAt(f: ValueField, d: nat, st: TextState)
    requires !f.template.isArray && f.value.Some? && PlainNames(f.template)
    requires ScalarTextWellFormed(f.template, f.value.value) && |st.stack| == d
    ensures var l := Line(d, FieldLine(f.template, f.value));
      Opens(l, d) && ImportLines([l], st, Corrected) == Ok(TextState(st.stack, st.out + Encode(f)))
  {
    var c := FieldLine(f.template, f.value);
    ScalarLineAt(f, d, st, Corrected);
    UnwindLevel(st);
    FieldLineHead(f.template, ValueSuffix(f.value));
    LineDepth(d, c);
    assert ImportLines([Line(d, c)][1..], TextState(st.stack, st.out + Encode(f)), Corrected)
      == Ok(TextState(st.stack, st.out + Encode(f)));
  }

  /** The line of a struct or a registry pushes the flag of its alignment. */
  lemma HeadLineAt(t: TemplateField, d: nat, st: TextState)
    requires PlainNames(t) && t.valueType != String && |st.stack| == d
    ensures var l := Line(d, AlignFlag(t) + " " + t.typeName + " " + t.name);
      Opens(l, d) && ImportLine(l, st, Corrected) == Ok(TextState(st.stack + [t.isAligned], st.out))
  {
    var c := AlignFlag(t) + " " + t.typeName + " " + t.name;
    FieldLineHead(t, "");
    assert c + "" == c;
    LineDepth(d, c);
    UnwindLevel(st);
    HeaderLineAt(d, c, st, Corrected);
  }

  /** The `{flag} {type} {name} ({n} items)` line of an array pushes the flag of its alignment. */
  lemma ArrayHeaderAt(t: TemplateField, n: int, d: nat, st: TextState)
    requires PlainNames(t) && t.valueType != String && |st.stack| == d
    ensures var l := Line(d, ArrayHeader(t, n));
      Opens(l, d) && ImportLine(l, st, Corrected) == Ok(TextState(st.stack + [t.isAligned], st.out))
  {
    var suffix := " (" + IntToString(n) + " items)";
    NoEqualsInNumber(n);
    assert '=' !in suffix;
    FieldLineHead(t, suffix);
    var c := ArrayHeader(t, n);
    assert c == AlignFlag(t) + " " + t.typeName + " " + t.name + suffix;
    LineDepth(d, c);
    UnwindLevel(st);
    HeaderLineAt(d, c, st, Corrected);
  }

  // ---------------------------------------------------------------------------
  // Fields

  /** The dump of a field, read from a stack of height `d`, settles to the
      field's serialized form. */
  lemma {:induction false} FieldRoundTrip(f: ValueField, d: nat, acc: seq<string>, st: TextState)
    requires TextWellFormed(f) && |st.stack| == d
    ensures Grows(TextDump(f, d, acc), acc)
    ensures var ls := Added(TextDump(f, d, acc), acc);
      |ls| > 0 && Opens(ls[0], d) && Settles(ImportLines(ls, st, Corrected), st, d, Norm(Encode(f)))
    decreases f, 3, 0
  {
    var t := f.template;
    if t.isArray {
      if t.valueType == ByteArray {
        ByteArrayRoundTrip(f, d, acc, st);
      } else {
        ArrayRoundTrip(f, d, acc, st);
      }
    } else if f.value.None? {
      StructRoundTrip(f, d, acc, st);
    } else if f.value.value.VRegistry? {
      if RegistryOf(f).version == 1 {
        RegistryV1RoundTrip(f, d, acc, st);
      } else {
        RegistryV2RoundTrip(f, d, acc, st);
      }
    } else {
      ScalarRoundTrip(f, d, acc, st);
    }
  }

  /** A scalar: one line. */
  lemma ScalarRoundTrip(f: ValueField, d: nat, acc: seq<string>, st: TextState)
    requires !f.template.isArray && f.value.Some? && !f.value.value.VRegistry? && |f.children| == 0
    requires PlainNames(f.template) && ScalarTextWellFormed(f.template, f.value.value) && |st.stack| == d
    ensures Grows(TextDump(f, d, acc), acc)
    ensures var ls := Added(TextDump(f, d, acc), acc);
      |ls| > 0 && Opens(ls[0], d) && Settles(ImportLines(ls, st, Corrected), st, d, Norm(Encode(f)))
  {
    var l := Line(d, FieldLine(f.template, f.value));
    assert TextDumpFields(f, 0, d + 1, acc + [l]) == Ok(acc + [l]);
    assert TextDump(f, d, acc) == Ok(acc + [l]);
    assert Added(TextDump(f, d, acc), acc) == [l];
    ScalarBlockAt(f, d, st);
    EncodeScalar(f);
    UnwindLevel(TextState(st.stack, st.out + Encode(f)));
  }

  /** A struct: its line, then its fields one level deeper. */
  lemma {:induction false} StructRoundTrip(f: ValueField, d: nat, acc: seq<string>, st: TextState)
    requires !f.template.isArray && f.value.None? && PlainNames(f.template) && f.template.valueType != String
    requires forall k :: 0 <= k < |f.children| ==> TextWellFormed(f.children[k])
    requires |st.stack| == d
    ensures Grows(TextDump(f, d, acc), acc)
    ensures var ls := Added(TextDump(f, d, acc), acc);
      |ls| > 0 && Opens(ls[0], d) && Settles(ImportLines(ls, st, Corrected), st, d, Norm(Encode(f)))
    decreases f, 2, 0
  {
    var t := f.template;
    var l := Line(d, FieldLine(t, None));
    assert FieldLine(t, None) == AlignFlag(t) + " " + t.typeName + " " + t.name;
    var s1 := TextState(st.stack + [t.isAligned], st.out);
    HeadLineAt(t, d, st);
    FieldsRoundTrip(f, 0, d + 1, acc + [l], s1);
    var r := TextDump(f, d, acc);
    assert r == TextDumpFields(f, 0, d + 1, acc + [l]);
    AddedAfter(r, acc, acc + [l]);
    DropPrefix(acc, [l]);
    var rest := Added(r, acc + [l]);
    FirstLine(l, rest, st, s1);
    var x := Norm(EncodeChildren(f, 0));
    Nest(ImportLines(rest, s1, Corrected), st.stack, st.out, t.isAligned, x);
    NormAlign(EncodeChildren(f, 0), t.isAligned);
  }

  /** The fields of `f` from index `i`, each dumped at depth `d`, one block after the other. */
  lemma {:induction false} FieldsRoundTrip(f: ValueField, i: nat, d: nat, acc: seq<string>, st: TextState)
    requires i <= |f.children| && |st.stack| == d
    requires forall k :: i <= k < |f.children| ==> TextWellFormed(f.children[k])
    ensures Grows(TextDumpFields(f, i, d, acc), acc)
    ensures var ls := Added(TextDumpFields(f, i, d, acc), acc);
      (|ls| > 0 ==> Opens(ls[0], d)) && Settles(ImportLines(ls, st, Corrected), st, d, Norm(EncodeChildren(f, i)))
    decreases f, 1, |f.children| - i
  {
    var r := TextDumpFields(f, i, d, acc);
    if i == |f.children| {
      assert r == Ok(acc);
      assert Added(r, acc) == [];
      SettlesEmpty(st, d);
    } else {
      var c := f.children[i];
      var r1 := TextDump(c, d, acc);
      FieldRoundTrip(c, d, acc, st);
      var x := Norm(Encode(c));
      FieldsStep(f, i, d, acc);
      FieldsRoundTrip(f, i + 1, d, r1.value, TextState(st.stack, st.out + x));
      Then(r1, r, acc, st, d, x, Norm(EncodeChildren(f, i + 1)));
    }
  }

  /** The fields from `i` are the field at `i`, then the fields from `i + 1`. */
  lemma FieldsStep(f: ValueField, i: nat, d: nat, acc: seq<string>)
    requires i < |f.children| && TextDump(f.children[i], d, acc).Ok?
    ensures TextDumpFields(f, i, d, acc) == TextDumpFields(f, i + 1, d, TextDump(f.children[i], d, acc).value)
    ensures Norm(EncodeChildren(f, i)) == Norm(Encode(f.children[i])) + Norm(EncodeChildren(f, i + 1))
  {
    NormAppend(Encode(f.children[i]), EncodeChildren(f, i + 1));
  }

  // ---------------------------------------------------------------------------
  // Arrays

  /** The header line and the size line of an array: the header pushes the
      array's alignment and the size line writes the count. */
  lemma ArrayHeadAt(t: TemplateField, n: int, d: nat, st: TextState)
    requires PlainNames(t) && t.valueType != String && |t.children| > 0 && SizeTemplateOk(t.children[0])
    requires InRange(I32, n) && |st.stack| == d
    ensures var l := Line(d, ArrayHeader(t, n));
      Opens(l, d) &&
      ImportLines([l, Line(d + 1, SizeLine(t.children[0], n))], st, Corrected) ==
        Ok(TextState(st.stack + [t.isAligned], st.out + [WInt(I32, n)]))
  {
    var s1 := TextState(st.stack + [t.isAligned], st.out);
    ArrayHeaderAt(t, n, d, st);
    UnwindLevel(s1);
    SizeLineAt(d + 1, t.children[0], n, s1, Corrected);
    TwoLines(Line(d, ArrayHeader(t, n)), Line(d + 1, SizeLine(t.children[0], n)), st, s1,
             TextState(s1.stack, st.out + [WInt(I32, n)]), Corrected);
  }

  /** A count followed by the children, aligned as the array is. */
  lemma NormArray(n: Write, x: seq<Write>, a: bool)
    requires !n.WBytes?
    ensures Norm(AlignIf([n] + x, a)) == [n] + AlignIf(Norm(x), a)
  {
    NormAlign([n] + x, a);
    NormAppend([n], x);
    NormOne(n);
    if a {
      AppendAssoc([n], Norm(x), [WAlign]);
    }
  }

  /** The header and size lines of an array of `n` elements. */
  function ArrayHead(t: TemplateField, n: int, d: nat): seq<string>
    requires |t.children| > 0
  {
    [Line(d, ArrayHeader(t, n)), Line(d + 1, SizeLine(t.children[0], n))]
  }

  /** An array that is not a byte array dumps its head lines, then its elements. */
  lemma ArrayDump(f: ValueField, d: nat, acc: seq<string>)
    requires f.template.isArray && f.template.valueType == Array && |f.template.children| > 0
    requires f.value == Some(VArray(|f.children|))
    ensures TextDump(f, d, acc) == TextDumpElements(f, 0, d, acc + ArrayHead(f.template, |f.children|, d))
  {
  }

  /** An array's serialized form, read byte by byte: the count, then the
      children, aligned as the array is. */
  lemma ArrayEncode(f: ValueField)
    requires f.template.isArray && f.template.valueType == Array
    ensures Norm(Encode(f)) == [WInt(I32, |f.children|)] + AlignIf(Norm(EncodeChildren(f, 0)), f.template.isAligned)
  {
    NormArray(WInt(I32, |f.children|), EncodeChildren(f, 0), f.template.isAligned);
  }

  /** An array that is not a byte array: its header and size lines, then
      each element after its index line. */
  lemma {:induction false} ArrayRoundTrip(f: ValueField, d: nat, acc: seq<string>, st: TextState)
    requires f.template.isArray && f.template.valueType == Array && PlainNames(f.template)
    requires |f.template.children| > 0 && SizeTemplateOk(f.template.children[0])
    requires f.value == Some(VArray(|f.children|)) && InRange(I32, |f.children|)
    requires forall k :: 0 <= k < |f.children| ==> TextWellFormed(f.children[k])
    requires |st.stack| == d
    ensures Grows(TextDump(f, d, acc), acc)
    ensures var ls := Added(TextDump(f, d, acc), acc);
      |ls| > 0 && Opens(ls[0], d) && Settles(ImportLines(ls, st, Corrected), st, d, Norm(Encode(f)))
    decreases f, 2, 0
  {
    var t := f.template;
    var n := |f.children|;
    var head := ArrayHead(t, n, d);
    ArrayHeadAt(t, n, d, st);
    ArrayDump(f, d, acc);
    ArrayEncode(f);
    ElementsRoundTrip(f, 0, d, acc + head, TextState(st.stack + [t.isAligned], st.out + [WInt(I32, n)]));
    Wrap(TextDump(f, d, acc), acc, head, st, t.isAligned, [WInt(I32, n)], Norm(EncodeChildren(f, 0)));
  }

  /** An index line read at the height of the stack pushes an unaligned entry. */
  lemma IndexTop(d: nat, i: int, st: TextState)
    requires |st.stack| == d
    ensures Opens(Line(d, IndexLine(i)), d)
    ensures ImportLine(Line(d, IndexLine(i)), st, Corrected) == Ok(TextState(st.stack + [false], st.out))
  {
    LineDepth(d, IndexLine(i));
    UnwindLevel(st);
    IndexLineAt(d, i, st);
  }

  /** An index line, then a block that settles one level deeper: the whole
      settles at the index line's level. */
  lemma WrapIndex(r: Result<seq<string>, Error>, acc: seq<string>, idx: string, st: TextState, x: seq<Write>)
    requires Grows(r, acc + [idx]) && ImportLine(idx, st, Corrected) == Ok(TextState(st.stack + [false], st.out))
    requires Settles(ImportLines(Added(r, acc + [idx]), TextState(st.stack + [false], st.out), Corrected),
                     TextState(st.stack + [false], st.out), |st.stack| + 1, x)
    ensures Grows(r, acc) && |Added(r, acc)| > 0 && Added(r, acc)[0] == idx
    ensures Settles(ImportLines(Added(r, acc), st, Corrected), st, |st.stack|, x)
  {
    var s1 := TextState(st.stack + [false], st.out);
    AddedAfter(r, acc, acc + [idx]);
    DropPrefix(acc, [idx]);
    FirstLine(idx, Added(r, acc + [idx]), st, s1);
    Nest(ImportLines(Added(r, acc + [idx]), s1, Corrected), st.stack, st.out, false, x);
  }

  /** The elements from `i` are the element at `i` after its index line,
      then the elements from `i + 1`. */
  lemma ElementsStep(f: ValueField, i: nat, d: nat, acc: seq<string>)
    requires i < |f.children| && TextDump(f.children[i], d + 2, acc + [Line(d + 1, IndexLine(i))]).Ok?
    ensures TextDumpElements(f, i, d, acc) ==
      TextDumpElements(f, i + 1, d, TextDump(f.children[i], d + 2, acc + [Line(d + 1, IndexLine(i))]).value)
    ensures Norm(EncodeChildren(f, i)) == Norm(Encode(f.children[i])) + Norm(EncodeChildren(f, i + 1))
  {
    NormAppend(Encode(f.children[i]), EncodeChildren(f, i + 1));
  }

  /** The elements of `f` from index `i`, each after its `[i]` line one
      level below the array's, read from a stack of height `d + 1`. */
  lemma {:induction false} ElementsRoundTrip(f: ValueField, i: nat, d: nat, acc: seq<string>, st: TextState)
    requires i <= |f.children| && |st.stack| == d + 1
    requires forall k :: i <= k < |f.children| ==> TextWellFormed(f.children[k])
    ensures Grows(TextDumpElements(f, i, d, acc), acc)
    ensures var ls := Added(TextDumpElements(f, i, d, acc), acc);
      (|ls| > 0 ==> Opens(ls[0], d + 1)) && Settles(ImportLines(ls, st, Corrected), st, d + 1, Norm(EncodeChildren(f, i)))
    decreases f, 1, |f.children| - i
  {
    var r := TextDumpElements(f, i, d, acc);
    if i == |f.children| {
      assert r == Ok(acc);
      assert Added(r, acc) == [];
      SettlesEmpty(st, d + 1);
    } else {
      var c := f.children[i];
      var idx := Line(d + 1, IndexLine(i));
      var r1 := TextDump(c, d + 2, acc + [idx]);
      var x := Norm(Encode(c));
      IndexTop(d + 1, i, st);
      FieldRoundTrip(c, d + 2, acc + [idx], TextState(st.stack + [false], st.out));
      WrapIndex(r1, acc, idx, st, x);
      ElementsStep(f, i, d, acc);
      ElementsRoundTrip(f, i + 1, d, r1.value, TextState(st.stack, st.out + x));
      Then(r1, r, acc, st, d + 1, x, Norm(EncodeChildren(f, i + 1)));
    }
  }

  // ---------------------------------------------------------------------------
  // Byte arrays

  /** The index line and the data line of one byte, read from a stack of
      height `d + 1`: the index pushes an unaligned entry and the data line
      writes the byte. */
  lemma BytePairAt(d: nat, n: int, b: uint8, st: TextState)
    requires |st.stack| == d + 1
    ensures ImportLines([Line(d + 1, IndexLine(n)), Line(d + 2, ByteDataLine(b))], st, Corrected) ==
      Ok(TextState(st.stack + [false], st.out + [WInt(U8, b)]))
  {
    var s1 := TextState(st.stack + [false], st.out);
    ByteIndexAt(d, n, st);
    ByteAfterIndex(d, b, st, s1);
    TwoLines(Line(d + 1, IndexLine(n)), Line(d + 2, ByteDataLine(b)), st, s1,
             TextState(s1.stack, st.out + [WInt(U8, b)]), Corrected);
  }

  /** The index line of a byte, read from a stack of height `d + 1`. */
  lemma ByteIndexAt(d: nat, n: int, st: TextState)
    requires |st.stack| == d + 1
    ensures ImportLine(Line(d + 1, IndexLine(n)), st, Corrected) == Ok(TextState(st.stack + [false], st.out))
  {
    IndexTop(d + 1, n, st);
  }

  /** A byte's data line, read after its index line pushed an entry. */
  lemma ByteAfterIndex(d: nat, b: uint8, st: TextState, s1: TextState)
    requires |st.stack| == d + 1 && s1 == TextState(st.stack + [false], st.out)
    ensures ImportLine(Line(d + 2, ByteDataLine(b)), s1, Corrected) == Ok(TextState(s1.stack, st.out + [WInt(U8, b)]))
  {
    ByteTop(d + 2, b, s1);
  }

  /** A byte's data line read at the height of the stack writes the byte. */
  lemma ByteTop(d: nat, b: uint8, st: TextState)
    requires |st.stack| == d
    ensures ImportLine(Line(d, ByteDataLine(b)), st, Corrected) == Ok(TextState(st.stack, st.out + [WInt(U8, b)]))
  {
    UnwindLevel(st);
    ByteLineAt(d, b, st, Corrected);
  }

  /** The index and data lines of the bytes, read from a stack of height
      `d + 1`, write the bytes one at a time. */
  lemma {:induction false} BytesRoundTrip(data: seq<uint8>, d: nat, st: TextState)
    requires |st.stack| == d + 1
    ensures Settles(ImportLines(ByteLines(data, d), st, Corrected), st, d + 1, ByteWrites(data))
    decreases |data|
  {
    if |data| == 0 {
      assert ByteLines(data, d) == [];
      SettlesEmpty(st, d + 1);
    } else {
      BytesRoundTrip(data[..|data| - 1], d, st);
      BytesStep(data, d, st);
    }
  }

  /** BytesRoundTrip for all the bytes from BytesRoundTrip for all but the last. */
  lemma BytesStep(data: seq<uint8>, d: nat, st: TextState)
    requires |st.stack| == d + 1 && |data| > 0
    requires Settles(ImportLines(ByteLines(data[..|data| - 1], d), st, Corrected), st, d + 1, ByteWrites(data[..|data| - 1]))
    ensures Settles(ImportLines(ByteLines(data, d), st, Corrected), st, d + 1, ByteWrites(data))
  {
    var n := |data| - 1;
    var prefix := ByteLines(data[..n], d);
    var pair := [Line(d + 1, IndexLine(n)), Line(d + 2, ByteDataLine(data[n]))];
    assert ByteLines(data, d) == prefix + pair;
    ImportLinesAppend(prefix, pair, st, Corrected);
    var r := ImportLines(prefix, st, Corrected).value;
    LineDepth(d + 1, IndexLine(n));
    ResumeAt(pair, r, d + 1);
    var s0 := TextState(st.stack, st.out + ByteWrites(data[..n]));
    assert Unwind(r.stack, d + 1, r.out) == s0;
    BytePairAt(d, n, data[n], s0);
    var out := s0.out + [WInt(U8, data[n])];
    assert ImportLines(ByteLines(data, d), st, Corrected) == Ok(TextState(st.stack + [false], out));
    UnwindPushed(st.stack, false, out);
    ByteWritesLast(data, st.out);
  }

  /** The writes of the bytes: those of all but the last, then the last. */
  lemma ByteWritesLast(data: seq<uint8>, out: seq<Write>)
    requires |data| > 0
    ensures out + ByteWrites(data[..|data| - 1]) + [WInt(U8, data[|data| - 1])] == out + ByteWrites(data)
  {
    var n := |data| - 1;
    assert ByteWrites(data) == ByteWrites(data[..n]) + [WInt(U8, data[n])];
    AppendAssoc(out, ByteWrites(data[..n]), [WInt(U8, data[n])]);
  }

  /** A byte array's blob, read byte by byte. */
  lemma ByteArrayNorm(data: seq<uint8>, a: bool)
    ensures Norm(AlignIf([WInt(I32, |data|), WBytes(data)], a)) == [WInt(I32, |data|)] + AlignIf(ByteWrites(data), a)
  {
    assert [WInt(I32, |data|), WBytes(data)] == [WInt(I32, |data|)] + [WBytes(data)];
    NormArray(WInt(I32, |data|), [WBytes(data)], a);
    assert Norm([WBytes(data)]) == ByteWrites(data) by {
      assert [WBytes(data)][..0] == [];
    }
  }

  /** A byte array: its header and size lines, then its bytes. */
  lemma ByteArrayRoundTrip(f: ValueField, d: nat, acc: seq<string>, st: TextState)
    requires f.template.isArray && f.template.valueType == ByteArray && PlainNames(f.template)
    requires |f.template.children| > 0 && SizeTemplateOk(f.template.children[0])
    requires f.value.Some? && f.value.value.VByteArray? && InRange(I32, |f.value.value.bytes|)
    requires |st.stack| == d
    ensures Grows(TextDump(f, d, acc), acc)
    ensures var ls := Added(TextDump(f, d, acc), acc);
      |ls| > 0 && Opens(ls[0], d) && Settles(ImportLines(ls, st, Corrected), st, d, Norm(Encode(f)))
  {
    var t := f.template;
    var data := f.value.value.bytes;
    var n := |data|;
    var head := [Line(d, ArrayHeader(t, n)), Line(d + 1, SizeLine(t.children[0], n))];
    var s2 := TextState(st.stack + [t.isAligned], st.out + [WInt(I32, n)]);
    ArrayHeadAt(t, n, d, st);
    var r := TextDump(f, d, acc);
    assert r == Ok(acc + head + ByteLines(data, d));
    assert Added(r, acc + head) == ByteLines(data, d);
    BytesRoundTrip(data, d, s2);
    Wrap(r, acc, head, st, t.isAligned, [WInt(I32, n)], ByteWrites(data));
    assert Encode(f) == AlignIf([WInt(I32, n), WBytes(data)], t.isAligned);
    ByteArrayNorm(data, t.isAligned);
  }

  // ---------------------------------------------------------------------------
  // Registries

  /** The writes a registry object's data stands for in the serialized form. */
  function DataWrites(r: ReferencedObject): (w: seq<Write>)
    ensures r.typeRef == Terminus ==> w == []
  {
    if r.typeRef == Terminus then [] else Encode(r.data)
  }

  /** The data of a registry object, read as a struct without its own line. */
  lemma DataNorm(r: ReferencedObject)
    requires RefDataOk(r)
    ensures Norm(DataWrites(r)) == Norm(EncodeChildren(r.data, 0))
  {
    if r.typeRef == Terminus {
      assert EncodeChildren(r.data, 0) == [];
    } else {
      assert Encode(r.data) == EncodeChildren(r.data, 0);
    }
  }

  /** `EncodeRefs` read byte by byte, one object of a version-1 registry at a time. */
  lemma RefsStepV1(f: ValueField, i: nat, ro: ReferencedObject)
    requires HasRegistry(f) && RegistryOf(f).version == 1
    requires i < |RegistryOf(f).references| && ro == RegistryOf(f).references[i]
    ensures Norm(EncodeRefs(f, i)) == TypeRefWrites(ro.typeRef) + Norm(DataWrites(ro)) + Norm(EncodeRefs(f, i + 1))
  {
    EncodeRefsAt(f, i, ro, []);
    assert [] + TypeRefWrites(ro.typeRef) == TypeRefWrites(ro.typeRef);
    NormTypeRef(ro.typeRef);
    NormAround3(TypeRefWrites(ro.typeRef), DataWrites(ro), EncodeRefs(f, i + 1));
  }

  /** `EncodeRefs` read byte by byte, one object of a version-2 registry at a time. */
  lemma RefsStepV2(f: ValueField, i: nat, ro: ReferencedObject)
    requires HasRegistry(f) && RegistryOf(f).version == 2
    requires i < |RegistryOf(f).references| && ro == RegistryOf(f).references[i]
    ensures Norm(EncodeRefs(f, i)) ==
      [WInt(I64, ro.rid)] + TypeRefWrites(ro.typeRef) + Norm(DataWrites(ro)) + Norm(EncodeRefs(f, i + 1))
  {
    var h := [WInt(I64, ro.rid)] + TypeRefWrites(ro.typeRef);
    EncodeRefsAt(f, i, ro, [WInt(I64, ro.rid)]);
    assert Norm(h) == h by {
      NormOne(WInt(I64, ro.rid));
      NormTypeRef(ro.typeRef);
      NormAppend([WInt(I64, ro.rid)], TypeRefWrites(ro.typeRef));
    }
    NormAround3(h, DataWrites(ro), EncodeRefs(f, i + 1));
  }

  /** One object of `EncodeRefs`, whose rid part is `a`. */
  lemma EncodeRefsAt(f: ValueField, i: nat, ro: ReferencedObject, a: seq<Write>)
    requires HasRegistry(f) && i < |RegistryOf(f).references| && ro == RegistryOf(f).references[i]
    requires a == if RegistryOf(f).version != 1 then [WInt(I64, ro.rid)] else []
    ensures EncodeRefs(f, i) == a + TypeRefWrites(ro.typeRef) + DataWrites(ro) + EncodeRefs(f, i + 1)
  {
  }

  /** A head that reads as itself, a middle part and a tail. */
  lemma NormAround3(h: seq<Write>, e: seq<Write>, g: seq<Write>)
    requires Norm(h) == h
    ensures Norm(h + e + g) == h + Norm(e) + Norm(g)
  {
    NormAppend(h + e, g);
    NormAppend(h, e);
  }

  /** Head lines of known effect that push one entry, then a body that
      settles one level deeper: the whole settles at the old height. */
  lemma Wrap(r: Result<seq<string>, Error>, acc: seq<string>, hd: seq<string>, st: TextState, a: bool,
             p: seq<Write>, x: seq<Write>)
    requires |hd| > 0 && Grows(r, acc + hd)
    requires ImportLines(hd, st, Corrected) == Ok(TextState(st.stack + [a], st.out + p))
    requires Settles(ImportLines(Added(r, acc + hd), TextState(st.stack + [a], st.out + p), Corrected),
                     TextState(st.stack + [a], st.out + p), |st.stack| + 1, x)
    ensures Grows(r, acc) && |Added(r, acc)| > 0 && Added(r, acc)[0] == hd[0]
    ensures Settles(ImportLines(Added(r, acc), st, Corrected), st, |st.stack|, p + AlignIf(x, a))
  {
    var s2 := TextState(st.stack + [a], st.out + p);
    AddedAfter(r, acc, acc + hd);
    DropPrefix(acc, hd);
    var rest := Added(r, acc + hd);
    FirstBlock(hd, rest, st, s2);
    var res := ImportLines(rest, s2, Corrected);
    Nest(res, st.stack, st.out + p, a, x);
    Shift(res, st, p, |st.stack|, AlignIf(x, a));
  }

  /** As `Wrap`, for head lines that push two unaligned entries and an aligned one. */
  lemma Wrap3(r: Result<seq<string>, Error>, acc: seq<string>, hd: seq<string>, st: TextState,
              p: seq<Write>, x: seq<Write>)
    requires |hd| > 0 && Grows(r, acc + hd)
    requires ImportLines(hd, st, Corrected) == Ok(TextState(st.stack + [false, false, true], st.out + p))
    requires Settles(ImportLines(Added(r, acc + hd), TextState(st.stack + [false, false, true], st.out + p), Corrected),
                     TextState(st.stack + [false, false, true], st.out + p), |st.stack| + 3, x)
    ensures Grows(r, acc) && |Added(r, acc)| > 0 && Added(r, acc)[0] == hd[0]
    ensures Settles(ImportLines(Added(r, acc), st, Corrected), st, |st.stack|, p + AlignIf(x, true))
  {
    var s2 := TextState(st.stack + [false, false, true], st.out + p);
    var k1 := st.stack + [false];
    var k2 := k1 + [false];
    PushThree(st.stack);
    assert k2 + [true] == st.stack + [false, false, true];
    AddedAfter(r, acc, acc + hd);
    DropPrefix(acc, hd);
    var rest := Added(r, acc + hd);
    FirstBlock(hd, rest, st, s2);
    var res := ImportLines(rest, s2, Corrected);
    var y := AlignIf(x, true);
    Nest(res, k2, st.out + p, true, x);
    Nest(res, k1, st.out + p, false, y);
    Nest(res, st.stack, st.out + p, false, y);
    Shift(res, st, p, |st.stack|, y);
  }

  /** A block that settles to `x`, then more lines at the same depth that
      settle to `y`: together they settle to `x + y`. */
  lemma Then(r1: Result<seq<string>, Error>, r: Result<seq<string>, Error>, acc: seq<string>, st: TextState, d: nat,
             x: seq<Write>, y: seq<Write>)
    requires |st.stack| == d && Grows(r1, acc) && Grows(r, r1.value) && |Added(r1, acc)| > 0
    requires Settles(ImportLines(Added(r1, acc), st, Corrected), st, d, x)
    requires |Added(r, r1.value)| > 0 ==> Opens(Added(r, r1.value)[0], d)
    requires Settles(ImportLines(Added(r, r1.value), TextState(st.stack, st.out + x), Corrected),
                     TextState(st.stack, st.out + x), d, y)
    ensures Grows(r, acc) && |Added(r, acc)| > 0 && Added(r, acc)[0] == Added(r1, acc)[0]
    ensures Settles(ImportLines(Added(r, acc), st, Corrected), st, d, x + y)
  {
    AddedAfter(r, acc, r1.value);
    ScanSplit(acc, r1.value, r.value, st, d, x, y);
  }

  /** The first line of a version-1 object's header opens it one level below the registry's line. */
  lemma RefHeaderV1Opens(i: nat, r: TypeReference, d: nat)
    ensures |RefHeaderV1(i, r, d)| > 0 && Opens(RefHeaderV1(i, r, d)[0], d + 1)
  {
    RefObjectName(i);
    LineDepth(d + 1, "0 ReferencedObject " + ZeroPad(i, 8));
  }

  /** The first line of a version-2 object's header opens it three levels below the registry's line. */
  lemma RefHeaderV2Opens(rid: int, r: TypeReference, d: nat)
    ensures |RefHeaderV2(rid, r, d)| > 0 && Opens(RefHeaderV2(rid, r, d)[0], d + 3)
  {
    LineDepth(d + 3, "0 ReferencedObject data");
  }

  /** A header block that leaves two unaligned entries pushed on a stack of
      height `k` and writes `p`, then the fields of `data` two levels
      deeper: they settle at `k` to `p` and the fields' writes. */
  lemma {:induction false} RefBlock(hd: seq<string>, data: ValueField, k: nat, acc: seq<string>, st: TextState,
                                    p: seq<Write>)
    requires |st.stack| == k && |hd| > 0
    requires ImportLines(hd, st, Corrected) == Ok(TextState(st.stack + [false, false], st.out + p))
    requires forall j :: 0 <= j < |data.children| ==> TextWellFormed(data.children[j])
    ensures Grows(TextDumpFields(data, 0, k + 2, acc + hd), acc)
    ensures var ls := Added(TextDumpFields(data, 0, k + 2, acc + hd), acc);
      |ls| > 0 && ls[0] == hd[0] &&
      Settles(ImportLines(ls, st, Corrected), st, k, p + Norm(EncodeChildren(data, 0)))
    decreases data, 2
  {
    var s2 := TextState(st.stack + [false] + [false], st.out + p);
    AppendTwo(st.stack, false, false);
    FieldsRoundTrip(data, 0, k + 2, acc + hd, s2);
    var rf := TextDumpFields(data, 0, k + 2, acc + hd);
    AddedAfter(rf, acc, acc + hd);
    DropPrefix(acc, hd);
    FirstBlock(hd, Added(rf, acc + hd), st, s2);
    var x := Norm(EncodeChildren(data, 0));
    var res := ImportLines(Added(rf, acc + hd), s2, Corrected);
    Nest(res, st.stack + [false], st.out + p, false, x);
    Nest(res, st.stack, st.out + p, false, x);
    Shift(res, st, p, k, x);
  }

  /** The objects of a version-1 registry from index `i`, then its terminus
      block, read from a stack of height `d + 1`. */
  lemma {:induction false} RefsV1RoundTrip(f: ValueField, i: nat, d: nat, acc: seq<string>, st: TextState)
    requires HasRegistry(f) && RegistryOf(f).version == 1 && RefsTextOk(RegistryOf(f))
    requires i <= |RegistryOf(f).references| && |st.stack| == d + 1
    ensures Grows(TextDumpRefsV1(f, i, d, acc), acc)
    ensures var ls := Added(TextDumpRefsV1(f, i, d, acc), acc);
      |ls| > 0 && Opens(ls[0], d + 1) &&
      Settles(ImportLines(ls, st, Corrected), st, d + 1, Norm(EncodeRefs(f, i)) + TypeRefWrites(Terminus))
    decreases f, 0, |RegistryOf(f).references| - i, 1
  {
    if i == |RegistryOf(f).references| {
      RefsV1End(f, i, d, acc, st);
    } else {
      RefsV1Step(f, i, d, acc, st);
    }
  }

  /** The terminus block of a version-1 registry. */
  lemma RefsV1End(f: ValueField, i: nat, d: nat, acc: seq<string>, st: TextState)
    requires HasRegistry(f) && i == |RegistryOf(f).references| && |st.stack| == d + 1
    ensures Grows(TextDumpRefsV1(f, i, d, acc), acc)
    ensures var ls := Added(TextDumpRefsV1(f, i, d, acc), acc);
      |ls| > 0 && Opens(ls[0], d + 1) &&
      Settles(ImportLines(ls, st, Corrected), st, d + 1, Norm(EncodeRefs(f, i)) + TypeRefWrites(Terminus))
  {
    var hd := RefHeaderV1(i, Terminus, d);
    assert TextDumpRefsV1(f, i, d, acc) == Ok(acc + hd);
    assert Added(TextDumpRefsV1(f, i, d, acc), acc) == hd;
    RefHeaderV1Opens(i, Terminus, d);
    RefHeaderV1At(i, Terminus, d, st);
    UnwindTwoFalse(st.stack, st.out + TypeRefWrites(Terminus));
    assert EncodeRefs(f, i) == [];
    assert Norm(EncodeRefs(f, i)) + TypeRefWrites(Terminus) == TypeRefWrites(Terminus);
  }

  /** One object of a version-1 registry, then the rest. */
  lemma {:induction false} RefsV1Step(f: ValueField, i: nat, d: nat, acc: seq<string>, st: TextState)
    requires HasRegistry(f) && RegistryOf(f).version == 1 && RefsTextOk(RegistryOf(f))
    requires i < |RegistryOf(f).references| && |st.stack| == d + 1
    ensures Grows(TextDumpRefsV1(f, i, d, acc), acc)
    ensures var ls := Added(TextDumpRefsV1(f, i, d, acc), acc);
      |ls| > 0 && Opens(ls[0], d + 1) &&
      Settles(ImportLines(ls, st, Corrected), st, d + 1, Norm(EncodeRefs(f, i)) + TypeRefWrites(Terminus))
    decreases f, 0, |RegistryOf(f).references| - i, 0
  {
    var ro := RegistryOf(f).references[i];
    var hd := RefHeaderV1(i, ro.typeRef, d);
    var r1 := TextDumpFields(ro.data, 0, d + 3, acc + hd);
    var r := TextDumpRefsV1(f, i, d, acc);
    RefHeaderV1Opens(i, ro.typeRef, d);
    RefHeaderV1At(i, ro.typeRef, d, st);
    RefBlock(hd, ro.data, d + 1, acc, st, TypeRefWrites(ro.typeRef));
    DataNorm(ro);
    var x := TypeRefWrites(ro.typeRef) + Norm(DataWrites(ro));
    RefsV1RoundTrip(f, i + 1, d, r1.value, TextState(st.stack, st.out + x));
    RefsV1Next(f, i, d, acc);
    var y := Norm(EncodeRefs(f, i + 1)) + TypeRefWrites(Terminus);
    Then(r1, r, acc, st, d + 1, x, y);
    RefsStepV1(f, i, ro);
    AppendAssoc(TypeRefWrites(ro.typeRef) + Norm(DataWrites(ro)), Norm(EncodeRefs(f, i + 1)), TypeRefWrites(Terminus));
  }

  /** The objects of a version-2 registry from index `i`, read from a stack
      of height `d + 3`. */
  lemma {:induction false} RefsV2RoundTrip(f: ValueField, i: nat, d: nat, acc: seq<string>, st: TextState)
    requires HasRegistry(f) && RegistryOf(f).version == 2 && RefsTextOk(RegistryOf(f))
    requires i <= |RegistryOf(f).references| && |st.stack| == d + 3
    ensures Grows(TextDumpRefsV2(f, i, d, acc), acc)
    ensures var ls := Added(TextDumpRefsV2(f, i, d, acc), acc);
      (|ls| > 0 ==> Opens(ls[0], d + 3)) && Settles(ImportLines(ls, st, Corrected), st, d + 3, Norm(EncodeRefs(f, i)))
    decreases f, 0, |RegistryOf(f).references| - i, 2
  {
    if i == |RegistryOf(f).references| {
      var r := TextDumpRefsV2(f, i, d, acc);
      assert r == Ok(acc);
      assert Added(r, acc) == [];
      SettlesEmpty(st, d + 3);
    } else {
      RefsV2Step(f, i, d, acc, st);
    }
  }

  /** One object of a version-2 registry: its header, then its data. */
  lemma RefV2Block(f: ValueField, i: nat, d: nat, acc: seq<string>, st: TextState)
    requires HasRegistry(f) && RegistryOf(f).version == 2 && RefsTextOk(RegistryOf(f))
    requires i < |RegistryOf(f).references| && |st.stack| == d + 3
    ensures var ro := RegistryOf(f).references[i];
      var r1 := TextDumpFields(ro.data, 0, d + 5, acc + RefHeaderV2(ro.rid, ro.typeRef, d));
      Grows(r1, acc) && |Added(r1, acc)| > 0 && Opens(Added(r1, acc)[0], d + 3) &&
      Settles(ImportLines(Added(r1, acc), st, Corrected), st, d + 3,
              [WInt(I64, ro.rid)] + TypeRefWrites(ro.typeRef) + Norm(DataWrites(ro)))
    decreases f, 0, |RegistryOf(f).references| - i, 0
  {
    var ro := RegistryOf(f).references[i];
    var hd := RefHeaderV2(ro.rid, ro.typeRef, d);
    var p := [WInt(I64, ro.rid)] + TypeRefWrites(ro.typeRef);
    RefHeaderV2Opens(ro.rid, ro.typeRef, d);
    RefHeaderV2At(ro.rid, ro.typeRef, d, st);
    AppendAssoc(st.out, [WInt(I64, ro.rid)], TypeRefWrites(ro.typeRef));
    RefBlock(hd, ro.data, d + 3, acc, st, p);
    DataNorm(ro);
  }

  /** One object of a version-2 registry, then the rest. */
  lemma {:induction false} RefsV2Step(f: ValueField, i: nat, d: nat, acc: seq<string>, st: TextState)
    requires HasRegistry(f) && RegistryOf(f).version == 2 && RefsTextOk(RegistryOf(f))
    requires i < |RegistryOf(f).references| && |st.stack| == d + 3
    ensures Grows(TextDumpRefsV2(f, i, d, acc), acc)
    ensures var ls := Added(TextDumpRefsV2(f, i, d, acc), acc);
      |ls| > 0 && Opens(ls[0], d + 3) && Settles(ImportLines(ls, st, Corrected), st, d + 3, Norm(EncodeRefs(f, i)))
    decreases f, 0, |RegistryOf(f).references| - i, 1
  {
    var ro := RegistryOf(f).references[i];
    var r1 := TextDumpFields(ro.data, 0, d + 5, acc + RefHeaderV2(ro.rid, ro.typeRef, d));
    var r := TextDumpRefsV2(f, i, d, acc);
    var x := [WInt(I64, ro.rid)] + TypeRefWrites(ro.typeRef) + Norm(DataWrites(ro));
    RefV2Block(f, i, d, acc, st);
    RefsV2RoundTrip(f, i + 1, d, r1.value, TextState(st.stack, st.out + x));
    RefsV2Next(f, i, d, acc);
    Then(r1, r, acc, st, d + 3, x, Norm(EncodeRefs(f, i + 1)));
    RefsStepV2(f, i, ro);
  }

  /** Once object `i` of a version-1 registry is dumped, the dump goes on from `i + 1`. */
  lemma RefsV1Next(f: ValueField, i: nat, d: nat, acc: seq<string>)
    requires HasRegistry(f) && i < |RegistryOf(f).references|
    requires var ro := RegistryOf(f).references[i];
      TextDumpFields(ro.data, 0, d + 3, acc + RefHeaderV1(i, ro.typeRef, d)).Ok?
    ensures var ro := RegistryOf(f).references[i];
      TextDumpRefsV1(f, i, d, acc) ==
        TextDumpRefsV1(f, i + 1, d, TextDumpFields(ro.data, 0, d + 3, acc + RefHeaderV1(i, ro.typeRef, d)).value)
  {
  }

  /** Once object `i` of a version-2 registry is dumped, the dump goes on from `i + 1`. */
  lemma RefsV2Next(f: ValueField, i: nat, d: nat, acc: seq<string>)
    requires HasRegistry(f) && i < |RegistryOf(f).references|
    requires var ro := RegistryOf(f).references[i];
      TextDumpFields(ro.data, 0, d + 5, acc + RefHeaderV2(ro.rid, ro.typeRef, d)).Ok?
    ensures var ro := RegistryOf(f).references[i];
      TextDumpRefsV2(f, i, d, acc) ==
        TextDumpRefsV2(f, i + 1, d, TextDumpFields(ro.data, 0, d + 5, acc + RefHeaderV2(ro.rid, ro.typeRef, d)).value)
  {
  }

  /** The `0 int size = {n}` line of a version-2 registry. */
  lemma CountLineAt(d: nat, n: int, st: TextState)
    requires InRange(I32, n) && |st.stack| == d
    ensures ImportLine(Line(d, "0 int size = " + IntToString(n)), st, Corrected) == Ok(TextState(st.stack, st.out + [WInt(I32, n)]))
  {
    UnwindLevel(st);
    CountNames();
    PrefixIntLineAt(d, "0 int size = ", "int", "size", I32, n, st, Corrected);
  }

  lemma CountNames()
    ensures "0 int size = " == "0" + " " + "int" + " " + "size" + " = "
    ensures '=' !in "int" && '=' !in "size" && "int" in TypeParsers && TypeParsers["int"] == IntParser(I32)
  {
  }

  /** The header lines of a version-2 registry hold no `=`. */
  lemma VectorNames()
    ensures PlainHeader("0 vector RefIds") && '=' !in "1 Array Array"
  {
    var a, b := "0 vector RefIds", "1 Array Array";
    assert forall k :: 0 <= k < |a| ==> a[k] != '=';
    assert forall k :: 0 <= k < |b| ==> b[k] != '=';
  }

  /** Four lines read one after the other. */
  lemma FourLines(l1: string, l2: string, l3: string, l4: string, st: TextState, s3: TextState, s4: TextState)
    requires ImportLines([l1, l2, l3], st, Corrected) == Ok(s3) && ImportLine(l4, s3, Corrected) == Ok(s4)
    ensures ImportLines([l1, l2, l3, l4], st, Corrected) == Ok(s4)
  {
    assert ImportLines([l4], s3, Corrected) == Ok(s4);
    Chain([l1, l2, l3], [l4], st, s3, s4);
    assert [l1, l2, l3] + [l4] == [l1, l2, l3, l4];
  }

  /** The two lines that open the vector of a version-2 registry, read from
      a stack of height `d + 1`, push an unaligned and an aligned entry. */
  lemma VectorLinesAt(d: nat, st: TextState)
    requires |st.stack| == d + 1
    ensures ImportLines([Line(d + 1, "0 vector RefIds"), Line(d + 2, "1 Array Array")], st, Corrected) ==
      Ok(TextState(st.stack + [false, true], st.out))
  {
    VectorNames();
    TwoPushes(d + 1, "0 vector RefIds", "1 Array Array", st);
  }

  /** Two header lines, each one level deeper than the stack is high, push
      their flags. */
  lemma TwoPushes(d: nat, c1: string, c2: string, st: TextState)
    requires |st.stack| == d && PlainHeader(c1) && |c2| > 0 && c2[0] == '1' && '=' !in c2
    ensures ImportLines([Line(d, c1), Line(d + 1, c2)], st, Corrected) == Ok(TextState(st.stack + [false, true], st.out))
  {
    var s2 := TextState(st.stack + [false], st.out);
    PushAt(d, c1, st, Corrected);
    PushAt(d + 1, c2, s2, Corrected);
    AppendTwo(st.stack, false, true);
    TwoLines(Line(d, c1), Line(d + 1, c2), st, s2, TextState(st.stack + [false, true], st.out), Corrected);
  }

  /** A line, then two lines, read one after the other. */
  lemma LineThenTwo(l1: string, l2: string, l3: string, st: TextState, s1: TextState, s3: TextState)
    requires ImportLine(l1, st, Corrected) == Ok(s1) && ImportLines([l2, l3], s1, Corrected) == Ok(s3)
    ensures ImportLines([l1, l2, l3], st, Corrected) == Ok(s3)
  {
    ConsLine(l1, [l2, l3], st, s1, s3, Corrected);
    assert [l1] + [l2, l3] == [l1, l2, l3];
  }

  /** The version line and the two lines that open the vector of a version-2
      registry, read from a stack of height `d + 1`. */
  lemma VectorOpeningAt(v: int, d: nat, st: TextState)
    requires InRange(I32, v) && |st.stack| == d + 1
    ensures ImportLines([Line(d + 1, "0 int version = " + IntToString(v)), Line(d + 1, "0 vector RefIds"),
                         Line(d + 2, "1 Array Array")], st, Corrected) ==
      Ok(TextState(st.stack + [false, true], st.out + [WInt(I32, v)]))
  {
    var s1 := TextState(st.stack, st.out + [WInt(I32, v)]);
    VersionTop(d + 1, v, st);
    VectorLinesAt(d, s1);
    LineThenTwo(Line(d + 1, "0 int version = " + IntToString(v)), Line(d + 1, "0 vector RefIds"),
                Line(d + 2, "1 Array Array"), st, s1, TextState(st.stack + [false, true], s1.out));
  }

  /** The four lines that follow a version-2 registry's own line, read from
      a stack of height `d + 1`: the version and the count are written and
      the vector's two entries are pushed. */
  lemma RegistryV2OpeningAt(v: int, n: int, d: nat, st: TextState)
    requires InRange(I32, v) && InRange(I32, n) && |st.stack| == d + 1
    ensures ImportLines([Line(d + 1, "0 int version = " + IntToString(v)), Line(d + 1, "0 vector RefIds"),
                         Line(d + 2, "1 Array Array"), Line(d + 3, "0 int size = " + IntToString(n))], st, Corrected) ==
      Ok(TextState(st.stack + [false, true], st.out + [WInt(I32, v), WInt(I32, n)]))
  {
    var s3 := TextState(st.stack + [false, true], st.out + [WInt(I32, v)]);
    VectorOpeningAt(v, d, st);
    CountAfterVector(v, n, d, st.out, s3);
    FourLines(Line(d + 1, "0 int version = " + IntToString(v)), Line(d + 1, "0 vector RefIds"),
              Line(d + 2, "1 Array Array"), Line(d + 3, "0 int size = " + IntToString(n)), st, s3,
              TextState(s3.stack, st.out + [WInt(I32, v), WInt(I32, n)]));
  }

  /** The count line of a version-2 registry, read once its vector is open. */
  lemma CountAfterVector(v: int, n: int, d: nat, out: seq<Write>, s3: TextState)
    requires InRange(I32, n) && |s3.stack| == d + 3 && s3.out == out + [WInt(I32, v)]
    ensures ImportLine(Line(d + 3, "0 int size = " + IntToString(n)), s3, Corrected) ==
      Ok(TextState(s3.stack, out + [WInt(I32, v), WInt(I32, n)]))
  {
    CountLineAt(d + 3, n, s3);
    AppendTwo(out, WInt(I32, v), WInt(I32, n));
  }

  /** A registry's own line holds no value. */
  lemma RegistryLine(f: ValueField)
    requires HasRegistry(f)
    ensures FieldLine(f.template, f.value) == AlignFlag(f.template) + " " + f.template.typeName + " " + f.template.name
  {
    assert ValueSuffix(f.value) == "";
  }

  /** A version line read at the height of the stack writes the version. */
  lemma VersionTop(d: nat, v: int, st: TextState)
    requires InRange(I32, v) && |st.stack| == d
    ensures ImportLine(Line(d, "0 int version = " + IntToString(v)), st, Corrected) ==
      Ok(TextState(st.stack, st.out + [WInt(I32, v)]))
  {
    UnwindLevel(st);
    VersionLineAt(d, v, st, Corrected);
  }

  /** A registry's own line and its version line, read at the height of the
      stack: an unaligned entry is pushed and the version written. */
  lemma RegistryV1HeadAt(t: TemplateField, v: int, d: nat, st: TextState)
    requires PlainNames(t) && t.valueType == ManagedReferencesRegistry && !t.isAligned
    requires InRange(I32, v) && |st.stack| == d
    ensures var hd := [Line(d, AlignFlag(t) + " " + t.typeName + " " + t.name), Line(d + 1, "0 int version = " + IntToString(v))];
      Opens(hd[0], d) && ImportLines(hd, st, Corrected) == Ok(TextState(st.stack + [false], st.out + [WInt(I32, v)]))
  {
    var s1 := TextState(st.stack + [false], st.out);
    HeadLineAt(t, d, st);
    VersionTop(d + 1, v, s1);
    TwoLines(Line(d, AlignFlag(t) + " " + t.typeName + " " + t.name), Line(d + 1, "0 int version = " + IntToString(v)),
             st, s1, TextState(s1.stack, st.out + [WInt(I32, v)]), Corrected);
  }

  /** A registry's own line and the four lines after it, read at the height
      of the stack: the version and the count are written and three entries
      pushed. */
  lemma RegistryV2HeadAt(t: TemplateField, v: int, n: int, d: nat, st: TextState)
    requires InRange(I32, v) && InRange(I32, n) && PlainNames(t) && t.valueType == ManagedReferencesRegistry
    requires !t.isAligned && |st.stack| == d
    ensures var hd := [Line(d, AlignFlag(t) + " " + t.typeName + " " + t.name),
                 Line(d + 1, "0 int version = " + IntToString(v)), Line(d + 1, "0 vector RefIds"),
                 Line(d + 2, "1 Array Array"), Line(d + 3, "0 int size = " + IntToString(n))];
      Opens(hd[0], d) &&
      ImportLines(hd, st, Corrected) == Ok(TextState(st.stack + [false, false, true], st.out + [WInt(I32, v), WInt(I32, n)]))
  {
    var l1 := Line(d, AlignFlag(t) + " " + t.typeName + " " + t.name);
    var s1 := TextState(st.stack + [false], st.out);
    var s5 := TextState(st.stack + [false, false, true], st.out + [WInt(I32, v), WInt(I32, n)]);
    HeadLineAt(t, d, st);
    RegistryV2OpeningAt(v, n, d, s1);
    PushThree(st.stack);
    FiveLines(l1, Line(d + 1, "0 int version = " + IntToString(v)), Line(d + 1, "0 vector RefIds"),
              Line(d + 2, "1 Array Array"), Line(d + 3, "0 int size = " + IntToString(n)), st, s1, s5);
  }

  /** An unaligned entry, then the vector's two entries. */
  lemma PushThree(stack: seq<bool>)
    ensures stack + [false] + [false, true] == stack + [false, false, true]
  {
  }

  /** A line, then four lines, read one after the other. */
  lemma FiveLines(l1: string, l2: string, l3: string, l4: string, l5: string, st: TextState, s1: TextState, s5: TextState)
    requires ImportLine(l1, st, Corrected) == Ok(s1) && ImportLines([l2, l3, l4, l5], s1, Corrected) == Ok(s5)
    ensures ImportLines([l1, l2, l3, l4, l5], st, Corrected) == Ok(s5)
  {
    ConsFive(l1, l2, l3, l4, l5);
    ConsLine(l1, [l2, l3, l4, l5], st, s1, s5, Corrected);
  }

  lemma ConsFive(l1: string, l2: string, l3: string, l4: string, l5: string)
    ensures [l1] + [l2, l3, l4, l5] == [l1, l2, l3, l4, l5]
  {
  }

  /** A write that is not a blob reads as itself. */
  lemma NormOne(w: Write)
    requires !w.WBytes?
    ensures Norm([w]) == [w]
  {
    assert [w][..0] == [];
  }

  /** Writes around a middle part that read as themselves. */
  lemma NormAround(v: seq<Write>, e: seq<Write>, w: seq<Write>)
    requires Norm(v) == v && Norm(w) == w
    ensures Norm(v + e + w) == v + Norm(e) + w
  {
    NormAppend(v + e, w);
    NormAppend(v, e);
  }

  /** A version-1 registry's serialized form, read byte by byte. */
  lemma RegistryNormV1(f: ValueField)
    requires HasRegistry(f) && RegistryOf(f).version == 1
    ensures Norm(EncodeRegistry(f)) == [WInt(I32, 1)] + Norm(EncodeRefs(f, 0)) + TypeRefWrites(Terminus)
  {
    RegistryWritesV1(f);
    NormOne(WInt(I32, 1));
    NormTypeRef(Terminus);
    NormAround([WInt(I32, 1)], EncodeRefs(f, 0), TypeRefWrites(Terminus));
  }

  lemma RegistryWritesV1(f: ValueField)
    requires HasRegistry(f) && RegistryOf(f).version == 1
    ensures EncodeRegistry(f) == [WInt(I32, 1)] + EncodeRefs(f, 0) + TypeRefWrites(Terminus)
  {
  }

  /** A version-2 registry's serialized form, read byte by byte. */
  lemma RegistryNormV2(f: ValueField)
    requires HasRegistry(f) && RegistryOf(f).version == 2
    ensures Norm(EncodeRegistry(f)) ==
      [WInt(I32, 2), WInt(I32, |RegistryOf(f).references|)] + Norm(EncodeRefs(f, 0)) + [WAlign]
  {
    var v := [WInt(I32, 2), WInt(I32, |RegistryOf(f).references|)];
    assert Norm(v) == v by {
      NormOne(v[0]);
      assert v[..1] == [v[0]];
    }
    NormOne(WAlign);
    NormAround(v, EncodeRefs(f, 0), [WAlign]);
  }

  /** A registry field dumps its own line, then its registry. */
  lemma DumpOfRegistry(f: ValueField, d: nat, acc: seq<string>)
    requires !f.template.isArray && HasRegistry(f)
    ensures TextDump(f, d, acc) == TextDumpRegistry(f, d, acc + [Line(d, FieldLine(f.template, f.value))])
  {
  }

  /** A registry field serializes as its registry. */
  lemma EncodeOfRegistry(f: ValueField)
    requires !f.template.isArray && HasRegistry(f)
    ensures Encode(f) == EncodeRegistry(f)
  {
  }

  /** The lines a version-1 registry field dumps before its objects. */
  function RegistryV1Head(f: ValueField, d: nat): seq<string>
    requires HasRegistry(f)
  {
    [Line(d, FieldLine(f.template, f.value)), Line(d + 1, "0 int version = " + IntToString(RegistryOf(f).version))]
  }

  /** The lines a version-2 registry field dumps before its objects. */
  function RegistryV2Head(f: ValueField, d: nat): seq<string>
    requires HasRegistry(f)
  {
    [Line(d, FieldLine(f.template, f.value)),
     Line(d + 1, "0 int version = " + IntToString(RegistryOf(f).version)), Line(d + 1, "0 vector RefIds"),
     Line(d + 2, "1 Array Array"), Line(d + 3, "0 int size = " + IntToString(|RegistryOf(f).references|))]
  }

  /** A version-1 registry's head lines push an unaligned entry and write the version. */
  lemma RegistryV1Lines(f: ValueField, d: nat, st: TextState)
    requires HasRegistry(f) && RegistryOf(f).version == 1
    requires PlainNames(f.template) && f.template.valueType == ManagedReferencesRegistry && !f.template.isAligned
    requires |st.stack| == d
    ensures var hd := RegistryV1Head(f, d);
      Opens(hd[0], d) && ImportLines(hd, st, Corrected) == Ok(TextState(st.stack + [false], st.out + [WInt(I32, 1)]))
  {
    RegistryLine(f);
    RegistryV1HeadAt(f.template, RegistryOf(f).version, d, st);
  }

  /** A version-2 registry's head lines push three entries and write the
      version and the count. */
  lemma RegistryV2Lines(f: ValueField, d: nat, st: TextState)
    requires HasRegistry(f) && RegistryOf(f).version == 2 && InRange(I32, |RegistryOf(f).references|)
    requires PlainNames(f.template) && f.template.valueType == ManagedReferencesRegistry && !f.template.isAligned
    requires |st.stack| == d
    ensures var hd := RegistryV2Head(f, d);
      Opens(hd[0], d) &&
      ImportLines(hd, st, Corrected) ==
        Ok(TextState(st.stack + [false, false, true], st.out + [WInt(I32, 2), WInt(I32, |RegistryOf(f).references|)]))
  {
    RegistryLine(f);
    RegistryV2HeadAt(f.template, RegistryOf(f).version, |RegistryOf(f).references|, d, st);
  }

  /** A version-1 registry field dumps its head lines, then its objects. */
  lemma RegistryV1Dump(f: ValueField, d: nat, acc: seq<string>)
    requires !f.template.isArray && HasRegistry(f) && RegistryOf(f).version == 1
    ensures TextDump(f, d, acc) == TextDumpRefsV1(f, 0, d, acc + RegistryV1Head(f, d))
  {
    var hd := RegistryV1Head(f, d);
    DumpOfRegistry(f, d, acc);
    assert acc + [hd[0]] + [hd[1]] == acc + hd;
  }

  /** A version-2 registry field dumps its head lines, then its objects. */
  lemma RegistryV2Dump(f: ValueField, d: nat, acc: seq<string>)
    requires !f.template.isArray && HasRegistry(f) && RegistryOf(f).version == 2
    ensures TextDump(f, d, acc) == TextDumpRefsV2(f, 0, d, acc + RegistryV2Head(f, d))
  {
    var hd := RegistryV2Head(f, d);
    DumpOfRegistry(f, d, acc);
    assert acc + [hd[0]] + hd[1..] == acc + hd;
  }

  /** A version-1 registry field's serialized form, read byte by byte. */
  lemma RegistryV1Encode(f: ValueField)
    requires !f.template.isArray && HasRegistry(f) && RegistryOf(f).version == 1
    ensures Norm(Encode(f)) == [WInt(I32, 1)] + AlignIf(Norm(EncodeRefs(f, 0)) + TypeRefWrites(Terminus), false)
  {
    RegistryNormV1(f);
    EncodeOfRegistry(f);
  }

  /** A version-2 registry field's serialized form, read byte by byte. */
  lemma RegistryV2Encode(f: ValueField)
    requires !f.template.isArray && HasRegistry(f) && RegistryOf(f).version == 2
    ensures Norm(Encode(f)) == [WInt(I32, 2), WInt(I32, |RegistryOf(f).references|)] + AlignIf(Norm(EncodeRefs(f, 0)), true)
  {
    RegistryNormV2(f);
    EncodeOfRegistry(f);
  }

  /** A version-1 registry: its line, its version line, then its objects and terminus. */
  lemma RegistryV1RoundTrip(f: ValueField, d: nat, acc: seq<string>, st: TextState)
    requires !f.template.isArray && HasRegistry(f) && RegistryOf(f).version == 1 && RefsTextOk(RegistryOf(f))
    requires PlainNames(f.template) && f.template.valueType == ManagedReferencesRegistry && !f.template.isAligned
    requires |st.stack| == d
    ensures Grows(TextDump(f, d, acc), acc)
    ensures var ls := Added(TextDump(f, d, acc), acc);
      |ls| > 0 && Opens(ls[0], d) && Settles(ImportLines(ls, st, Corrected), st, d, Norm(Encode(f)))
    decreases f, 1, 0
  {
    var hd := RegistryV1Head(f, d);
    var p := [WInt(I32, 1)];
    RegistryV1Lines(f, d, st);
    RegistryV1Dump(f, d, acc);
    RegistryV1Encode(f);
    RefsV1RoundTrip(f, 0, d, acc + hd, TextState(st.stack + [false], st.out + p));
    Wrap(TextDump(f, d, acc), acc, hd, st, false, p, Norm(EncodeRefs(f, 0)) + TypeRefWrites(Terminus));
  }

  /** A version-2 registry: its line, its version, vector and count lines,
      then its objects. */
  lemma RegistryV2RoundTrip(f: ValueField, d: nat, acc: seq<string>, st: TextState)
    requires !f.template.isArray && HasRegistry(f) && RegistryOf(f).version == 2 && RefsTextOk(RegistryOf(f))
    requires InRange(I32, |RegistryOf(f).references|)
    requires PlainNames(f.template) && f.template.valueType == ManagedReferencesRegistry && !f.template.isAligned
    requires |st.stack| == d
    ensures Grows(TextDump(f, d, acc), acc)
    ensures var ls := Added(TextDump(f, d, acc), acc);
      |ls| > 0 && Opens(ls[0], d) && Settles(ImportLines(ls, st, Corrected), st, d, Norm(Encode(f)))
    decreases f, 1, 1
  {
    var hd, p, x := RegistryV2Parts(f, d, acc, st);
    Wrap3(TextDump(f, d, acc), acc, hd, st, p, x);
  }

  /** The pieces of a version-2 registry's round trip: its head block and
      the objects after it. */
  lemma RegistryV2Parts(f: ValueField, d: nat, acc: seq<string>, st: TextState)
    returns (hd: seq<string>, p: seq<Write>, x: seq<Write>)
    requires !f.template.isArray && HasRegistry(f) && RegistryOf(f).version == 2 && RefsTextOk(RegistryOf(f))
    requires InRange(I32, |RegistryOf(f).references|)
    requires PlainNames(f.template) && f.template.valueType == ManagedReferencesRegistry && !f.template.isAligned
    requires |st.stack| == d
    ensures |hd| > 0 && Opens(hd[0], d) && Grows(TextDump(f, d, acc), acc + hd)
    ensures ImportLines(hd, st, Corrected) == Ok(TextState(st.stack + [false, false, true], st.out + p))
    ensures Settles(ImportLines(Added(TextDump(f, d, acc), acc + hd), TextState(st.stack + [false, false, true], st.out + p), Corrected),
                    TextState(st.stack + [false, false, true], st.out + p), |st.stack| + 3, x)
    ensures Norm(Encode(f)) == p + AlignIf(x, true)
    decreases f, 1, 0
  {
    hd := RegistryV2Head(f, d);
    p := [WInt(I32, 2), WInt(I32, |RegistryOf(f).references|)];
    x := Norm(EncodeRefs(f, 0));
    RegistryV2Lines(f, d, st);
    RegistryV2Dump(f, d, acc);
    RegistryV2Encode(f);
    RefsV2RoundTrip(f, 0, d, acc + hd, TextState(st.stack + [false, false, true], st.out + p));
  }

  // ---------------------------------------------------------------------------
  // The whole dump

  /** The text dump of a well-formed value tree succeeds, and the corrected
      import of its lines writes the tree's serialized form: the scan writes
      all of it but the alignments of the fields still open at the end of
      the input, which the corrected end of input writes. */
  lemma TextDumpRoundTrip(f: ValueField)
    requires TextWellFormed(f)
    ensures TextDump(f, 0, []).Ok?
    ensures ImportText(TextDump(f, 0, []).value, Corrected) == Ok(Norm(Encode(f)))
    ensures var s := ImportLines(TextDump(f, 0, []).value, TextState([], []), Corrected);
      s.Ok? && s.value.out + Aligns(CountTrue(s.value.stack)) == Norm(Encode(f))
  {
    var st := TextState([], []);
    FieldRoundTrip(f, 0, [], st);
    var r := TextDump(f, 0, []);
    assert Added(r, []) == r.value;
    var s := ImportLines(r.value, st, Corrected).value;
    assert s.stack[0..] == s.stack;
    assert Unwind(s.stack, 0, s.out).out == s.out + Aligns(CountTrue(s.stack));
    ScanEndsCorrected(r.value, s, Norm(Encode(f)));
  }
}
