/** Where the importers, as written, do not read back what the exporters
    write. Each discrepancy is shown on the code as written (`AsWritten`) and
    checked against the corrected reading (`Corrected`), for which the round
    trips are proved in `JsonRoundTrip` and `TextRoundTrip`. */
module Findings {
  import opened Wrappers
  import opened AssetsTypes
  import opened JsonTree
  import opened AssetTypeHelper
  import opened ExportCodec
  import opened ImportCodec
  import opened BinaryLayout
  import opened JsonRoundTrip
  import opened TextLines
  import opened TextRoundTrip
  import opened NetStrings

  // ---------------------------------------------------------------------------
  // JSON: an array that is not a byte array goes through the scalar conversion

  /** As written, `RecurseJsonImport` sends every array template that is not
      a byte array through `ConvertJTokenToValue` before its element loop, and
      the conversion refuses the kind `Array`, so the element loop is never
      reached. */
  lemma ArrayImportAsWritten(t: TemplateField, tok: Json, resolve: Resolver, acc: seq<Write>)
    requires t.isArray && t.valueType == Array && NoWrapper(t, tok)
    ensures JsonImport(t, tok, resolve, AsWritten, acc) == Err(UnsupportedValueType(Array))
  {
    assert JsonImportValue(t, tok, AsWritten, acc) == Err(UnsupportedValueType(Array));
  }

  const IntData := TemplateField("int", "data", Int32, false, false, [])
  const IntSize := TemplateField("int", "size", Int32, false, false, [])
  const IntArray := TemplateField("Array", "Array", Array, true, true, [IntSize, IntData])
  const IntVector := TemplateField("vector", "m_List", NoValue, false, false, [IntArray])

  const SevenItem := ValueField(IntData, Some(VInt(I32, 7)), [])
  const SevenItems := ValueField(IntArray, Some(VArray(1)), [SevenItem])

  /** `vector m_List` holding the one integer 7. */
  const ListOfSeven := ValueField(IntVector, None, [SevenItems])

  /** The dump of `ListOfSeven` is `{"Array": [7]}`. */
  lemma ListOfSevenDump()
    ensures JsonDump(ListOfSeven) == Ok(JObject([Prop("Array", JArray([JInt(7)]))]))
  {
    assert JsonDump(SevenItem) == Ok(JInt(7));
    assert JsonDumpItems(SevenItems, 1, [JInt(7)]) == Ok([JInt(7)]);
    assert [] + [JInt(7)] == [JInt(7)];
    assert JsonDumpItems(SevenItems, 0, []) == JsonDumpItems(SevenItems, 1, [JInt(7)]);
    assert JsonDump(SevenItems) == Ok(JArray([JInt(7)]));
    var props := [Prop("Array", JArray([JInt(7)]))];
    assert Keys([]) == [];
    assert [] + [Prop("Array", JArray([JInt(7)]))] == props;
    assert AddProp([], "Array", JArray([JInt(7)])) == Ok(props);
    assert JsonDumpProps(ListOfSeven, 1, props) == Ok(props);
  }

  /** The dump of a one-element integer vector, `{"Array": [7]}`, is refused
      by the importer as written, and read back by the corrected one. */
  lemma VectorJsonAsWritten(resolve: Resolver)
    ensures JsonDump(ListOfSeven) == Ok(JObject([Prop("Array", JArray([JInt(7)]))]))
    ensures ImportJson(IntVector, JsonDump(ListOfSeven).value, resolve, AsWritten) == Err(UnsupportedValueType(Array))
    ensures ImportJson(IntVector, JsonDump(ListOfSeven).value, resolve, Corrected) == Ok([WInt(I32, 1), WInt(I32, 7), WAlign])
  {
    ListOfSevenDump();
    VectorRefused(resolve);
    VectorReadBack(resolve);
  }

  lemma VectorRefused(resolve: Resolver)
    ensures ImportJson(IntVector, JObject([Prop("Array", JArray([JInt(7)]))]), resolve, AsWritten)
      == Err(UnsupportedValueType(Array))
  {
    var tok := JObject([Prop("Array", JArray([JInt(7)]))]);
    assert Index(tok, "Array") == Found(JArray([JInt(7)]));
    ArrayImportAsWritten(IntArray, JArray([JInt(7)]), resolve, []);
    assert JsonImportFields(IntVector, tok, 0, resolve, AsWritten, []) == Err(UnsupportedValueType(Array));
  }

  lemma VectorReadBack(resolve: Resolver)
    ensures ImportJson(IntVector, JObject([Prop("Array", JArray([JInt(7)]))]), resolve, Corrected)
      == Ok([WInt(I32, 1), WInt(I32, 7), WAlign])
  {
    ListOfSevenDump();
    assert WellFormed(ListOfSeven, resolve) by {
      assert WellFormed(SevenItem, resolve);
      assert WellFormed(SevenItems, resolve);
    }
    JsonDumpRoundTrip(ListOfSeven, resolve);
    assert EncodeChildren(SevenItems, 0) == [WInt(I32, 7)];
    assert Encode(SevenItems) == [WInt(I32, 1), WInt(I32, 7), WAlign];
    assert EncodeChildren(ListOfSeven, 0) == [WInt(I32, 1), WInt(I32, 7), WAlign];
  }

  // ---------------------------------------------------------------------------
  // JSON: version-1 registry objects are dumped without the rid the import demands

  /** As written, the JSON import of a version-1 registry demands a `rid` in
      every object, and the JSON dump of a version-1 registry writes none: the
      dump of any version-1 registry with at least one object is refused at
      its first object. */
  lemma RegistryV1ImportAsWritten(f: ValueField, resolve: Resolver, acc: seq<Write>)
    requires WellFormed(f, resolve) && JsonDump(f).Ok?
    requires !f.template.isArray && HasRegistry(f)
    requires RegistryOf(f).version == 1 && |RegistryOf(f).references| > 0
    ensures JsonImport(f.template, JsonDump(f).value, resolve, AsWritten, acc)
      == Err(MissingField("rid", Some(FieldId(f.template.typeName, f.template.name))))
  {
    var tok := RegistryHeaderReads(f, resolve, AsWritten, acc);
    var x := RegistryOf(f).references[0];
    FirstDumpedRef(f);
    FirstObjectRefused(f.template, tok, JsonDumpRefs(f, 0, []).value, x, JsonDumpProps(x.data, 0, []).value, resolve, acc);
  }

  /** The first object of a registry's JSON dump. */
  lemma FirstDumpedRef(f: ValueField)
    requires HasRegistry(f) && |RegistryOf(f).references| > 0 && JsonDumpRefs(f, 0, []).Ok?
    ensures var x := RegistryOf(f).references[0];
      var refs := JsonDumpRefs(f, 0, []).value;
      JsonDumpProps(x.data, 0, []).Ok? && |refs| > 0 &&
      refs[0] == RefObject(RegistryOf(f).version, x.rid, x.typeRef, JsonDumpProps(x.data, 0, []).value)
  {
    DumpRefsShape(f, 0, []);
  }

  /** A version-1 registry whose first object has no `rid`. */
  lemma FirstObjectRefused(t: TemplateField, tok: Json, refs: seq<Json>, x: ReferencedObject, data: seq<Prop>,
                           resolve: Resolver, acc: seq<Write>)
    requires |refs| > 0 && Size(JArray(refs)) < Size(tok)
    requires refs[0] == RefObject(1, x.rid, x.typeRef, data)
    ensures RegistryBody(t, tok, JArray(refs), 1, resolve, AsWritten, acc)
      == Err(MissingField("rid", Some(FieldId(t.typeName, t.name))))
  {
    RefObjectIndex(1, x.rid, x.typeRef, data);
    assert RidWrites(t, refs[0], 1, 0, AsWritten) == Err(MissingField("rid", ParentId(Some(t))));
    assert JsonImportRefs(t, tok, JArray(refs), 1, 0, resolve, AsWritten, acc + [WInt(I32, 1)])
      == Err(MissingField("rid", ParentId(Some(t))));
  }

  // ---------------------------------------------------------------------------
  // Text: an index line opens no level, so an element's alignment is deferred

  /** An unaligned array `t` whose elements are aligned structs `e`, each
      holding one unaligned byte field `bt`: templates whose dump lines read
      back (no `=` in their names, a 32-bit size field). */
  predicate PairShape(t: TemplateField, e: TemplateField, bt: TemplateField)
  {
    t.isArray && !t.isAligned && t.valueType == Array && |t.children| > 0 &&
    SizeTemplateOk(t.children[0]) && PlainNames(t) && ItemShape(e, bt)
  }

  /** An aligned struct `e` holding one unaligned byte field `bt`. */
  predicate ItemShape(e: TemplateField, bt: TemplateField)
  {
    !e.isArray && e.isAligned && e.valueType == NoValue && PlainNames(e) &&
    !bt.isArray && !bt.isAligned && bt.valueType == UInt8 && PlainNames(bt) &&
    bt.typeName in TypeParsers && TypeParsers[bt.typeName] == IntParser(U8)
  }

  function ByteValue(bt: TemplateField, b: uint8): ValueField
  {
    ValueField(bt, Some(VInt(U8, b)), [])
  }

  /** A struct holding the one byte `b`. */
  function Item(e: TemplateField, bt: TemplateField, b: uint8): ValueField
  {
    ValueField(e, None, [ByteValue(bt, b)])
  }

  /** The array of the two structs holding `b0` and `b1`. */
  function Pair(t: TemplateField, e: TemplateField, bt: TemplateField, b0: uint8, b1: uint8): ValueField
  {
    ValueField(t, Some(VArray(2)), [Item(e, bt, b0), Item(e, bt, b1)])
  }

  /** The array line and the size line. */
  function ArrayHead(t: TemplateField, n: int): seq<string>
    requires |t.children| > 0
  {
    [Line(0, ArrayHeader(t, n)), Line(1, SizeLine(t.children[0], n))]
  }

  /** The struct line at depth `k` and the byte line below it. */
  function ItemBody(k: nat, e: TemplateField, bt: TemplateField, b: uint8): seq<string>
  {
    [Line(k, FieldLine(e, None)), Line(k + 1, FieldLine(bt, Some(VInt(U8, b))))]
  }

  /** The lines of the `i`-th element. */
  function ItemLines(i: int, e: TemplateField, bt: TemplateField, b: uint8): seq<string>
  {
    [Line(1, IndexLine(i))] + ItemBody(2, e, bt, b)
  }

  /** The text dump of `Pair(t, e, bt, b0, b1)`. */
  function PairLines(t: TemplateField, e: TemplateField, bt: TemplateField, b0: uint8, b1: uint8): seq<string>
    requires |t.children| > 0
  {
    ArrayHead(t, 2) + ItemLines(0, e, bt, b0) + ItemLines(1, e, bt, b1)
  }

  lemma ItemDump(k: nat, e: TemplateField, bt: TemplateField, b: uint8, acc: seq<string>)
    requires !e.isArray && !bt.isArray
    ensures TextDump(Item(e, bt, b), k, acc) == Ok(acc + ItemBody(k, e, bt, b))
  {
    var acc1 := acc + [Line(k, FieldLine(e, None))];
    var acc2 := acc1 + [Line(k + 1, FieldLine(bt, Some(VInt(U8, b))))];
    assert TextDumpFields(ByteValue(bt, b), 0, k + 2, acc2) == Ok(acc2);
    assert TextDump(ByteValue(bt, b), k + 1, acc1) == Ok(acc2);
    assert TextDumpFields(Item(e, bt, b), 1, k + 1, acc2) == Ok(acc2);
    assert TextDumpFields(Item(e, bt, b), 0, k + 1, acc1) == Ok(acc2);
    assert !HasRegistry(Item(e, bt, b));
    assert TextDump(Item(e, bt, b), k, acc) == TextDumpFields(Item(e, bt, b), 0, k + 1, acc1);
    AppendAssoc(acc, [Line(k, FieldLine(e, None))], [Line(k + 1, FieldLine(bt, Some(VInt(U8, b))))]);
    assert [Line(k, FieldLine(e, None))] + [Line(k + 1, FieldLine(bt, Some(VInt(U8, b))))] == ItemBody(k, e, bt, b);
  }

  lemma PairDump(t: TemplateField, e: TemplateField, bt: TemplateField, b0: uint8, b1: uint8)
    requires PairShape(t, e, bt)
    ensures TextDump(Pair(t, e, bt, b0, b1), 0, []) == Ok(PairLines(t, e, bt, b0, b1))
  {
    var f := Pair(t, e, bt, b0, b1);
    var head := ArrayHead(t, 2);
    var acc1 := head + ItemLines(0, e, bt, b0);
    var acc2 := acc1 + ItemLines(1, e, bt, b1);
    assert TextDump(f, 0, []) == TextDumpElements(f, 0, 0, [] + head);
    assert [] + head == head;
    ItemDump(2, e, bt, b0, head + [Line(1, IndexLine(0))]);
    ItemDump(2, e, bt, b1, acc1 + [Line(1, IndexLine(1))]);
    assert head + [Line(1, IndexLine(0))] + ItemBody(2, e, bt, b0) == acc1;
    assert acc1 + [Line(1, IndexLine(1))] + ItemBody(2, e, bt, b1) == acc2;
    assert TextDumpElements(f, 2, 0, acc2) == Ok(acc2);
    assert TextDumpElements(f, 1, 0, acc1) == Ok(acc2);
    assert TextDumpElements(f, 0, 0, head) == Ok(acc2);
  }

  /** Unwinding to a depth the stack does not exceed changes nothing. */
  lemma UnwindBelow(st: TextState, d: nat)
    requires |st.stack| <= d
    ensures Unwind(st.stack, d, st.out) == st
  {
  }

  /** The array line pushes the array's flag, and the size line writes the count. */
  lemma ArrayHeadScan(t: TemplateField, n: int, st: TextState, m: Mode)
    requires PlainNames(t) && !t.isAligned && t.valueType != String && |t.children| > 0
    requires SizeTemplateOk(t.children[0]) && InRange(I32, n) && |st.stack| == 0
    ensures ImportLines(ArrayHead(t, n), st, m) == Ok(TextState(st.stack + [false], st.out + [WInt(I32, n)]))
  {
    var suffix := " (" + IntToString(n) + " items)";
    NoEqualsInNumber(n);
    assert '=' !in suffix;
    FieldLineHead(t, suffix);
    var c := ArrayHeader(t, n);
    assert c == AlignFlag(t) + " " + t.typeName + " " + t.name + suffix;
    UnwindBelow(st, 0);
    HeaderLineAt(0, c, st, m);
    var s1 := TextState(st.stack + [false], st.out);
    UnwindBelow(s1, 1);
    SizeLineAt(1, t.children[0], n, s1, m);
    TwoLines(Line(0, c), Line(1, SizeLine(t.children[0], n)), st, s1, TextState(s1.stack, st.out + [WInt(I32, n)]), m);
  }

  /** The struct line pushes the struct's flag and the byte line writes the
      byte, on a stack at most `k` high. */
  lemma ItemBodyScan(k: nat, e: TemplateField, bt: TemplateField, b: uint8, st: TextState, m: Mode)
    requires ItemShape(e, bt)
    requires |st.stack| <= k
    ensures ImportLines(ItemBody(k, e, bt, b), st, m) == Ok(TextState(st.stack + [true], st.out + [WInt(U8, b)]))
  {
    var l1, l2 := Line(k, FieldLine(e, None)), Line(k + 1, FieldLine(bt, Some(VInt(U8, b))));
    var s1 := TextState(st.stack + [true], st.out);
    var s2 := TextState(st.stack + [true], st.out + [WInt(U8, b)]);
    StructLineScan(k, e, st, m);
    ByteLineScan(k + 1, bt, b, s1, m);
    TwoLines(l1, l2, st, s1, s2, m);
    assert ItemBody(k, e, bt, b) == [l1, l2];
  }

  /** The line of an aligned struct pushes `true`. */
  lemma StructLineScan(k: nat, e: TemplateField, st: TextState, m: Mode)
    requires !e.isArray && e.isAligned && e.valueType == NoValue && PlainNames(e)
    requires |st.stack| <= k
    ensures ImportLine(Line(k, FieldLine(e, None)), st, m) == Ok(TextState(st.stack + [true], st.out))
  {
    var c := FieldLine(e, None);
    FieldLineHead(e, "");
    assert c == AlignFlag(e) + " " + e.typeName + " " + e.name + "";
    UnwindBelow(st, k);
    HeaderLineAt(k, c, st, m);
  }

  /** The line of an unaligned byte writes the byte. */
  lemma ByteLineScan(k: nat, bt: TemplateField, b: uint8, st: TextState, m: Mode)
    requires !bt.isArray && !bt.isAligned && bt.valueType == UInt8 && PlainNames(bt)
    requires bt.typeName in TypeParsers && TypeParsers[bt.typeName] == IntParser(U8)
    requires |st.stack| <= k
    ensures ImportLine(Line(k, FieldLine(bt, Some(VInt(U8, b)))), st, m) == Ok(TextState(st.stack, st.out + [WInt(U8, b)]))
  {
    UnwindBelow(st, k);
    assert ScalarTextWellFormed(bt, VInt(U8, b));
    ScalarLineAt(ByteValue(bt, b), k, st, m);
    assert Encode(ByteValue(bt, b)) == [WInt(U8, b)];
  }

  /** An element's lines after its index line. */
  lemma AfterIndex(i: int, e: TemplateField, bt: TemplateField, b: uint8, st: TextState, s1: TextState, m: Mode)
    requires ItemShape(e, bt)
    requires ImportLine(Line(1, IndexLine(i)), st, m) == Ok(s1) && |s1.stack| <= 2
    ensures ImportLines(ItemLines(i, e, bt, b), st, m) == Ok(TextState(s1.stack + [true], s1.out + [WInt(U8, b)]))
  {
    ItemBodyScan(2, e, bt, b, s1, m);
    assert ItemLines(i, e, bt, b)[1..] == ItemBody(2, e, bt, b);
  }

  /** As written, the scan of the dump of a pair: the index lines are
      skipped, so the second struct line finds the first struct's flag at
      its own level and pushes above it instead of popping it. */
  lemma PairScanAsWritten(t: TemplateField, e: TemplateField, bt: TemplateField, b0: uint8, b1: uint8, st: TextState)
    requires PairShape(t, e, bt) && |st.stack| == 0
    ensures ImportLines(PairLines(t, e, bt, b0, b1), st, AsWritten)
      == Ok(TextState(st.stack + [false] + [true] + [true], st.out + [WInt(I32, 2)] + [WInt(U8, b0)] + [WInt(U8, b1)]))
  {
    var s1 := TextState(st.stack + [false], st.out + [WInt(I32, 2)]);
    var s2 := TextState(s1.stack + [true], s1.out + [WInt(U8, b0)]);
    var s3 := TextState(s2.stack + [true], s2.out + [WInt(U8, b1)]);
    var head := ArrayHead(t, 2);
    ArrayHeadScan(t, 2, st, AsWritten);
    IndexLineAt(1, 0, s1);
    AfterIndex(0, e, bt, b0, s1, s1, AsWritten);
    IndexLineAt(1, 1, s2);
    AfterIndex(1, e, bt, b1, s2, s2, AsWritten);
    ImportLinesAppend(head, ItemLines(0, e, bt, b0), st, AsWritten);
    ImportLinesAppend(head + ItemLines(0, e, bt, b0), ItemLines(1, e, bt, b1), st, AsWritten);
  }

  /** Corrected, the second index line closes the first struct, which
      writes its alignment between the two bytes. */
  lemma PairScanCorrected(t: TemplateField, e: TemplateField, bt: TemplateField, b0: uint8, b1: uint8, st: TextState)
    requires PairShape(t, e, bt) && |st.stack| == 0
    ensures ImportLines(PairLines(t, e, bt, b0, b1), st, Corrected)
      == Ok(TextState(st.stack + [false] + [false] + [true],
                      st.out + [WInt(I32, 2)] + [WInt(U8, b0)] + [WAlign] + [WInt(U8, b1)]))
  {
    var s1 := TextState(st.stack + [false], st.out + [WInt(I32, 2)]);
    var s2 := TextState(s1.stack + [false] + [true], s1.out + [WInt(U8, b0)]);
    var u2 := TextState(s1.stack + [false], s2.out + [WAlign]);
    var s3 := TextState(u2.stack + [true], u2.out + [WInt(U8, b1)]);
    var head := ArrayHead(t, 2);
    ArrayHeadScan(t, 2, st, Corrected);
    IndexLineAt(1, 0, s1);
    UnwindBelow(s1, 1);
    AfterIndex(0, e, bt, b0, s1, TextState(s1.stack + [false], s1.out), Corrected);
    UnwindTopTwo(s1.stack, s2.out);
    IndexLineAt(1, 1, s2);
    AfterIndex(1, e, bt, b1, s2, u2, Corrected);
    ImportLinesAppend(head, ItemLines(0, e, bt, b0), st, Corrected);
    ImportLinesAppend(head + ItemLines(0, e, bt, b0), ItemLines(1, e, bt, b1), st, Corrected);
  }

  /** The unaligned index entry and the aligned struct entry above the
      array's entry close with one alignment. */
  lemma UnwindTopTwo(stack: seq<bool>, out: seq<Write>)
    requires |stack| == 1
    ensures Unwind(stack + [false] + [true], 1, out) == TextState(stack, out + [WAlign])
  {
    UnwindPushed(stack + [false], true, out);
    UnwindPushed(stack, false, out + [WAlign]);
    UnwindTwice(stack + [false] + [true], out, 1, 2);
  }

  /** A struct's serialized form: its byte, then its alignment. */
  lemma ItemEncode(e: TemplateField, bt: TemplateField, b: uint8)
    requires !e.isArray && e.isAligned && !bt.isArray && !bt.isAligned
    ensures Encode(Item(e, bt, b)) == [WInt(U8, b), WAlign]
  {
    assert Encode(ByteValue(bt, b)) == [WInt(U8, b)];
    assert EncodeChildren(Item(e, bt, b), 1) == [];
    assert EncodeChildren(Item(e, bt, b), 0) == [WInt(U8, b)];
  }

  /** The serialized form of a pair: the count, then each struct's byte and
      its alignment. */
  lemma PairEncode(t: TemplateField, e: TemplateField, bt: TemplateField, b0: uint8, b1: uint8)
    requires PairShape(t, e, bt)
    ensures Norm(Encode(Pair(t, e, bt, b0, b1))) == [WInt(I32, 2), WInt(U8, b0), WAlign, WInt(U8, b1), WAlign]
  {
    var f := Pair(t, e, bt, b0, b1);
    ItemEncode(e, bt, b0);
    ItemEncode(e, bt, b1);
    assert EncodeChildren(f, 2) == [];
    assert EncodeChildren(f, 1) == [WInt(U8, b1), WAlign];
    assert EncodeChildren(f, 0) == [WInt(U8, b0), WAlign, WInt(U8, b1), WAlign];
    assert Encode(f) == [WInt(I32, 2)] + EncodeChildren(f, 0);
  }

  /** The import as written of the dump of a pair. */
  lemma PairImportAsWritten(t: TemplateField, e: TemplateField, bt: TemplateField, b0: uint8, b1: uint8)
    requires PairShape(t, e, bt)
    ensures ImportText(PairLines(t, e, bt, b0, b1), AsWritten) == Ok([WInt(I32, 2), WInt(U8, b0), WInt(U8, b1)])
  {
    var st := TextState([], []);
    PairScanAsWritten(t, e, bt, b0, b1, st);
    Written3(WInt(I32, 2), WInt(U8, b0), WInt(U8, b1));
  }

  /** The corrected import of the dump of a pair. */
  lemma PairImportCorrected(t: TemplateField, e: TemplateField, bt: TemplateField, b0: uint8, b1: uint8)
    requires PairShape(t, e, bt)
    ensures ImportText(PairLines(t, e, bt, b0, b1), Corrected) == Ok([WInt(I32, 2), WInt(U8, b0), WAlign, WInt(U8, b1), WAlign])
  {
    PairScanFromEmpty(t, e, bt, b0, b1);
    ScanPairEnd(PairLines(t, e, bt, b0, b1), b0, b1);
  }

  /** A corrected scan that ends with the array's and the first element's
      levels closed and the second element's open. */
  lemma ScanPairEnd(lines: seq<string>, b0: uint8, b1: uint8)
    requires ImportLines(lines, TextState([], []), Corrected)
      == Ok(TextState([] + [false] + [false] + [true], [WInt(I32, 2), WInt(U8, b0), WAlign, WInt(U8, b1)]))
    ensures ImportText(lines, Corrected) == Ok([WInt(I32, 2), WInt(U8, b0), WAlign, WInt(U8, b1), WAlign])
  {
    var out := [WInt(I32, 2), WInt(U8, b0), WAlign, WInt(U8, b1)];
    OneOpenAlign(lines, [] + [false] + [false], out, out + [WAlign]);
    assert out + [WAlign] == [WInt(I32, 2), WInt(U8, b0), WAlign, WInt(U8, b1), WAlign];
  }

  /** A corrected scan that ends with unaligned levels and one aligned level
      open writes one more alignment at the end of the input. */
  lemma OneOpenAlign(lines: seq<string>, stack: seq<bool>, out: seq<Write>, all: seq<Write>)
    requires ImportLines(lines, TextState([], []), Corrected) == Ok(TextState(stack + [true], out))
    requires (forall i :: 0 <= i < |stack| ==> !stack[i]) && all == out + [WAlign]
    ensures ImportText(lines, Corrected) == Ok(all)
  {
    PendingOne(stack, out);
    ScanEndsCorrected(lines, TextState(stack + [true], out), all);
  }

  /** The corrected scan of the dump of a pair, from the empty state. */
  lemma PairScanFromEmpty(t: TemplateField, e: TemplateField, bt: TemplateField, b0: uint8, b1: uint8)
    requires PairShape(t, e, bt)
    ensures ImportLines(PairLines(t, e, bt, b0, b1), TextState([], []), Corrected)
      == Ok(TextState([] + [false] + [false] + [true], [WInt(I32, 2), WInt(U8, b0), WAlign, WInt(U8, b1)]))
  {
    PairScanCorrected(t, e, bt, b0, b1, TextState([], []));
    Written4(WInt(I32, 2), WInt(U8, b0), WAlign, WInt(U8, b1));
  }

  /** The writes of a scan from no writes, one at a time. */
  lemma Written3(a: Write, b: Write, c: Write)
    ensures [] + [a] + [b] + [c] == [a, b, c]
  {
  }

  lemma Written4(a: Write, b: Write, c: Write, d: Write)
    ensures [] + [a] + [b] + [c] + [d] == [a, b, c, d]
  {
  }

  /** As written, the dump of an unaligned array of two aligned one-byte
      structs is read back without the alignment after the first struct:
      the second byte follows the first at offset 5, where the binary layout
      puts it at offset 8, after three bytes of padding. The corrected import
      writes that alignment, and the last struct's at the end of the input. */
  lemma ElementAlignAsWritten(t: TemplateField, e: TemplateField, bt: TemplateField, b0: uint8, b1: uint8)
    requires PairShape(t, e, bt)
    ensures TextDump(Pair(t, e, bt, b0, b1), 0, []) == Ok(PairLines(t, e, bt, b0, b1))
    ensures Norm(Encode(Pair(t, e, bt, b0, b1))) == [WInt(I32, 2), WInt(U8, b0), WAlign, WInt(U8, b1), WAlign]
    ensures ImportText(PairLines(t, e, bt, b0, b1), AsWritten) == Ok([WInt(I32, 2), WInt(U8, b0), WInt(U8, b1)])
    ensures ImportText(PairLines(t, e, bt, b0, b1), Corrected) == Ok([WInt(I32, 2), WInt(U8, b0), WAlign, WInt(U8, b1), WAlign])
  {
    PairDump(t, e, bt, b0, b1);
    PairEncode(t, e, bt, b0, b1);
    PairImportAsWritten(t, e, bt, b0, b1);
    PairImportCorrected(t, e, bt, b0, b1);
  }

  const ByteData := TemplateField("UInt8", "data", UInt8, false, false, [])
  const AlignedItem := TemplateField("Item", "data", NoValue, false, true, [ByteData])
  const ItemArray := TemplateField("Array", "Array", Array, true, false, [IntSize, AlignedItem])

  /** `Array Array` of `Item data` structs, each aligned and holding one
      `UInt8 data`, has the shape `ElementAlignAsWritten` reads wrongly. */
  lemma ItemArrayIsPair()
    ensures PairShape(ItemArray, AlignedItem, ByteData)
  {
    ByteNames();
    assert SizeTemplateOk(IntSize);
  }

  // ---------------------------------------------------------------------------
  // Text: the end of the input leaves the open levels' alignments unwritten

  /** As written, the scan returns at the end of the input without popping
      the stack, so the alignment of every aligned field still open is never
      written: a dump whose last field is an aligned struct of one byte reads
      back one byte where the binary layout has the byte and three bytes of
      padding. The corrected end of input writes it. */
  lemma TrailingAlignAsWritten(e: TemplateField, bt: TemplateField, b: uint8)
    requires ItemShape(e, bt)
    ensures TextDump(Item(e, bt, b), 0, []) == Ok(ItemBody(0, e, bt, b))
    ensures Norm(Encode(Item(e, bt, b))) == [WInt(U8, b), WAlign]
    ensures ImportText(ItemBody(0, e, bt, b), AsWritten) == Ok([WInt(U8, b)])
    ensures ImportText(ItemBody(0, e, bt, b), Corrected) == Ok([WInt(U8, b), WAlign])
  {
    ItemDump(0, e, bt, b, []);
    assert [] + ItemBody(0, e, bt, b) == ItemBody(0, e, bt, b);
    ItemEncode(e, bt, b);
    assert Encode(Item(e, bt, b)) == [WInt(U8, b), WAlign];
    ItemImports(e, bt, b);
  }

  /** The two imports of the lines of a struct at depth 0. */
  lemma ItemImports(e: TemplateField, bt: TemplateField, b: uint8)
    requires ItemShape(e, bt)
    ensures ImportText(ItemBody(0, e, bt, b), AsWritten) == Ok([WInt(U8, b)])
    ensures ImportText(ItemBody(0, e, bt, b), Corrected) == Ok([WInt(U8, b), WAlign])
  {
    ItemScanFromEmpty(e, bt, b, AsWritten);
    ItemScanFromEmpty(e, bt, b, Corrected);
    ScanOneByte(ItemBody(0, e, bt, b), b);
  }

  /** The scan of the lines of a struct at depth 0, from the empty state. */
  lemma ItemScanFromEmpty(e: TemplateField, bt: TemplateField, b: uint8, m: Mode)
    requires ItemShape(e, bt)
    ensures ImportLines(ItemBody(0, e, bt, b), TextState([], []), m) == Ok(TextState([] + [true], [] + [WInt(U8, b)]))
  {
    ItemBodyScan(0, e, bt, b, TextState([], []), m);
  }

  /** A scan that ends with one aligned level open after writing one byte. */
  lemma ScanOneByte(lines: seq<string>, b: uint8)
    requires ImportLines(lines, TextState([], []), AsWritten) == Ok(TextState([] + [true], [] + [WInt(U8, b)]))
    requires ImportLines(lines, TextState([], []), Corrected) == Ok(TextState([] + [true], [] + [WInt(U8, b)]))
    ensures ImportText(lines, AsWritten) == Ok([WInt(U8, b)])
    ensures ImportText(lines, Corrected) == Ok([WInt(U8, b), WAlign])
  {
    assert [] + [WInt(U8, b)] == [WInt(U8, b)];
    ScanEndsAsWritten(lines, TextState([] + [true], [] + [WInt(U8, b)]));
    OneOpenAlign(lines, [], [] + [WInt(U8, b)], [WInt(U8, b), WAlign]);
  }

  /** A stack of unaligned entries with one aligned entry on top closes with
      one alignment. */
  lemma PendingOne(stack: seq<bool>, out: seq<Write>)
    requires forall i :: 0 <= i < |stack| ==> !stack[i]
    ensures Unwind(stack + [true], 0, out).out == out + [WAlign]
  {
    assert (stack + [true])[..|stack|] == stack;
    assert (stack + [true])[0..] == stack + [true];
    NoneTrue(stack);
    assert Aligns(1) == [WAlign];
  }

  lemma {:induction false} NoneTrue(stack: seq<bool>)
    requires forall i :: 0 <= i < |stack| ==> !stack[i]
    ensures CountTrue(stack) == 0
  {
    if |stack| > 0 {
      NoneTrue(stack[..|stack| - 1]);
    }
  }

  /** `Item data` holding one `UInt8 data`, aligned, has the shape
      `TrailingAlignAsWritten` reads wrongly. */
  lemma AlignedItemShape()
    ensures ItemShape(AlignedItem, ByteData)
  {
    ItemArrayIsPair();
  }
}
