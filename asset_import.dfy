/** The two importers, which turn a dump back into the calls made on the
    binary writer: the schema-free text import, a forward scan over lines with
    a stack of pending alignments, and the template-driven JSON import. Each is
    specified by a function over the writes produced so far and implemented by
    the `AssetImport` methods. The specifications take a `Mode`: `AsWritten`
    follows the source line for line; `Corrected` is the repair that the
    round-trip lemmas of this model call for (see `JsonRoundTrip`, `TextRoundTrip` and `Findings`). */
module ImportCodec {
  import opened Wrappers
  import opened NetStrings
  import opened AssetsTypes
  import opened JsonTree
  import opened AssetTypeHelper

  datatype Mode = AsWritten | Corrected

  /** The type resolver: the managed type a registry entry names, or None
      when it cannot be found. */
  type Resolver = TypeReference -> Option<TemplateField>

  function AlignIf(out: seq<Write>, align: bool): (r: seq<Write>)
    ensures r == if align then out + [WAlign] else out
  {
    if align then out + [WAlign] else out
  }

  /** The writes after one more write that may fail. */
  function Appended(out: seq<Write>, w: Result<Write, Error>): (r: Result<seq<Write>, Error>)
    ensures r.Ok? <==> w.Ok?
    ensures r.Ok? ==> r.value == out + [w.value]
    ensures r.Err? ==> r.error == w.error
  {
    var x :- w;
    Ok(out + [x])
  }

  // ---------------------------------------------------------------------------
  // Text import specification

  /** The scan's state: the stack of pending alignment flags (its top is the
      last element) and the writes so far. */
  datatype TextState = TextState(stack: seq<bool>, out: seq<Write>)

  /** The number of set flags. */
  function CountTrue(s: seq<bool>): (r: nat)
    ensures r <= |s|
  {
    if |s| == 0 then 0 else CountTrue(s[..|s| - 1]) + (if s[|s| - 1] then 1 else 0)
  }

  function Aligns(n: nat): (r: seq<Write>)
    ensures |r| == n && forall i :: 0 <= i < n ==> r[i] == WAlign
  {
    seq(n, _ => WAlign)
  }

  /** The pops before a line at `depth`: entries are popped while the stack is
      higher than `depth`, and every popped `true` writes one alignment. */
  function Unwind(stack: seq<bool>, depth: nat, out: seq<Write>): (r: TextState)
    ensures |r.stack| == if depth < |stack| then depth else |stack|
    ensures r.stack == stack[..|r.stack|]
    ensures r.out == out + Aligns(CountTrue(stack[|r.stack|..]))
    decreases |stack|
  {
    if depth < |stack| then
      var n := |stack| - 1;
      var r := Unwind(stack[..n], depth, if stack[n] then out + [WAlign] else out);
      assert stack[|r.stack|..][..n - |r.stack|] == stack[..n][|r.stack|..];
      assert Aligns(CountTrue(stack[..n][|r.stack|..]) + 1) == [WAlign] + Aligns(CountTrue(stack[..n][|r.stack|..]));
      r
    else TextState(stack, out)
  }

  /** A `string` leaf: the unescaped text between the first and the last
      double quote of the value text; fewer than two quotes make the substring
      bounds invalid. */
  function StringLeaf(valueStr: string): (r: Result<Write, Error>)
    ensures r.Ok? <==> IndexOf(valueStr, '"') < LastIndexOf(valueStr, '"')
    ensures r.Ok? ==> r.value.WString?
    ensures r.Err? ==> r.error == ArgumentOutOfRange
  {
    var first := IndexOf(valueStr, '"');
    var last := LastIndexOf(valueStr, '"');
    if first < last then Ok(WString(Unescaped(valueStr[first + 1..last])))
    else Err(ArgumentOutOfRange)
  }

  /** The importer's trial of the table's names from `i` on: the first name
      the line's type starts with and whose parser accepts the value text
      writes that value; when none does, nothing is written. */
  function ParsedWrites(check: string, valueStr: string, names: seq<string>, i: nat): (r: Result<seq<Write>, Error>)
    requires i <= |names|
    ensures r.Ok? ==> |r.value| <= 1
    ensures r.Ok? && |r.value| == 1 ==>
      exists k :: i <= k < |names| && StartsWithSpace(check, names[k]) && TryParseValue(names[k], valueStr).Some?
    decreases |names| - i
  {
    if i == |names| then Ok([])
    else if StartsWithSpace(check, names[i]) && TryParseValue(names[i], valueStr).Some? then
      WriteValueAfterParse(names[i], valueStr);
      match ValueWrite(names[i], TryParseValue(names[i], valueStr).value)
      case Ok(w) => Ok([w])
      case Err(e) => Err(e)
    else ParsedWrites(check, valueStr, names, i + 1)
  }

  /** What a line with `=` writes before its own alignment: a string leaf,
      or the first parsed table type. */
  function LeafWrites(check: string, valueStr: string): (r: Result<seq<Write>, Error>)
    ensures r.Ok? ==> |r.value| <= 1
    ensures StartsWithSpace(check, "string") ==> r.Ok? == StringLeaf(valueStr).Ok?
  {
    if StartsWithSpace(check, "string") then
      var w :- StringLeaf(valueStr);
      Ok([w])
    else ParsedWrites(check, valueStr, GetSupportedTypeNames(), 0)
  }

  /** The trial never fails over names of the table: every parsed value has
      the kind its writer expects. */
  lemma {:induction false} ParsedWritesTotal(check: string, valueStr: string, names: seq<string>, i: nat)
    requires i <= |names|
    requires forall k :: i <= k < |names| ==> names[k] in TypeParsers
    ensures ParsedWrites(check, valueStr, names, i).Ok?
    decreases |names| - i
  {
    if i < |names| {
      if StartsWithSpace(check, names[i]) && TryParseValue(names[i], valueStr).Some? {
        WriteValueAfterParse(names[i], valueStr);
      } else {
        ParsedWritesTotal(check, valueStr, names, i + 1);
      }
    }
  }

  /** Only a `string` leaf can fail: a line of any other type writes the
      first value the table parses, or nothing. */
  lemma LeafWritesTotal(check: string, valueStr: string)
    requires !StartsWithSpace(check, "string")
    ensures LeafWrites(check, valueStr).Ok?
  {
    ParsedWritesTotal(check, valueStr, GetSupportedTypeNames(), 0);
  }

  /** One line of the scan. */
  function ImportLine(line: string, st: TextState, mode: Mode): Result<TextState, Error>
  {
    var depth := LeadingSpaces(line);
    if depth == |line| then Err(IndexOutOfRange)
    else if line[depth] == '[' then
      if mode == AsWritten then Ok(st)
      else
        var u := Unwind(st.stack, depth, st.out);
        Ok(TextState(u.stack + [false], u.out))
    else
      var eq := IndexOf(line, '=');
      LineAfterPops(line, depth, eq, Trim(line[eq + 1..]), Unwind(st.stack, depth, st.out))
  }

  /** A line that is not an index line, once the stack is popped to its
      depth: a leaf line writes and aligns at once, any other line pushes its
      flag. `eq` is the position of the line's first `=` (or -1) and
      `valueStr` the trimmed text after it. */
  function LineAfterPops(line: string, depth: nat, eq: int, valueStr: string, u: TextState): Result<TextState, Error>
    requires depth < |line|
  {
    var align := line[depth] == '1';
    if eq != -1 then
      if |line| < depth + 2 then Err(ArgumentOutOfRange)
      else LeafLine(line[depth + 2..], valueStr, align, u)
    else Ok(TextState(u.stack + [align], u.out))
  }

  /** A leaf line: its write, then its alignment when it is flagged. */
  function LeafLine(check: string, valueStr: string, align: bool, u: TextState): Result<TextState, Error>
  {
    var ws :- LeafWrites(check, valueStr);
    Ok(TextState(u.stack, AlignIf(u.out + ws, align)))
  }

  /** The scan over the remaining lines. */
  function ImportLines(lines: seq<string>, st: TextState, mode: Mode): Result<TextState, Error>
    decreases |lines|
  {
    if |lines| == 0 then Ok(st)
    else
      var st1 :- ImportLine(lines[0], st, mode);
      ImportLines(lines[1..], st1, mode)
  }

  /** The writes of a whole scan that starts with an empty stack after the
      writes `out`. As written, the scan stops at the end of the input
      whatever is still pending on the stack; corrected, the end of the input
      closes every open level as a line at depth 0 would, writing one
      alignment per pending `true`. */
  function ScanFrom(lines: seq<string>, out: seq<Write>, mode: Mode): Result<seq<Write>, Error>
  {
    var st :- ImportLines(lines, TextState([], out), mode);
    if mode == Corrected then Ok(Unwind(st.stack, 0, st.out).out) else Ok(st.out)
  }

  /** `ImportTextAsset`: the writes of the scan of the whole input. */
  function ImportText(lines: seq<string>, mode: Mode): Result<seq<Write>, Error>
  {
    ScanFrom(lines, [], mode)
  }

  // ---------------------------------------------------------------------------
  // JSON import specification

  /** `WriteValueByType`: the write for a scalar value kind; a value boxed
      with another type fails the cast, a non-scalar kind is refused. */
  function ValueTypeWrite(valueType: AssetValueType, value: Boxed): (r: Result<Write, Error>)
    ensures !(1 <= Code(valueType) <= 11) ==> r == Err(UnsupportedValueType(valueType))
    ensures IntTypeOf(valueType).Some? ==>
      var t := IntTypeOf(valueType).value;
      r == if value.BoxInt? && value.t == t then Ok(WInt(t, value.v)) else Err(InvalidCast)
  {
    match valueType
    case Bool => if value.BoxBool? then Ok(WBool(value.b)) else Err(InvalidCast)
    case Float => if value.BoxFloat? then Ok(WFloat(value.token)) else Err(InvalidCast)
    case Double => if value.BoxDouble? then Ok(WDouble(value.token)) else Err(InvalidCast)
    case _ =>
      match IntTypeOf(valueType)
      case Some(t) => UnboxInt(value, t)
      case None => Err(UnsupportedValueType(valueType))
  }

  /** The byte-array conversion: every element cast to a byte, the first
      element that does not convert failing the whole. */
  function ByteValues(items: seq<Json>): (r: Result<seq<uint8>, Error>)
    ensures r.Ok? <==> forall i :: 0 <= i < |items| ==> TokenAsInt(items[i], U8).Ok?
    ensures r.Ok? ==> |r.value| == |items| && forall i :: 0 <= i < |items| ==> r.value[i] == TokenAsInt(items[i], U8).value
  {
    if |items| == 0 then Ok([])
    else
      var n := |items| - 1;
      var init :- ByteValues(items[..n]);
      var b :- TokenAsInt(items[n], U8);
      Ok(init + [b])
  }

  /** The conversion fails with the error of the first element that does
      not convert. */
  lemma {:induction false} ByteValuesFirstError(items: seq<Json>, i: nat)
    requires i < |items| && TokenAsInt(items[i], U8).Err?
    requires forall k :: 0 <= k < i ==> TokenAsInt(items[k], U8).Ok?
    ensures ByteValues(items) == Err(TokenAsInt(items[i], U8).error)
    decreases |items|
  {
    var n := |items| - 1;
    if i < n {
      assert items[..n][i] == items[i];
      ByteValuesFirstError(items[..n], i);
    } else {
      assert ByteValues(items[..n]).Ok?;
    }
  }

  /** `RecurseJsonImport`: the writes for a token read against a template. */
  function JsonImport(t: TemplateField, tok: Json, resolve: Resolver, mode: Mode, acc: seq<Write>): Result<seq<Write>, Error>
    decreases Size(tok), 2, t
  {
    if |t.children| == 1 && t.children[0].isArray && tok.JArray? then
      // a single-array wrapper given an array: the wrapper is skipped
      JsonImport(t.children[0], tok, resolve, mode, acc)
    else if !t.HasValue() && !t.isArray then
      var acc1 :- JsonImportFields(t, tok, 0, resolve, mode, acc);
      Ok(AlignIf(acc1, t.isAligned))
    else if t.HasValue() && t.valueType == ManagedReferencesRegistry then
      JsonImportRegistry(t, tok, resolve, mode, acc)
    else
      var acc1 :- JsonImportValue(t, tok, mode, acc);
      var acc2 :- if t.isArray && t.valueType != ByteArray then JsonImportArray(t, tok, resolve, mode, acc1) else Ok(acc1);
      Ok(AlignIf(acc2, t.isAligned || t.valueType == String))
  }

  /** The fields of a struct from child `i` on, each read under its name. */
  function JsonImportFields(t: TemplateField, tok: Json, i: nat, resolve: Resolver, mode: Mode, acc: seq<Write>): Result<seq<Write>, Error>
    requires i <= |t.children|
    decreases Size(tok), 1, |t.children| - i
  {
    if i == |t.children| then Ok(acc)
    else
      var c := t.children[i];
      match Index(tok, c.name)
      case NotObject => Err(Error.NotAnObject)
      case Absent => Err(MissingField(c.name, Some(FieldId(t.typeName, t.name))))
      case Found(v) =>
        var acc1 :- JsonImport(c, v, resolve, mode, acc);
        JsonImportFields(t, tok, i + 1, resolve, mode, acc1)
  }

  /** The value switch of `RecurseJsonImport`: a string, a byte array, or a
      scalar converted and written by kind. The byte array's token is
      downcast to an array, which fails on every other token, a JSON null
      included. The corrected importer does not send an array template
      through the scalar conversion. */
  function JsonImportValue(t: TemplateField, tok: Json, mode: Mode, acc: seq<Write>): (r: Result<seq<Write>, Error>)
    ensures r.Ok? ==> acc <= r.value
  {
    if mode == Corrected && t.isArray && t.valueType != ByteArray then Ok(acc)
    else if t.valueType == String then
      var s :- TokenAsStringOrEmpty(tok);
      Ok(acc + [WString(s)])
    else if t.valueType == ByteArray then
      if tok.JArray? then
        var bytes :- ByteValues(tok.items);
        Ok(acc + [WInt(I32, |bytes|), WBytes(bytes)])
      else Err(InvalidCast)
    else
      var v :- ConvertJTokenToValue(t.valueType, tok);
      var w :- ValueTypeWrite(t.valueType, v);
      Ok(acc + [w])
  }

  /** The element loop of an array: the count, then each element read with
      the template's element child. */
  function JsonImportArray(t: TemplateField, tok: Json, resolve: Resolver, mode: Mode, acc: seq<Write>): Result<seq<Write>, Error>
    decreases Size(tok), 1, 0
  {
    if |t.children| < 2 then Err(ArgumentOutOfRange)
    else if !tok.JArray? then Err(InvalidCast)
    else JsonImportItems(t.children[1], tok, 0, resolve, mode, acc + [WInt(I32, |tok.items|)])
  }

  function JsonImportItems(elem: TemplateField, tok: Json, i: nat, resolve: Resolver, mode: Mode, acc: seq<Write>): Result<seq<Write>, Error>
    requires tok.JArray? && i <= |tok.items|
    decreases Size(tok), 0, |tok.items| - i
  {
    if i == |tok.items| then Ok(acc)
    else
      ItemSmaller(tok.items, i);
      var acc1 :- JsonImport(elem, tok.items[i], resolve, mode, acc);
      JsonImportItems(elem, tok, i + 1, resolve, mode, acc1)
  }

  /** `JsonImportManagedReferencesRegistry`. */
  function JsonImportRegistry(t: TemplateField, tok: Json, resolve: Resolver, mode: Mode, acc: seq<Write>): Result<seq<Write>, Error>
    decreases Size(tok), 1, 0
  {
    var versionTok :- ExpectAndReadField(tok, "version", Some(t));
    var version :- TokenAsInt(versionTok, I32);
    if !IsValidManagedReferencesVersion(version) then Err(InvalidRegistryVersion(version))
    else
      var refIds :- ExpectAndReadField(tok, "RefIds", Some(t));
      if !refIds.JArray? then Err(InvalidCast)
      else RegistryBody(t, tok, refIds, version, resolve, mode, acc)
  }

  /** The writes of a registry once its version and entries are read: the
      version, the count unless the version is 1, the entries, then the
      terminus for version 1 or an alignment otherwise. */
  function RegistryBody(t: TemplateField, tok: Json, refIds: Json, version: int,
                        resolve: Resolver, mode: Mode, acc: seq<Write>): Result<seq<Write>, Error>
    requires refIds.JArray? && Size(refIds) < Size(tok)
    decreases Size(tok), 0, |refIds.items| + 1
  {
    var head := acc + [WInt(I32, version)] + (if version != 1 then [WInt(I32, |refIds.items|)] else []);
    var acc1 :- JsonImportRefs(t, tok, refIds, version, 0, resolve, mode, head);
    Ok(acc1 + if version == 1 then TypeRefWrites(Terminus) else [WAlign])
  }

  /** The rid of entry `i`: version 1 demands it equal `i` and writes nothing,
      later versions write it. The corrected importer lets a version-1 entry
      omit it, as the exporter does. */
  function RidWrites(t: TemplateField, entry: Json, version: int, i: nat, mode: Mode): (r: Result<seq<Write>, Error>)
    ensures r.Ok? ==> |r.value| == if version == 1 then 0 else 1
  {
    if version == 1 && mode == Corrected then
      match Index(entry, "rid")
      case Found(ridTok) =>
        var rid :- TokenAsInt(ridTok, I64);
        if rid != i then Err(NonConsecutiveRid(i, rid)) else Ok([])
      case _ => Ok([])
    else
      var ridTok :- ExpectAndReadField(entry, "rid", Some(t));
      var rid :- TokenAsInt(ridTok, I64);
      if version == 1 then
        if rid != i then Err(NonConsecutiveRid(i, rid)) else Ok([])
      else Ok([WInt(I64, rid)])
  }

  /** The type triple of an entry, each name read as a string or empty. */
  function EntryType(t: TemplateField, entry: Json): Result<TypeReference, Error>
  {
    var typeTok :- ExpectAndReadField(entry, "type", Some(t));
    var classTok :- ExpectAndReadField(typeTok, "class", Some(t));
    var className :- TokenAsStringOrEmpty(classTok);
    var nsTok :- ExpectAndReadField(typeTok, "ns", Some(t));
    var ns :- TokenAsStringOrEmpty(nsTok);
    var asmTok :- ExpectAndReadField(typeTok, "asm", Some(t));
    var asmName :- TokenAsStringOrEmpty(asmTok);
    Ok(TypeReference(className, ns, asmName))
  }

  /** The entries from `i` on: rid, type, then (unless the type is the empty
      triple) the data read with the resolved template. */
  function JsonImportRefs(t: TemplateField, tok: Json, refIds: Json, version: int, i: nat,
                          resolve: Resolver, mode: Mode, acc: seq<Write>): Result<seq<Write>, Error>
    requires refIds.JArray? && Size(refIds) < Size(tok) && i <= |refIds.items|
    decreases Size(tok), 0, |refIds.items| - i
  {
    if i == |refIds.items| then Ok(acc)
    else
      var entry := refIds.items[i];
      ItemSmaller(refIds.items, i);
      var rid :- RidWrites(t, entry, version, i, mode);
      var typeRef :- EntryType(t, entry);
      var data :- ExpectAndReadField(entry, "data", Some(t));
      var acc1 := acc + rid + TypeRefWrites(typeRef);
      if typeRef == Terminus then JsonImportRefs(t, tok, refIds, version, i + 1, resolve, mode, acc1)
      else
        match resolve(typeRef)
        case None => Err(UnresolvedManagedType(typeRef))
        case Some(objectTemplate) =>
          var acc2 :- JsonImport(objectTemplate, data, resolve, mode, acc1);
          JsonImportRefs(t, tok, refIds, version, i + 1, resolve, mode, acc2)
  }

  /** `ImportJsonAsset` on a parsed token. */
  function ImportJson(t: TemplateField, tok: Json, resolve: Resolver, mode: Mode): Result<seq<Write>, Error>
  {
    JsonImport(t, tok, resolve, mode, [])
  }
}

module ImportReader {
  import opened Wrappers
  import opened NetStrings
  import opened AssetsTypes
  import opened JsonTree
  import opened AssetTypeHelper
  import opened ImportCodec

  /** The depth the scan counts with its loop is the number of leading spaces. */
  lemma {:induction false} LeadingSpacesAt(s: string, k: nat)
    requires k <= |s| && forall i :: 0 <= i < k ==> s[i] == ' '
    requires k < |s| ==> s[k] != ' '
    ensures LeadingSpaces(s) == k
  {
    if k > 0 {
      LeadingSpacesAt(s[1..], k - 1);
    }
  }

  /** The import side of the codec: a reader over the input's lines and the
      type manager's resolver. */
  class AssetImport {
    /** The lines of the input stream. */
    const input: seq<string>
    /** How many lines the reader has consumed. */
    var position: nat
    /** The type manager's lookup of managed types. */
    const resolve: Resolver

    constructor (input: seq<string>, resolve: Resolver)
      ensures this.input == input && this.resolve == resolve && position == 0
    {
      this.input := input;
      this.resolve := resolve;
      position := 0;
    }

    /** `ReadLine`: the next line, or None at the end of the input. */
    method ReadLine() returns (line: Option<string>)
      requires position <= |input|
      modifies this
      ensures old(position) < |input| ==> line == Some(input[old(position)]) && position == old(position) + 1
      ensures old(position) == |input| ==> line.None? && position == old(position)
    {
      if position == |input| {
        return None;
      }
      line := Some(input[position]);
      position := position + 1;
    }

    /** `ImportTextAsset`: the writes of the scan of the rest of the input, or
        the exception that stopped it (the partial output is dropped). */
    method ImportTextAsset() returns (r: Result<seq<Write>, Error>)
      requires position <= |input|
      modifies this
      ensures r == ImportText(old(input[position..]), AsWritten)
    {
      var writer := new Sink();
      var failure := ImportTextAssetLoop(writer);
      if failure.Some? {
        return Err(failure.value);
      }
      return Ok(writer.events);
    }

    method ImportTextAssetLoop(writer: Sink) returns (failure: Option<Error>)
      requires position <= |input|
      modifies this, writer
      ensures Follows(failure, ScanFrom(old(input[position..]), old(writer.events), AsWritten), writer.events)
    {
      var alignStack: seq<bool> := [];
      ghost var lines := input[position..];
      while true
        invariant position <= |input|
        invariant ImportLines(input[position..], TextState(alignStack, writer.events), AsWritten)
               == ImportLines(lines, TextState([], old(writer.events)), AsWritten)
        decreases |input| - position
      {
        ghost var rest := input[position..];
        var line := ReadLine();
        if line.None? {
          return None;
        }
        assert rest[0] == line.value && rest[1..] == input[position..];
        var f;
        alignStack, f := ImportTextLine(writer, line.value, alignStack);
        if f.Some? {
          return f;
        }
      }
    }

    /** One pass of the scan's loop: the depth count, the skip of index
        lines, the pops, then the leaf write or the push. */
    method ImportTextLine(writer: Sink, line: string, stack: seq<bool>) returns (newStack: seq<bool>, failure: Option<Error>)
      modifies writer
      ensures Follows(failure, ImportLine(line, TextState(stack, old(writer.events)), AsWritten), TextState(newStack, writer.events))
    {
      var thisDepth := CountDepth(line);
      if thisDepth == |line| {
        // the character test reads past the end of the line
        return stack, Some(IndexOutOfRange);
      }
      if line[thisDepth] == '[' {
        return stack, None;
      }
      var alignStack := PopAlignments(writer, stack, thisDepth);
      assert Unwind(stack, thisDepth, old(writer.events)) == TextState(alignStack, writer.events);

      var eqSign := IndexOf(line, '=');
      var valueStr := Trim(line[eqSign + 1..]);
      newStack, failure := ImportLeafOrPush(writer, line, thisDepth, eqSign, valueStr, alignStack);
    }

    /** The rest of the loop's pass, after the pops. */
    method ImportLeafOrPush(writer: Sink, line: string, thisDepth: nat, eqSign: int, valueStr: string, alignStack: seq<bool>)
      returns (newStack: seq<bool>, failure: Option<Error>)
      requires thisDepth < |line|
      modifies writer
      ensures Follows(failure, LineAfterPops(line, thisDepth, eqSign, valueStr, TextState(alignStack, old(writer.events))), TextState(newStack, writer.events))
    {
      var align := line[thisDepth..thisDepth + 1] == "1";
      assert align == (line[thisDepth] == '1');
      var typeName := thisDepth + 2;
      ghost var spec := LineAfterPops(line, thisDepth, eqSign, valueStr, TextState(alignStack, old(writer.events)));
      if eqSign != -1 {
        if |line| < typeName {
          return alignStack, Some(ArgumentOutOfRange);
        }
        var check := line[typeName..];
        assert spec == LeafLine(check, valueStr, align, TextState(alignStack, old(writer.events)));
        newStack, failure := ImportLeaf(writer, check, valueStr, align, alignStack);
        return;
      }
      assert spec == Ok(TextState(alignStack + [align], old(writer.events)));
      return alignStack + [align], None;
    }

    /** A leaf line: its value written by its type, then its alignment. */
    method ImportLeaf(writer: Sink, check: string, valueStr: string, align: bool, alignStack: seq<bool>)
      returns (newStack: seq<bool>, failure: Option<Error>)
      modifies writer
      ensures Follows(failure, LeafLine(check, valueStr, align, TextState(alignStack, old(writer.events))), TextState(newStack, writer.events))
    {
      newStack := alignStack;
      failure := WriteLeaf(writer, check, valueStr);
      if failure.Some? {
        return;
      }
      if align {
        writer.Align();
      }
    }

    /** The depth loop: the number of leading spaces, which is the line's
        length when the line is blank. */
    method CountDepth(line: string) returns (thisDepth: nat)
      ensures thisDepth == LeadingSpaces(line)
    {
      thisDepth := 0;
      while thisDepth < |line| && line[thisDepth] == ' '
        invariant thisDepth <= |line| && forall k :: 0 <= k < thisDepth ==> line[k] == ' '
      {
        thisDepth := thisDepth + 1;
      }
      LeadingSpacesAt(line, thisDepth);
    }

    /** The pop loop before a line at `thisDepth`. */
    method PopAlignments(writer: Sink, stack: seq<bool>, thisDepth: nat) returns (alignStack: seq<bool>)
      modifies writer
      ensures TextState(alignStack, writer.events) == Unwind(stack, thisDepth, old(writer.events))
    {
      alignStack := stack;
      while thisDepth < |alignStack|
        invariant Unwind(alignStack, thisDepth, writer.events) == Unwind(stack, thisDepth, old(writer.events))
      {
        var top := alignStack[|alignStack| - 1];
        alignStack := alignStack[..|alignStack| - 1];
        if top {
          writer.Align();
        }
      }
    }

    /** The write of a leaf line: a string between its outer quotes, or the
        first table type that matches and parses; an unhandled line writes
        nothing. */
    method WriteLeaf(writer: Sink, check: string, valueStr: string) returns (failure: Option<Error>)
      modifies writer
      ensures failure.None? <==> LeafWrites(check, valueStr).Ok?
      ensures failure.None? ==> writer.events == old(writer.events) + LeafWrites(check, valueStr).value
      ensures failure.Some? ==> failure == Some(LeafWrites(check, valueStr).error)
    {
      if StartsWithSpace(check, "string") {
        var firstQuote := IndexOf(valueStr, '"');
        var lastQuote := LastIndexOf(valueStr, '"');
        if lastQuote - firstQuote - 1 < 0 {
          return Some(ArgumentOutOfRange);
        }
        var valueStrFix := UnescapeTextDumpString(valueStr[firstQuote + 1..lastQuote]);
        writer.Write(WString(valueStrFix));
        return None;
      }
      var names := GetSupportedTypeNames();
      for i := 0 to |names|
        invariant writer.events == old(writer.events)
        invariant ParsedWrites(check, valueStr, names, i) == ParsedWrites(check, valueStr, names, 0)
      {
        if StartsWithSpace(check, names[i]) {
          var parsedValue := TryParseValue(names[i], valueStr);
          if parsedValue.Some? {
            failure := WriteValue(writer, names[i], parsedValue.value);
            return;
          }
        }
      }
      return None;
    }

    /** `ImportJsonAsset` on the parsed token: the writes for the template,
        or the exception that stopped the import. */
    method ImportJsonAsset(tempField: TemplateField, token: Json) returns (r: Result<seq<Write>, Error>)
      ensures r == ImportJson(tempField, token, resolve, AsWritten)
    {
      var writer := new Sink();
      var failure := RecurseJsonImport(writer, tempField, token);
      if failure.Some? {
        return Err(failure.value);
      }
      return Ok(writer.events);
    }

    method RecurseJsonImport(writer: Sink, tempField: TemplateField, token: Json) returns (failure: Option<Error>)
      modifies writer
      ensures Follows(failure, JsonImport(tempField, token, resolve, AsWritten, old(writer.events)), writer.events)
      decreases Size(token), 2, tempField
    {
      var align := tempField.isAligned;

      if |tempField.children| == 1 && tempField.children[0].isArray && token.JArray? {
        failure := RecurseJsonImport(writer, tempField.children[0], token);
        return;
      }

      if !tempField.HasValue() && !tempField.isArray {
        failure := RecurseJsonImportFields(writer, tempField, token);
        if failure.Some? {
          return;
        }
        if align {
          writer.Align();
        }
      } else if tempField.HasValue() && tempField.valueType == ManagedReferencesRegistry {
        failure := JsonImportManagedReferencesRegistry(writer, tempField, token);
      } else {
        failure := WriteJsonValue(writer, tempField, token);
        if failure.Some? {
          return;
        }
        if tempField.valueType == String {
          align := true;
        }
        if tempField.isArray && tempField.valueType != ByteArray {
          failure := RecurseJsonImportArray(writer, tempField, token);
          if failure.Some? {
            return;
          }
        }
        if align {
          writer.Align();
        }
      }
    }

    /** The struct branch: each template child read from the key of its name. */
    method RecurseJsonImportFields(writer: Sink, tempField: TemplateField, token: Json) returns (failure: Option<Error>)
      modifies writer
      ensures Follows(failure, JsonImportFields(tempField, token, 0, resolve, AsWritten, old(writer.events)), writer.events)
      decreases Size(token), 1, 0
    {
      for i := 0 to |tempField.children|
        invariant JsonImportFields(tempField, token, i, resolve, AsWritten, writer.events)
               == JsonImportFields(tempField, token, 0, resolve, AsWritten, old(writer.events))
      {
        var childTempField := tempField.children[i];
        var childToken := Index(token, childTempField.name);
        if childToken.NotObject? {
          return Some(Error.NotAnObject);
        }
        if childToken.Absent? {
          return Some(MissingField(childTempField.name, Some(FieldId(tempField.typeName, tempField.name))));
        }
        failure := RecurseJsonImport(writer, childTempField, childToken.val);
        if failure.Some? {
          return;
        }
      }
      return None;
    }

    /** The value switch: a string, a byte array copied into a buffer, or a
        scalar converted and written by kind. */
    method WriteJsonValue(writer: Sink, tempField: TemplateField, token: Json) returns (failure: Option<Error>)
      modifies writer
      ensures Follows(failure, JsonImportValue(tempField, token, AsWritten, old(writer.events)), writer.events)
    {
      if tempField.valueType == String {
        var s := TokenAsStringOrEmpty(token);
        if s.Err? {
          return Some(s.error);
        }
        writer.Write(WString(s.value));
        assert JsonImportValue(tempField, token, AsWritten, old(writer.events)) == Ok(writer.events);
      } else if tempField.valueType == ByteArray {
        if !token.JArray? {
          return Some(InvalidCast);
        }
        failure := WriteByteArray(writer, token.items);
        return;
      } else {
        var convertedValue := ConvertJTokenToValue(tempField.valueType, token);
        if convertedValue.Err? {
          return Some(convertedValue.error);
        }
        failure := WriteValueByType(writer, tempField.valueType, convertedValue.value);
        return;
      }
      return None;
    }

    /** The byte-array branch: every element cast to a byte into a buffer,
        then the buffer's length and the buffer written. */
    method WriteByteArray(writer: Sink, items: seq<Json>) returns (failure: Option<Error>)
      modifies writer
      ensures failure.None? <==> ByteValues(items).Ok?
      ensures failure.None? ==> writer.events == old(writer.events) + [WInt(I32, |items|), WBytes(ByteValues(items).value)]
      ensures failure.Some? ==> writer.events == old(writer.events) && failure == Some(ByteValues(items).error)
    {
      var byteArrayData := new uint8[|items|];
      for i := 0 to byteArrayData.Length
        invariant writer.events == old(writer.events)
        invariant forall k :: 0 <= k < i ==> TokenAsInt(items[k], U8).Ok? && byteArrayData[k] == TokenAsInt(items[k], U8).value
      {
        var b := TokenAsInt(items[i], U8);
        if b.Err? {
          ByteValuesFirstError(items, i);
          return Some(b.error);
        }
        byteArrayData[i] := b.value;
      }
      var data := byteArrayData[..];
      assert data == ByteValues(items).value;
      writer.Write(WInt(I32, |data|));
      writer.Write(WBytes(data));
      return None;
    }

    /** The element loop of a non-byte array. */
    method RecurseJsonImportArray(writer: Sink, tempField: TemplateField, token: Json) returns (failure: Option<Error>)
      modifies writer
      ensures Follows(failure, JsonImportArray(tempField, token, resolve, AsWritten, old(writer.events)), writer.events)
      decreases Size(token), 1, 0
    {
      if |tempField.children| < 2 {
        return Some(ArgumentOutOfRange);
      }
      var childTempField := tempField.children[1];
      if !token.JArray? {
        return Some(InvalidCast);
      }
      var tokenArray := token.items;
      writer.Write(WInt(I32, |tokenArray|));
      for i := 0 to |tokenArray|
        invariant JsonImportItems(childTempField, token, i, resolve, AsWritten, writer.events)
               == JsonImportItems(childTempField, token, 0, resolve, AsWritten, old(writer.events) + [WInt(I32, |tokenArray|)])
      {
        ItemSmaller(tokenArray, i);
        failure := RecurseJsonImport(writer, childTempField, tokenArray[i]);
        if failure.Some? {
          return;
        }
      }
      return None;
    }

    method JsonImportManagedReferencesRegistry(writer: Sink, tempField: TemplateField, token: Json) returns (failure: Option<Error>)
      modifies writer
      ensures Follows(failure, JsonImportRegistry(tempField, token, resolve, AsWritten, old(writer.events)), writer.events)
      decreases Size(token), 1, 0
    {
      var versionToken := ExpectAndReadField(token, "version", Some(tempField));
      if versionToken.Err? {
        return Some(versionToken.error);
      }
      var versionValue := TokenAsInt(versionToken.value, I32);
      if versionValue.Err? {
        return Some(versionValue.error);
      }
      var version := versionValue.value;
      if !IsValidManagedReferencesVersion(version) {
        return Some(InvalidRegistryVersion(version));
      }
      var refIds := ExpectAndReadField(token, "RefIds", Some(tempField));
      if refIds.Err? {
        return Some(refIds.error);
      }
      if !refIds.value.JArray? {
        return Some(InvalidCast);
      }
      failure := WriteReferences(writer, tempField, token, refIds.value, version);
    }

    /** The writes after the registry's header is read: version, count,
        entries, and the closing terminus or alignment. */
    method WriteReferences(writer: Sink, tempField: TemplateField, token: Json, refIds: Json, version: int)
      returns (failure: Option<Error>)
      requires refIds.JArray? && Size(refIds) < Size(token)
      modifies writer
      ensures Follows(failure, RegistryBody(tempField, token, refIds, version, resolve, AsWritten, old(writer.events)), writer.events)
      decreases Size(token), 0, |refIds.items| + 1
    {
      var refIdsArray := refIds.items;
      writer.Write(WInt(I32, version));
      var childCount := |refIdsArray|;
      if version != 1 {
        writer.Write(WInt(I32, childCount));
      }
      ghost var head := writer.events;
      assert head == old(writer.events) + [WInt(I32, version)] + (if version != 1 then [WInt(I32, |refIds.items|)] else []);
      ghost var spec := JsonImportRefs(tempField, token, refIds, version, 0, resolve, AsWritten, head);
      assert RegistryBody(tempField, token, refIds, version, resolve, AsWritten, old(writer.events))
          == if spec.Err? then Err(spec.error) else Ok(spec.value + if version == 1 then TypeRefWrites(Terminus) else [WAlign]);

      for i := 0 to childCount
        invariant JsonImportRefs(tempField, token, refIds, version, i, resolve, AsWritten, writer.events) == spec
      {
        failure := ImportReference(writer, tempField, token, refIds, version, i);
        if failure.Some? {
          return;
        }
      }
      assert spec == Ok(writer.events);

      if version == 1 {
        writer.WriteAll(TypeRefWrites(Terminus));
      } else {
        writer.Align();
      }
      return None;
    }

    /** One pass of the registry loop: rid, type triple, data. */
    method ImportReference(writer: Sink, tempField: TemplateField, token: Json, refIds: Json, version: int, i: nat)
      returns (failure: Option<Error>)
      requires refIds.JArray? && Size(refIds) < Size(token) && i < |refIds.items|
      modifies writer
      ensures var spec := JsonImportRefs(tempField, token, refIds, version, i, resolve, AsWritten, old(writer.events));
        (failure.None? ==> spec == JsonImportRefs(tempField, token, refIds, version, i + 1, resolve, AsWritten, writer.events)) &&
        (failure.Some? ==> spec == Err(failure.value))
      decreases Size(token), 0, |refIds.items| - i
    {
      var refdObjectToken := refIds.items[i];
      ItemSmaller(refIds.items, i);
      failure := ImportRid(writer, tempField, refdObjectToken, version, i);
      if failure.Some? {
        return;
      }

      var entryType := EntryType(tempField, refdObjectToken);
      if entryType.Err? {
        return Some(entryType.error);
      }
      var typeRef := entryType.value;

      var dataToken := ExpectAndReadField(refdObjectToken, "data", Some(tempField));
      if dataToken.Err? {
        return Some(dataToken.error);
      }

      writer.WriteAll(TypeRefWrites(typeRef));
      if typeRef == Terminus {
        // an empty entry has no data after its type
        return None;
      }
      var objectTempField := resolve(typeRef);
      if objectTempField.None? {
        return Some(UnresolvedManagedType(typeRef));
      }
      failure := RecurseJsonImport(writer, objectTempField.value, dataToken.value);
    }

    /** The rid of a registry entry: read, checked against the entry's index
        for version 1, written otherwise. */
    method ImportRid(writer: Sink, tempField: TemplateField, refdObjectToken: Json, version: int, i: nat)
      returns (failure: Option<Error>)
      modifies writer
      ensures var spec := RidWrites(tempField, refdObjectToken, version, i, AsWritten);
        (failure.None? <==> spec.Ok?) &&
        (spec.Ok? ==> writer.events == old(writer.events) + spec.value) &&
        (spec.Err? ==> failure == Some(spec.error))
    {
      var ridToken := ExpectAndReadField(refdObjectToken, "rid", Some(tempField));
      if ridToken.Err? {
        return Some(ridToken.error);
      }
      var ridValue := TokenAsInt(ridToken.value, I64);
      if ridValue.Err? {
        return Some(ridValue.error);
      }
      var rid := ridValue.value;
      if version == 1 {
        if rid != i {
          return Some(NonConsecutiveRid(i, rid));
        }
      } else {
        writer.Write(WInt(I64, rid));
      }
      return None;
    }

    /** `WriteValueByType`: the write of a converted scalar by its kind. */
    method WriteValueByType(writer: Sink, valueType: AssetValueType, value: Boxed) returns (failure: Option<Error>)
      modifies writer
      ensures Follows(failure, Appended(old(writer.events), ValueTypeWrite(valueType, value)), writer.events)
    {
      match valueType {
        case Bool =>
          if !value.BoxBool? { return Some(InvalidCast); }
          writer.Write(WBool(value.b));
        case UInt8 => failure := WriteUnboxed(writer, value, U8); return;
        case Int8 => failure := WriteUnboxed(writer, value, I8); return;
        case UInt16 => failure := WriteUnboxed(writer, value, U16); return;
        case Int16 => failure := WriteUnboxed(writer, value, I16); return;
        case UInt32 => failure := WriteUnboxed(writer, value, U32); return;
        case Int32 => failure := WriteUnboxed(writer, value, I32); return;
        case UInt64 => failure := WriteUnboxed(writer, value, U64); return;
        case Int64 => failure := WriteUnboxed(writer, value, I64); return;
        case Float =>
          if !value.BoxFloat? { return Some(InvalidCast); }
          writer.Write(WFloat(value.token));
        case Double =>
          if !value.BoxDouble? { return Some(InvalidCast); }
          writer.Write(WDouble(value.token));
        case _ => return Some(UnsupportedValueType(valueType));
      }
      return None;
    }
  }
}
