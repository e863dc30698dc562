/** The two dumps of a value tree: the indented line-per-field text dump and
    the JSON tree, each with its version-specific rendering of managed-reference
    registries. Each dump is specified by a function that threads the output
    produced so far, and implemented by the `AssetExport` methods, which append
    to the output in loops and recursion as the source does. */
module ExportCodec {
  import opened Wrappers
  import opened NetStrings
  import opened AssetsTypes
  import opened JsonTree
  import opened AssetTypeHelper

  // ---------------------------------------------------------------------------
  // Text dump lines

  /** `{depth spaces}{content}`. */
  function Line(depth: nat, content: string): (r: string)
    ensures |r| == depth + |content| && r[..depth] == Spaces(depth) && r[depth..] == content
  {
    Spaces(depth) + content
  }

  function Flag(b: bool): string
  {
    if b then "1" else "0"
  }

  /** The flag a field's line carries: its alignment, forced to 1 for a string,
      whose own template is not aligned but whose character array is. */
  function AlignFlag(t: TemplateField): (r: string)
    ensures t.valueType == String ==> r == "1"
    ensures r == "1" <==> t.isAligned || t.valueType == String
  {
    Flag(t.isAligned || t.valueType == String)
  }

  /** `AsString` of a scalar value, as the assets library renders it. */
  function AsString(v: Value): string
    requires 1 <= Code(v.ValueType()) <= 12
  {
    match v
    case VBool(b) => if b then "true" else "false"
    case VInt(_, i) => IntToString(i)
    case VFloat(_, token) => token
    case VString(s) => s
  }

  /** What follows the field name on a field's line: nothing for a field
      without a value or with a non-scalar value, ` = "{escaped}"` for a string
      and ` = {value}` for the other scalar kinds. */
  function ValueSuffix(value: Option<Value>): (r: string)
    ensures value.None? ==> r == ""
    ensures value.Some? && !(1 <= Code(value.value.ValueType()) <= 12) ==> r == ""
    ensures value.Some? && value.value.VString? ==> r == " = \"" + EscapeTextDumpString(value.value.s) + "\""
  {
    match value
    case None => ""
    case Some(v) =>
      if v.VString? then " = \"" + EscapeTextDumpString(v.s) + "\""
      else if 1 <= Code(v.ValueType()) <= 12 then " = " + AsString(v)
      else ""
  }

  function FieldLine(t: TemplateField, value: Option<Value>): string
  {
    AlignFlag(t) + " " + t.typeName + " " + t.name + ValueSuffix(value)
  }

  function ArrayHeader(t: TemplateField, size: int): string
  {
    AlignFlag(t) + " " + t.typeName + " " + t.name + " (" + IntToString(size) + " items)"
  }

  function SizeLine(sizeTemplate: TemplateField, size: int): string
  {
    Flag(sizeTemplate.isAligned) + " " + sizeTemplate.typeName + " " + sizeTemplate.name + " = " + IntToString(size)
  }

  function IndexLine(i: int): string
  {
    "[" + IntToString(i) + "]"
  }

  /** The line that holds one byte of a byte array. */
  function ByteDataLine(b: uint8): string
  {
    "0 UInt8 data = " + IntToString(b)
  }

  /** The `[i]` line and the `0 UInt8 data = {b}` line of each byte, in order. */
  function ByteLines(data: seq<uint8>, depth: nat): (r: seq<string>)
    ensures |r| == 2 * |data|
  {
    if |data| == 0 then []
    else
      var n := |data| - 1;
      ByteLines(data[..n], depth) + [Line(depth + 1, IndexLine(n)), Line(depth + 2, ByteDataLine(data[n]))]
  }

  /** The three `1 string` lines of a managed type reference. */
  function TypeRefLines(r: TypeReference, depth: nat): seq<string>
  {
    [TypeRefLine(depth, "class", r.className),
     TypeRefLine(depth, "ns", r.ns),
     TypeRefLine(depth, "asm", r.asmName)]
  }

  /** One name of a type reference: `1 string {key} = "{escaped name}"`. */
  function TypeRefLine(depth: nat, key: string, s: string): string
  {
    Line(depth, "1 string " + key + " = \"" + EscapeTextDumpString(s) + "\"")
  }

  /** The lines that open the i-th object of a version-1 registry. */
  function RefHeaderV1(i: nat, r: TypeReference, depth: nat): seq<string>
  {
    RefOpeningV1(i, depth) + TypeRefLines(r, depth + 3) + [Line(depth + 2, "0 ReferencedObjectData data")]
  }

  /** The object line and the type line of a version-1 registry object. */
  function RefOpeningV1(i: nat, depth: nat): seq<string>
  {
    [Line(depth + 1, "0 ReferencedObject " + ZeroPad(i, 8)),
     Line(depth + 2, "0 ReferencedManagedType type")]
  }

  /** The lines that open an object of a version-2 registry. */
  function RefHeaderV2(rid: int, r: TypeReference, depth: nat): seq<string>
  {
    RefOpeningV2(rid, depth) + TypeRefLines(r, depth + 5) + [Line(depth + 4, "0 ReferencedObjectData data")]
  }

  /** The object line, the rid line and the type line of a version-2 registry object. */
  function RefOpeningV2(rid: int, depth: nat): seq<string>
  {
    [Line(depth + 3, "0 ReferencedObject data"),
     Line(depth + 4, "0 SInt64 rid = " + IntToString(rid)),
     Line(depth + 4, "0 ReferencedManagedType type")]
  }

  function RegistryOf(f: ValueField): Registry
    requires f.value.Some? && f.value.value.VRegistry?
  {
    f.value.value.registry
  }

  predicate HasRegistry(f: ValueField)
  {
    f.value.Some? && f.value.value.VRegistry?
  }

  // ---------------------------------------------------------------------------
  // Text dump specification

  /** `RecurseTextDump(field, depth)`: `acc` followed by the field's lines, or
      the exception the dump raises. */
  function TextDump(f: ValueField, depth: nat, acc: seq<string>): Result<seq<string>, Error>
    decreases f, 2, 0
  {
    var t := f.template;
    if t.isArray then
      if |t.children| == 0 then Err(IndexOutOfRange)
      else if t.valueType != ByteArray then
        if f.value.Some? && f.value.value.VArray? then
          var size := f.value.value.size;
          TextDumpElements(f, 0, depth,
            acc + [Line(depth, ArrayHeader(t, size)), Line(depth + 1, SizeLine(t.children[0], size))])
        else Err(MalformedValueTree)
      else if f.value.Some? && f.value.value.VByteArray? then
        var data := f.value.value.bytes;
        Ok(acc + [Line(depth, ArrayHeader(t, |data|)), Line(depth + 1, SizeLine(t.children[0], |data|))]
           + ByteLines(data, depth))
      else Err(MalformedValueTree)
    else
      var acc1 := acc + [Line(depth, FieldLine(t, f.value))];
      if HasRegistry(f) then TextDumpRegistry(f, depth, acc1)
      else TextDumpFields(f, 0, depth + 1, acc1)
  }

  /** The elements of an array from index `i`, each after its `[i]` line. */
  function TextDumpElements(f: ValueField, i: nat, depth: nat, acc: seq<string>): Result<seq<string>, Error>
    requires i <= |f.children|
    decreases f, 1, |f.children| - i
  {
    if i == |f.children| then Ok(acc)
    else
      var acc1 :- TextDump(f.children[i], depth + 2, acc + [Line(depth + 1, IndexLine(i))]);
      TextDumpElements(f, i + 1, depth, acc1)
  }

  /** The children of a field from index `i`, each at `depth`. */
  function TextDumpFields(f: ValueField, i: nat, depth: nat, acc: seq<string>): Result<seq<string>, Error>
    requires i <= |f.children|
    decreases f, 1, |f.children| - i
  {
    if i == |f.children| then Ok(acc)
    else
      var acc1 :- TextDump(f.children[i], depth, acc);
      TextDumpFields(f, i + 1, depth, acc1)
  }

  /** `TextDumpManagedReferencesRegistry`. */
  function TextDumpRegistry(f: ValueField, depth: nat, acc: seq<string>): Result<seq<string>, Error>
    requires HasRegistry(f)
    decreases f, 1, 0
  {
    var reg := RegistryOf(f);
    if reg.version == 1 then
      TextDumpRefsV1(f, 0, depth, acc + [Line(depth + 1, "0 int version = " + IntToString(reg.version))])
    else if reg.version == 2 then
      TextDumpRefsV2(f, 0, depth,
        acc + [Line(depth + 1, "0 int version = " + IntToString(reg.version)),
               Line(depth + 1, "0 vector RefIds"),
               Line(depth + 2, "1 Array Array"),
               Line(depth + 3, "0 int size = " + IntToString(|reg.references|))])
    else Err(NotSupportedRegistryVersion(reg.version))
  }

  /** Version 1 from object `i`: each object's block and data, then the
      synthesized terminus block, whose placeholder data has no children. */
  function TextDumpRefsV1(f: ValueField, i: nat, depth: nat, acc: seq<string>): Result<seq<string>, Error>
    requires HasRegistry(f) && i <= |RegistryOf(f).references|
    decreases f, 0, |RegistryOf(f).references| - i
  {
    var refs := RegistryOf(f).references;
    if i == |refs| then Ok(acc + RefHeaderV1(i, Terminus, depth))
    else
      var acc1 :- TextDumpFields(refs[i].data, 0, depth + 3, acc + RefHeaderV1(i, refs[i].typeRef, depth));
      TextDumpRefsV1(f, i + 1, depth, acc1)
  }

  /** Version 2 from object `i`: each object's block, with its rid, and data. */
  function TextDumpRefsV2(f: ValueField, i: nat, depth: nat, acc: seq<string>): Result<seq<string>, Error>
    requires HasRegistry(f) && i <= |RegistryOf(f).references|
    decreases f, 0, |RegistryOf(f).references| - i
  {
    var refs := RegistryOf(f).references;
    if i == |refs| then Ok(acc)
    else
      var acc1 :- TextDumpFields(refs[i].data, 0, depth + 5, acc + RefHeaderV2(refs[i].rid, refs[i].typeRef, depth));
      TextDumpRefsV2(f, i + 1, depth, acc1)
  }

  // ---------------------------------------------------------------------------
  // JSON dump specification

  /** `JObject.Add`: a key already present throws. */
  function AddProp(props: seq<Prop>, key: string, val: Json): (r: Result<seq<Prop>, Error>)
    ensures r.Ok? <==> key !in Keys(props)
    ensures r.Ok? ==> r.value == props + [Prop(key, val)]
    ensures r.Err? ==> r.error == DuplicateKey(key)
  {
    if key in Keys(props) then Err(DuplicateKey(key)) else Ok(props + [Prop(key, val)])
  }

  /** The bytes of a byte array as JSON integers. */
  function ByteItems(data: seq<uint8>): (r: seq<Json>)
    ensures |r| == |data| && forall i :: 0 <= i < |data| ==> r[i] == JInt(data[i])
  {
    seq(|data|, i requires 0 <= i < |data| => JInt(data[i]))
  }

  /** `RecurseJsonDump`. */
  function JsonDump(f: ValueField): Result<Json, Error>
    decreases f, 2, 0
  {
    var t := f.template;
    if t.isArray then
      if t.valueType != ByteArray then
        var items :- JsonDumpItems(f, 0, []);
        Ok(JArray(items))
      else if f.value.Some? && f.value.value.VByteArray? then
        Ok(JArray(ByteItems(f.value.value.bytes)))
      else Err(MalformedValueTree)
    else if f.value.Some? then
      if !f.value.value.VRegistry? then Ok(ConvertValueFieldToJToken(f))
      else JsonDumpRegistry(f)
    else
      var props :- JsonDumpProps(f, 0, []);
      Ok(JObject(props))
  }

  /** The array elements from index `i`, appended to `acc`. */
  function JsonDumpItems(f: ValueField, i: nat, acc: seq<Json>): Result<seq<Json>, Error>
    requires i <= |f.children|
    decreases f, 1, |f.children| - i
  {
    if i == |f.children| then Ok(acc)
    else
      var j :- JsonDump(f.children[i]);
      JsonDumpItems(f, i + 1, acc + [j])
  }

  /** The children from index `i`, each added under its field name. */
  function JsonDumpProps(f: ValueField, i: nat, acc: seq<Prop>): Result<seq<Prop>, Error>
    requires i <= |f.children|
    decreases f, 1, |f.children| - i
  {
    if i == |f.children| then Ok(acc)
    else
      var j :- JsonDump(f.children[i]);
      var acc1 :- AddProp(acc, f.children[i].template.name, j);
      JsonDumpProps(f, i + 1, acc1)
  }

  /** `JsonDumpManagedReferencesRegistry`. */
  function JsonDumpRegistry(f: ValueField): Result<Json, Error>
    requires HasRegistry(f)
    decreases f, 1, 0
  {
    var reg := RegistryOf(f);
    if IsValidManagedReferencesVersion(reg.version) then
      var refs :- JsonDumpRefs(f, 0, []);
      Ok(JObject([Prop("version", JInt(reg.version)), Prop("RefIds", JArray(refs))]))
    else Err(NotSupportedRegistryVersion(reg.version))
  }

  /** One registry entry: `{type, data}` for version 1, `{rid, type, data}`
      otherwise. */
  function RefObject(version: int, rid: int, r: TypeReference, data: seq<Prop>): Json
  {
    var typeObj := CreateManagedReferencesJObject(r.className, r.ns, r.asmName);
    if version == 1 then JObject([Prop("type", typeObj), Prop("data", JObject(data))])
    else JObject([Prop("rid", JInt(rid)), Prop("type", typeObj), Prop("data", JObject(data))])
  }

  function JsonDumpRefs(f: ValueField, i: nat, acc: seq<Json>): Result<seq<Json>, Error>
    requires HasRegistry(f) && i <= |RegistryOf(f).references|
    decreases f, 0, |RegistryOf(f).references| - i
  {
    var reg := RegistryOf(f);
    if i == |reg.references| then Ok(acc)
    else
      var r := reg.references[i];
      var data :- JsonDumpProps(r.data, 0, []);
      JsonDumpRefs(f, i + 1, acc + [RefObject(reg.version, r.rid, r.typeRef, data)])
  }
}

module ExportWriter {
  import opened Wrappers
  import opened NetStrings
  import opened AssetsTypes
  import opened JsonTree
  import opened AssetTypeHelper
  import opened ExportCodec

  /** The placeholder data of the synthesized version-1 terminus: no children. */
  const DummyField: ValueField := ValueField(TemplateField("", "DUMMY", NoValue, false, false, []), None, [])

  /** The export side of the codec, writing the text dump line by line. */
  class AssetExport {
    /** The lines written to the output stream so far. */
    var lines: seq<string>

    constructor ()
      ensures lines == []
    {
      lines := [];
    }

    method WriteLine(l: string)
      modifies this
      ensures lines == old(lines) + [l]
    {
      lines := lines + [l];
    }

    /** `DumpTextAsset`: the whole text dump of a base field. */
    method DumpTextAsset(baseField: ValueField) returns (failure: Option<Error>)
      modifies this
      ensures Follows(failure, TextDump(baseField, 0, old(lines)), lines)
    {
      failure := RecurseTextDump(baseField, 0);
    }

    method RecurseTextDump(field: ValueField, depth: nat) returns (failure: Option<Error>)
      modifies this
      ensures Follows(failure, TextDump(field, depth, old(lines)), lines)
      decreases field, 2
    {
      var template := field.template;
      var align := if template.isAligned then "1" else "0";
      // a string's own template is not aligned, but its character array is
      if template.valueType == String {
        align := "1";
      }
      assert align == AlignFlag(template);
      var typeName := template.typeName;
      var fieldName := template.name;

      if template.isArray {
        if |template.children| == 0 {
          return Some(IndexOutOfRange);
        }
        if template.valueType != ByteArray {
          if !(field.value.Some? && field.value.value.VArray?) {
            return Some(MalformedValueTree);
          }
          var size := field.value.value.size;
          WriteArrayHead(template, size, depth);
          failure := RecurseTextDumpElements(field, depth);
        } else {
          if !(field.value.Some? && field.value.value.VByteArray?) {
            return Some(MalformedValueTree);
          }
          var data := field.value.value.bytes;
          var size := |data|;
          WriteArrayHead(template, size, depth);
          WriteByteLines(data, depth);
          failure := None;
        }
      } else {
        var value := "";
        if field.value.Some? {
          var evt := field.value.value.ValueType();
          if evt == String {
            assert field.value.value.VString?;
            value := " = \"" + EscapeTextDumpString(field.value.value.s) + "\"";
          } else if 1 <= Code(evt) <= 12 {
            value := " = " + AsString(field.value.value);
          }
        }
        assert value == ValueSuffix(field.value);
        WriteLine(Line(depth, align + " " + typeName + " " + fieldName + value));
        assert lines == old(lines) + [Line(depth, FieldLine(template, field.value))];

        if field.value.Some? && field.value.value.ValueType() == ManagedReferencesRegistry {
          assert HasRegistry(field);
          failure := TextDumpManagedReferencesRegistry(field, depth);
        } else {
          failure := RecurseTextDumpChildren(field, depth + 1);
        }
      }
    }

    /** The header line of an array, `{flag} {type} {name} ({size} items)`,
        then its size line one level deeper. */
    method WriteArrayHead(template: TemplateField, size: int, depth: nat)
      requires |template.children| > 0
      modifies this
      ensures lines == old(lines) + [Line(depth, ArrayHeader(template, size)), Line(depth + 1, SizeLine(template.children[0], size))]
    {
      var sizeTemplate := template.children[0];
      var align := if template.isAligned || template.valueType == String then "1" else "0";
      var sizeAlign := if sizeTemplate.isAligned then "1" else "0";
      WriteLine(Line(depth, align + " " + template.typeName + " " + template.name + " (" + IntToString(size) + " items)"));
      WriteLine(Line(depth + 1, sizeAlign + " " + sizeTemplate.typeName + " " + sizeTemplate.name + " = " + IntToString(size)));
    }

    /** The byte loop of a byte array. */
    method WriteByteLines(data: seq<uint8>, depth: nat)
      modifies this
      ensures lines == old(lines) + ByteLines(data, depth)
    {
      for i := 0 to |data|
        invariant lines == old(lines) + ByteLines(data[..i], depth)
      {
        assert data[..i + 1][..i] == data[..i];
        WriteLine(Line(depth + 1, IndexLine(i)));
        WriteLine(Line(depth + 2, ByteDataLine(data[i])));
      }
      assert data[..|data|] == data;
    }

    /** The element loop of a non-byte array: each child after its `[i]` line. */
    method RecurseTextDumpElements(field: ValueField, depth: nat) returns (failure: Option<Error>)
      modifies this
      ensures Follows(failure, TextDumpElements(field, 0, depth, old(lines)), lines)
      decreases field, 1
    {
      ghost var start := lines;
      for i := 0 to |field.children|
        invariant TextDumpElements(field, i, depth, lines) == TextDumpElements(field, 0, depth, start)
      {
        WriteLine(Line(depth + 1, IndexLine(i)));
        failure := RecurseTextDump(field.children[i], depth + 2);
        if failure.Some? {
          return;
        }
      }
      failure := None;
    }

    /** `foreach (var child in field) RecurseTextDump(child, depth)`. */
    method RecurseTextDumpChildren(field: ValueField, depth: nat) returns (failure: Option<Error>)
      modifies this
      ensures Follows(failure, TextDumpFields(field, 0, depth, old(lines)), lines)
      decreases field, 1
    {
      ghost var start := lines;
      for i := 0 to |field.children|
        invariant TextDumpFields(field, i, depth, lines) == TextDumpFields(field, 0, depth, start)
      {
        failure := RecurseTextDump(field.children[i], depth);
        if failure.Some? {
          return;
        }
      }
      failure := None;
    }

    method WriteTypeRefLines(typeRef: TypeReference, depth: nat)
      modifies this
      ensures lines == old(lines) + TypeRefLines(typeRef, depth)
    {
      WriteLine(TypeRefLine(depth, "class", typeRef.className));
      WriteLine(TypeRefLine(depth, "ns", typeRef.ns));
      WriteLine(TypeRefLine(depth, "asm", typeRef.asmName));
    }

    method WriteRefHeaderV1(i: nat, typeRef: TypeReference, depth: nat)
      modifies this
      ensures lines == old(lines) + RefHeaderV1(i, typeRef, depth)
    {
      WriteLine(Line(depth + 1, "0 ReferencedObject " + ZeroPad(i, 8)));
      WriteLine(Line(depth + 2, "0 ReferencedManagedType type"));
      WriteTypeRefLines(typeRef, depth + 3);
      WriteLine(Line(depth + 2, "0 ReferencedObjectData data"));
    }

    method WriteRefHeaderV2(rid: int, typeRef: TypeReference, depth: nat)
      modifies this
      ensures lines == old(lines) + RefHeaderV2(rid, typeRef, depth)
    {
      WriteLine(Line(depth + 3, "0 ReferencedObject data"));
      WriteLine(Line(depth + 4, "0 SInt64 rid = " + IntToString(rid)));
      WriteLine(Line(depth + 4, "0 ReferencedManagedType type"));
      WriteTypeRefLines(typeRef, depth + 5);
      WriteLine(Line(depth + 4, "0 ReferencedObjectData data"));
    }

    method TextDumpManagedReferencesRegistry(field: ValueField, depth: nat) returns (failure: Option<Error>)
      requires HasRegistry(field)
      modifies this
      ensures Follows(failure, TextDumpRegistry(field, depth, old(lines)), lines)
      decreases field, 1
    {
      var registry := field.value.value.registry;
      if registry.version == 1 {
        WriteLine(Line(depth + 1, "0 int version = " + IntToString(registry.version)));
        assert lines == old(lines) + [Line(depth + 1, "0 int version = " + IntToString(registry.version))];
        failure := TextDumpReferencesV1(field, depth);
      } else if registry.version == 2 {
        WriteLine(Line(depth + 1, "0 int version = " + IntToString(registry.version)));
        WriteLine(Line(depth + 1, "0 vector RefIds"));
        WriteLine(Line(depth + 2, "1 Array Array"));
        WriteLine(Line(depth + 3, "0 int size = " + IntToString(|registry.references|)));
        assert lines == old(lines) + [Line(depth + 1, "0 int version = " + IntToString(registry.version)),
                                      Line(depth + 1, "0 vector RefIds"),
                                      Line(depth + 2, "1 Array Array"),
                                      Line(depth + 3, "0 int size = " + IntToString(|registry.references|))];
        failure := TextDumpReferencesV2(field, depth);
      } else {
        failure := Some(NotSupportedRegistryVersion(registry.version));
      }
    }

    /** The version-1 object loop, over the objects and a synthesized terminus,
        which tells a reader of the dump where the list ends. */
    method TextDumpReferencesV1(field: ValueField, depth: nat) returns (failure: Option<Error>)
      requires HasRegistry(field)
      modifies this
      ensures Follows(failure, TextDumpRefsV1(field, 0, depth, old(lines)), lines)
      decreases field, 0
    {
      var registry := field.value.value.registry;
      var referencesWithTerm := registry.references + [ReferencedObject(0, Terminus, DummyField)];
      for i := 0 to |referencesWithTerm|
        invariant i <= |registry.references| ==>
          TextDumpRefsV1(field, i, depth, lines) == TextDumpRefsV1(field, 0, depth, old(lines))
        invariant i == |referencesWithTerm| ==> TextDumpRefsV1(field, 0, depth, old(lines)) == Ok(lines)
      {
        ghost var before := lines;
        var refObj := referencesWithTerm[i];
        var typeRef := refObj.typeRef;
        WriteRefHeaderV1(i, typeRef, depth);
        ghost var dataStart := lines;
        for j := 0 to |refObj.data.children|
          invariant TextDumpFields(refObj.data, j, depth + 3, lines) == TextDumpFields(refObj.data, 0, depth + 3, dataStart)
        {
          failure := RecurseTextDump(refObj.data.children[j], depth + 3);
          if failure.Some? {
            assert i < |registry.references|;
            return;
          }
        }
        if i < |registry.references| {
          assert refObj == registry.references[i];
          assert TextDumpRefsV1(field, i, depth, before) == TextDumpRefsV1(field, i + 1, depth, lines);
        } else {
          assert TextDumpRefsV1(field, i, depth, before) == Ok(lines);
        }
      }
      failure := None;
    }

    /** The version-2 object loop: each object with its rid, no terminus. */
    method TextDumpReferencesV2(field: ValueField, depth: nat) returns (failure: Option<Error>)
      requires HasRegistry(field)
      modifies this
      ensures Follows(failure, TextDumpRefsV2(field, 0, depth, old(lines)), lines)
      decreases field, 0
    {
      var registry := field.value.value.registry;
      for i := 0 to |registry.references|
        invariant TextDumpRefsV2(field, i, depth, lines) == TextDumpRefsV2(field, 0, depth, old(lines))
      {
        var refObj := registry.references[i];
        WriteRefHeaderV2(refObj.rid, refObj.typeRef, depth);
        failure := RecurseTextDumpChildren(refObj.data, depth + 5);
        if failure.Some? {
          return;
        }
      }
      failure := None;
    }

    /** `RecurseJsonDump`: builds the JSON tree; writes nothing. */
    method RecurseJsonDump(field: ValueField) returns (r: Result<Json, Error>)
      ensures r == JsonDump(field)
      decreases field, 2
    {
      var template := field.template;
      if template.isArray {
        var jArray: seq<Json> := [];
        if template.valueType != ByteArray {
          for i := 0 to |field.children|
            invariant JsonDumpItems(field, i, jArray) == JsonDumpItems(field, 0, [])
          {
            var item := RecurseJsonDump(field.children[i]);
            if item.Err? {
              return Err(item.error);
            }
            jArray := jArray + [item.value];
          }
        } else {
          if !(field.value.Some? && field.value.value.VByteArray?) {
            return Err(MalformedValueTree);
          }
          var byteArrayData := field.value.value.bytes;
          for i := 0 to |byteArrayData|
            invariant jArray == ByteItems(byteArrayData[..i])
          {
            assert ByteItems(byteArrayData[..i + 1]) == ByteItems(byteArrayData[..i]) + [JInt(byteArrayData[i])];
            jArray := jArray + [JInt(byteArrayData[i])];
          }
          assert byteArrayData[..|byteArrayData|] == byteArrayData;
        }
        return Ok(JArray(jArray));
      } else if field.value.Some? {
        if !field.value.value.VRegistry? {
          return Ok(ConvertValueFieldToJToken(field));
        }
        r := JsonDumpManagedReferencesRegistry(field);
      } else {
        var jObject := RecurseJsonDumpChildren(field);
        if jObject.Err? {
          return Err(jObject.error);
        }
        return Ok(JObject(jObject.value));
      }
    }

    /** `foreach (var child in field) jObject.Add(child.FieldName, RecurseJsonDump(child))`. */
    method RecurseJsonDumpChildren(field: ValueField) returns (r: Result<seq<Prop>, Error>)
      ensures r == JsonDumpProps(field, 0, [])
      decreases field, 1
    {
      var jObject: seq<Prop> := [];
      for i := 0 to |field.children|
        invariant JsonDumpProps(field, i, jObject) == JsonDumpProps(field, 0, [])
      {
        var child := RecurseJsonDump(field.children[i]);
        if child.Err? {
          return Err(child.error);
        }
        var added := AddProp(jObject, field.children[i].template.name, child.value);
        if added.Err? {
          return Err(added.error);
        }
        jObject := added.value;
      }
      return Ok(jObject);
    }

    method JsonDumpManagedReferencesRegistry(field: ValueField) returns (r: Result<Json, Error>)
      requires HasRegistry(field)
      ensures r == JsonDumpRegistry(field)
      decreases field, 1
    {
      var registry := field.value.value.registry;
      if !IsValidManagedReferencesVersion(registry.version) {
        return Err(NotSupportedRegistryVersion(registry.version));
      }
      var jArrayRefs: seq<Json> := [];
      for i := 0 to |registry.references|
        invariant JsonDumpRefs(field, i, jArrayRefs) == JsonDumpRefs(field, 0, [])
      {
        var refObj := registry.references[i];
        var typeRef := refObj.typeRef;
        var jObjData := RecurseJsonDumpChildren(refObj.data);
        if jObjData.Err? {
          return Err(jObjData.error);
        }
        jArrayRefs := jArrayRefs + [RefObject(registry.version, refObj.rid, typeRef, jObjData.value)];
      }
      return Ok(JObject([Prop("version", JInt(registry.version)), Prop("RefIds", JArray(jArrayRefs))]));
    }
  }
}
