/** The serialized form of a value tree: a reference definition of the
    writer calls that stand for the tree in the binary layout (integers at
    their width, count-prefixed strings and arrays, raw byte blobs, 4-byte
    alignment after aligned fields and after every string, and the two
    managed-reference registry layouts), and the byte-level reading of a
    raw byte blob as one byte write per element. Both round trips are stated
    against it. */
module BinaryLayout {
  import opened Wrappers
  import opened AssetsTypes
  import opened ExportCodec
  import opened ImportCodec

  /** The writer calls for a value tree: an array is its count and its
      elements (a byte array its count and one blob), a struct its fields,
      a scalar its one write, each followed by an alignment when the template
      is aligned; a string is always followed by one. */
  function Encode(f: ValueField): seq<Write>
    decreases f, 2, 0
  {
    var t := f.template;
    if t.isArray then
      if t.valueType == ByteArray then
        var bytes := if f.value.Some? && f.value.value.VByteArray? then f.value.value.bytes else [];
        AlignIf([WInt(I32, |bytes|), WBytes(bytes)], t.isAligned)
      else AlignIf([WInt(I32, |f.children|)] + EncodeChildren(f, 0), t.isAligned)
    else if f.value.None? then AlignIf(EncodeChildren(f, 0), t.isAligned)
    else
      match f.value.value
      case VRegistry(_) => EncodeRegistry(f)
      case VString(s) => [WString(s), WAlign]
      case VBool(b) => AlignIf([WBool(b)], t.isAligned)
      case VInt(it, i) => AlignIf([WInt(it, i)], t.isAligned)
      case VFloat(isDouble, token) => AlignIf([if isDouble then WDouble(token) else WFloat(token)], t.isAligned)
      case _ => []
  }

  /** The children from `i` on, one after the other. */
  function EncodeChildren(f: ValueField, i: nat): seq<Write>
    requires i <= |f.children|
    decreases f, 1, |f.children| - i
  {
    if i == |f.children| then [] else Encode(f.children[i]) + EncodeChildren(f, i + 1)
  }

  /** A registry: its version, a count unless the version is 1, the objects,
      then the terminus for version 1 or an alignment otherwise. The registry
      field itself is not aligned. */
  function EncodeRegistry(f: ValueField): seq<Write>
    requires HasRegistry(f)
    decreases f, 1, 0
  {
    var reg := RegistryOf(f);
    [WInt(I32, reg.version)] + (if reg.version != 1 then [WInt(I32, |reg.references|)] else [])
    + EncodeRefs(f, 0)
    + (if reg.version == 1 then TypeRefWrites(Terminus) else [WAlign])
  }

  /** The objects from `i` on: the rid unless the version is 1, the type, and
      the data unless the type is the empty triple. */
  function EncodeRefs(f: ValueField, i: nat): seq<Write>
    requires HasRegistry(f) && i <= |RegistryOf(f).references|
    decreases f, 0, |RegistryOf(f).references| - i
  {
    var reg := RegistryOf(f);
    if i == |reg.references| then []
    else
      var r := reg.references[i];
      (if reg.version != 1 then [WInt(I64, r.rid)] else []) + TypeRefWrites(r.typeRef)
      + (if r.typeRef == Terminus then [] else Encode(r.data))
      + EncodeRefs(f, i + 1)
  }

  /** `EncodeChildren` one child at a time, after some earlier writes. */
  lemma EncodeChildrenStep(f: ValueField, i: nat, acc: seq<Write>)
    requires i <= |f.children|
    ensures i == |f.children| ==> acc + EncodeChildren(f, i) == acc
    ensures i < |f.children| ==> acc + Encode(f.children[i]) + EncodeChildren(f, i + 1) == acc + EncodeChildren(f, i)
  {
    if i < |f.children| {
      assert acc + Encode(f.children[i]) + EncodeChildren(f, i + 1) == acc + (Encode(f.children[i]) + EncodeChildren(f, i + 1));
    } else {
      assert acc + [] == acc;
    }
  }

  /** A struct template: no value and not an array. */
  predicate IsStruct(t: TemplateField)
  {
    !t.HasValue() && !t.isArray
  }

  // ---------------------------------------------------------------------------
  // Byte-level reading

  /** The byte writes a blob stands for: one `WInt(U8, b)` per byte, in order. */
  function ByteWrites(bytes: seq<uint8>): (r: seq<Write>)
    ensures |r| == |bytes| && forall i :: 0 <= i < |bytes| ==> r[i] == WInt(U8, bytes[i])
  {
    if |bytes| == 0 then [] else ByteWrites(bytes[..|bytes| - 1]) + [WInt(U8, bytes[|bytes| - 1])]
  }

  /** Writes read byte by byte: every blob becomes its byte writes, which put
      the same bytes in the output, and every other write stays as it is. */
  function Norm(ws: seq<Write>): (r: seq<Write>)
    ensures (forall i :: 0 <= i < |ws| ==> !ws[i].WBytes?) ==> r == ws
  {
    if |ws| == 0 then []
    else
      var n := |ws| - 1;
      Norm(ws[..n]) + Expand(ws[n])
  }

  /** One write read back: a blob as its bytes, anything else as itself. */
  function Expand(w: Write): (r: seq<Write>)
    ensures !w.WBytes? ==> r == [w]
    ensures w.WBytes? ==> |r| == |w.bytes|
  {
    if w.WBytes? then ByteWrites(w.bytes) else [w]
  }

  lemma {:induction false} NormAppend(a: seq<Write>, b: seq<Write>)
    ensures Norm(a + b) == Norm(a) + Norm(b)
    decreases |b|
  {
    if |b| == 0 {
      assert a + b == a;
    } else {
      NormAppend(a, b[..|b| - 1]);
      NormAppendStep(a, b);
    }
  }

  /** NormAppend for all of `b` from NormAppend for all of `b` but its last write. */
  lemma NormAppendStep(a: seq<Write>, b: seq<Write>)
    requires |b| > 0 && Norm(a + b[..|b| - 1]) == Norm(a) + Norm(b[..|b| - 1])
    ensures Norm(a + b) == Norm(a) + Norm(b)
  {
    var n := |b| - 1;
    NormSnoc(a + b);
    NormSnoc(b);
    assert (a + b)[..|a + b| - 1] == a + b[..n];
    assert (a + b)[|a + b| - 1] == b[n];
    AppendAssoc(Norm(a), Norm(b[..n]), Expand(b[n]));
  }

  /** A single write that is not a blob reads back as itself. */
  lemma NormOne(w: Write)
    requires !w.WBytes?
    ensures Norm([w]) == [w]
  {
    assert [w][..0] == [];
  }

  /** Norm, one write off the end. */
  lemma NormSnoc(ws: seq<Write>)
    requires |ws| > 0
    ensures Norm(ws) == Norm(ws[..|ws| - 1]) + Expand(ws[|ws| - 1])
  {
  }
}
