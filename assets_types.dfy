/** The entities the codec works on: value kinds, template fields, value fields,
    managed-reference registries, the write events of the binary writer, and the
    errors the codec raises. The template and value trees come from the assets
    library the source builds on; only the parts the codec reads are modelled. */
module AssetsTypes {
  import opened Wrappers

  type uint8 = x: int | 0 <= x < 256

  /** The value kinds of a field, in the order of their numeric codes
      (NoValue is code 0, Bool 1, ..., String 12, Array 13, ByteArray 14,
      ManagedReferencesRegistry 15). */
  datatype AssetValueType =
    | NoValue | Bool | Int8 | UInt8 | Int16 | UInt16 | Int32 | UInt32 | Int64 | UInt64
    | Float | Double | String | Array | ByteArray | ManagedReferencesRegistry

  function Code(k: AssetValueType): (r: nat)
    ensures r <= 15
    ensures r == 0 <==> k == NoValue
    ensures r == 12 <==> k == String
  {
    match k
    case NoValue => 0
    case Bool => 1
    case Int8 => 2
    case UInt8 => 3
    case Int16 => 4
    case UInt16 => 5
    case Int32 => 6
    case UInt32 => 7
    case Int64 => 8
    case UInt64 => 9
    case Float => 10
    case Double => 11
    case String => 12
    case Array => 13
    case ByteArray => 14
    case ManagedReferencesRegistry => 15
  }

  /** The fixed-width integer types of the host language: sbyte, byte, short,
      ushort, int, uint, long and ulong. */
  datatype IntType = I8 | U8 | I16 | U16 | I32 | U32 | I64 | U64

  function MinValue(t: IntType): int
  {
    match t
    case I8 => -0x80
    case I16 => -0x8000
    case I32 => -0x8000_0000
    case I64 => -0x8000_0000_0000_0000
    case _ => 0
  }

  function MaxValue(t: IntType): int
  {
    match t
    case I8 => 0x7F
    case U8 => 0xFF
    case I16 => 0x7FFF
    case U16 => 0xFFFF
    case I32 => 0x7FFF_FFFF
    case U32 => 0xFFFF_FFFF
    case I64 => 0x7FFF_FFFF_FFFF_FFFF
    case U64 => 0xFFFF_FFFF_FFFF_FFFF
  }

  predicate InRange(t: IntType, v: int)
  {
    MinValue(t) <= v <= MaxValue(t)
  }

  /** The integer value kind that stores an `IntType`. */
  function KindOf(t: IntType): AssetValueType
  {
    match t
    case I8 => Int8
    case U8 => UInt8
    case I16 => Int16
    case U16 => UInt16
    case I32 => Int32
    case U32 => UInt32
    case I64 => Int64
    case U64 => UInt64
  }

  /** The integer type stored by an integer value kind, None for the others. */
  function IntTypeOf(k: AssetValueType): (r: Option<IntType>)
    ensures r.Some? ==> KindOf(r.value) == k
    ensures forall t: IntType :: KindOf(t) == k ==> r == Some(t)
  {
    match k
    case Int8 => Some(I8)
    case UInt8 => Some(U8)
    case Int16 => Some(I16)
    case UInt16 => Some(U16)
    case Int32 => Some(I32)
    case UInt32 => Some(U32)
    case Int64 => Some(I64)
    case UInt64 => Some(U64)
    case _ => None
  }

  /** A node of the schema: type name, field name, value kind, whether it is an
      array (children are then [size, element]), whether 4-byte alignment
      follows it in the binary, and its ordered children. */
  datatype TemplateField = TemplateField(
    typeName: string,
    name: string,
    valueType: AssetValueType,
    isArray: bool,
    isAligned: bool,
    children: seq<TemplateField>)
  {
    /** A template carries a value exactly when its kind is not NoValue. */
    predicate HasValue() {
      valueType != NoValue
    }
  }

  /** The (class, namespace, assembly) triple naming a managed type. */
  datatype TypeReference = TypeReference(className: string, ns: string, asmName: string)

  /** The all-empty triple that ends a version-1 registry. */
  const Terminus: TypeReference := TypeReference("", "", "")

  /** The value bound to a field. Floating-point numbers are kept as their text. */
  datatype Value =
    | VBool(b: bool)
    | VInt(t: IntType, i: int)
    | VFloat(isDouble: bool, token: string)
    | VString(s: string)
    | VArray(size: int)
    | VByteArray(bytes: seq<uint8>)
    | VRegistry(registry: Registry)
  {
    function ValueType(): AssetValueType
    {
      match this
      case VBool(_) => Bool
      case VInt(t, _) => KindOf(t)
      case VFloat(isDouble, _) => if isDouble then Double else Float
      case VString(_) => String
      case VArray(_) => Array
      case VByteArray(_) => ByteArray
      case VRegistry(_) => ManagedReferencesRegistry
    }
  }

  /** A managed-references registry: its on-disk version and its objects. */
  datatype Registry = Registry(version: int, references: seq<ReferencedObject>)

  datatype ReferencedObject = ReferencedObject(rid: int, typeRef: TypeReference, data: ValueField)

  /** A bound value tree: its template, its value (absent for structs) and its
      children (struct fields or array elements). */
  datatype ValueField = ValueField(template: TemplateField, value: Option<Value>, children: seq<ValueField>)

  /** One call on the binary writer. */
  datatype Write =
    | WBool(b: bool)
    | WInt(t: IntType, v: int)
    | WFloat(token: string)
    | WDouble(token: string)
    | WString(s: string)       // int32 byte count, then the characters
    | WBytes(bytes: seq<uint8>)
    | WAlign                   // pad to the next 4-byte boundary

  /** What writing a type reference puts in the binary: the three names, each
      a count-prefixed string followed by alignment, as the text dump's three
      `1 string` lines for class, ns and asm describe it. */
  function TypeRefWrites(r: TypeReference): (w: seq<Write>)
    ensures |w| == 6 && w[1] == w[3] == w[5] == WAlign
    ensures w[0] == WString(r.className) && w[2] == WString(r.ns) && w[4] == WString(r.asmName)
  {
    [WString(r.className), WAlign, WString(r.ns), WAlign, WString(r.asmName), WAlign]
  }

  /** The parent named in a missing-field message. */
  datatype FieldId = FieldId(typeName: string, name: string)

  /** The exceptions the codec raises. */
  datatype Error =
    | UnsupportedType(typeName: string)
    | UnsupportedValueType(valueType: AssetValueType)
    | InvalidCast
    | Overflow                 // a converted value outside its type's range
    | Format                   // a string that does not parse as the type
    | NotAnObject
    | MissingField(field: string, parent: Option<FieldId>)
    | NotSupportedRegistryVersion(version: int)
    | InvalidRegistryVersion(version: int)
    | NonConsecutiveRid(expected: int, found: int)
    | UnresolvedManagedType(typeRef: TypeReference)
    | IndexOutOfRange
    | ArgumentOutOfRange
    | DuplicateKey(key: string)
    | MalformedValueTree
    | EndOfStream              // a fixed-size read past the end of the stream

  /** How a method that may throw relates to the function that specifies it:
      it reports no failure exactly when the function succeeds, its new state
      is then the function's result, and otherwise it reports the function's
      error. */
  predicate Follows<T(==)>(failure: Option<Error>, spec: Result<T, Error>, now: T)
  {
    (failure.None? <==> spec.Ok?) &&
    (spec.Ok? ==> now == spec.value) &&
    (spec.Err? ==> failure == Some(spec.error))
  }

  /** The binary writer: an append-only record of the calls made on it. */
  class Sink {
    var events: seq<Write>

    constructor ()
      ensures events == []
    {
      events := [];
    }

    method Write(w: Write)
      modifies this
      ensures events == old(events) + [w]
    {
      events := events + [w];
    }

    method WriteAll(ws: seq<Write>)
      modifies this
      ensures events == old(events) + ws
    {
      events := events + ws;
    }

    method Align()
      modifies this
      ensures events == old(events) + [WAlign]
    {
      events := events + [WAlign];
    }
  }
}
