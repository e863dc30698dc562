/** The primitive codec shared by the text and JSON dump codecs: the table of
    primitive type names and their parsers, the matching fixed-width writes,
    text-dump string escaping, JSON token conversions, and the small helpers
    for managed-reference registries and required JSON keys. */
module AssetTypeHelper {
  import opened Wrappers
  import opened NetStrings
  import opened AssetsTypes
  import opened JsonTree

  /** How a table entry parses its text: into one of the integer types, a
      boolean, a float or a double. */
  datatype Parser = IntParser(t: IntType) | BoolParser | FloatParser | DoubleParser

  /** A parsed or converted value, boxed with its runtime type. */
  datatype Boxed =
    | BoxInt(t: IntType, v: int)
    | BoxBool(b: bool)
    | BoxFloat(token: string)
    | BoxDouble(token: string)
    | BoxString(s: string)

  /** The type-name table: twenty aliases and their parsers. */
  const TypeParsers: map<string, Parser> := map[
    "int" := IntParser(I32),
    "SInt32" := IntParser(I32),
    "float" := FloatParser,
    "bool" := BoolParser,
    "SInt64" := IntParser(I64),
    "long" := IntParser(I64),
    "UInt8" := IntParser(U8),
    "unsigned char" := IntParser(U8),
    "unsigned int" := IntParser(U32),
    "UInt32" := IntParser(U32),
    "UInt16" := IntParser(U16),
    "unsigned short" := IntParser(U16),
    "SInt8" := IntParser(I8),
    "char" := IntParser(I8),
    "SInt16" := IntParser(I16),
    "short" := IntParser(I16),
    "UInt64" := IntParser(U64),
    "unsigned long long" := IntParser(U64),
    "double" := DoubleParser,
    "FileSize" := IntParser(U64)]

  /** The table's keys in the order they were inserted, which is the order in
      which the text importer tries them. */
  function GetSupportedTypeNames(): (r: seq<string>)
    ensures |r| == 20
  {
    ["int", "SInt32", "float", "bool", "SInt64", "long", "UInt8", "unsigned char",
     "unsigned int", "UInt32", "UInt16", "unsigned short", "SInt8", "char", "SInt16",
     "short", "UInt64", "unsigned long long", "double", "FileSize"]
  }

  /** The list names every key of the table once. */
  lemma SupportedTypeNamesAreKeys()
    ensures var r := GetSupportedTypeNames();
      (forall k :: k in r <==> k in TypeParsers) &&
      (forall i, j :: 0 <= i < j < |r| ==> r[i] != r[j])
  {
  }

  predicate IsTypeSupported(typeName: string)
  {
    typeName in TypeParsers
  }

  /** `str` begins with `value` followed by a space. */
  predicate StartsWithSpace(str: string, value: string)
  {
    value + " " <= str
  }

  /** The type names a text-dump leaf line can start with: the table's keys
      and `string`, which the importer tests first. */
  predicate IsLeafTypeName(k: string)
  {
    k == "string" || k in TypeParsers
  }

  predicate SpacesOnlyAfterUnsigned(k: string)
  {
    forall p :: 0 <= p < |k| && k[p] == ' ' ==> k[..p] == "unsigned" || k[..p] == "unsigned long"
  }

  lemma LeafTypeNameShapes()
    ensures forall k :: IsLeafTypeName(k) ==> SpacesOnlyAfterUnsigned(k)
  {
    forall k | IsLeafTypeName(k) ensures SpacesOnlyAfterUnsigned(k) {
      LeafTypeNameShape(k);
    }
  }

  lemma LeafTypeNameShape(k: string)
    requires IsLeafTypeName(k)
    ensures SpacesOnlyAfterUnsigned(k)
  {
    if k == "unsigned char" || k == "unsigned int" || k == "unsigned short" {
      forall p | 0 <= p < |k| && k[p] == ' ' ensures k[..p] == "unsigned" {
        assert p == 8;
      }
    } else if k == "unsigned long long" {
      forall p | 0 <= p < |k| && k[p] == ' ' ensures k[..p] == "unsigned" || k[..p] == "unsigned long" {
      }
    } else if k in ["string", "int", "SInt32", "float"] {
      assert ' ' !in k;
      NoSpace(k);
    } else if k in ["bool", "SInt64", "long", "UInt8"] {
      assert ' ' !in k;
      NoSpace(k);
    } else if k in ["UInt32", "UInt16", "SInt8", "char"] {
      assert ' ' !in k;
      NoSpace(k);
    } else {
      assert k in ["SInt16", "short", "UInt64", "double", "FileSize"];
      assert ' ' !in k;
      NoSpace(k);
    }
  }

  /** A type name without a space. */
  lemma NoSpace(k: string)
    requires ' ' !in k
    ensures SpacesOnlyAfterUnsigned(k)
  {
    forall p | 0 <= p < |k| ensures k[p] != ' ' {
      assert k[p] in k;
    }
  }

  /** No leaf type name followed by a space is a prefix of another one followed
      by a space, so at most one of them matches the start of a line: the line
      `unsigned int x = 1` matches `unsigned int` and not `int`, and the order
      in which the importer tries the names cannot change what it writes. */
  lemma {:induction false} StartsWithSpaceUnique(str: string, a: string, b: string)
    requires IsLeafTypeName(a) && IsLeafTypeName(b)
    requires StartsWithSpace(str, a) && StartsWithSpace(str, b)
    ensures a == b
  {
    LeafTypeNameShapes();
    var A, B := a + " ", b + " ";
    if |A| <= |B| {
      assert A == B[..|A|];
      PrefixOfLeaf(a, b);
    } else {
      assert B == A[..|B|];
      PrefixOfLeaf(b, a);
    }
  }

  lemma PrefixOfLeaf(a: string, b: string)
    requires IsLeafTypeName(a) && SpacesOnlyAfterUnsigned(b)
    requires |a| <= |b| && a + " " == (b + " ")[..|a| + 1]
    ensures a == b
  {
    SpacePrefix(a, b);
  }

  /** What one string followed by a space being a prefix of another followed
      by a space says, character by character. */
  lemma SpacePrefix(a: string, b: string)
    requires |a| <= |b| && a + " " == (b + " ")[..|a| + 1]
    ensures |a| < |b| ==> b[|a|] == ' ' && b[..|a|] == a
    ensures |a| == |b| ==> a == b
  {
    var A, B := a + " ", b + " ";
    assert A[|a|] == B[|a|];
    assert A[..|a|] == B[..|a|];
    assert a == A[..|a|];
    if |a| < |b| {
      assert B[..|a|] == b[..|a|];
    } else {
      assert B[..|b|] == b;
    }
  }

  /** Runs one parser on a text, as the source's parser lambdas do; None stands
      for the format and overflow exceptions they throw. */
  function RunParser(p: Parser, valueStr: string): Option<Boxed>
  {
    match p
    case IntParser(t) =>
      (match ParseInteger(valueStr)
       case Some(v) => if InRange(t, v) then Some(BoxInt(t, v)) else None
       case None => None)
    case BoolParser =>
      (match ParseBool(valueStr)
       case Some(b) => Some(BoxBool(b))
       case None => None)
    case FloatParser => if IsFloatLiteral(valueStr) then Some(BoxFloat(valueStr)) else None
    case DoubleParser => if IsFloatLiteral(valueStr) then Some(BoxDouble(valueStr)) else None
  }

  /** `TryParseValue`: never throws; None for a name outside the table or a
      text the parser rejects, otherwise the parsed value. */
  function TryParseValue(typeName: string, valueStr: string): (r: Option<Boxed>)
    ensures !IsTypeSupported(typeName) ==> r.None?
    ensures IsTypeSupported(typeName) && TypeParsers[typeName].IntParser? ==>
      var t := TypeParsers[typeName].t;
      (r.Some? <==> ParseInteger(valueStr).Some? && InRange(t, ParseInteger(valueStr).value)) &&
      (r.Some? ==> r.value == BoxInt(t, ParseInteger(valueStr).value))
    ensures IsTypeSupported(typeName) && TypeParsers[typeName].BoolParser? ==>
      r == (if ParseBool(valueStr).Some? then Some(BoxBool(ParseBool(valueStr).value)) else None)
    ensures IsTypeSupported(typeName) && !TypeParsers[typeName].IntParser? && !TypeParsers[typeName].BoolParser? ==>
      (r.Some? <==> IsFloatLiteral(valueStr))
  {
    if typeName in TypeParsers then RunParser(TypeParsers[typeName], valueStr) else None
  }

  /** The integer aliases accept exactly the decimal renderings of the values
      in their type's range: rendering then parsing gives the value back, and a
      value out of range is refused. */
  lemma TryParseIntRendering(typeName: string, v: int)
    requires IsTypeSupported(typeName) && TypeParsers[typeName].IntParser?
    ensures var t := TypeParsers[typeName].t;
      TryParseValue(typeName, IntToString(v)) == if InRange(t, v) then Some(BoxInt(t, v)) else None
  {
    ParseIntegerOfIntToString(v);
  }

  /** The write `WriteValue` makes for a type name; the value must be boxed
      with the type the name stands for (unboxing is exact). */
  function ValueWrite(typeName: string, value: Boxed): (r: Result<Write, Error>)
    ensures !IsTypeSupported(typeName) ==> r == Err(UnsupportedType(typeName))
  {
    match typeName
    case "int" | "SInt32" => UnboxInt(value, I32)
    case "float" => if value.BoxFloat? then Ok(WFloat(value.token)) else Err(InvalidCast)
    case "bool" => if value.BoxBool? then Ok(WBool(value.b)) else Err(InvalidCast)
    case "SInt64" | "long" => UnboxInt(value, I64)
    case "UInt8" | "unsigned char" => UnboxInt(value, U8)
    case "unsigned int" | "UInt32" => UnboxInt(value, U32)
    case "UInt16" | "unsigned short" => UnboxInt(value, U16)
    case "SInt8" | "char" => UnboxInt(value, I8)
    case "SInt16" | "short" => UnboxInt(value, I16)
    case "UInt64" | "unsigned long long" | "FileSize" => UnboxInt(value, U64)
    case "double" => if value.BoxDouble? then Ok(WDouble(value.token)) else Err(InvalidCast)
    case _ => Err(UnsupportedType(typeName))
  }

  function UnboxInt(value: Boxed, t: IntType): Result<Write, Error>
  {
    if value.BoxInt? && value.t == t then Ok(WInt(t, value.v)) else Err(InvalidCast)
  }

  /** `WriteValue(writer, typeName, value)`: appends the fixed-width write
      the name calls for; an unknown name or a value boxed with another type
      throws before anything is written. */
  method WriteValue(writer: Sink, typeName: string, value: Boxed) returns (failure: Option<Error>)
    modifies writer
    ensures failure.None? <==> ValueWrite(typeName, value).Ok?
    ensures failure.None? ==> writer.events == old(writer.events) + [ValueWrite(typeName, value).value]
    ensures failure.Some? ==> writer.events == old(writer.events) && failure == Some(ValueWrite(typeName, value).error)
  {
    match typeName {
      case "int" | "SInt32" => failure := WriteUnboxed(writer, value, I32);
      case "float" =>
        if value.BoxFloat? { writer.Write(WFloat(value.token)); failure := None; } else { failure := Some(InvalidCast); }
      case "bool" =>
        if value.BoxBool? { writer.Write(WBool(value.b)); failure := None; } else { failure := Some(InvalidCast); }
      case "SInt64" | "long" => failure := WriteUnboxed(writer, value, I64);
      case "UInt8" | "unsigned char" => failure := WriteUnboxed(writer, value, U8);
      case "unsigned int" | "UInt32" => failure := WriteUnboxed(writer, value, U32);
      case "UInt16" | "unsigned short" => failure := WriteUnboxed(writer, value, U16);
      case "SInt8" | "char" => failure := WriteUnboxed(writer, value, I8);
      case "SInt16" | "short" => failure := WriteUnboxed(writer, value, I16);
      case "UInt64" | "unsigned long long" | "FileSize" => failure := WriteUnboxed(writer, value, U64);
      case "double" =>
        if value.BoxDouble? { writer.Write(WDouble(value.token)); failure := None; } else { failure := Some(InvalidCast); }
      case _ => failure := Some(UnsupportedType(typeName));
    }
  }

  /** The cast `(T)value` followed by the write of a `T`. */
  method WriteUnboxed(writer: Sink, value: Boxed, t: IntType) returns (failure: Option<Error>)
    modifies writer
    ensures failure.None? <==> value.BoxInt? && value.t == t
    ensures failure.None? ==> writer.events == old(writer.events) + [WInt(t, value.v)]
    ensures failure.Some? ==> writer.events == old(writer.events) && failure == Some(InvalidCast)
  {
    if value.BoxInt? && value.t == t {
      writer.Write(WInt(t, value.v));
      failure := None;
    } else {
      failure := Some(InvalidCast);
    }
  }

  /** The write a parser kind calls for. */
  function WriteBy(p: Parser, value: Boxed): Result<Write, Error>
  {
    match p
    case IntParser(t) => UnboxInt(value, t)
    case BoolParser => if value.BoxBool? then Ok(WBool(value.b)) else Err(InvalidCast)
    case FloatParser => if value.BoxFloat? then Ok(WFloat(value.token)) else Err(InvalidCast)
    case DoubleParser => if value.BoxDouble? then Ok(WDouble(value.token)) else Err(InvalidCast)
  }

  /** The write switch and the parser table agree on every name: each key has
      a write case, and it writes the type its parser reads. */
  lemma WriteValueByTable(typeName: string, value: Boxed)
    requires typeName in TypeParsers
    ensures ValueWrite(typeName, value) == WriteBy(TypeParsers[typeName], value)
  {
    if typeName == "int" || typeName == "SInt32" || typeName == "float" || typeName == "bool" || typeName == "double" {
      ByTable1(typeName, value);
    } else if typeName == "SInt64" || typeName == "long" || typeName == "UInt8" || typeName == "unsigned char" {
      ByTable2(typeName, value);
    } else if typeName == "unsigned int" || typeName == "UInt32" || typeName == "UInt16" || typeName == "unsigned short" {
      ByTable3(typeName, value);
    } else if typeName == "SInt8" || typeName == "char" || typeName == "SInt16" || typeName == "short" {
      ByTable4(typeName, value);
    } else {
      ByTable5(typeName, value);
    }
  }

  /** WriteValueByTable for one group of names at a time. */
  lemma ByTable1(typeName: string, value: Boxed)
    requires typeName == "int" || typeName == "SInt32" || typeName == "float" || typeName == "bool" || typeName == "double"
    ensures typeName in TypeParsers && ValueWrite(typeName, value) == WriteBy(TypeParsers[typeName], value)
  {
  }

  lemma ByTable2(typeName: string, value: Boxed)
    requires typeName == "SInt64" || typeName == "long" || typeName == "UInt8" || typeName == "unsigned char"
    ensures typeName in TypeParsers && ValueWrite(typeName, value) == WriteBy(TypeParsers[typeName], value)
  {
  }

  lemma ByTable3(typeName: string, value: Boxed)
    requires typeName == "unsigned int" || typeName == "UInt32" || typeName == "UInt16" || typeName == "unsigned short"
    ensures typeName in TypeParsers && ValueWrite(typeName, value) == WriteBy(TypeParsers[typeName], value)
  {
  }

  lemma ByTable4(typeName: string, value: Boxed)
    requires typeName == "SInt8" || typeName == "char" || typeName == "SInt16" || typeName == "short"
    ensures typeName in TypeParsers && ValueWrite(typeName, value) == WriteBy(TypeParsers[typeName], value)
  {
  }

  lemma ByTable5(typeName: string, value: Boxed)
    requires typeName == "UInt64" || typeName == "unsigned long long" || typeName == "FileSize"
    ensures typeName in TypeParsers && ValueWrite(typeName, value) == WriteBy(TypeParsers[typeName], value)
  {
  }

  /** A successful parse always writes, and writes the parsed value. */
  lemma WriteValueAfterParse(typeName: string, valueStr: string)
    requires TryParseValue(typeName, valueStr).Some?
    ensures var b := TryParseValue(typeName, valueStr).value;
      ValueWrite(typeName, b) == Ok(match b
        case BoxInt(t, v) => WInt(t, v)
        case BoxBool(x) => WBool(x)
        case BoxFloat(s) => WFloat(s)
        case BoxDouble(s) => WDouble(s)
        case BoxString(s) => WString(s))
  {
    WriteValueByTable(typeName, TryParseValue(typeName, valueStr).value);
  }

  /** Names that share a parser write identically, so the aliases
      (`int`/`SInt32`, `UInt8`/`unsigned char`, `FileSize`/`UInt64`, ...) are
      interchangeable. */
  lemma WriteValueAliases(a: string, b: string, value: Boxed)
    requires a in TypeParsers && b in TypeParsers && TypeParsers[a] == TypeParsers[b]
    ensures ValueWrite(a, value) == ValueWrite(b, value)
  {
    WriteValueByTable(a, value);
    WriteValueByTable(b, value);
  }

  // ---------------------------------------------------------------------------
  // Text-dump string escaping

  /** `Replace(c, rep)` for a one-character search string. */
  function ReplaceChar(s: string, c: char, rep: string): (r: string)
    ensures forall d :: d in r ==> (d in s && d != c) || d in rep
  {
    if |s| == 0 then [] else (if s[0] == c then rep else [s[0]]) + ReplaceChar(s[1..], c, rep)
  }

  /** `EscapeTextDumpString`: backslash, CR and LF become `\\`, `\r` and `\n`,
      so the result never spans more than one line. */
  function EscapeTextDumpString(str: string): (r: string)
    ensures '\r' !in r && '\n' !in r
  {
    ReplaceChar(ReplaceChar(ReplaceChar(str, '\\', "\\\\"), '\r', "\\r"), '\n', "\\n")
  }

  function EscapeChar(c: char): string
  {
    if c == '\\' then "\\\\" else if c == '\r' then "\\r" else if c == '\n' then "\\n" else [c]
  }

  lemma {:induction false} ReplaceCharAppend(a: string, b: string, c: char, rep: string)
    ensures ReplaceChar(a + b, c, rep) == ReplaceChar(a, c, rep) + ReplaceChar(b, c, rep)
  {
    if |a| > 0 {
      var x := if a[0] == c then rep else [a[0]];
      assert (a + b)[0] == a[0];
      assert (a + b)[1..] == a[1..] + b;
      ReplaceCharAppend(a[1..], b, c, rep);
      calc {
        ReplaceChar(a + b, c, rep);
        x + ReplaceChar(a[1..] + b, c, rep);
        x + (ReplaceChar(a[1..], c, rep) + ReplaceChar(b, c, rep));
        (x + ReplaceChar(a[1..], c, rep)) + ReplaceChar(b, c, rep);
        ReplaceChar(a, c, rep) + ReplaceChar(b, c, rep);
      }
    } else {
      assert a + b == b;
    }
  }

  /** The three replacements act character by character. */
  lemma {:induction false} EscapeByChar(s: string)
    ensures |s| > 0 ==> EscapeTextDumpString(s) == EscapeChar(s[0]) + EscapeTextDumpString(s[1..])
  {
    if |s| > 0 {
      var c := s[0];
      assert s == [c] + s[1..];
      ReplaceCharAppend([c], s[1..], '\\', "\\\\");
      var s1 := ReplaceChar([c], '\\', "\\\\");
      var t1 := ReplaceChar(s[1..], '\\', "\\\\");
      ReplaceCharAppend(s1, t1, '\r', "\\r");
      var s2 := ReplaceChar(s1, '\r', "\\r");
      var t2 := ReplaceChar(t1, '\r', "\\r");
      ReplaceCharAppend(s2, t2, '\n', "\\n");
      assert ReplaceChar("\\\\", '\r', "\\r") == "\\\\" by {
        assert "\\\\"[1..] == "\\";
      }
      assert ReplaceChar("\\\\", '\n', "\\n") == "\\\\" by {
        assert "\\\\"[1..] == "\\";
      }
      assert ReplaceChar("\\r", '\n', "\\n") == "\\r" by {
        assert "\\r"[1..] == "r";
      }
      assert ReplaceChar("\\n", '\n', "\\n") == "\\n" by {
        assert "\\n"[1..] == "n";
      }
    }
  }

  /** The character an escape sequence `\c` stands for. */
  function UnescapeChar(c: char): char
  {
    match c
    case '\\' => '\\'
    case 'r' => '\r'
    case 'n' => '\n'
    case _ => c
  }

  /** What the unescaping loop appends for the rest of its input, starting
      in the given escaping state. */
  function UnescapeFrom(s: string, escaping: bool): string
  {
    if |s| == 0 then []
    else if !escaping && s[0] == '\\' then UnescapeFrom(s[1..], true)
    else if escaping then [UnescapeChar(s[0])] + UnescapeFrom(s[1..], false)
    else [s[0]] + UnescapeFrom(s[1..], false)
  }

  function Unescaped(s: string): string
  {
    UnescapeFrom(s, false)
  }

  /** One step of the unescaping pass over the character at `i`. */
  lemma UnescapeStep(s: string, i: nat, escaping: bool)
    requires i < |s|
    ensures UnescapeFrom(s[i..], escaping) ==
      if !escaping && s[i] == '\\' then UnescapeFrom(s[i + 1..], true)
      else if escaping then [UnescapeChar(s[i])] + UnescapeFrom(s[i + 1..], false)
      else [s[i]] + UnescapeFrom(s[i + 1..], false)
  {
    assert s[i..][1..] == s[i + 1..];
  }

  /** `UnescapeTextDumpString`: one pass with an escaping flag. */
  method UnescapeTextDumpString(str: string) returns (r: string)
    ensures r == Unescaped(str)
  {
    var sb: string := [];
    var escaping := false;
    for i := 0 to |str|
      invariant sb + UnescapeFrom(str[i..], escaping) == Unescaped(str)
    {
      var c := str[i];
      UnescapeStep(str, i, escaping);
      if !escaping && c == '\\' {
        escaping := true;
        continue;
      }
      if escaping {
        var u: char;
        match c {
          case '\\' => u := '\\';
          case 'r' => u := '\r';
          case 'n' => u := '\n';
          case _ => u := c;
        }
        assert u == UnescapeChar(c);
        assert sb + [u] + UnescapeFrom(str[i + 1..], false) == sb + ([u] + UnescapeFrom(str[i + 1..], false));
        sb := sb + [u];
        escaping := false;
      } else {
        assert sb + [c] + UnescapeFrom(str[i + 1..], false) == sb + ([c] + UnescapeFrom(str[i + 1..], false));
        sb := sb + [c];
      }
    }
    r := sb;
  }

  /** Unescaping undoes escaping, whatever follows the escaped text. */
  lemma {:induction false} UnescapeAfterEscape(s: string, tail: string)
    ensures Unescaped(EscapeTextDumpString(s) + tail) == s + Unescaped(tail)
  {
    if |s| > 0 {
      var c := s[0];
      EscapeByChar(s);
      var rest := EscapeTextDumpString(s[1..]) + tail;
      assert EscapeTextDumpString(s) + tail == EscapeChar(c) + rest;
      UnescapeAfterEscape(s[1..], tail);
      UnescapeEscapedChar(c, rest);
      assert s == [c] + s[1..];
    } else {
      assert EscapeTextDumpString(s) == [];
      assert EscapeTextDumpString(s) + tail == tail;
    }
  }

  /** One escaped character, unescaped, is the character. */
  lemma UnescapeEscapedChar(c: char, rest: string)
    ensures Unescaped(EscapeChar(c) + rest) == [c] + Unescaped(rest)
  {
    var e := EscapeChar(c) + rest;
    if c == '\\' || c == '\r' || c == '\n' {
      assert e[0] == '\\' && e[1..][1..] == rest;
      assert UnescapeFrom(e, false) == UnescapeFrom(e[1..], true);
      assert UnescapeFrom(e[1..], true) == [UnescapeChar(e[1])] + UnescapeFrom(rest, false);
    } else {
      assert e[0] == c && e[1..] == rest;
    }
  }

  /** For every string, unescaping its escaped form gives it back. */
  lemma EscapeRoundTrip(s: string)
    ensures Unescaped(EscapeTextDumpString(s)) == s
  {
    UnescapeAfterEscape(s, []);
    assert EscapeTextDumpString(s) + [] == EscapeTextDumpString(s);
  }

  /** A backslash before any character other than `\`, `r` or `n` is dropped
      and the character kept; a trailing lone backslash is dropped. */
  lemma UnescapeUnknownAndTrailing(s: string, c: char, t: string)
    requires c != '\\' && c != 'r' && c != 'n'
    ensures Unescaped(EscapeTextDumpString(s) + ['\\', c] + EscapeTextDumpString(t)) == s + [c] + t
    ensures Unescaped(EscapeTextDumpString(s) + ['\\']) == s
  {
    var et := EscapeTextDumpString(t);
    AppendAssoc(EscapeTextDumpString(s), ['\\', c], et);
    UnescapeAfterEscape(s, ['\\', c] + et);
    var u := ['\\', c] + et;
    assert u[0] == '\\' && u[1..][0] == c && u[1..][1..] == et;
    assert UnescapeFrom(u, false) == UnescapeFrom(u[1..], true);
    assert UnescapeFrom(u[1..], true) == [c] + UnescapeFrom(et, false);
    EscapeRoundTrip(t);
    UnescapeAfterEscape(s, ['\\']);
    assert UnescapeFrom(['\\'], false) == UnescapeFrom([], true) == [];
  }

  // ---------------------------------------------------------------------------
  // JSON conversions

  /** `(string?)token`: None is the null reference; a container cannot convert. */
  function TokenAsString(token: Json): (r: Result<Option<string>, Error>)
    ensures token.JString? ==> r == Ok(Some(token.s))
    ensures token.JNull? ==> r == Ok(None)
    ensures r.Err? <==> token.JArray? || token.JObject?
  {
    match token
    case JNull => Ok(None)
    case JBool(b) => Ok(Some(if b then "True" else "False"))
    case JInt(i) => Ok(Some(IntToString(i)))
    case JFloat(t) => Ok(Some(t))
    case JString(s) => Ok(Some(s))
    case _ => Err(InvalidCast)
  }

  /** `(string?)token ?? ""`. */
  function TokenAsStringOrEmpty(token: Json): (r: Result<string, Error>)
    ensures token.JString? ==> r == Ok(token.s)
    ensures token.JNull? ==> r == Ok("")
    ensures r.Err? <==> token.JArray? || token.JObject?
  {
    var s :- TokenAsString(token);
    Ok(if s.Some? then s.value else "")
  }

  /** `(byte)token` and the other integer casts, which convert the token's
      value: an integer as it is, a boolean as 1 or 0, a string parsed as an
      integer; a value outside the type's range overflows, and a null or a
      container does not convert. */
  function TokenAsInt(token: Json, t: IntType): (r: Result<int, Error>)
    ensures r.Ok? ==> InRange(t, r.value)
    ensures token.JInt? ==> r == if InRange(t, token.i) then Ok(token.i) else Err(Overflow)
    ensures token.JBool? ==> r == Ok(if token.b then 1 else 0)
    ensures token.JString? ==> match ParseInteger(token.s)
      case None => r == Err(Format)
      case Some(v) => r == if InRange(t, v) then Ok(v) else Err(Overflow)
    ensures token.JNull? || token.JFloat? || token.JArray? || token.JObject? ==> r == Err(InvalidCast)
  {
    match token
    case JInt(i) => if InRange(t, i) then Ok(i) else Err(Overflow)
    case JBool(b) => Ok(if b then 1 else 0)
    case JString(s) =>
      (match ParseInteger(s)
       case None => Err(Format)
       case Some(v) => if InRange(t, v) then Ok(v) else Err(Overflow))
    case _ => Err(InvalidCast)
  }

  /** `(bool)token`: a boolean as it is, an integer as whether it is not 0,
      a string parsed by `bool.Parse`. */
  function TokenAsBool(token: Json): (r: Result<bool, Error>)
    ensures token.JBool? ==> r == Ok(token.b)
    ensures token.JInt? ==> r == Ok(token.i != 0)
    ensures token.JString? ==> (r.Ok? <==> ParseBool(token.s).Some?) && (r.Ok? ==> r.value == ParseBool(token.s).value)
    ensures token.JString? && r.Err? ==> r.error == Format
    ensures token.JNull? || token.JFloat? || token.JArray? || token.JObject? ==> r == Err(InvalidCast)
  {
    match token
    case JBool(b) => Ok(b)
    case JInt(i) => Ok(i != 0)
    case JString(s) =>
      (match ParseBool(s)
       case None => Err(Format)
       case Some(b) => Ok(b))
    case _ => Err(InvalidCast)
  }

  /** `ConvertJTokenToValue`: the value of a scalar kind read from a token;
      every kind that is not a scalar throws. */
  function ConvertJTokenToValue(valueType: AssetValueType, token: Json): (r: Result<Boxed, Error>)
    ensures !(1 <= Code(valueType) <= 12) ==> r == Err(UnsupportedValueType(valueType))
    ensures IntTypeOf(valueType).Some? ==>
      var t := IntTypeOf(valueType).value;
      (r.Ok? <==> TokenAsInt(token, t).Ok?) && (r.Ok? ==> r.value == BoxInt(t, TokenAsInt(token, t).value))
    ensures valueType == Bool ==> (r.Ok? <==> TokenAsBool(token).Ok?) && (r.Ok? ==> r.value == BoxBool(TokenAsBool(token).value))
    ensures IntTypeOf(valueType).Some? && token.JInt? && InRange(IntTypeOf(valueType).value, token.i) ==>
      r == Ok(BoxInt(IntTypeOf(valueType).value, token.i))
  {
    match valueType
    case Bool => var b :- TokenAsBool(token); Ok(BoxBool(b))
    case UInt8 => var v :- TokenAsInt(token, U8); Ok(BoxInt(U8, v))
    case Int8 => var v :- TokenAsInt(token, I8); Ok(BoxInt(I8, v))
    case UInt16 => var v :- TokenAsInt(token, U16); Ok(BoxInt(U16, v))
    case Int16 => var v :- TokenAsInt(token, I16); Ok(BoxInt(I16, v))
    case UInt32 => var v :- TokenAsInt(token, U32); Ok(BoxInt(U32, v))
    case Int32 => var v :- TokenAsInt(token, I32); Ok(BoxInt(I32, v))
    case UInt64 => var v :- TokenAsInt(token, U64); Ok(BoxInt(U64, v))
    case Int64 => var v :- TokenAsInt(token, I64); Ok(BoxInt(I64, v))
    case Float =>
      if token.JFloat? then Ok(BoxFloat(token.token))
      else if token.JInt? then Ok(BoxFloat(IntToString(token.i)))
      else if token.JBool? then Ok(BoxFloat(if token.b then "1" else "0"))
      else Err(InvalidCast)
    case Double =>
      if token.JFloat? then Ok(BoxDouble(token.token))
      else if token.JInt? then Ok(BoxDouble(IntToString(token.i)))
      else if token.JBool? then Ok(BoxDouble(if token.b then "1" else "0"))
      else Err(InvalidCast)
    case String => var s :- TokenAsStringOrEmpty(token); Ok(BoxString(s))
    case _ => Err(UnsupportedValueType(valueType))
  }

  /** `ConvertValueFieldToJToken`: the JSON token of a scalar field. */
  function ConvertValueFieldToJToken(field: ValueField): (r: Json)
    ensures field.value.None? ==> r == JNull
    ensures field.value.Some? && field.value.value.VInt? ==> r == JInt(field.value.value.i)
    ensures field.value.Some? && field.value.value.VString? ==> r == JString(field.value.value.s)
    ensures field.value.Some? && field.value.value.VBool? ==> r == JBool(field.value.value.b)
    ensures field.value.Some? && !(1 <= Code(field.value.value.ValueType()) <= 12) ==> r == JString("invalid value")
  {
    match field.value
    case None => JNull
    case Some(v) =>
      match v
      case VBool(b) => JBool(b)
      case VInt(_, i) => JInt(i)
      case VString(s) => JString(s)
      case VFloat(_, token) => JFloat(token)
      case _ => JString("invalid value")
  }

  /** The boxed value a scalar field holds. */
  function BoxOf(v: Value): Boxed
    requires v.VBool? || v.VInt? || v.VFloat? || v.VString?
  {
    match v
    case VBool(b) => BoxBool(b)
    case VInt(t, i) => BoxInt(t, i)
    case VFloat(isDouble, token) => if isDouble then BoxDouble(token) else BoxFloat(token)
    case VString(s) => BoxString(s)
  }

  /** A scalar field's JSON token converts back to the field's value, for every
      integer within its type's range. */
  lemma ScalarJsonRoundTrip(field: ValueField)
    requires field.value.Some?
    requires var v := field.value.value; v.VBool? || v.VFloat? || v.VString? || (v.VInt? && InRange(v.t, v.i))
    ensures var v := field.value.value;
      ConvertJTokenToValue(v.ValueType(), ConvertValueFieldToJToken(field)) == Ok(BoxOf(v))
  {
    var v := field.value.value;
    if v.VInt? {
      assert IntTypeOf(v.ValueType()) == Some(v.t);
    }
  }

  // ---------------------------------------------------------------------------
  // Managed-reference registries and required keys

  /** `IsValidManagedReferencesVersion`: versions 1 and 2 only. */
  predicate IsValidManagedReferencesVersion(version: int)
  {
    1 <= version <= 2
  }

  lemma ValidVersionsAreOneAndTwo(version: int)
    ensures IsValidManagedReferencesVersion(version) <==> version == 1 || version == 2
  {
  }

  /** `CreateManagedReferencesJObject`: `{class, ns, asm}` in that order. */
  function CreateManagedReferencesJObject(className: string, nameSpace: string, asmName: string): (r: Json)
    ensures r.JObject? && |r.props| == 3
  {
    JObject([Prop("class", JString(className)), Prop("ns", JString(nameSpace)), Prop("asm", JString(asmName))])
  }

  /** The type object has exactly the keys class, ns and asm, each holding its
      name as a string. */
  lemma ManagedReferencesJObjectKeys(className: string, nameSpace: string, asmName: string)
    ensures var r := CreateManagedReferencesJObject(className, nameSpace, asmName);
      Keys(r.props) == ["class", "ns", "asm"] &&
      Index(r, "class") == Found(JString(className)) &&
      Index(r, "ns") == Found(JString(nameSpace)) &&
      Index(r, "asm") == Found(JString(asmName))
  {
    var props := CreateManagedReferencesJObject(className, nameSpace, asmName).props;
    assert FindKey(props[1..][1..], "asm") == Some(0);
  }

  function ParentId(parent: Option<TemplateField>): Option<FieldId>
  {
    if parent.Some? then Some(FieldId(parent.value.typeName, parent.value.name)) else None
  }

  /** `ExpectAndReadField`: the value under a required key. An absent key
      fails naming the key and, when given, the parent's type and name; an
      indexer on a token that is not an object throws. */
  function ExpectAndReadField(token: Json, fieldName: string, parent: Option<TemplateField>): (r: Result<Json, Error>)
    ensures r.Ok? <==> token.JObject? && FindKey(token.props, fieldName).Some?
    ensures r.Ok? ==> r.value == token.props[FindKey(token.props, fieldName).value].val
    ensures r.Ok? ==> Size(r.value) < Size(token)
    ensures !token.JObject? ==> r == Err(Error.NotAnObject)
    ensures token.JObject? && r.Err? ==> r.error == MissingField(fieldName, ParentId(parent))
  {
    match Index(token, fieldName)
    case NotObject => Err(Error.NotAnObject)
    case Absent => Err(MissingField(fieldName, ParentId(parent)))
    case Found(v) => Ok(v)
  }
}
