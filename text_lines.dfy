/** Reading the text dump back, a line or a block at a time: the scan of
    two blocks in sequence, the depth bookkeeping of the scan's stack, and
    what each kind of line of the dump does to the scan's state. A block of
    lines dumped at depth `d` from a state whose stack has height `d`
    "settles" to writes `x` when the scan leaves the stack at height `d` or
    more and unwinding it back to `d` adds exactly `x`. */
module TextLines {
  import opened Wrappers
  import opened NetStrings
  import opened AssetsTypes
  import opened AssetTypeHelper
  import opened ExportCodec
  import opened ExportProperties
  import opened ImportCodec
  import opened BinaryLayout

  // ---------------------------------------------------------------------------
  // The scan, a block of lines at a time

  /** The scan succeeds and, once unwound back to depth `d`, has added
      exactly `x` to the writes of `st`, whose stack has height `d`. */
  predicate Settles(r: Result<TextState, Error>, st: TextState, d: nat, x: seq<Write>)
  {
    r.Ok? && |r.value.stack| >= d && Unwind(r.value.stack, d, r.value.out) == TextState(st.stack, st.out + x)
  }

  /** A line at depth `d`: `d` spaces, then a character that is not one. */
  predicate Opens(line: string, d: nat)
  {
    d < |line| && LeadingSpaces(line) == d
  }

  /** `r` is `acc` followed by more lines. */
  predicate Grows(r: Result<seq<string>, Error>, acc: seq<string>)
  {
    r.Ok? && acc <= r.value
  }

  /** The lines `r` adds after `acc`. */
  function Added(r: Result<seq<string>, Error>, acc: seq<string>): (ls: seq<string>)
    requires Grows(r, acc)
    ensures r.value == acc + ls
  {
    r.value[|acc|..]
  }

  /** The scan of two blocks is the scan of the second from where the first stops. */
  lemma {:induction false} ImportLinesAppend(a: seq<string>, b: seq<string>, st: TextState, m: Mode)
    ensures ImportLines(a + b, st, m) ==
      match ImportLines(a, st, m)
      case Ok(s) => ImportLines(b, s, m)
      case Err(e) => Err(e)
    decreases |a|
  {
    if |a| == 0 {
      assert a + b == b;
    } else {
      assert (a + b)[0] == a[0] && (a + b)[1..] == a[1..] + b;
      if ImportLine(a[0], st, m).Ok? {
        ImportLinesAppend(a[1..], b, ImportLine(a[0], st, m).value, m);
      }
    }
  }

  /** The scan of the lines after `acc`, one line at a time. */
  lemma ScanHead(acc: seq<string>, line: string, all: seq<string>, st: TextState, m: Mode)
    requires acc + [line] <= all
    ensures ImportLines(all[|acc|..], st, m) ==
      match ImportLine(line, st, m)
      case Ok(s) => ImportLines(all[|acc| + 1..], s, m)
      case Err(e) => Err(e)
  {
    assert all[|acc|..][0] == line;
    assert all[|acc|..][1..] == all[|acc| + 1..];
  }

  /** Unwinding to a depth and then to a smaller one is unwinding to the smaller one. */
  lemma {:induction false} UnwindTwice(stack: seq<bool>, out: seq<Write>, d2: nat, d1: nat)
    requires d2 <= d1
    ensures var u := Unwind(stack, d1, out);
      Unwind(u.stack, d2, u.out) == Unwind(stack, d2, out)
    decreases |stack|
  {
    if d1 < |stack| {
      var n := |stack| - 1;
      UnwindTwice(stack[..n], if stack[n] then out + [WAlign] else out, d2, d1);
    }
  }

  /** Popping one entry pushed on a stack of height `d`. */
  lemma UnwindPushed(stack: seq<bool>, b: bool, out: seq<Write>)
    ensures Unwind(stack + [b], |stack|, out) == TextState(stack, AlignIf(out, b))
  {
    assert (stack + [b])[..|stack|] == stack;
  }

  /** A block that settles one level deeper, over an entry pushed with `flag`,
      settles at this level with that entry's alignment after it. */
  lemma Nest(r: Result<TextState, Error>, stack: seq<bool>, out: seq<Write>, flag: bool, x: seq<Write>)
    requires Settles(r, TextState(stack + [flag], out), |stack| + 1, x)
    ensures Settles(r, TextState(stack, out), |stack|, AlignIf(x, flag))
  {
    UnwindTwice(r.value.stack, r.value.out, |stack|, |stack| + 1);
    UnwindPushed(stack, flag, out + x);
    assert AlignIf(out + x, flag) == out + AlignIf(x, flag);
  }

  /** Writes made before a block are part of what it settles to. */
  lemma Shift(r: Result<TextState, Error>, st: TextState, p: seq<Write>, d: nat, x: seq<Write>)
    requires Settles(r, TextState(st.stack, st.out + p), d, x)
    ensures Settles(r, st, d, p + x)
  {
    assert st.out + p + x == st.out + (p + x);
  }

  /** The scan reads a line at depth `d` the same from any state as from that
      state unwound to `d`: the line unwinds it first. */
  lemma ResumeAt(b: seq<string>, r: TextState, d: nat)
    requires |b| > 0 && Opens(b[0], d) && |r.stack| >= d
    ensures ImportLines(b, r, Corrected) == ImportLines(b, Unwind(r.stack, d, r.out), Corrected)
  {
    var u := Unwind(r.stack, d, r.out);
    assert Unwind(u.stack, d, u.out) == u;
    assert ImportLine(b[0], r, Corrected) == ImportLine(b[0], u, Corrected);
  }

  /** Two blocks at depth `d`, one after the other, settle to their writes in order. */
  lemma ScanSplit(acc: seq<string>, mid: seq<string>, all: seq<string>, st: TextState, d: nat,
                  x: seq<Write>, y: seq<Write>)
    requires |st.stack| == d && acc <= mid <= all
    requires Settles(ImportLines(mid[|acc|..], st, Corrected), st, d, x)
    requires |all| > |mid| ==> Opens(all[|mid|], d)
    requires Settles(ImportLines(all[|mid|..], TextState(st.stack, st.out + x), Corrected),
                     TextState(st.stack, st.out + x), d, y)
    ensures Settles(ImportLines(all[|acc|..], st, Corrected), st, d, x + y)
  {
    var a, b := mid[|acc|..], all[|mid|..];
    SliceAfterPrefix(|acc|, mid, all);
    if |b| > 0 {
      assert b[0] == all[|mid|];
      SettleThen(a, b, st, d, x, y);
    } else {
      SettleEnd(a, b, st, d, x, y);
    }
  }

  /** What follows position `k` of a sequence, when a prefix of it ends past `k`. */
  lemma SliceAfterPrefix<T>(k: nat, mid: seq<T>, all: seq<T>)
    requires k <= |mid| && mid <= all
    ensures all[k..] == mid[k..] + all[|mid|..]
  {
  }

  /** ScanSplit, when lines follow the first block. */
  lemma SettleThen(a: seq<string>, b: seq<string>, st: TextState, d: nat, x: seq<Write>, y: seq<Write>)
    requires |st.stack| == d && Settles(ImportLines(a, st, Corrected), st, d, x)
    requires |b| > 0 && Opens(b[0], d)
    requires Settles(ImportLines(b, TextState(st.stack, st.out + x), Corrected), TextState(st.stack, st.out + x), d, y)
    ensures Settles(ImportLines(a + b, st, Corrected), st, d, x + y)
  {
    ImportLinesAppend(a, b, st, Corrected);
    ResumeAt(b, ImportLines(a, st, Corrected).value, d);
    Shift(ImportLines(a + b, st, Corrected), st, x, d, y);
  }

  /** ScanSplit, when nothing follows the first block. */
  lemma SettleEnd(a: seq<string>, b: seq<string>, st: TextState, d: nat, x: seq<Write>, y: seq<Write>)
    requires |st.stack| == d && Settles(ImportLines(a, st, Corrected), st, d, x) && |b| == 0
    requires Settles(ImportLines(b, TextState(st.stack, st.out + x), Corrected), TextState(st.stack, st.out + x), d, y)
    ensures Settles(ImportLines(a + b, st, Corrected), st, d, x + y)
  {
    var st2 := TextState(st.stack, st.out + x);
    assert a + b == a;
    assert y == [] by {
      assert ImportLines(b, st2, Corrected) == Ok(st2);
      assert st2.out + y == st2.out;
    }
    assert x + y == x;
  }

  /** Nothing to scan settles to nothing. */
  lemma SettlesEmpty(st: TextState, d: nat)
    requires |st.stack| == d
    ensures Settles(ImportLines([], st, Corrected), st, d, [])
  {
    assert st.out + [] == st.out;
  }

  // ---------------------------------------------------------------------------
  // Reading one line

  lemma NoEqualsInSpaces(d: nat)
    ensures '=' !in Spaces(d)
  {
  }

  lemma NoEqualsInNumber(i: int)
    ensures '=' !in IntToString(i)
  {
    var n := if i < 0 then -i else i;
    var s := NatToString(n);
    assert forall k :: 0 <= k < |s| ==> IsDigit(s[k]);
  }

  /** A line without `=` that starts with a flag pushes the flag. */
  lemma HeaderLineAt(d: nat, c: string, st: TextState, m: Mode)
    requires |c| > 0 && (c[0] == '0' || c[0] == '1') && '=' !in c
    ensures var u := Unwind(st.stack, d, st.out);
      ImportLine(Line(d, c), st, m) == Ok(TextState(u.stack + [c[0] == '1'], u.out))
  {
    var line := Line(d, c);
    LineDepth(d, c);
    assert line[d] == c[0];
    NoEqualsInSpaces(d);
    assert '=' !in line;
  }

  /** The first `c` of `p + [c] + rest` when `p` has none. */
  lemma IndexOfAt(p: string, c: char, rest: string)
    requires c !in p
    ensures IndexOf(p + [c] + rest, c) == |p|
  {
    var s := p + [c] + rest;
    assert s[|p|] == c;
    assert s[..|p|] == p;
  }

  /** One line that is not an index line and holds an `=`, once its depth,
      its `=` and its length are known. */
  lemma LeafLineUnfolds(line: string, depth: nat, eq: nat, st: TextState, m: Mode)
    requires depth + 2 <= |line| && LeadingSpaces(line) == depth && line[depth] != '['
    requires eq < |line| && IndexOf(line, '=') == eq
    ensures ImportLine(line, st, m) ==
      LeafLine(line[depth + 2..], Trim(line[eq + 1..]), line[depth] == '1', Unwind(st.stack, depth, st.out))
  {
    var u := Unwind(st.stack, depth, st.out);
    ImportLineNotIndex(line, st, m, depth, eq);
    AfterPopsLeaf(line, depth, eq, Trim(line[eq + 1..]), u);
  }

  /** A line that is not an index line, with its depth and its first `=`
      known, is read after popping to its depth. */
  lemma ImportLineNotIndex(line: string, st: TextState, m: Mode, depth: nat, eq: nat)
    requires LeadingSpaces(line) == depth && depth < |line| && line[depth] != '['
    requires IndexOf(line, '=') == eq
    ensures ImportLine(line, st, m) == LineAfterPops(line, depth, eq, Trim(line[eq + 1..]), Unwind(st.stack, depth, st.out))
  {
  }

  lemma AfterPopsLeaf(line: string, depth: nat, eq: nat, valueStr: string, u: TextState)
    requires depth + 2 <= |line|
    ensures LineAfterPops(line, depth, eq, valueStr, u) == LeafLine(line[depth + 2..], valueStr, line[depth] == '1', u)
  {
  }

  /** Where the parts of a line `{head} = {val}` sit. */
  lemma LeafLineParts(d: nat, head: string, val: string) returns (eq: nat)
    requires |head| >= 2 && head[0] != ' ' && '=' !in head
    ensures var line := Line(d, head + " = " + val);
      d + 2 <= |line| && LeadingSpaces(line) == d && line[d] == head[0] &&
      eq < |line| && IndexOf(line, '=') == eq && line[eq + 1..] == " " + val &&
      line[d + 2..] == head[2..] + " = " + val
  {
    var c := head + " = " + val;
    var line := Line(d, c);
    LineDepth(d, c);
    var p := Spaces(d) + head + " ";
    var tail := " " + val;
    LeafLineSplit(Spaces(d), head, val);
    NoEqualsInSpaces(d);
    assert '=' !in p;
    IndexOfAt(p, '=', tail);
    eq := |p|;
    DropPrefix(p + ['='], tail);
    SliceTwice(line, d, 2);
    DropTwo(head, " = ", val);
  }

  lemma DropTwo<T>(head: seq<T>, a: seq<T>, b: seq<T>)
    requires |head| >= 2
    ensures (head + a + b)[2..] == head[2..] + a + b
  {
  }

  /** A line `{head} = {val}` after some prefix, cut at its `=`. */
  lemma LeafLineSplit(sp: string, head: string, val: string)
    ensures sp + (head + " = " + val) == (sp + head + " ") + ['='] + (" " + val)
  {
  }

  lemma DropPrefix<T>(acc: seq<T>, hd: seq<T>)
    ensures (acc + hd)[|acc|..] == hd
  {
  }

  lemma SliceTwice<T>(s: seq<T>, a: nat, b: nat)
    requires a + b <= |s|
    ensures s[a..][b..] == s[a + b..]
  {
  }

  /** A line `{head} = {val}` whose head starts with a flag and holds no `=`
      is a leaf line: its type and name are read from after the flag, its
      value from after the `=`. */
  lemma LeafLineAt(d: nat, head: string, val: string, st: TextState, m: Mode)
    requires |head| >= 2 && (head[0] == '0' || head[0] == '1') && '=' !in head
    ensures ImportLine(Line(d, head + " = " + val), st, m) ==
      LeafLine(head[2..] + " = " + val, Trim(" " + val), head[0] == '1', Unwind(st.stack, d, st.out))
  {
    var eq := LeafLineParts(d, head, val);
    LeafLineUnfolds(Line(d, head + " = " + val), d, eq, st, m);
  }

  /** A leaf line whose writes are known. */
  lemma LeafLineOf(check: string, valueStr: string, align: bool, u: TextState, ws: seq<Write>)
    requires LeafWrites(check, valueStr) == Ok(ws)
    ensures LeafLine(check, valueStr, align, u) == Ok(TextState(u.stack, AlignIf(u.out + ws, align)))
  {
  }

  /** A leaf line spelled `{flag} {type} {name} = {val}` whose value reads
      back whole and whose writes are known. */
  lemma LeafLineWrites(d: nat, flag: string, typeName: string, name: string, val: string, st: TextState, m: Mode,
                       ws: seq<Write>)
    requires (flag == "0" || flag == "1") && '=' !in typeName && '=' !in name
    requires Trim(" " + val) == val && LeafWrites(typeName + " " + (name + " = " + val), val) == Ok(ws)
    ensures var u := Unwind(st.stack, d, st.out);
      ImportLine(Line(d, flag + " " + typeName + " " + name + " = " + val), st, m) ==
      Ok(TextState(u.stack, AlignIf(u.out + ws, flag == "1")))
  {
    TypedLeafAt(d, flag, typeName, name, val, st, m);
    LeafLineOf(typeName + " " + (name + " = " + val), val, flag == "1", Unwind(st.stack, d, st.out), ws);
  }

  /** A leaf line spelled `{flag} {type} {name} = {val}`. */
  lemma TypedLeafAt(d: nat, flag: string, typeName: string, name: string, val: string, st: TextState, m: Mode)
    requires (flag == "0" || flag == "1") && '=' !in typeName && '=' !in name
    ensures ImportLine(Line(d, flag + " " + typeName + " " + name + " = " + val), st, m) ==
      LeafLine(typeName + " " + (name + " = " + val), Trim(" " + val), flag == "1", Unwind(st.stack, d, st.out))
  {
    var head := flag + " " + typeName + " " + name;
    assert head[0] == flag[0] && '=' !in head;
    assert head[2..] + " = " + val == typeName + " " + (name + " = " + val);
    LeafLineAt(d, head, val, st, m);
  }

  /** An index line: the corrected scan unwinds to its depth and pushes an
      unaligned entry; the scan as written skips it. */
  lemma IndexLineAt(d: nat, i: int, st: TextState)
    ensures var u := Unwind(st.stack, d, st.out);
      ImportLine(Line(d, IndexLine(i)), st, Corrected) == Ok(TextState(u.stack + [false], u.out))
    ensures ImportLine(Line(d, IndexLine(i)), st, AsWritten) == Ok(st)
  {
    LineDepth(d, IndexLine(i));
    assert Line(d, IndexLine(i))[d] == '[';
  }

  /** A value after ` = ` is read back whole when its ends are not white. */
  lemma TrimSpaced(val: string)
    requires |val| > 0 && !IsWhiteSpace(val[0]) && !IsWhiteSpace(val[|val| - 1])
    ensures Trim(" " + val) == val
  {
    assert (" " + val)[1..] == val;
    assert TrimStartBy(" " + val, IsWhiteSpace) == TrimStartBy(val, IsWhiteSpace);
    TrimUnchanged(val, IsWhiteSpace);
  }

  lemma TrimNumber(i: int)
    ensures Trim(" " + IntToString(i)) == IntToString(i)
  {
    TrimSpaced(IntToString(i));
  }

  // ---------------------------------------------------------------------------
  // What a leaf line writes

  /** The trial of the table's names finds the one name the line starts with. */
  lemma {:induction false} ParsedWritesFinds(check: string, valueStr: string, i: nat, k: nat)
    requires i <= k < |GetSupportedTypeNames()|
    requires StartsWithSpace(check, GetSupportedTypeNames()[k])
    requires TryParseValue(GetSupportedTypeNames()[k], valueStr).Some?
    ensures var name := GetSupportedTypeNames()[k];
      ValueWrite(name, TryParseValue(name, valueStr).value).Ok? &&
      ParsedWrites(check, valueStr, GetSupportedTypeNames(), i) == Ok([ValueWrite(name, TryParseValue(name, valueStr).value).value])
    decreases k - i
  {
    var names := GetSupportedTypeNames();
    SupportedTypeNamesAreKeys();
    WriteValueAfterParse(names[k], valueStr);
    if i < k {
      if StartsWithSpace(check, names[i]) {
        StartsWithSpaceUnique(check, names[i], names[k]);
        assert false;
      }
      ParsedWritesFinds(check, valueStr, i + 1, k);
    }
  }

  /** Where a name of the table sits in the importer's list. */
  lemma NamePosition(typeName: string) returns (k: nat)
    requires typeName in TypeParsers
    ensures k < |GetSupportedTypeNames()| && GetSupportedTypeNames()[k] == typeName
  {
    SupportedTypeNamesAreKeys();
    k :| 0 <= k < |GetSupportedTypeNames()| && GetSupportedTypeNames()[k] == typeName;
  }

  /** A line whose type is a name of the table is not a `string` line. */
  lemma NotStringLine(typeName: string, rest: string)
    requires typeName in TypeParsers
    ensures StartsWithSpace(typeName + " " + rest, typeName)
    ensures !StartsWithSpace(typeName + " " + rest, "string")
  {
    var check := typeName + " " + rest;
    assert check[..|typeName| + 1] == typeName + " ";
    if StartsWithSpace(check, "string") {
      StartsWithSpaceUnique(check, "string", typeName);
    }
  }

  /** A line whose type is a name of the table writes what that name's parser
      reads from the value. */
  lemma TableLeaf(typeName: string, rest: string, valueStr: string)
    requires typeName in TypeParsers && TryParseValue(typeName, valueStr).Some?
    ensures ValueWrite(typeName, TryParseValue(typeName, valueStr).value).Ok?
    ensures LeafWrites(typeName + " " + rest, valueStr) == Ok([ValueWrite(typeName, TryParseValue(typeName, valueStr).value).value])
  {
    NotStringLine(typeName, rest);
    var k := NamePosition(typeName);
    ParsedWritesFinds(typeName + " " + rest, valueStr, 0, k);
  }

  lemma IntLeaf(typeName: string, rest: string, t: IntType, v: int)
    requires typeName in TypeParsers && TypeParsers[typeName] == IntParser(t) && InRange(t, v)
    ensures LeafWrites(typeName + " " + rest, IntToString(v)) == Ok([WInt(t, v)])
  {
    TryParseIntRendering(typeName, v);
    WriteValueAfterParse(typeName, IntToString(v));
    TableLeaf(typeName, rest, IntToString(v));
  }

  lemma BoolLeaf(typeName: string, rest: string, b: bool)
    requires typeName in TypeParsers && TypeParsers[typeName] == BoolParser
    ensures LeafWrites(typeName + " " + rest, if b then "true" else "false") == Ok([WBool(b)])
  {
    var s := if b then "true" else "false";
    TrimUnchanged(s, IsWhiteOrNul);
    assert ParseBool(s) == Some(b);
    WriteValueAfterParse(typeName, s);
    TableLeaf(typeName, rest, s);
  }

  lemma FloatLeaf(typeName: string, rest: string, isDouble: bool, token: string)
    requires typeName in TypeParsers && TypeParsers[typeName] == (if isDouble then DoubleParser else FloatParser)
    requires IsFloatLiteral(token)
    ensures LeafWrites(typeName + " " + rest, token) == Ok([if isDouble then WDouble(token) else WFloat(token)])
  {
    assert TryParseValue(typeName, token) == Some(if isDouble then BoxDouble(token) else BoxFloat(token));
    WriteValueAfterParse(typeName, token);
    TableLeaf(typeName, rest, token);
  }

  /** The quoted, escaped text of a `string` line reads back as the string. */
  lemma StringLeafWrites(rest: string, s: string)
    ensures LeafWrites("string" + " " + rest, Quoted(s)) == Ok([WString(s)])
  {
    var check := "string" + " " + rest;
    assert StartsWithSpace(check, "string") by {
      assert check[..7] == "string ";
    }
    QuotedLeaf(EscapeTextDumpString(s));
    EscapeRoundTrip(s);
  }

  /** A value in quotes reads back as the unescaped text between them. */
  lemma QuotedLeaf(e: string)
    ensures StringLeaf("\"" + e + "\"") == Ok(WString(Unescaped(e)))
  {
    var q := "\"" + e + "\"";
    assert q[0] == '"';
    assert IndexOf(q, '"') == 0;
    assert q[|q| - 1] == '"';
    assert LastIndexOf(q, '"') == |q| - 1;
    assert q[1..|q| - 1] == e;
  }

  // ---------------------------------------------------------------------------
  // The lines of the dump, read back one at a time

  /** Template names that keep a dump line readable: no `=` in either. */
  predicate PlainNames(t: TemplateField)
  {
    '=' !in t.typeName && '=' !in t.name
  }

  /** The `{flag} {type} {name}` head of a field's line. */
  lemma FieldLineHead(t: TemplateField, suffix: string)
    requires PlainNames(t)
    ensures var c := AlignFlag(t) + " " + t.typeName + " " + t.name + suffix;
      |c| > 0 && c[0] == AlignFlag(t)[0] && ('=' !in suffix ==> '=' !in c)
  {
  }

  /** An integer leaf `{flag} {type} {name} = {i}`. */
  lemma IntLineAt(d: nat, flag: string, typeName: string, name: string, t: IntType, i: int, st: TextState, m: Mode)
    requires (flag == "0" || flag == "1") && '=' !in typeName && '=' !in name
    requires typeName in TypeParsers && TypeParsers[typeName] == IntParser(t) && InRange(t, i)
    ensures var u := Unwind(st.stack, d, st.out);
      ImportLine(Line(d, flag + " " + typeName + " " + name + " = " + IntToString(i)), st, m) ==
      Ok(TextState(u.stack, AlignIf(u.out + [WInt(t, i)], flag == "1")))
  {
    TrimNumber(i);
    IntLeaf(typeName, name + " = " + IntToString(i), t, i);
    LeafLineWrites(d, flag, typeName, name, IntToString(i), st, m, [WInt(t, i)]);
  }

  /** The `0 UInt8 data = {b}` line of a byte. */
  lemma ByteLineAt(d: nat, b: uint8, st: TextState, m: Mode)
    ensures var u := Unwind(st.stack, d, st.out);
      ImportLine(Line(d, ByteDataLine(b)), st, m) == Ok(TextState(u.stack, u.out + [WInt(U8, b)]))
  {
    ByteNames();
    PrefixIntLineAt(d, "0 UInt8 data = ", "UInt8", "data", U8, b, st, m);
  }

  lemma ByteNames()
    ensures "0 UInt8 data = " == "0" + " " + "UInt8" + " " + "data" + " = "
    ensures '=' !in "UInt8" && '=' !in "data" && "UInt8" in TypeParsers && TypeParsers["UInt8"] == IntParser(U8)
  {
  }

  /** The `0 int version = {v}` line of a registry. */
  lemma VersionLineAt(d: nat, v: int, st: TextState, m: Mode)
    requires InRange(I32, v)
    ensures var u := Unwind(st.stack, d, st.out);
      ImportLine(Line(d, "0 int version = " + IntToString(v)), st, m) == Ok(TextState(u.stack, u.out + [WInt(I32, v)]))
  {
    VersionNames();
    PrefixIntLineAt(d, "0 int version = ", "int", "version", I32, v, st, m);
  }

  lemma VersionNames()
    ensures "0 int version = " == "0" + " " + "int" + " " + "version" + " = "
    ensures '=' !in "int" && '=' !in "version" && "int" in TypeParsers && TypeParsers["int"] == IntParser(I32)
  {
  }

  /** The `0 SInt64 rid = {rid}` line of a version-2 registry object. */
  lemma RidLineAt(d: nat, rid: int, st: TextState, m: Mode)
    requires InRange(I64, rid)
    ensures var u := Unwind(st.stack, d, st.out);
      ImportLine(Line(d, "0 SInt64 rid = " + IntToString(rid)), st, m) == Ok(TextState(u.stack, u.out + [WInt(I64, rid)]))
  {
    RidNames();
    PrefixIntLineAt(d, "0 SInt64 rid = ", "SInt64", "rid", I64, rid, st, m);
  }

  lemma RidNames()
    ensures "0 SInt64 rid = " == "0" + " " + "SInt64" + " " + "rid" + " = "
    ensures '=' !in "SInt64" && '=' !in "rid" && "SInt64" in TypeParsers && TypeParsers["SInt64"] == IntParser(I64)
  {
  }

  /** An unflagged integer line whose text up to its value is `c`. */
  lemma PrefixIntLineAt(d: nat, c: string, typeName: string, name: string, t: IntType, i: int, st: TextState, m: Mode)
    requires c == "0" + " " + typeName + " " + name + " = "
    requires '=' !in typeName && '=' !in name
    requires typeName in TypeParsers && TypeParsers[typeName] == IntParser(t) && InRange(t, i)
    ensures var u := Unwind(st.stack, d, st.out);
      ImportLine(Line(d, c + IntToString(i)), st, m) == Ok(TextState(u.stack, u.out + [WInt(t, i)]))
  {
    IntLineAt(d, "0", typeName, name, t, i, st, m);
  }

  /** The size field of an array template: an unaligned 32-bit integer alias
      whose name holds no `=`. */
  predicate SizeTemplateOk(s: TemplateField)
  {
    PlainNames(s) && s.typeName in TypeParsers && TypeParsers[s.typeName] == IntParser(I32) && !s.isAligned
  }

  /** The size line of an array writes the element count. */
  lemma SizeLineAt(d: nat, s: TemplateField, n: int, st: TextState, m: Mode)
    requires SizeTemplateOk(s) && InRange(I32, n)
    ensures var u := Unwind(st.stack, d, st.out);
      ImportLine(Line(d, SizeLine(s, n)), st, m) == Ok(TextState(u.stack, u.out + [WInt(I32, n)]))
  {
    IntLineAt(d, Flag(s.isAligned), s.typeName, s.name, I32, n, st, m);
  }

  /** A `1 string {name} = "{escaped}"` line writes the string and aligns. */
  lemma StringLineAt(d: nat, flag: string, name: string, str: string, st: TextState, m: Mode)
    requires flag == "1" && '=' !in name
    ensures var u := Unwind(st.stack, d, st.out);
      ImportLine(Line(d, flag + " " + "string" + " " + name + " = " + Quoted(str)), st, m) ==
      Ok(TextState(u.stack, AlignIf(u.out + [WString(str)], true)))
  {
    var q := Quoted(str);
    StringLeafWrites(name + " = " + q, str);
    LeafLineWrites(d, flag, "string", name, q, st, m, [WString(str)]);
  }

  /** The quoted, escaped form of a string, as a `string` line holds it. */
  function Quoted(str: string): (q: string)
    ensures Trim(" " + q) == q
  {
    var q := "\"" + EscapeTextDumpString(str) + "\"";
    TrimSpaced(q);
    q
  }

  /** A type-reference line is a `string` leaf line. */
  lemma TypeRefLineContent(key: string, e: string)
    ensures "1 string " + key + " = \"" + e + "\"" == "1" + " " + "string" + " " + key + " = " + ("\"" + e + "\"")
  {
  }

  /** One type-reference line writes its name and aligns. */
  lemma TypeRefLineAt(d: nat, key: string, str: string, st: TextState, m: Mode)
    requires '=' !in key
    ensures var u := Unwind(st.stack, d, st.out);
      ImportLine(TypeRefLine(d, key, str), st, m) == Ok(TextState(u.stack, u.out + [WString(str), WAlign]))
  {
    var c := "1" + " " + "string" + " " + key + " = " + Quoted(str);
    assert TypeRefLine(d, key, str) == Line(d, c) by {
      TypeRefLineContent(key, EscapeTextDumpString(str));
    }
    StringLineAt(d, "1", key, str, st, m);
    var u := Unwind(st.stack, d, st.out);
    AlignedString(u.out, str);
  }

  lemma AlignedString(out: seq<Write>, str: string)
    ensures AlignIf(out + [WString(str)], true) == out + [WString(str), WAlign]
  {
  }

  lemma ThreePairs(out: seq<Write>, a: Write, b: Write, c: Write, d: Write, e: Write, f: Write)
    ensures out + [a, b] + [c, d] + [e, f] == out + [a, b, c, d, e, f]
  {
  }

  /** Unwinding a stack to its own height changes nothing. */
  lemma UnwindLevel(st: TextState)
    ensures Unwind(st.stack, |st.stack|, st.out) == st
  {
  }

  /** The three `1 string` lines of a type reference write its names, each aligned. */
  lemma TypeRefLinesAt(r: TypeReference, d: nat, st: TextState, m: Mode)
    requires |st.stack| == d
    ensures ImportLines(TypeRefLines(r, d), st, m) == Ok(TextState(st.stack, st.out + TypeRefWrites(r)))
  {
    var l1, l2, l3 := TypeRefLine(d, "class", r.className), TypeRefLine(d, "ns", r.ns), TypeRefLine(d, "asm", r.asmName);
    UnwindLevel(st);
    TypeRefLineAt(d, "class", r.className, st, m);
    var s1 := TextState(st.stack, st.out + [WString(r.className), WAlign]);
    UnwindLevel(s1);
    TypeRefLineAt(d, "ns", r.ns, s1, m);
    var s2 := TextState(st.stack, s1.out + [WString(r.ns), WAlign]);
    UnwindLevel(s2);
    TypeRefLineAt(d, "asm", r.asmName, s2, m);
    var s3 := TextState(st.stack, s2.out + [WString(r.asmName), WAlign]);
    assert ImportLines([l3], s2, m) == Ok(s3);
    assert ImportLines([l2, l3], s1, m) == Ok(s3) by {
      assert [l2, l3][1..] == [l3];
    }
    assert [l1, l2, l3][1..] == [l2, l3];
    ThreePairs(st.out, WString(r.className), WAlign, WString(r.ns), WAlign, WString(r.asmName), WAlign);
  }

  /** A header line, as the only line of a block. */
  lemma HeaderBlockAt(d: nat, c: string, st: TextState)
    requires |c| > 0 && (c[0] == '0' || c[0] == '1') && '=' !in c
    ensures var u := Unwind(st.stack, d, st.out);
      ImportLines([Line(d, c)], st, Corrected) == Ok(TextState(u.stack + [c[0] == '1'], u.out))
  {
    HeaderLineAt(d, c, st, Corrected);
  }

  /** A `0` header line one level above the top of a stack whose top entry
      is unaligned replaces that entry with its own: the state is unchanged. */
  lemma ReopenAt(d: nat, c: string, st: TextState)
    requires |st.stack| == d + 1 && !st.stack[d]
    requires |c| > 0 && c[0] == '0' && '=' !in c
    ensures ImportLines([Line(d, c)], st, Corrected) == Ok(st)
  {
    var p := st.stack[..d];
    assert p + [false] == st.stack;
    UnwindPushed(p, false, st.out);
    HeaderBlockAt(d, c, st);
  }

  /** Two blocks read one after the other. */
  lemma Chain(a: seq<string>, b: seq<string>, st: TextState, s1: TextState, s2: TextState)
    requires ImportLines(a, st, Corrected) == Ok(s1) && ImportLines(b, s1, Corrected) == Ok(s2)
    ensures ImportLines(a + b, st, Corrected) == Ok(s2)
  {
    ImportLinesAppend(a, b, st, Corrected);
  }

  lemma RefObjectName(i: nat)
    ensures var c := "0 ReferencedObject " + ZeroPad(i, 8); |c| > 0 && c[0] == '0' && '=' !in c
  {
    var z := ZeroPad(i, 8);
    assert forall k :: 0 <= k < |z| ==> IsDigit(z[k]);
  }

  /** The header lines of a registry object hold no `=`. */
  lemma RefHeaderNames()
    ensures '=' !in "0 ReferencedManagedType type" && '=' !in "0 ReferencedObjectData data"
    ensures '=' !in "0 ReferencedObject data"
  {
    var a, b, c := "0 ReferencedManagedType type", "0 ReferencedObjectData data", "0 ReferencedObject data";
    assert forall k :: 0 <= k < |a| ==> a[k] != '=';
    assert forall k :: 0 <= k < |b| ==> b[k] != '=';
    assert forall k :: 0 <= k < |c| ==> c[k] != '=';
  }

  /** Two lines read one after the other. */
  /** A line, then the lines after it, read one after the other. */
  lemma ConsLine(l: string, rest: seq<string>, st: TextState, s1: TextState, s: TextState, m: Mode)
    requires ImportLine(l, st, m) == Ok(s1) && ImportLines(rest, s1, m) == Ok(s)
    ensures ImportLines([l] + rest, st, m) == Ok(s)
  {
    assert ([l] + rest)[0] == l && ([l] + rest)[1..] == rest;
  }

  lemma TwoLines(l1: string, l2: string, st: TextState, s1: TextState, s2: TextState, m: Mode)
    requires ImportLine(l1, st, m) == Ok(s1) && ImportLine(l2, s1, m) == Ok(s2)
    ensures ImportLines([l1, l2], st, m) == Ok(s2)
  {
    assert ImportLines([l2], s1, m) == Ok(s2);
    assert [l1, l2][1..] == [l2];
  }

  /** Three lines read one after the other. */
  lemma ThreeLines(l1: string, l2: string, l3: string, st: TextState, s1: TextState, s2: TextState, s3: TextState, m: Mode)
    requires ImportLine(l1, st, m) == Ok(s1) && ImportLine(l2, s1, m) == Ok(s2)
    requires ImportLine(l3, s2, m) == Ok(s3)
    ensures ImportLines([l1, l2, l3], st, m) == Ok(s3)
  {
    TwoLines(l2, l3, s1, s2, s3, m);
    assert [l1, l2, l3][1..] == [l2, l3];
  }

  /** A header line read at the height of the stack pushes its flag. */
  lemma PushAt(d: nat, c: string, st: TextState, m: Mode)
    requires |st.stack| == d && |c| > 0 && (c[0] == '0' || c[0] == '1') && '=' !in c
    ensures ImportLine(Line(d, c), st, m) == Ok(TextState(st.stack + [c[0] == '1'], st.out))
  {
    UnwindLevel(st);
    HeaderLineAt(d, c, st, m);
  }

  /** A `0` header line: flag 0 and no `=`. */
  predicate PlainHeader(c: string)
  {
    |c| > 0 && c[0] == '0' && '=' !in c
  }

  /** A `0` header line one level above an unaligned entry pushes a second one. */
  lemma SecondPush(d: nat, c: string, st: TextState, m: Mode)
    requires |st.stack| == d && PlainHeader(c)
    ensures ImportLine(Line(d + 1, c), TextState(st.stack + [false], st.out), m) ==
      Ok(TextState(st.stack + [false, false], st.out))
  {
    PushAt(d + 1, c, TextState(st.stack + [false], st.out), m);
    assert st.stack + [false] + [false] == st.stack + [false, false];
  }

  /** Two `0` header lines, each one level deeper than the last, push two unaligned entries. */
  lemma TwoPushes(d: nat, c1: string, c2: string, st: TextState, m: Mode)
    requires |st.stack| == d && PlainHeader(c1) && PlainHeader(c2)
    ensures ImportLines([Line(d, c1), Line(d + 1, c2)], st, m) == Ok(TextState(st.stack + [false, false], st.out))
  {
    PushAt(d, c1, st, m);
    SecondPush(d, c2, st, m);
    TwoLines(Line(d, c1), Line(d + 1, c2), st, TextState(st.stack + [false], st.out),
             TextState(st.stack + [false, false], st.out), m);
  }

  /** A `0` header line, a leaf one level deeper that writes `w`, and a `0`
      header line at the leaf's level push two unaligned entries and write `w`. */
  lemma PushLeafPush(d: nat, c1: string, l2: string, c2: string, w: seq<Write>, st: TextState, m: Mode)
    requires |st.stack| == d && PlainHeader(c1) && PlainHeader(c2)
    requires ImportLine(l2, TextState(st.stack + [false], st.out), m) == Ok(TextState(st.stack + [false], st.out + w))
    ensures ImportLines([Line(d, c1), l2, Line(d + 1, c2)], st, m) == Ok(TextState(st.stack + [false, false], st.out + w))
  {
    PushAt(d, c1, st, m);
    SecondPush(d, c2, TextState(st.stack, st.out + w), m);
    ThreeLines(Line(d, c1), l2, Line(d + 1, c2), st, TextState(st.stack + [false], st.out),
               TextState(st.stack + [false], st.out + w), TextState(st.stack + [false, false], st.out + w), m);
  }

  /** The two lines that open a version-1 registry object push two unaligned entries. */
  lemma RefOpeningV1At(i: nat, d: nat, st: TextState, m: Mode)
    requires |st.stack| == d + 1
    ensures ImportLines(RefOpeningV1(i, d), st, m) == Ok(TextState(st.stack + [false, false], st.out))
  {
    RefObjectName(i);
    RefHeaderNames();
    TwoPushes(d + 1, "0 ReferencedObject " + ZeroPad(i, 8), "0 ReferencedManagedType type", st, m);
  }

  /** The three lines that open a version-2 registry object push two
      unaligned entries and write the rid. */
  lemma RefOpeningV2At(rid: int, d: nat, st: TextState, m: Mode)
    requires |st.stack| == d + 3 && InRange(I64, rid)
    ensures ImportLines(RefOpeningV2(rid, d), st, m) == Ok(TextState(st.stack + [false, false], st.out + [WInt(I64, rid)]))
  {
    var s1 := TextState(st.stack + [false], st.out);
    assert ImportLine(Line(d + 4, "0 SInt64 rid = " + IntToString(rid)), s1, m) ==
           Ok(TextState(s1.stack, s1.out + [WInt(I64, rid)])) by {
      UnwindLevel(s1);
      RidLineAt(d + 4, rid, s1, m);
    }
    RefHeaderNames();
    PushLeafPush(d + 3, "0 ReferencedObject data", Line(d + 4, "0 SInt64 rid = " + IntToString(rid)),
                 "0 ReferencedManagedType type", [WInt(I64, rid)], st, m);
  }

  /** Three blocks read one after the other. */
  lemma Chain3(a: seq<string>, b: seq<string>, c: seq<string>, st: TextState, s1: TextState, s2: TextState,
               s3: TextState, m: Mode)
    requires ImportLines(a, st, m) == Ok(s1) && ImportLines(b, s1, m) == Ok(s2) && ImportLines(c, s2, m) == Ok(s3)
    ensures ImportLines(a + b + c, st, m) == Ok(s3)
  {
    ImportLinesAppend(a, b, st, m);
    ImportLinesAppend(a + b, c, st, m);
  }

  /** The stack has height `k + 1` and an unaligned entry on top. */
  predicate UnalignedTop(stack: seq<bool>, k: nat)
  {
    |stack| == k + 1 && !stack[k]
  }

  /** An opening block that leaves an unaligned entry on top at height
      `k + 1`, then the type reference one level deeper, then a `0` header
      line at depth `k`: the type reference is written and the stack is back
      where the opening block left it. */
  lemma TypeRefBlockAt(open: seq<string>, r: TypeReference, k: nat, c: string, st: TextState, s2: TextState)
    requires ImportLines(open, st, Corrected) == Ok(s2)
    requires UnalignedTop(s2.stack, k) && PlainHeader(c)
    ensures ImportLines(open + TypeRefLines(r, k + 1) + [Line(k, c)], st, Corrected) ==
      Ok(TextState(s2.stack, s2.out + TypeRefWrites(r)))
  {
    var s3 := TextState(s2.stack, s2.out + TypeRefWrites(r));
    TypeRefLinesAt(r, k + 1, s2, Corrected);
    ReopenAt(k, c, s3);
    Chain3(open, TypeRefLines(r, k + 1), [Line(k, c)], st, s2, s3, s3, Corrected);
  }

  /** The block that opens a version-1 registry object, read from a stack
      of height `d + 1`: two unaligned entries are left pushed and the type
      reference is written. */
  lemma RefHeaderV1At(i: nat, r: TypeReference, d: nat, st: TextState)
    requires |st.stack| == d + 1
    ensures ImportLines(RefHeaderV1(i, r, d), st, Corrected) ==
      Ok(TextState(st.stack + [false, false], st.out + TypeRefWrites(r)))
  {
    RefHeaderNames();
    RefHeaderV1Closing(i, r, d, "0 ReferencedObjectData data", st);
  }

  /** The version-1 object header with any `0` header line `c` closing it. */
  lemma RefHeaderV1Closing(i: nat, r: TypeReference, d: nat, c: string, st: TextState)
    requires |st.stack| == d + 1 && PlainHeader(c)
    ensures ImportLines(RefOpeningV1(i, d) + TypeRefLines(r, d + 3) + [Line(d + 2, c)], st, Corrected) ==
      Ok(TextState(st.stack + [false, false], st.out + TypeRefWrites(r)))
  {
    var s2 := RefOpeningV1Top(i, d, st);
    TypeRefBlockAt(RefOpeningV1(i, d), r, d + 2, c, st, s2);
  }

  /** RefOpeningV1At, with the entry it leaves on top. */
  lemma RefOpeningV1Top(i: nat, d: nat, st: TextState) returns (s2: TextState)
    requires |st.stack| == d + 1
    ensures ImportLines(RefOpeningV1(i, d), st, Corrected) == Ok(s2)
    ensures UnalignedTop(s2.stack, d + 2) && s2 == TextState(st.stack + [false, false], st.out)
  {
    s2 := TextState(st.stack + [false, false], st.out);
    RefOpeningV1At(i, d, st, Corrected);
    assert s2.stack[d + 2] == false;
  }

  /** The block that opens a version-2 registry object, read from a stack
      of height `d + 3`: the rid and the type reference are written and two
      unaligned entries are left pushed. */
  lemma RefHeaderV2At(rid: int, r: TypeReference, d: nat, st: TextState)
    requires |st.stack| == d + 3 && InRange(I64, rid)
    ensures ImportLines(RefHeaderV2(rid, r, d), st, Corrected) ==
      Ok(TextState(st.stack + [false, false], st.out + [WInt(I64, rid)] + TypeRefWrites(r)))
  {
    RefOpeningV2At(rid, d, st, Corrected);
    RefHeaderV2After(rid, r, d, st, [WInt(I64, rid)]);
  }

  /** The rest of a version-2 object header, after an opening block that wrote `w`. */
  lemma RefHeaderV2After(rid: int, r: TypeReference, d: nat, st: TextState, w: seq<Write>)
    requires |st.stack| == d + 3
    requires ImportLines(RefOpeningV2(rid, d), st, Corrected) == Ok(TextState(st.stack + [false, false], st.out + w))
    ensures ImportLines(RefHeaderV2(rid, r, d), st, Corrected) ==
      Ok(TextState(st.stack + [false, false], st.out + w + TypeRefWrites(r)))
  {
    RefHeaderNames();
    TypeRefBlockAt(RefOpeningV2(rid, d), r, d + 4, "0 ReferencedObjectData data", st,
                   TextState(st.stack + [false, false], st.out + w));
  }

  /** The writes of a whole scan as written: those of the state the scan
      ends in. */
  lemma ScanEndsAsWritten(lines: seq<string>, s: TextState)
    requires ImportLines(lines, TextState([], []), AsWritten) == Ok(s)
    ensures ImportText(lines, AsWritten) == Ok(s.out)
  {
  }

  /** The writes of a whole corrected scan: those of the state the scan ends
      in, then the alignments of the levels it leaves open. */
  lemma ScanEndsCorrected(lines: seq<string>, s: TextState, out: seq<Write>)
    requires ImportLines(lines, TextState([], []), Corrected) == Ok(s)
    requires Unwind(s.stack, 0, s.out).out == out
    ensures ImportText(lines, Corrected) == Ok(out)
  {
  }
}
