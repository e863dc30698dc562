/** The Unity file-header classifier: a 7-byte signature, a big-endian int32
    format number and a NUL-terminated version string decide whether a stream
    holds a bundle, a serialized assets file, or neither. */
module FileTypeDetector {
  import opened Wrappers
  import opened AssetsTypes

  datatype DetectedFileType = Unknown | AssetsFile | BundleFile

  /** The bytes of "UnityFS". Seven bytes decode as UTF-8 to that string
      exactly when they are these bytes. */
  const BundleSignature: seq<uint8> := [0x55, 0x6E, 0x69, 0x74, 0x79, 0x46, 0x53]

  /** The version loop stops once the version is longer than this. */
  const MaxVersionLength: nat := 0xFF

  /** What a read of `n` bytes at `pos` returns: fewer at the end of the
      stream, none past it. */
  function BytesAt(data: seq<uint8>, pos: nat, n: nat): (r: seq<uint8>)
    ensures |r| <= n
    ensures pos + n <= |data| ==> r == data[pos..pos + n]
    ensures pos < |data| ==> pos + |r| <= |data| && r == data[pos..pos + |r|]
    ensures |r| == n || pos + |r| >= |data|
  {
    if pos >= |data| then []
    else if pos + n <= |data| then data[pos..pos + n]
    else data[pos..]
  }

  /** A signed 32-bit integer stored most significant byte first. */
  function BigEndianInt32(b: seq<uint8>): (r: int)
    requires |b| == 4
    ensures InRange(I32, r)
    ensures r < 0 <==> b[0] >= 0x80
  {
    var u := ((b[0] as int * 0x100 + b[1]) * 0x100 + b[2]) * 0x100 + b[3];
    if u >= 0x8000_0000 then u - 0x1_0000_0000 else u
  }

  /** The big-endian bytes of a signed 32-bit integer. */
  function Int32BigEndianBytes(v: int): (b: seq<uint8>)
    requires InRange(I32, v)
    ensures |b| == 4
  {
    var u := if v < 0 then v + 0x1_0000_0000 else v;
    var r3 := u / 0x100;
    var r2 := r3 / 0x100;
    assert r2 / 0x100 < 0x100;
    [r2 / 0x100, r2 % 0x100, r3 % 0x100, u % 0x100]
  }

  /** Division by 0x100 undoes `q * 0x100 + r` for a byte `r`. */
  lemma DivModOf(q: int, r: int)
    requires 0 <= r < 0x100
    ensures (q * 0x100 + r) / 0x100 == q && (q * 0x100 + r) % 0x100 == r
  {
  }

  /** Decoding the four bytes of an int32 gives it back. */
  lemma Int32RoundTrip(v: int)
    requires InRange(I32, v)
    ensures BigEndianInt32(Int32BigEndianBytes(v)) == v
  {
    var u := if v < 0 then v + 0x1_0000_0000 else v;
    var b := Int32BigEndianBytes(v);
    assert ((b[0] as int * 0x100 + b[1]) * 0x100 + b[2]) * 0x100 + b[3] == u;
  }

  /** Every four bytes are the encoding of the int32 they decode to. */
  lemma Int32BytesRoundTrip(b: seq<uint8>)
    requires |b| == 4
    ensures Int32BigEndianBytes(BigEndianInt32(b)) == b
  {
    var r2 := b[0] as int * 0x100 + b[1];
    var r3 := r2 * 0x100 + b[2];
    var u := r3 * 0x100 + b[3];
    DivModOf(r3, b[3]);
    DivModOf(r2, b[2]);
    DivModOf(b[0], b[1]);
    var e := Int32BigEndianBytes(BigEndianInt32(b));
    assert e[0] == b[0] && e[1] == b[1] && e[2] == b[2] && e[3] == b[3];
  }

  /** The version loop from `pos` once `acc` has been read: it stops at the end
      of the stream, at a NUL byte, or right after the character that makes
      the version longer than 0xFF. Each byte becomes the character with its
      code. */
  function ReadVersion(data: seq<uint8>, pos: nat, acc: string): string
    requires |acc| <= MaxVersionLength
    decreases |data| - pos
  {
    if pos < |data| && data[pos] != 0 then
      var next := acc + [data[pos] as char];
      if |next| > MaxVersionLength then next else ReadVersion(data, pos + 1, next)
    else acc
  }

  /** What the version loop reads: the longest run of non-NUL bytes from `pos`,
      cut at 256 characters. */
  lemma {:induction false} ReadVersionReads(data: seq<uint8>, pos: nat, acc: string)
    requires |acc| <= MaxVersionLength
    ensures |acc| <= |ReadVersion(data, pos, acc)| <= MaxVersionLength + 1
    ensures ReadVersion(data, pos, acc)[..|acc|] == acc
    ensures forall j :: pos <= j < pos + |ReadVersion(data, pos, acc)| - |acc| ==>
      j < |data| && data[j] != 0 && ReadVersion(data, pos, acc)[|acc| + j - pos] == data[j] as char
    ensures var n := pos + |ReadVersion(data, pos, acc)| - |acc|;
      |ReadVersion(data, pos, acc)| == MaxVersionLength + 1 || n >= |data| || data[n] == 0
    decreases |data| - pos
  {
    if pos < |data| && data[pos] != 0 {
      var next := acc + [data[pos] as char];
      if |next| <= MaxVersionLength {
        ReadVersionReads(data, pos + 1, next);
        var r := ReadVersion(data, pos + 1, next);
        assert next[..|acc|] == acc;
        assert r[..|acc|] == r[..|next|][..|acc|];
        assert r[|acc|] == r[..|next|][|acc|] == data[pos] as char;
      }
    }
  }

  /** The characters the version's pattern admits: ASCII letters and digits,
      the dot and the line feed. */
  predicate InVersionClass(c: char)
  {
    'a' <= c <= 'z' || 'A' <= c <= 'Z' || '0' <= c <= '9' || c == '.' || c == '\n'
  }

  /** The characters of `s` whose membership in the version class is `inClass`,
      in order: what removing every match of the opposite pattern leaves. */
  function Kept(s: string, inClass: bool): (r: string)
    ensures |r| <= |s|
    ensures forall k :: 0 <= k < |r| ==> InVersionClass(r[k]) == inClass
  {
    if |s| == 0 then []
    else
      var rest := Kept(s[..|s| - 1], inClass);
      if InVersionClass(s[|s| - 1]) == inClass then rest + [s[|s| - 1]] else rest
  }

  /** The two filters split the version: every character is kept by exactly one. */
  lemma {:induction false} KeptSplits(s: string)
    ensures |Kept(s, true)| + |Kept(s, false)| == |s|
    ensures |Kept(s, false)| == 0 <==> forall k :: 0 <= k < |s| ==> InVersionClass(s[k])
  {
    if |s| > 0 {
      KeptSplits(s[..|s| - 1]);
      assert forall k :: 0 <= k < |s| - 1 ==> s[..|s| - 1][k] == s[k];
    }
  }

  /** The final decision on the header, the format number and the version. */
  function Classify(header: seq<uint8>, format: int, version: string): DetectedFileType
  {
    if header == BundleSignature then BundleFile
    else if format < 0xFF && |Kept(version, false)| == 0 && |Kept(version, true)| >= 5 then AssetsFile
    else Unknown
  }

  /** `DetectFileType(reader, startAddress)`. The stream-length test is on the
      whole stream, not on what follows `startAddress`; a format number that
      runs past the end of the stream makes the reader throw. */
  function Detect(data: seq<uint8>, start: nat): Result<DetectedFileType, Error>
  {
    if |data| < 0x20 then Ok(Unknown)
    else
      var header := BytesAt(data, start, 7);
      if start + 0x0C > |data| then Err(EndOfStream)
      else
        var format := BigEndianInt32(data[start + 0x08..start + 0x0C]);
        var version := ReadVersion(data, start + (if format >= 0x16 then 0x30 else 0x14), []);
        Ok(Classify(header, format, version))
  }

  /** A stream shorter than 0x20 bytes is never recognised. */
  lemma ShortStreamUnknown(data: seq<uint8>, start: nat)
    requires |data| < 0x20
    ensures Detect(data, start) == Ok(Unknown)
  {
  }

  /** The bundle signature decides by itself once the format number can be read. */
  lemma BundleSignatureWins(data: seq<uint8>, start: nat)
    requires 0x20 <= |data| && start + 0x0C <= |data|
    requires data[start..start + 7] == BundleSignature
    ensures Detect(data, start) == Ok(BundleFile)
  {
  }

  /** Where the version is read, in terms of the four format bytes: 0x14 past
      the start when the sign bit is set (a negative format) or when the
      number is below 0x16, and 0x30 past it otherwise. */
  lemma VersionOffset(data: seq<uint8>, start: nat)
    requires 0x20 <= |data| && start + 0x0C <= |data|
    ensures var header := BytesAt(data, start, 7);
      var format := BigEndianInt32(data[start + 0x08..start + 0x0C]);
      var early := data[start + 0x08] >= 0x80 ||
        (data[start + 0x08] == 0 && data[start + 0x09] == 0 && data[start + 0x0A] == 0 && data[start + 0x0B] < 0x16);
      Detect(data, start) == Ok(Classify(header, format, ReadVersion(data, start + (if early then 0x14 else 0x30), [])))
  {
    var b := data[start + 0x08..start + 0x0C];
    var u := ((b[0] as int * 0x100 + b[1]) * 0x100 + b[2]) * 0x100 + b[3];
    if b[0] < 0x80 && !(b[0] == 0 && b[1] == 0 && b[2] == 0) {
      assert u >= 0x100;
    }
  }

  /** An assets file is recognised exactly when the header is not the bundle
      signature, the format is below 0xFF and the version is at least five
      characters, all of them letters, digits, dots or line feeds. */
  lemma AssetsFileExactly(header: seq<uint8>, format: int, version: string)
    ensures Classify(header, format, version) == AssetsFile <==>
      header != BundleSignature && format < 0xFF && |version| >= 5 &&
      forall k :: 0 <= k < |version| ==> InVersionClass(version[k])
  {
    KeptSplits(version);
  }

  /** The stream as the reader sees it: its bytes and a settable position,
      which may lie past the end. */
  class FileReader {
    const data: seq<uint8>
    var position: nat

    constructor (data: seq<uint8>)
      ensures this.data == data && position == 0
    {
      this.data := data;
      position := 0;
    }

    /** `ReadBytes(n)`: as many of the next `n` bytes as the stream holds. */
    method ReadBytes(n: nat) returns (bs: seq<uint8>)
      modifies this
      ensures bs == BytesAt(data, old(position), n)
      ensures position == old(position) + |bs|
    {
      bs := BytesAt(data, position, n);
      position := position + |bs|;
    }

    /** `ReadInt32()` in big-endian mode; four bytes must remain. */
    method ReadInt32() returns (r: Result<int, Error>)
      modifies this
      ensures old(position) + 4 <= |data| ==>
        r == Ok(BigEndianInt32(data[old(position)..old(position) + 4])) && position == old(position) + 4
      ensures old(position) + 4 > |data| ==> r == Err(EndOfStream)
    {
      if position + 4 > |data| {
        return Err(EndOfStream);
      }
      r := Ok(BigEndianInt32(data[position..position + 4]));
      position := position + 4;
    }

    /** `ReadByte()` before the end of the stream. */
    method ReadByte() returns (b: uint8)
      requires position < |data|
      modifies this
      ensures b == data[old(position)] && position == old(position) + 1
    {
      b := data[position];
      position := position + 1;
    }
  }

  /** `DetectFileType(reader, startAddress)`, moving the reader as the source
      does. */
  method DetectFileType(r: FileReader, startAddress: nat) returns (result: Result<DetectedFileType, Error>)
    modifies r
    ensures result == Detect(r.data, startAddress)
  {
    if |r.data| < 0x20 {
      return Ok(Unknown);
    }
    r.position := startAddress;
    var possibleBundleHeader := r.ReadBytes(7);
    r.position := startAddress + 0x08;
    var read := r.ReadInt32();
    if read.Err? {
      return Err(read.error);
    }
    var possibleFormat := read.value;
    r.position := startAddress + (if possibleFormat >= 0x16 then 0x30 else 0x14);
    var possibleVersion := ReadVersionLoop(r);
    var emptyVersion := Kept(possibleVersion, false);
    var fullVersion := Kept(possibleVersion, true);
    if possibleBundleHeader == BundleSignature {
      return Ok(BundleFile);
    } else if possibleFormat < 0xFF && |emptyVersion| == 0 && |fullVersion| >= 5 {
      return Ok(AssetsFile);
    }
    return Ok(Unknown);
  }

  /** The version loop: characters up to a NUL byte or the end of the stream,
      stopping once more than 0xFF have been read. */
  method ReadVersionLoop(r: FileReader) returns (possibleVersion: string)
    modifies r
    ensures possibleVersion == ReadVersion(r.data, old(r.position), [])
  {
    possibleVersion := [];
    while r.position < |r.data|
      invariant |possibleVersion| <= MaxVersionLength
      invariant ReadVersion(r.data, r.position, possibleVersion) == ReadVersion(r.data, old(r.position), [])
      decreases |r.data| - r.position
    {
      var curChar := r.ReadByte();
      if curChar == 0 {
        return;
      }
      possibleVersion := possibleVersion + [curChar as char];
      if |possibleVersion| > MaxVersionLength {
        return;
      }
    }
  }
}
