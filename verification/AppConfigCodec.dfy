// The driver's binary configuration file: fixed-width little-endian integers
// and length-prefixed names.
module AppConfigCodec {
  import opened Wrappers
  import opened Addresses

  type Int32 = x: int | -0x8000_0000 <= x < 0x8000_0000
  type Name = seq<Byte>

  // ---------------------------------------------------------------- integers

  function Pow256(width: nat): (p: nat)
    ensures p > 0
  {
    if width == 0 then 1 else 256 * Pow256(width - 1)
  }

  /** The low `width` bytes of `x`, least significant first. */
  function Bytes(x: nat, width: nat): (s: seq<Byte>)
    ensures |s| == width
  {
    if width == 0 then [] else [(x % 256) as Byte] + Bytes(x / 256, width - 1)
  }

  function Number(s: seq<Byte>): (x: nat) {
    if s == [] then 0 else s[0] as nat + 256 * Number(s[1..])
  }

  lemma {:induction false} NumberOfBytes(x: nat, width: nat)
    requires x < Pow256(width)
    ensures Number(Bytes(x, width)) == x
  {
    if width > 0 {
      assert x / 256 < Pow256(width - 1);
      NumberOfBytes(x / 256, width - 1);
      assert Bytes(x, width)[1..] == Bytes(x / 256, width - 1);
    }
  }

  /** An int is stored as its two's complement. */
  function Int32Bytes(x: Int32): (s: seq<Byte>)
    ensures |s| == 4
  {
    Bytes(if x < 0 then x + 0x1_0000_0000 else x, 4)
  }

  function Int32Of(s: seq<Byte>): (x: Int32)
    requires |s| == 4
  {
    var n := Number(s) % 0x1_0000_0000;
    if n >= 0x8000_0000 then n - 0x1_0000_0000 else n
  }

  lemma Int32RoundTrip(x: Int32)
    ensures Int32Of(Int32Bytes(x)) == x
  {
    var n := if x < 0 then x + 0x1_0000_0000 else x;
    assert Pow256(4) == 0x1_0000_0000 by {
      assert Pow256(1) == 256 && Pow256(2) == 0x1_0000 && Pow256(3) == 0x100_0000;
    }
    NumberOfBytes(n, 4);
  }

  // ---------------------------------------------------------------- the format

  const SIZE_WIDTH: nat := 8

  /** What fits the counters of the format. */
  predicate Fits(n: nat) {
    n < Pow256(SIZE_WIDTH)
  }

  datatype Settings = Settings(
    adapterIp: IpAddress, adapterSubnetBits: Int32, serverIp: IpAddress, serverPort: Int32,
    logLevel: Int32, names: seq<Name>)

  function IpBytes(ip: IpAddress): (s: seq<Byte>)
    ensures |s| == 4
  {
    [ip.ipp1, ip.ipp2, ip.ipp3, ip.ipp4]
  }

  function NameBytes(name: Name): seq<Byte> {
    Bytes(|name|, SIZE_WIDTH) + name
  }

  function NamesBytes(names: seq<Name>): seq<Byte> {
    if names == [] then [] else NameBytes(names[0]) + NamesBytes(names[1..])
  }

  function FixedBytes(c: Settings): (s: seq<Byte>)
    ensures |s| == 20
  {
    IpBytes(c.adapterIp) + Int32Bytes(c.adapterSubnetBits) + IpBytes(c.serverIp) + Int32Bytes(c.serverPort)
    + Int32Bytes(c.logLevel)
  }

  function Encode(c: Settings): seq<Byte> {
    FixedBytes(c) + Bytes(|c.names|, SIZE_WIDTH) + NamesBytes(c.names)
  }

  /** A name as it comes back: read through a C string, it ends at the first NUL. */
  function CutAtNul(name: Name): (r: Name)
    ensures r <= name && 0 !in r
    ensures r == name || name[|r|] == 0
  {
    if name == [] || name[0] == 0 then [] else [name[0]] + CutAtNul(name[1..])
  }

  function Cut(names: seq<Name>): (r: seq<Name>)
    ensures |r| == |names|
    ensures forall i :: 0 <= i < |names| ==> r[i] == CutAtNul(names[i])
  {
    if names == [] then [] else [CutAtNul(names[0])] + Cut(names[1..])
  }

  /** Reading `count` names off the front; None when the bytes run out. */
  function DecodeNames(count: nat, s: seq<Byte>): Option<(seq<Name>, seq<Byte>)> {
    if count == 0 then Some(([], s))
    else
      match DecodeName(s)
      case None => None
      case Some((name, rest)) =>
        match DecodeNames(count - 1, rest)
        case None => None
        case Some((names, end)) => Some(([name] + names, end))
  }

  function DecodeName(s: seq<Byte>): (r: Option<(Name, seq<Byte>)>) {
    if |s| < SIZE_WIDTH then None
    else
      var size, data := Number(s[..SIZE_WIDTH]), s[SIZE_WIDTH..];
      if |data| < size then None else Some((CutAtNul(data[..size]), data[size..]))
  }

  function DecodeIp(s: seq<Byte>): IpAddress
    requires |s| == 4
  {
    IpAddress(s[0], s[1], s[2], s[3])
  }

  function DecodeFixed(s: seq<Byte>): Settings
    requires |s| == 20
  {
    Settings(DecodeIp(s[0..4]), Int32Of(s[4..8]), DecodeIp(s[8..12]), Int32Of(s[12..16]), Int32Of(s[16..20]), [])
  }

  function Decode(s: seq<Byte>): Option<(Settings, seq<Byte>)> {
    if |s| < 20 then None
    else DecodeTail(DecodeFixed(s[..20]), s[20..])
  }

  /** The counted names after the fixed part. */
  function DecodeTail(fixed: Settings, s: seq<Byte>): Option<(Settings, seq<Byte>)> {
    if |s| < SIZE_WIDTH then None
    else
      match DecodeNames(Number(s[..SIZE_WIDTH]), s[SIZE_WIDTH..])
      case None => None
      case Some((names, rest)) => Some((fixed.(names := names), rest))
  }

  // ---------------------------------------------------------------- round trip

  predicate Storable(c: Settings) {
    Fits(|c.names|) && forall i :: 0 <= i < |c.names| ==> Fits(|c.names[i]|)
  }

  lemma FrameRoundTrip(size: seq<Byte>, name: Name, rest: seq<Byte>)
    requires |size| == SIZE_WIDTH && Number(size) == |name|
    ensures DecodeName(size + name + rest) == Some((CutAtNul(name), rest))
  {
    var s := size + name + rest;
    var data := name + rest;
    assert s[..SIZE_WIDTH] == size && s[SIZE_WIDTH..] == data;
    assert data[..|name|] == name && data[|name|..] == rest;
  }

  lemma NameRoundTrip(name: Name, rest: seq<Byte>)
    requires Fits(|name|)
    ensures DecodeName(NameBytes(name) + rest) == Some((CutAtNul(name), rest))
  {
    NumberOfBytes(|name|, SIZE_WIDTH);
    FrameRoundTrip(Bytes(|name|, SIZE_WIDTH), name, rest);
  }

  lemma {:induction false} NamesRoundTrip(names: seq<Name>, rest: seq<Byte>)
    requires forall i :: 0 <= i < |names| ==> Fits(|names[i]|)
    ensures DecodeNames(|names|, NamesBytes(names) + rest) == Some((Cut(names), rest))
    decreases |names|
  {
    if names == [] {
      assert NamesBytes(names) + rest == rest;
    } else {
      var tail := NamesBytes(names[1..]) + rest;
      FirstName(names, rest);
      NameRoundTrip(names[0], tail);
      NamesRoundTrip(names[1..], rest);
    }
  }

  /** Five fields of four bytes each, one after the other. */
  lemma FiveFields(a: seq<Byte>, b: seq<Byte>, c: seq<Byte>, d: seq<Byte>, e: seq<Byte>)
    requires |a| == |b| == |c| == |d| == |e| == 4
    ensures var f := a + b + c + d + e;
            |f| == 20 && f[0..4] == a && f[4..8] == b && f[8..12] == c && f[12..16] == d && f[16..20] == e
  {
  }

  lemma FixedRoundTrip(c: Settings)
    ensures DecodeFixed(FixedBytes(c)) == c.(names := [])
  {
    FiveFields(IpBytes(c.adapterIp), Int32Bytes(c.adapterSubnetBits), IpBytes(c.serverIp),
               Int32Bytes(c.serverPort), Int32Bytes(c.logLevel));
    Int32RoundTrip(c.adapterSubnetBits);
    Int32RoundTrip(c.serverPort);
    Int32RoundTrip(c.logLevel);
  }

  /** Reading what was written consumes exactly that, whatever follows it, and
      gives the same settings with every name cut at its first NUL. */
  lemma RoundTrip(c: Settings, rest: seq<Byte>)
    requires Storable(c)
    ensures Decode(Encode(c) + rest) == Some((c.(names := Cut(c.names)), rest))
  {
    var s := Encode(c) + rest;
    var count := Bytes(|c.names|, SIZE_WIDTH);
    var tail := count + (NamesBytes(c.names) + rest);
    assert s[..20] == FixedBytes(c) && s[20..] == tail;
    FixedRoundTrip(c);
    assert tail[..SIZE_WIDTH] == count && tail[SIZE_WIDTH..] == NamesBytes(c.names) + rest;
    NumberOfBytes(|c.names|, SIZE_WIDTH);
    NamesRoundTrip(c.names, rest);
  }

  /** The settings come back unchanged exactly when no name holds a NUL. */
  lemma IdentityIffNoNul(c: Settings, rest: seq<Byte>)
    requires Storable(c)
    ensures Decode(Encode(c) + rest) == Some((c, rest)) <==> forall i :: 0 <= i < |c.names| ==> 0 !in c.names[i]
  {
    RoundTrip(c, rest);
    forall i | 0 <= i < |c.names|
      ensures CutAtNul(c.names[i]) == c.names[i] <==> 0 !in c.names[i]
    {
    }
    if forall i :: 0 <= i < |c.names| ==> 0 !in c.names[i] {
      assert Cut(c.names) == c.names;
    }
  }

  lemma NameBytesPrefixFree(a: Name, b: Name, restA: seq<Byte>, restB: seq<Byte>)
    requires Fits(|a|) && Fits(|b|) && NameBytes(a) + restA == NameBytes(b) + restB
    ensures a == b && restA == restB
  {
    var s := NameBytes(a) + restA;
    NumberOfBytes(|a|, SIZE_WIDTH);
    NumberOfBytes(|b|, SIZE_WIDTH);
    assert s[..SIZE_WIDTH] == Bytes(|a|, SIZE_WIDTH) && s[..SIZE_WIDTH] == Bytes(|b|, SIZE_WIDTH);
    assert s[SIZE_WIDTH..SIZE_WIDTH + |a|] == a && s[SIZE_WIDTH..SIZE_WIDTH + |b|] == b;
    assert s[SIZE_WIDTH + |a|..] == restA && s[SIZE_WIDTH + |a|..] == restB;
  }

  lemma FirstName(names: seq<Name>, rest: seq<Byte>)
    requires names != []
    ensures NamesBytes(names) + rest == NameBytes(names[0]) + (NamesBytes(names[1..]) + rest)
  {
  }

  lemma {:induction false} NamesBytesPrefixFree(a: seq<Name>, b: seq<Name>, restA: seq<Byte>, restB: seq<Byte>)
    requires |a| == |b| && NamesBytes(a) + restA == NamesBytes(b) + restB
    requires forall i :: 0 <= i < |a| ==> Fits(|a[i]|) && Fits(|b[i]|)
    ensures a == b && restA == restB
    decreases |a|
  {
    if a == [] {
      assert restA == NamesBytes(a) + restA == NamesBytes(b) + restB == restB;
    } else {
      var tailA, tailB := NamesBytes(a[1..]) + restA, NamesBytes(b[1..]) + restB;
      FirstName(a, restA);
      FirstName(b, restB);
      NameBytesPrefixFree(a[0], b[0], tailA, tailB);
      NamesBytesPrefixFree(a[1..], b[1..], restA, restB);
      assert a == [a[0]] + a[1..] && b == [b[0]] + b[1..];
    }
  }

  lemma EncodedParts(c: Settings, rest: seq<Byte>)
    ensures var s := Encode(c) + rest;
            && |s| >= 20 + SIZE_WIDTH
            && s[..20] == FixedBytes(c)
            && s[20..20 + SIZE_WIDTH] == Bytes(|c.names|, SIZE_WIDTH)
            && s[20 + SIZE_WIDTH..] == NamesBytes(c.names) + rest
  {
  }

  /** No stored configuration is the beginning of a different one. */
  lemma PrefixFree(c: Settings, d: Settings)
    requires Storable(c) && Storable(d) && Encode(c) <= Encode(d)
    ensures c == d
  {
    var rest := Encode(d)[|Encode(c)|..];
    assert Encode(c) + rest == Encode(d) + [];
    EncodedParts(c, rest);
    EncodedParts(d, []);
    FixedRoundTrip(c);
    FixedRoundTrip(d);
    NumberOfBytes(|c.names|, SIZE_WIDTH);
    NumberOfBytes(|d.names|, SIZE_WIDTH);
    NamesBytesPrefixFree(c.names, d.names, rest, []);
  }

  // ---------------------------------------------------------------- the layout, byte by byte

  /** Four bytes from `i` on as a number, least significant first. */
  function Word4(s: seq<Byte>, i: nat): nat
    requires i + 4 <= |s|
  {
    s[i] as nat + 0x100 * s[i + 1] as nat + 0x1_0000 * s[i + 2] as nat + 0x100_0000 * s[i + 3] as nat
  }

  function Word8(s: seq<Byte>, i: nat): nat
    requires i + 8 <= |s|
  {
    Word4(s, i) + 0x1_0000_0000 * Word4(s, i + 4)
  }

  /** What an int is modulo 2^32. */
  function Unsigned(x: Int32): nat {
    if x < 0 then x + 0x1_0000_0000 else x
  }

  /** The bytes are those of the settings: the fixed fields at their places, and
      from byte 28 on each name with its length in front. */
  ghost predicate LaidOut(s: seq<Byte>, c: Settings) {
    && |s| >= 28
    && s[0] == c.adapterIp.ipp1 && s[1] == c.adapterIp.ipp2 && s[2] == c.adapterIp.ipp3 && s[3] == c.adapterIp.ipp4
    && Word4(s, 4) == Unsigned(c.adapterSubnetBits)
    && s[8] == c.serverIp.ipp1 && s[9] == c.serverIp.ipp2 && s[10] == c.serverIp.ipp3 && s[11] == c.serverIp.ipp4
    && Word4(s, 12) == Unsigned(c.serverPort) && Word4(s, 16) == Unsigned(c.logLevel)
    && Word8(s, 20) == |c.names| && NamesLaidOut(s[28..], c.names)
  }

  ghost predicate NamesLaidOut(s: seq<Byte>, names: seq<Name>)
    decreases |names|
  {
    if names == [] then s == []
    else
      var n := |names[0]|;
      |s| >= 8 + n && Word8(s, 0) == n && s[8..8 + n] == names[0] && NamesLaidOut(s[8 + n..], names[1..])
  }

  /** The settings are what the bytes say, the same fields at the same places; of a
      name all bytes up to the first NUL. */
  ghost predicate SaidBy(s: seq<Byte>, c: Settings, rest: seq<Byte>) {
    && |s| >= 28
    && c.adapterIp.ipp1 == s[0] && c.adapterIp.ipp2 == s[1] && c.adapterIp.ipp3 == s[2] && c.adapterIp.ipp4 == s[3]
    && Unsigned(c.adapterSubnetBits) == Word4(s, 4)
    && c.serverIp.ipp1 == s[8] && c.serverIp.ipp2 == s[9] && c.serverIp.ipp3 == s[10] && c.serverIp.ipp4 == s[11]
    && Unsigned(c.serverPort) == Word4(s, 12) && Unsigned(c.logLevel) == Word4(s, 16)
    && |c.names| == Word8(s, 20) && NamesSaidBy(s[28..], c.names, rest)
  }

  ghost predicate NamesSaidBy(s: seq<Byte>, names: seq<Name>, rest: seq<Byte>)
    decreases |names|
  {
    if names == [] then s == rest
    else
      |s| >= 8 && |s| >= 8 + Word8(s, 0) &&
      var n := Word8(s, 0);
      EndsAtNul(names[0], s[8..8 + n]) && NamesSaidBy(s[8 + n..], names[1..], rest)
  }

  /** The name is the text up to its first NUL, or all of it. */
  predicate EndsAtNul(name: Name, text: seq<Byte>) {
    name <= text && 0 !in name && (name == text || text[|name|] == 0)
  }

  lemma NumberOf4(s: seq<Byte>)
    requires |s| == 4
    ensures Number(s) == Word4(s, 0)
  {
    var a, b, c := s[1..], s[1..][1..], s[1..][1..][1..];
    assert Number(s) == s[0] as nat + 256 * Number(a);
    assert Number(a) == s[1] as nat + 256 * Number(b);
    assert Number(b) == s[2] as nat + 256 * Number(c);
    assert Number(c) == s[3] as nat + 256 * Number(c[1..]) && c[1..] == [];
  }

  lemma NumberOf8(s: seq<Byte>)
    requires |s| == 8
    ensures Number(s) == Word8(s, 0)
  {
    var low, high := s[..4], s[4..];
    NumberOf4(low);
    NumberOf4(high);
    NumberSplits(low, high);
    assert low + high == s;
  }

  lemma {:induction false} NumberSplits(low: seq<Byte>, high: seq<Byte>)
    ensures Number(low + high) == Number(low) + Pow256(|low|) * Number(high)
    decreases |low|
  {
    if low == [] {
      assert low + high == high;
    } else {
      assert (low + high)[1..] == low[1..] + high;
      NumberSplits(low[1..], high);
      assert Pow256(|low|) == 256 * Pow256(|low| - 1);
    }
  }

  lemma WordIn(s: seq<Byte>, i: nat, w: seq<Byte>)
    requires i + |w| <= |s| && s[i..i + |w|] == w
    ensures |w| == 4 ==> Word4(s, i) == Number(w)
    ensures |w| == 8 ==> Word8(s, i) == Number(w)
  {
    assert forall k :: 0 <= k < |w| ==> w[k] == s[i + k];
    if |w| == 4 {
      NumberOf4(w);
    }
    if |w| == 8 {
      NumberOf8(w);
    }
  }

  lemma IntWord(s: seq<Byte>, i: nat, x: Int32)
    requires i + 4 <= |s| && s[i..i + 4] == Int32Bytes(x)
    ensures Word4(s, i) == Unsigned(x)
  {
    WordIn(s, i, Int32Bytes(x));
    assert Pow256(4) == 0x1_0000_0000 by {
      assert Pow256(1) == 256 && Pow256(2) == 0x1_0000 && Pow256(3) == 0x100_0000;
    }
    NumberOfBytes(Unsigned(x), 4);
  }

  lemma EncodedIsLaidOut(c: Settings)
    requires Storable(c)
    ensures LaidOut(Encode(c), c)
  {
    var s := Encode(c);
    assert s + [] == s;
    EncodedParts(c, []);
    var f := s[..20];
    FiveFields(IpBytes(c.adapterIp), Int32Bytes(c.adapterSubnetBits), IpBytes(c.serverIp),
               Int32Bytes(c.serverPort), Int32Bytes(c.logLevel));
    IntWord(f, 4, c.adapterSubnetBits);
    IntWord(f, 12, c.serverPort);
    IntWord(f, 16, c.logLevel);
    assert f[0] == f[0..4][0] && f[1] == f[0..4][1] && f[2] == f[0..4][2] && f[3] == f[0..4][3];
    assert f[8] == f[8..12][0] && f[9] == f[8..12][1] && f[10] == f[8..12][2] && f[11] == f[8..12][3];
    WordIn(s, 20, Bytes(|c.names|, SIZE_WIDTH));
    NumberOfBytes(|c.names|, SIZE_WIDTH);
    assert NamesBytes(c.names) + [] == NamesBytes(c.names);
    NamesAreLaidOut(c.names);
  }

  lemma {:induction false} NamesAreLaidOut(names: seq<Name>)
    requires forall i :: 0 <= i < |names| ==> Fits(|names[i]|)
    ensures NamesLaidOut(NamesBytes(names), names)
    decreases |names|
  {
    if names != [] {
      var s, n := NamesBytes(names), |names[0]|;
      var rest := NamesBytes(names[1..]);
      assert s == Bytes(n, SIZE_WIDTH) + names[0] + rest;
      assert s[0..8] == Bytes(n, SIZE_WIDTH);
      WordIn(s, 0, Bytes(n, SIZE_WIDTH));
      NumberOfBytes(n, SIZE_WIDTH);
      assert s[8..8 + n] == names[0] && s[8 + n..] == rest;
      NamesAreLaidOut(names[1..]);
    }
  }

  lemma IntSaid(s: seq<Byte>, i: nat)
    requires i + 4 <= |s|
    ensures Unsigned(Int32Of(s[i..i + 4])) == Word4(s, i)
  {
    WordIn(s, i, s[i..i + 4]);
  }

  lemma DecodedIsSaid(s: seq<Byte>)
    ensures match Decode(s)
            case None => true
            case Some((c, rest)) => SaidBy(s, c, rest)
  {
    match Decode(s)
    case None =>
    case Some((c, rest)) =>
      var f, tail := s[..20], s[20..];
      FixedIsSaid(s);
      assert s[20..28] == tail[..SIZE_WIDTH];
      WordIn(s, 20, s[20..28]);
      assert tail[SIZE_WIDTH..] == s[28..];
      NamesAreSaid(Number(tail[..SIZE_WIDTH]), s[28..]);
  }

  lemma FixedIsSaid(s: seq<Byte>)
    requires |s| >= 20
    ensures var c := DecodeFixed(s[..20]);
            && c.adapterIp == IpAddress(s[0], s[1], s[2], s[3]) && c.serverIp == IpAddress(s[8], s[9], s[10], s[11])
            && Unsigned(c.adapterSubnetBits) == Word4(s, 4)
            && Unsigned(c.serverPort) == Word4(s, 12) && Unsigned(c.logLevel) == Word4(s, 16)
  {
    var f := s[..20];
    assert f[0..4] == s[0..4] && f[4..8] == s[4..8] && f[8..12] == s[8..12];
    assert f[12..16] == s[12..16] && f[16..20] == s[16..20];
    IntSaid(s, 4);
    IntSaid(s, 12);
    IntSaid(s, 16);
  }

  lemma {:induction false} NamesAreSaid(count: nat, s: seq<Byte>)
    ensures match DecodeNames(count, s)
            case None => true
            case Some((names, rest)) => |names| == count && NamesSaidBy(s, names, rest)
    decreases count
  {
    if count > 0 && DecodeNames(count, s).Some? {
      var (name, rest) := DecodeName(s).value;
      var n := Number(s[..SIZE_WIDTH]);
      assert s[0..8] == s[..SIZE_WIDTH];
      WordIn(s, 0, s[..SIZE_WIDTH]);
      assert s[SIZE_WIDTH..][..n] == s[8..8 + n] && s[SIZE_WIDTH..][n..] == s[8 + n..];
      NamesAreSaid(count - 1, rest);
      var names := DecodeNames(count, s).value.0;
      assert names[1..] == DecodeNames(count - 1, rest).value.0;
    }
  }

  // ---------------------------------------------------------------- streams

  class OutStream {
    var data: seq<Byte>

    method Write(s: seq<Byte>)
      modifies this
      ensures data == old(data) + s
    {
      data := data + s;
    }
  }

  class InStream {
    const data: seq<Byte>
    var pos: nat

    ghost predicate Valid()
      reads this
    {
      pos <= |data|
    }

    function Left(): seq<Byte>
      requires Valid()
      reads this
    {
      data[pos..]
    }

    /** The next `n` bytes, or None when fewer are left. */
    method Read(n: nat) returns (s: Option<seq<Byte>>)
      requires Valid()
      modifies this
      ensures Valid()
      ensures s.Some? <==> n <= |old(Left())|
      ensures s.Some? ==> s.value == old(Left())[..n] && Left() == old(Left())[n..]
      ensures s.None? ==> pos == old(pos)
    {
      if pos + n > |data| {
        return None;
      }
      s := Some(data[pos..pos + n]);
      pos := pos + n;
    }
  }

  class AppConfig {
    var adapterIp: IpAddress
    var adapterSubnetBits: Int32
    var serverIp: IpAddress
    var serverPort: Int32
    var logLevel: Int32
    var names: seq<Name>

    function Value(): Settings
      reads this
    {
      Settings(adapterIp, adapterSubnetBits, serverIp, serverPort, logLevel, names)
    }

    method Write(file: OutStream)
      modifies file
      ensures file.data == old(file.data) + Encode(Value())
      ensures Storable(Value()) ==> LaidOut(file.data[|old(file.data)|..], Value())
    {
      if Storable(Value()) {
        EncodedIsLaidOut(Value());
      }
      SumOfThree(file.data, FixedBytes(Value()), Bytes(|names|, SIZE_WIDTH), NamesBytes(names));
      WriteFixed(file);
      file.Write(Bytes(|names|, SIZE_WIDTH));
      WriteNames(names, file);
    }

    method WriteNames(names: seq<Name>, file: OutStream)
      modifies file
      ensures file.data == old(file.data) + NamesBytes(names)
    {
      for i := 0 to |names|
        invariant file.data == old(file.data) + NamesBytes(names[..i])
      {
        NamesWritten(old(file.data), names, i);
        WriteString(names[i], file);
      }
      assert names[..|names|] == names;
    }

    method WriteFixed(file: OutStream)
      modifies file
      ensures file.data == old(file.data) + FixedBytes(Value())
    {
      file.Write(IpBytes(adapterIp));
      file.Write(Int32Bytes(adapterSubnetBits));
      file.Write(IpBytes(serverIp));
      file.Write(Int32Bytes(serverPort));
      file.Write(Int32Bytes(logLevel));
    }

    method WriteString(s: Name, file: OutStream)
      modifies file
      ensures file.data == old(file.data) + NameBytes(s)
    {
      file.Write(Bytes(|s|, SIZE_WIDTH));
      file.Write(s);
    }

    method ReadString(file: InStream) returns (s: Option<Name>)
      requires file.Valid()
      modifies file
      ensures file.Valid()
      ensures match DecodeName(old(file.Left()))
              case None => s.None?
              case Some((name, rest)) => s == Some(name) && file.Left() == rest
    {
      s := None;
      var size := file.Read(SIZE_WIDTH);
      if size.Some? {
        var data := file.Read(Number(size.value));
        if data.Some? {
          s := Some(CutAtNul(data.value));
        }
      }
    }

    method ReadNames(count: nat, file: InStream) returns (r: Option<seq<Name>>)
      requires file.Valid()
      modifies file
      ensures file.Valid()
      ensures r == NamesPart(DecodeNames(count, old(file.Left())))
      ensures r.Some? ==> DecodeNames(count, old(file.Left())) == Some((r.value, file.Left()))
    {
      ghost var goal := DecodeNames(count, file.Left());
      var names: seq<Name> := [];
      PrependNothing(goal);
      for i := 0 to count
        invariant file.Valid()
        invariant goal == Prepend(names, DecodeNames(count - i, file.Left()))
      {
        OneMoreName(names, count - i, file.Left());
        var s := ReadString(file);
        if s.None? { return None; }
        names := names + [s.value];
      }
      NoMoreNames(names, file.Left());
      r := Some(names);
    }

    method ReadIp(file: InStream) returns (ip: Option<IpAddress>)
      requires file.Valid()
      modifies file
      ensures file.Valid()
      ensures ip.Some? <==> |old(file.Left())| >= 4
      ensures ip.Some? ==> ip.value == DecodeIp(old(file.Left())[..4]) && file.Left() == old(file.Left())[4..]
      ensures ip.Some? ==>
                var s := old(file.Left()); ip.value == IpAddress(s[0], s[1], s[2], s[3])
    {
      var s := file.Read(4);
      ip := if s.None? then None else Some(DecodeIp(s.value));
    }

    method ReadInt(file: InStream) returns (x: Option<Int32>)
      requires file.Valid()
      modifies file
      ensures file.Valid()
      ensures x.Some? <==> |old(file.Left())| >= 4
      ensures x.Some? ==> x.value == Int32Of(old(file.Left())[..4]) && file.Left() == old(file.Left())[4..]
    {
      var s := file.Read(4);
      x := if s.None? then None else Some(Int32Of(s.value));
    }

    /** Returns false when the file ends too early; the fields past the end of the
        file are then not set. */
    method Read(file: InStream) returns (ok: bool)
      requires file.Valid()
      modifies this, file
      ensures file.Valid()
      ensures match Decode(old(file.Left()))
              case None => !ok
              case Some((c, rest)) => ok && Value() == c && file.Left() == rest
      ensures ok ==> SaidBy(old(file.Left()), Value(), file.Left())
    {
      DecodedIsSaid(file.Left());
      var fixed := ReadFixed(file);
      if !fixed { return false; }
      var size := file.Read(SIZE_WIDTH);
      if size.None? { return false; }
      var r := ReadNames(Number(size.value), file);
      if r.None? { return false; }
      names := r.value;
      ok := true;
    }

    method ReadFixed(file: InStream) returns (ok: bool)
      requires file.Valid()
      modifies this, file
      ensures file.Valid()
      ensures ok <==> |old(file.Left())| >= 20
      ensures ok ==> Value().(names := []) == DecodeFixed(old(file.Left())[..20])
      ensures ok ==> file.Left() == old(file.Left())[20..]
    {
      ghost var s := file.Left();
      var ip := ReadIp(file);
      if ip.None? { return false; }
      adapterIp := ip.value;
      var x := ReadInt(file);
      if x.None? { return false; }
      adapterSubnetBits := x.value;
      ip := ReadIp(file);
      if ip.None? { return false; }
      serverIp := ip.value;
      x := ReadInt(file);
      if x.None? { return false; }
      serverPort := x.value;
      x := ReadInt(file);
      if x.None? { return false; }
      logLevel := x.value;
      Fields(s);
      ok := true;
    }
  }

  /** Cutting fields off one after another reaches the same bytes as indexing. */
  lemma Fields(s: seq<Byte>)
    requires |s| >= 20
    ensures var f := s[..20];
            && s[..4] == f[0..4] && s[4..][..4] == f[4..8] && s[4..][4..][..4] == f[8..12]
            && s[4..][4..][4..][..4] == f[12..16] && s[4..][4..][4..][4..][..4] == f[16..20]
            && s[4..][4..][4..][4..][4..] == s[20..]
  {
    assert s[4..][4..] == s[8..];
    assert s[8..][4..] == s[12..];
    assert s[12..][4..] == s[16..];
  }

  function Prepend(names: seq<Name>, r: Option<(seq<Name>, seq<Byte>)>): Option<(seq<Name>, seq<Byte>)> {
    match r
    case None => None
    case Some((more, rest)) => Some((names + more, rest))
  }

  lemma PrependNothing(r: Option<(seq<Name>, seq<Byte>)>)
    ensures Prepend([], r) == r
  {
    if r.Some? {
      assert [] + r.value.0 == r.value.0;
    }
  }

  lemma NoMoreNames(names: seq<Name>, rest: seq<Byte>)
    ensures Prepend(names, DecodeNames(0, rest)) == Some((names, rest))
  {
    assert names + [] == names;
  }

  function NamesPart(r: Option<(seq<Name>, seq<Byte>)>): Option<seq<Name>> {
    match r
    case None => None
    case Some((names, rest)) => Some(names)
  }

  lemma OneMoreName(names: seq<Name>, count: nat, s: seq<Byte>)
    requires count > 0
    ensures match DecodeName(s)
            case None => Prepend(names, DecodeNames(count, s)) == None
            case Some((name, rest)) =>
              Prepend(names, DecodeNames(count, s)) == Prepend(names + [name], DecodeNames(count - 1, rest))
  {
    match DecodeName(s)
    case None =>
    case Some((name, rest)) =>
      match DecodeNames(count - 1, rest)
      case None =>
      case Some((more, end)) => assert names + ([name] + more) == (names + [name]) + more;
  }

  lemma SumOfThree(data: seq<Byte>, a: seq<Byte>, b: seq<Byte>, c: seq<Byte>)
    ensures data + a + b + c == data + (a + b + c)
  {
  }

  lemma NamesWritten(data: seq<Byte>, names: seq<Name>, i: nat)
    requires i < |names|
    ensures data + NamesBytes(names[..i]) + NameBytes(names[i]) == data + NamesBytes(names[..i + 1])
  {
    NamesAppend(names[..i], names[i]);
    assert names[..i + 1] == names[..i] + [names[i]];
  }

  lemma {:induction false} NamesAppend(names: seq<Name>, name: Name)
    ensures NamesBytes(names + [name]) == NamesBytes(names) + NameBytes(name)
    decreases |names|
  {
    if names == [] {
      assert [name][1..] == [];
    } else {
      assert (names + [name])[1..] == names[1..] + [name];
      NamesAppend(names[1..], name);
    }
  }
}
