// IPv4 addresses as the driver reads them from text and hands them to sockets.
module Addresses {
  import opened CliStrings

  newtype Byte = x: int | 0 <= x < 256

  datatype IpAddress = IpAddress(ipp1: Byte, ipp2: Byte, ipp3: Byte, ipp4: Byte)

  // ---------------------------------------------------------------- atoi

  predicate IsDigit(c: char) {
    '0' <= c <= '9'
  }

  function DigitOf(c: char): nat
    requires IsDigit(c)
  {
    c as int - '0' as int
  }

  /** The number that the leading digits continue. */
  function Digits(s: string, sofar: nat): nat {
    if s == "" || !IsDigit(s[0]) then sofar else Digits(s[1..], 10 * sofar + DigitOf(s[0]))
  }

  function Signed(s: string): int {
    if s != "" && s[0] == '-' then 0 - Digits(s[1..], 0)
    else if s != "" && s[0] == '+' then Digits(s[1..], 0)
    else Digits(s, 0)
  }

  /** White space, a sign, digits; whatever follows is ignored and no digits make 0. */
  function Atoi(s: string): int {
    if s != "" && IsSpace(s[0]) then Atoi(s[1..]) else Signed(s)
  }

  /** An int stored in a byte keeps its low eight bits. */
  function LowByte(x: int): Byte {
    (x % 256) as Byte
  }

  // ---------------------------------------------------------------- segments

  /** The text up to the first dot. */
  function Head(s: string): string {
    s[..Find(s, '.', 0)]
  }

  /** The text after the first dot, or all of it where there is none. */
  function Tail(s: string): string {
    if Find(s, '.', 0) == |s| then s else s[Find(s, '.', 0) + 1..]
  }

  function Segments(s: string): (r: seq<string>)
    ensures |r| > 0
    decreases |s|
  {
    if Find(s, '.', 0) == |s| then [s] else [Head(s)] + Segments(Tail(s))
  }

  /** The one at `i`, the last one standing in for all beyond it. */
  function Clamped(r: seq<string>, i: nat): string
    requires |r| > 0
  {
    if i < |r| then r[i] else r[|r| - 1]
  }

  function IpOf(s: string): IpAddress {
    IpOfSegments(Segments(s))
  }

  function IpOfSegments(r: seq<string>): IpAddress
    requires |r| > 0
  {
    IpAddress(LowByte(Atoi(Clamped(r, 0))), LowByte(Atoi(Clamped(r, 1))),
              LowByte(Atoi(Clamped(r, 2))), LowByte(Atoi(Clamped(r, 3))))
  }

  lemma ClampedStep(head: string, r: seq<string>, i: nat)
    requires |r| > 0
    ensures Clamped([head] + r, 0) == head && Clamped([head] + r, i + 1) == Clamped(r, i)
  {
  }

  lemma SegmentOfTail(s: string, i: nat)
    ensures Clamped(Segments(s), 0) == Head(s)
    ensures Clamped(Segments(Tail(s)), i) == Clamped(Segments(s), i + 1)
  {
    if Find(s, '.', 0) < |s| {
      ClampedStep(Head(s), Segments(Tail(s)), i);
    } else {
      assert Tail(s) == s && Head(s) == s && Segments(s) == [s];
    }
  }

  /** A dot ends a number, so the rest of the text need not be cut at it. */
  lemma {:induction false} DigitsOfHead(s: string, sofar: nat)
    ensures Digits(s, sofar) == Digits(Head(s), sofar)
    decreases |s|
  {
    if s != "" && IsDigit(s[0]) {
      HeadStep(s);
      DigitsOfHead(s[1..], 10 * sofar + DigitOf(s[0]));
    }
  }

  lemma HeadStep(s: string)
    requires s != "" && s[0] != '.'
    ensures Head(s) == [s[0]] + Head(s[1..]) && Head(s)[1..] == Head(s[1..])
  {
    var k, j := Find(s, '.', 0), Find(s[1..], '.', 0);
    if j < |s| - 1 {
      assert s[j + 1] == '.';
    }
    if k < |s| {
      assert k > 0 && s[1..][k - 1] == '.';
    }
  }

  lemma {:induction false} AtoiOfHead(s: string)
    ensures Atoi(s) == Atoi(Head(s))
    decreases |s|
  {
    if s != "" && s[0] != '.' {
      HeadStep(s);
      DigitsOfHead(s, 0);
      DigitsOfHead(s[1..], 0);
      if IsSpace(s[0]) {
        AtoiOfHead(s[1..]);
      }
    }
  }

  /** Cutting the text at one dot after the other reaches the same segments. */
  lemma IpByCutting(s: string)
    ensures IpOf(s) == IpAddress(LowByte(Atoi(Head(s))), LowByte(Atoi(Head(Tail(s)))),
                                 LowByte(Atoi(Head(Tail(Tail(s))))), LowByte(Atoi(Tail(Tail(Tail(s))))))
  {
    CutThrice(s, Tail(s), Tail(Tail(s)), Tail(Tail(Tail(s))));
  }

  lemma CutThrice(s: string, t: string, u: string, v: string)
    requires t == Tail(s) && u == Tail(t) && v == Tail(u)
    ensures IpOfSegments(Segments(s)) ==
            IpAddress(LowByte(Atoi(Head(s))), LowByte(Atoi(Head(t))), LowByte(Atoi(Head(u))), LowByte(Atoi(v)))
  {
    SegmentOfTail(s, 0);
    SegmentOfTail(s, 1);
    SegmentOfTail(s, 2);
    SegmentOfTail(t, 0);
    SegmentOfTail(t, 1);
    SegmentOfTail(u, 0);
    SegmentOfTail(v, 0);
    AtoiOfHead(v);
  }

  /** The first three parts are cut at their dots, the fourth is all that is left. */
  method ParseIpString(ipAddress: string) returns (ip: IpAddress)
    ensures ip == IpOf(ipAddress)
  {
    IpByCutting(ipAddress);
    var s := ipAddress;
    var ipp1 := LowByte(Atoi(Head(s)));
    s := Tail(s);
    var ipp2 := LowByte(Atoi(Head(s)));
    s := Tail(s);
    var ipp3 := LowByte(Atoi(Head(s)));
    s := Tail(s);
    var ipp4 := LowByte(Atoi(s));
    ip := IpAddress(ipp1, ipp2, ipp3, ipp4);
  }

  class NetworkAdapter {
    const name: string
    const desc: string
    var ip: IpAddress

    /** Parses the address in place, field by field. */
    constructor (name: string, desc: string, ipAddress: string)
      ensures this.name == name && this.desc == desc && ip == IpOf(ipAddress)
    {
      this.name, this.desc := name, desc;
      ip := IpAddress(0, 0, 0, 0);
      new;
      IpByCutting(ipAddress);
      var s := ipAddress;
      ip := ip.(ipp1 := LowByte(Atoi(Head(s))));
      s := Tail(s);
      ip := ip.(ipp2 := LowByte(Atoi(Head(s))));
      s := Tail(s);
      ip := ip.(ipp3 := LowByte(Atoi(Head(s))));
      s := Tail(s);
      ip := ip.(ipp4 := LowByte(Atoi(s)));
    }
  }

  // ---------------------------------------------------------------- dotted form

  function Decimal(n: nat): (s: string)
    ensures s != "" && forall c :: c in s ==> IsDigit(c)
  {
    var last := ['0' + (n % 10) as char];
    if n < 10 then last else Decimal(n / 10) + last
  }

  lemma {:induction false} DigitsAppend(s: string, c: char, sofar: nat)
    requires IsDigit(c) && forall d :: d in s ==> IsDigit(d)
    ensures Digits(s + [c], sofar) == 10 * Digits(s, sofar) + DigitOf(c)
    decreases |s|
  {
    if s == "" {
      assert [c][1..] == "";
    } else {
      assert (s + [c])[1..] == s[1..] + [c];
      DigitsAppend(s[1..], c, 10 * sofar + DigitOf(s[0]));
    }
  }

  lemma {:induction false} DigitsOfDecimal(n: nat)
    ensures Digits(Decimal(n), 0) == n
  {
    var c := '0' + (n % 10) as char;
    if n < 10 {
      DigitsAppend("", c, 0);
    } else {
      DigitsOfDecimal(n / 10);
      DigitsAppend(Decimal(n / 10), c, 0);
    }
  }

  lemma AtoiOfDecimal(n: nat)
    ensures Atoi(Decimal(n)) == n
  {
    DigitsOfDecimal(n);
  }

  /** A sign in front counts, whitespace before it and text after it do not. */
  lemma {:induction false} AtoiOfSigned(spaces: string, n: nat, rest: string)
    requires AllSpace(spaces) && (rest != "" ==> !IsDigit(rest[0]))
    ensures Atoi(spaces + (Decimal(n) + rest)) == n
    ensures Atoi(spaces + ("+" + (Decimal(n) + rest))) == n
    ensures Atoi(spaces + ("-" + (Decimal(n) + rest))) == 0 - n
    decreases |spaces|
  {
    var number := Decimal(n) + rest;
    if spaces == "" {
      assert number[0] == Decimal(n)[0];
      assert "" + number == number && "" + ("+" + number) == "+" + number && "" + ("-" + number) == "-" + number;
      assert ("+" + number)[1..] == number && ("-" + number)[1..] == number;
      DigitsOfDecimal(n);
      DigitsStop(Decimal(n), rest, 0);
    } else {
      AtoiOfSigned(spaces[1..], n, rest);
      forall s: string
        ensures (spaces + s)[1..] == spaces[1..] + s && Atoi(spaces + s) == Atoi(spaces[1..] + s)
      {
        assert (spaces + s)[1..] == spaces[1..] + s;
      }
    }
  }

  lemma {:induction false} DigitsStop(s: string, rest: string, sofar: nat)
    requires (forall d :: d in s ==> IsDigit(d)) && (rest != "" ==> !IsDigit(rest[0]))
    ensures Digits(s + rest, sofar) == Digits(s, sofar)
    decreases |s|
  {
    if s == "" {
      assert s + rest == rest;
    } else {
      assert (s + rest)[1..] == s[1..] + rest;
      DigitsStop(s[1..], rest, 10 * sofar + DigitOf(s[0]));
    }
  }

  /** A text that begins with no number is 0. */
  lemma AtoiOfNoNumber(s: string)
    requires s != "" ==> !IsSpace(s[0]) && !IsDigit(s[0])
    requires |s| > 1 && (s[0] == '-' || s[0] == '+') ==> !IsDigit(s[1])
    ensures Atoi(s) == 0
  {
  }

  /** A byte is written with one to three digits, of weights 100, 10 and 1. */
  lemma DecimalOfByte(b: Byte)
    ensures var s, n := Decimal(b as nat), b as nat;
            && |s| == (if n >= 100 then 3 else if n >= 10 then 2 else 1)
            && n == (if n >= 100 then 100 * DigitOf(s[0]) else 0)
                    + (if n >= 10 then 10 * DigitOf(s[|s| - 2]) else 0) + DigitOf(s[|s| - 1])
  {
    assert Decimal(b as nat / 10) == Decimal(b as nat / 10);
  }

  function Joined(p1: string, p2: string, p3: string, p4: string): string {
    p1 + ("." + (p2 + ("." + (p3 + ("." + p4)))))
  }

  function Dotted(ip: IpAddress): string {
    Joined(Decimal(ip.ipp1 as nat), Decimal(ip.ipp2 as nat), Decimal(ip.ipp3 as nat), Decimal(ip.ipp4 as nat))
  }

  lemma HeadAndTail(s: string, rest: string)
    requires '.' !in s
    ensures Head(s + ("." + rest)) == s && Tail(s + ("." + rest)) == rest
  {
    var all := s + ("." + rest);
    assert all[|s|] == '.';
    assert forall k :: 0 <= k < |s| ==> all[k] == s[k];
    assert Find(all, '.', 0) == |s|;
  }

  lemma IpOfJoined(p1: string, p2: string, p3: string, p4: string)
    requires '.' !in p1 && '.' !in p2 && '.' !in p3
    ensures IpOf(Joined(p1, p2, p3, p4)) ==
            IpAddress(LowByte(Atoi(p1)), LowByte(Atoi(p2)), LowByte(Atoi(p3)), LowByte(Atoi(p4)))
  {
    var u := p3 + ("." + p4);
    var t := p2 + ("." + u);
    HeadAndTail(p1, t);
    HeadAndTail(p2, u);
    HeadAndTail(p3, p4);
    CutThrice(Joined(p1, p2, p3, p4), t, u, p4);
  }

  /** With fewer than three dots the last part stands in for the missing ones. */
  lemma IpOfFewer(p1: string, p2: string, p3: string)
    requires '.' !in p1 && '.' !in p2 && '.' !in p3
    ensures var a, b, c := LowByte(Atoi(p1)), LowByte(Atoi(p2)), LowByte(Atoi(p3));
            && IpOf(p1) == IpAddress(a, a, a, a)
            && IpOf(p1 + ("." + p2)) == IpAddress(a, b, b, b)
            && IpOf(p1 + ("." + (p2 + ("." + p3)))) == IpAddress(a, b, c, c)
  {
    var u := p2 + ("." + p3);
    HeadAndTail(p1, p2);
    HeadAndTail(p1, u);
    HeadAndTail(p2, p3);
    NoDot(p1);
    NoDot(p2);
    NoDot(p3);
    CutThrice(p1, p1, p1, p1);
    CutThrice(p1 + ("." + p2), p2, p2, p2);
    CutThrice(p1 + ("." + u), u, p3, p3);
  }

  lemma NoDot(p: string)
    requires '.' !in p
    ensures Head(p) == p && Tail(p) == p
  {
  }

  /** A byte written out, which a dot ends and which reads back as the byte. */
  lemma ByteReadsBack(b: Byte)
    ensures '.' !in Decimal(b as nat) && LowByte(Atoi(Decimal(b as nat))) == b
  {
    AtoiOfDecimal(b as nat);
  }

  /** Parsing the dotted form of an address gives the address. */
  lemma ParseDotted(ip: IpAddress)
    ensures IpOf(Dotted(ip)) == ip
  {
    ByteReadsBack(ip.ipp1);
    ByteReadsBack(ip.ipp2);
    ByteReadsBack(ip.ipp3);
    ByteReadsBack(ip.ipp4);
    IpOfJoined(Decimal(ip.ipp1 as nat), Decimal(ip.ipp2 as nat), Decimal(ip.ipp3 as nat), Decimal(ip.ipp4 as nat));
  }

  /** Numbers of any size keep their low eight bits, negative ones too. */
  lemma IpOfNumbers(a: nat, b: nat, c: nat, d: nat)
    ensures IpOf(Joined(Decimal(a), Decimal(b), Decimal(c), Decimal(d))) ==
            IpAddress((a % 256) as Byte, (b % 256) as Byte, (c % 256) as Byte, (d % 256) as Byte)
  {
    AtoiOfDecimal(a);
    AtoiOfDecimal(b);
    AtoiOfDecimal(c);
    AtoiOfDecimal(d);
    IpOfJoined(Decimal(a), Decimal(b), Decimal(c), Decimal(d));
  }

  lemma NegativeByte(n: nat)
    ensures (0 - n) % 256 == (256 - n % 256) % 256
  {
  }

  lemma LowByteOfNegative(n: nat)
    ensures LowByte(Atoi("-" + Decimal(n))) as int == (256 - n % 256) % 256
  {
    AtoiOfSigned("", n, "");
    assert "" + ("-" + (Decimal(n) + "")) == "-" + Decimal(n);
    NegativeByte(n);
  }

  // ---------------------------------------------------------------- packing

  /** Bitwise or. */
  function Or(x: nat, y: nat): nat
    decreases x + y
  {
    if x == 0 && y == 0 then 0
    else 2 * Or(x / 2, y / 2) + if x % 2 == 1 || y % 2 == 1 then 1 else 0
  }

  function Pow2(k: nat): (p: nat)
    ensures p > 0
  {
    if k == 0 then 1 else 2 * Pow2(k - 1)
  }

  lemma {:induction false} OrNothing(x: nat)
    ensures Or(x, 0) == x
  {
    if x > 0 {
      OrNothing(x / 2);
    }
  }

  /** Or adds where the bits do not meet. */
  lemma {:induction false} OrAdds(x: nat, y: nat, k: nat)
    requires y < Pow2(k)
    ensures Or(x * Pow2(k), y) == x * Pow2(k) + y
  {
    if k == 0 {
      OrNothing(x);
    } else {
      var p := Pow2(k - 1);
      assert x * Pow2(k) == 2 * (x * p);
      OrAdds(x, y / 2, k - 1);
    }
  }

  /** The address as one word, before it is put in network order. */
  function Pack(ip: IpAddress): nat {
    Or(Or(Or(ip.ipp1 as nat * 0x100_0000, ip.ipp2 as nat * 0x1_0000), ip.ipp3 as nat * 0x100), ip.ipp4 as nat)
  }

  lemma PackIsNumber(ip: IpAddress)
    ensures Pack(ip) == ((ip.ipp1 as nat * 256 + ip.ipp2 as nat) * 256 + ip.ipp3 as nat) * 256 + ip.ipp4 as nat
  {
    var a, b, c, d := ip.ipp1 as nat, ip.ipp2 as nat, ip.ipp3 as nat, ip.ipp4 as nat;
    assert Pow2(8) == 0x100 by { assert Pow2(4) == 16; }
    assert Pow2(16) == 0x1_0000 by { assert Pow2(12) == 0x1000; }
    assert Pow2(24) == 0x100_0000 by { assert Pow2(20) == 0x10_0000; }
    OrAdds(a, b * 0x1_0000, 24);
    OrAdds(a * 256 + b, c * 0x100, 16);
    OrAdds((a * 256 + b) * 256 + c, d, 8);
  }

  /** The word fits 32 bits and no two addresses share one. */
  lemma PackInjective(a: IpAddress, b: IpAddress)
    ensures Pack(a) < 0x1_0000_0000
    ensures Pack(a) == Pack(b) <==> a == b
  {
    PackIsNumber(a);
    PackIsNumber(b);
    if Pack(a) == Pack(b) {
      var p, q := a.ipp1 as nat * 256 + a.ipp2 as nat, b.ipp1 as nat * 256 + b.ipp2 as nat;
      LastDigit(p * 256 + a.ipp3 as nat, a.ipp4, q * 256 + b.ipp3 as nat, b.ipp4);
      LastDigit(p, a.ipp3, q, b.ipp3);
      LastDigit(a.ipp1 as nat, a.ipp2, b.ipp1 as nat, b.ipp2);
    }
  }

  lemma LastDigit(p: nat, c: Byte, q: nat, d: Byte)
    requires p * 256 + c as nat == q * 256 + d as nat
    ensures p == q && c == d
  {
  }
}
