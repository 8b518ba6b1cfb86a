/** Percent-decoding as decodeURIComponent does it: an escape is one UTF-8
    encoded scalar value (section 2.1 of RFC 3986, section 3 of RFC 3629), and
    one malformed escape makes the whole string undecodable. */
module PercentDecoding {
  import opened Wrappers
  import opened Text

  predicate IsHex(c: char) {
    '0' <= c <= '9' || 'A' <= c <= 'F' || 'a' <= c <= 'f'
  }

  function HexValue(c: char): (v: nat)
    requires IsHex(c)
    ensures v < 16
  {
    if c <= '9' then (c - '0') as int
    else if c <= 'F' then (c - 'A') as int + 10
    else (c - 'a') as int + 10
  }

  /** s starts with n triplets "%XX". */
  predicate Triplets(s: string, n: nat) {
    3 * n <= |s| && forall k | 0 <= k < n :: s[3 * k] == '%' && IsHex(s[3 * k + 1]) && IsHex(s[3 * k + 2])
  }

  function Octet(s: string, k: nat): (b: nat)
    requires Triplets(s, k + 1)
    ensures b < 256
  {
    16 * HexValue(s[3 * k + 1]) + HexValue(s[3 * k + 2])
  }

  /** The six payload bits of a continuation octet. */
  function Payload(s: string, k: nat): (b: Option<nat>)
    requires Triplets(s, k + 1)
  {
    var o := Octet(s, k);
    if 0x80 <= o < 0xC0 then Some(o - 0x80) else None
  }

  predicate IsScalar(v: int) {
    0 <= v < 0xD800 || 0xE000 <= v < 0x11_0000
  }

  /** A decoded character and the number of input characters it took. */
  datatype Group = Group(ch: char, width: nat)

  function MakeGroup(v: int, least: int, width: nat): Option<Group> {
    if least <= v && IsScalar(v) then Some(Group(v as char, width)) else None
  }

  function Escape(s: string): (g: Option<Group>)
    ensures g.Some? ==> 3 <= g.value.width <= |s|
  {
    if !Triplets(s, 1) then None
    else
      var b := Octet(s, 0);
      if b < 0x80 then Some(Group(b as char, 3))
      else if 0xC0 <= b < 0xE0 && Triplets(s, 2) && Payload(s, 1).Some? then
        MakeGroup((b - 0xC0) * 64 + Payload(s, 1).value, 0x80, 6)
      else if 0xE0 <= b < 0xF0 && Triplets(s, 3) && Payload(s, 1).Some? && Payload(s, 2).Some? then
        MakeGroup((b - 0xE0) * 4096 + Payload(s, 1).value * 64 + Payload(s, 2).value, 0x800, 9)
      else if 0xF0 <= b < 0xF8 && Triplets(s, 4)
              && Payload(s, 1).Some? && Payload(s, 2).Some? && Payload(s, 3).Some? then
        MakeGroup((b - 0xF0) * 262144 + Payload(s, 1).value * 4096
                  + Payload(s, 2).value * 64 + Payload(s, 3).value, 0x1_0000, 12)
      else None
  }

  function Decode(s: string): Option<string>
    decreases |s|
  {
    if s == "" then Some("")
    else if s[0] != '%' then
      match Decode(s[1..])
      case None => None
      case Some(d) => Some([s[0]] + d)
    else
      match Escape(s)
      case None => None
      case Some(g) =>
        match Decode(s[g.width..])
        case None => None
        case Some(d) => Some([g.ch] + d)
  }

  /** The UTF-8 octets of a character. */
  function Utf8(c: char): (octets: seq<nat>)
    ensures 1 <= |octets| <= 4
    ensures forall k | 0 <= k < |octets| :: octets[k] < 256
  {
    var v := c as int;
    if v < 0x80 then [v]
    else if v < 0x800 then [0xC0 + v / 64, 0x80 + v % 64]
    else if v < 0x1_0000 then [0xE0 + v / 4096, 0x80 + v / 64 % 64, 0x80 + v % 64]
    else [0xF0 + v / 262144, 0x80 + v / 4096 % 64, 0x80 + v / 64 % 64, 0x80 + v % 64]
  }

  /** The octets carry the character's number in their low bits, most significant
      first, as the table in section 3 of RFC 3629 lays them out. */
  lemma Utf8Exactly(c: char)
    ensures var v, o := c as int, Utf8(c);
            if v < 0x80 then o == [v]
            else if v < 0x800 then
              |o| == 2 && 0xC0 <= o[0] < 0xE0 && 0x80 <= o[1] < 0xC0 && v == (o[0] - 0xC0) * 64 + (o[1] - 0x80)
            else if v < 0x1_0000 then
              && |o| == 3 && 0xE0 <= o[0] < 0xF0 && 0x80 <= o[1] < 0xC0 && 0x80 <= o[2] < 0xC0
              && v == (o[0] - 0xE0) * 4096 + (o[1] - 0x80) * 64 + (o[2] - 0x80)
            else
              && |o| == 4 && 0xF0 <= o[0] < 0xF8 && 0x80 <= o[1] < 0xC0 && 0x80 <= o[2] < 0xC0 && 0x80 <= o[3] < 0xC0
              && v == (o[0] - 0xF0) * 262144 + (o[1] - 0x80) * 4096 + (o[2] - 0x80) * 64 + (o[3] - 0x80)
  {
    var v := c as int;
    assert v / 64 / 64 == v / 4096 && v / 4096 / 64 == v / 262144;
  }

  /** c is the hexadecimal digit of value v, in either case. */
  predicate IsDigit(c: char, v: nat)
    requires v < 16
  {
    c == "0123456789ABCDEF"[v] || c == "0123456789abcdef"[v]
  }

  /** "%XX" at position k spells an octet. */
  predicate SpellsOctet(e: string, k: nat, octet: nat)
    requires octet < 256 && 3 * k + 3 <= |e|
  {
    e[3 * k] == '%' && IsDigit(e[3 * k + 1], octet / 16) && IsDigit(e[3 * k + 2], octet % 16)
  }

  /** e is the percent-encoding of c, each hex digit in either case. */
  predicate Spells(e: string, c: char) {
    var octets := Utf8(c);
    |e| == 3 * |octets| && forall k | 0 <= k < |octets| :: SpellsOctet(e, k, octets[k])
  }

  /** The digits are read for what they are. */
  lemma DigitExactly(c: char, v: nat)
    requires v < 16
    ensures IsDigit(c, v) <==> IsHex(c) && HexValue(c) == v
  {
    DigitTable(v);
    if IsHex(c) { DigitOfValue(c); }
  }

  lemma DigitTable(v: nat)
    requires v < 16
    ensures "0123456789ABCDEF"[v] as int == if v < 10 then '0' as int + v else 'A' as int + (v - 10)
    ensures "0123456789abcdef"[v] as int == if v < 10 then '0' as int + v else 'a' as int + (v - 10)
  {
  }

  lemma DigitOfValue(c: char)
    requires IsHex(c)
    ensures IsDigit(c, HexValue(c))
  {
    DigitTable(HexValue(c));
  }

  lemma SpellsOctetExactly(e: string, k: nat, octet: nat)
    requires octet < 256 && 3 * k + 3 <= |e|
    ensures SpellsOctet(e, k, octet) <==>
            && e[3 * k] == '%' && IsHex(e[3 * k + 1]) && IsHex(e[3 * k + 2])
            && 16 * HexValue(e[3 * k + 1]) + HexValue(e[3 * k + 2]) == octet
  {
    DigitExactly(e[3 * k + 1], octet / 16);
    DigitExactly(e[3 * k + 2], octet % 16);
  }

  /** So an encoding spells the octets that are read from it. */
  lemma SpellsExactly(e: string, c: char)
    requires |e| == 3 * |Utf8(c)|
    ensures Spells(e, c) <==>
            Triplets(e, |Utf8(c)|) && forall k | 0 <= k < |Utf8(c)| :: Octet(e, k) == Utf8(c)[k]
  {
    var octets := Utf8(c);
    forall k | 0 <= k < |octets| ensures SpellsOctet(e, k, octets[k]) <==>
        && e[3 * k] == '%' && IsHex(e[3 * k + 1]) && IsHex(e[3 * k + 2])
        && 16 * HexValue(e[3 * k + 1]) + HexValue(e[3 * k + 2]) == octets[k]
    {
      SpellsOctetExactly(e, k, octets[k]);
    }
  }

  /** q is p with any characters other than '/', '?' and '#' percent-encoded. */
  ghost predicate Reencodes(p: string, q: string) {
    if p == "" then q == ""
    else
      || (q != "" && q[0] == p[0] && Reencodes(p[1..], q[1..]))
      || (var w := 3 * |Utf8(p[0])|;
          p[0] !in "/?#" && w <= |q| && Spells(q[..w], p[0]) && Reencodes(p[1..], q[w..]))
  }

  lemma OctetPrefix(e: string, rest: string, k: nat)
    requires Triplets(e, k + 1)
    ensures Triplets(e + rest, k + 1) && Octet(e + rest, k) == Octet(e, k)
  {
    assert forall i | 0 <= i < |e| :: (e + rest)[i] == e[i];
  }

  /** The octets of s are those of a character of two octets. */
  lemma EscapeReadsTwo(s: string, v: nat)
    requires 0x80 <= v < 0x800 && Triplets(s, 2)
    requires Octet(s, 0) == 0xC0 + v / 64 && Octet(s, 1) == 0x80 + v % 64
    ensures Escape(s) == Some(Group(v as char, 6))
  {
    assert Payload(s, 1) == Some(v % 64);
  }

  lemma EscapeReadsThree(s: string, v: nat)
    requires 0x800 <= v < 0x1_0000 && IsScalar(v) && Triplets(s, 3)
    requires Octet(s, 0) == 0xE0 + v / 4096 && Octet(s, 1) == 0x80 + v / 64 % 64 && Octet(s, 2) == 0x80 + v % 64
    ensures Escape(s) == Some(Group(v as char, 9))
  {
    assert Payload(s, 1) == Some(v / 64 % 64) && Payload(s, 2) == Some(v % 64);
    assert v / 64 / 64 == v / 4096;
  }

  lemma EscapeReadsFour(s: string, v: nat)
    requires 0x1_0000 <= v < 0x11_0000 && Triplets(s, 4)
    requires Octet(s, 0) == 0xF0 + v / 262144 && Octet(s, 1) == 0x80 + v / 4096 % 64
    requires Octet(s, 2) == 0x80 + v / 64 % 64 && Octet(s, 3) == 0x80 + v % 64
    ensures Escape(s) == Some(Group(v as char, 12))
  {
    assert Payload(s, 1) == Some(v / 4096 % 64) && Payload(s, 2) == Some(v / 64 % 64) && Payload(s, 3) == Some(v % 64);
    assert v / 64 / 64 == v / 4096 && v / 4096 / 64 == v / 262144;
  }

  /** The octets of s are those of c, so the group read from s is c. */
  lemma EscapeReadsOctets(s: string, c: char)
    requires Triplets(s, |Utf8(c)|)
    requires forall k | 0 <= k < |Utf8(c)| :: Octet(s, k) == Utf8(c)[k]
    ensures Escape(s) == Some(Group(c, 3 * |Utf8(c)|))
  {
    var v := c as int;
    assert Octet(s, 0) == Utf8(c)[0];
    if 0x80 <= v {
      assert Octet(s, 1) == Utf8(c)[1];
      if v < 0x800 {
        EscapeReadsTwo(s, v);
      } else {
        assert Octet(s, 2) == Utf8(c)[2];
        if v < 0x1_0000 {
          EscapeReadsThree(s, v);
        } else {
          assert Octet(s, 3) == Utf8(c)[3];
          EscapeReadsFour(s, v);
        }
      }
    }
  }

  /** Escape reads back exactly the character an encoding spells. */
  lemma EscapeReadsSpelling(e: string, c: char, rest: string)
    requires Spells(e, c)
    ensures Escape(e + rest) == Some(Group(c, |e|))
  {
    var n := |Utf8(c)|;
    SpellsExactly(e, c);
    forall k | 0 <= k < n
      ensures Triplets(e + rest, k + 1) && Octet(e + rest, k) == Utf8(c)[k]
    {
      OctetPrefix(e, rest, k);
    }
    assert Triplets(e + rest, n - 1 + 1);
    EscapeReadsOctets(e + rest, c);
  }

  lemma TripletCharacter(e: string, n: nat, i: nat)
    requires |e| == 3 * n && Triplets(e, n) && i < |e|
    ensures e[i] == '%' || IsHex(e[i])
  {
    var k := i / 3;
    assert 0 <= k < n && i in {3 * k, 3 * k + 1, 3 * k + 2};
    assert e[3 * k] == '%' && IsHex(e[3 * k + 1]) && IsHex(e[3 * k + 2]);
  }

  /** An encoding consists of '%' and hex digits only. */
  lemma SpellingCharacters(e: string, c: char, mark: char)
    requires Spells(e, c) && mark in "/?#"
    ensures mark !in e
  {
    SpellsExactly(e, c);
    if mark in e {
      var i :| 0 <= i < |e| && e[i] == mark;
      TripletCharacter(e, |Utf8(c)|, i);
    }
  }

  // ---- Decoding is exactly the inverse of encoding ----

  /** q is p with any characters percent-encoded, '%' always. */
  ghost predicate Encodes(p: string, q: string) {
    if p == "" then q == ""
    else
      || (q != "" && q[0] == p[0] != '%' && Encodes(p[1..], q[1..]))
      || (var w := 3 * |Utf8(p[0])|; w <= |q| && Spells(q[..w], p[0]) && Encodes(p[1..], q[w..]))
  }

  lemma OctetOfPrefix(s: string, n: nat, k: nat)
    requires k < n && Triplets(s, n)
    ensures Triplets(s[..3 * n], k + 1) && Octet(s[..3 * n], k) == Octet(s, k)
  {
    assert s[..3 * n] + s[3 * n..] == s;
    assert Triplets(s[..3 * n], k + 1);
    OctetPrefix(s[..3 * n], s[3 * n..], k);
  }

  lemma DivMod(x: nat, y: nat)
    requires y < 64
    ensures (x * 64 + y) / 64 == x && (x * 64 + y) % 64 == y
  {
  }

  lemma TwoOctets(s: string)
    requires Escape(s).Some? && 0xC0 <= Octet(s, 0) < 0xE0
    ensures Escape(s).value.width == 6 && Triplets(s, 2)
    ensures Utf8(Escape(s).value.ch) == [Octet(s, 0), Octet(s, 1)]
  {
    DivMod(Octet(s, 0) - 0xC0, Payload(s, 1).value);
  }

  lemma ThreeOctets(s: string)
    requires Escape(s).Some? && 0xE0 <= Octet(s, 0) < 0xF0
    ensures Escape(s).value.width == 9 && Triplets(s, 3)
    ensures Utf8(Escape(s).value.ch) == [Octet(s, 0), Octet(s, 1), Octet(s, 2)]
  {
    ThreeDigits(Octet(s, 0) - 0xE0, Payload(s, 1).value, Payload(s, 2).value);
  }

  lemma FourOctets(s: string)
    requires Escape(s).Some? && 0xF0 <= Octet(s, 0)
    ensures Escape(s).value.width == 12 && Triplets(s, 4)
    ensures Utf8(Escape(s).value.ch) == [Octet(s, 0), Octet(s, 1), Octet(s, 2), Octet(s, 3)]
  {
    FourDigits(Octet(s, 0) - 0xF0, Payload(s, 1).value, Payload(s, 2).value, Payload(s, 3).value);
  }

  /** The octets of an accepted escape are the UTF-8 octets of its character, so
      overlong forms, surrogates and values beyond Unicode are all refused. */
  lemma EscapeOctets(s: string)
    requires Escape(s).Some?
    ensures var g := Escape(s).value;
            && g.width == 3 * |Utf8(g.ch)| && Triplets(s, |Utf8(g.ch)|)
            && forall k | 0 <= k < |Utf8(g.ch)| :: Octet(s, k) == Utf8(g.ch)[k]
  {
    var b := Octet(s, 0);
    if 0xF0 <= b { FourOctets(s); }
    else if 0xE0 <= b { ThreeOctets(s); }
    else if 0x80 <= b { TwoOctets(s); }
  }

  lemma ThreeDigits(a: nat, x: nat, y: nat)
    requires x < 64 && y < 64
    ensures var v := a * 4096 + x * 64 + y; v / 4096 == a && v / 64 % 64 == x && v % 64 == y
  {
    var v := a * 4096 + x * 64 + y;
    DivMod(a * 64 + x, y);
    DivMod(a, x);
    assert v == (a * 64 + x) * 64 + y && v / 64 / 64 == v / 4096;
  }

  lemma FourDigits(a: nat, x: nat, y: nat, z: nat)
    requires x < 64 && y < 64 && z < 64
    ensures var v := a * 262144 + x * 4096 + y * 64 + z;
            v / 262144 == a && v / 4096 % 64 == x && v / 64 % 64 == y && v % 64 == z
  {
    var v := a * 262144 + x * 4096 + y * 64 + z;
    ThreeDigits(a * 64 + x, y, z);
    DivMod(a, x);
    assert v == (a * 64 + x) * 4096 + y * 64 + z && v / 4096 / 64 == v / 262144;
  }

  lemma EscapeSpells(s: string)
    requires Escape(s).Some?
    ensures Spells(s[..Escape(s).value.width], Escape(s).value.ch)
    ensures Escape(s).value.width == 3 * |Utf8(Escape(s).value.ch)|
  {
    var c := Escape(s).value.ch;
    var n := |Utf8(c)|;
    EscapeOctets(s);
    forall k | 0 <= k < n ensures Triplets(s[..3 * n], k + 1) && Octet(s[..3 * n], k) == Utf8(c)[k] {
      OctetOfPrefix(s, n, k);
    }
    assert Triplets(s[..3 * n], n - 1 + 1);
    SpellsExactly(s[..3 * n], c);
  }

  lemma {:induction false} DecodeEncoded(p: string, q: string)
    requires Encodes(p, q)
    ensures Decode(q) == Some(p)
    decreases |p|
  {
    if p != "" {
      assert p == [p[0]] + p[1..];
      if q != "" && q[0] == p[0] != '%' && Encodes(p[1..], q[1..]) {
        DecodeEncoded(p[1..], q[1..]);
      } else {
        var w := 3 * |Utf8(p[0])|;
        EscapeReadsSpelling(q[..w], p[0], q[w..]);
        assert q[..w] + q[w..] == q;
        DecodeEncoded(p[1..], q[w..]);
      }
    }
  }

  lemma {:induction false} DecodedEncodes(p: string, q: string)
    requires Decode(q) == Some(p)
    ensures Encodes(p, q)
    decreases |q|
  {
    if q != "" {
      assert p != "";
      if q[0] != '%' {
        assert p[1..] == Decode(q[1..]).value;
        DecodedEncodes(p[1..], q[1..]);
      } else {
        EscapeSpells(q);
        var w := Escape(q).value.width;
        assert p[1..] == Decode(q[w..]).value;
        DecodedEncodes(p[1..], q[w..]);
      }
    }
  }

  /** A string decodes to p exactly when it is a percent-encoding of p; so it
      is malformed exactly when it encodes nothing. */
  lemma DecodeExactly(q: string, p: string)
    ensures Decode(q) == Some(p) <==> Encodes(p, q)
  {
    if Encodes(p, q) { DecodeEncoded(p, q); }
    if Decode(q) == Some(p) { DecodedEncodes(p, q); }
  }

  lemma {:induction false} ReencodesEncodes(p: string, q: string)
    requires Reencodes(p, q) && '%' !in p
    ensures Encodes(p, q)
    decreases |p|
  {
    if p != "" {
      assert p[0] in p && '%' !in p[1..];
      if q != "" && q[0] == p[0] && Reencodes(p[1..], q[1..]) {
        ReencodesEncodes(p[1..], q[1..]);
      } else {
        ReencodesEncodes(p[1..], q[3 * |Utf8(p[0])|..]);
      }
    }
  }

  /** Percent-decoding undoes any percent-encoding of a '%'-free string. */
  lemma DecodeUndoesReencoding(p: string, q: string)
    requires Reencodes(p, q) && '%' !in p
    ensures Decode(q) == Some(p)
  {
    ReencodesEncodes(p, q);
    DecodeEncoded(p, q);
  }

  lemma {:induction false} ReencodesItself(p: string)
    ensures Reencodes(p, p)
  {
    if p != "" { ReencodesItself(p[1..]); }
  }

  /** A string with no '%' decodes to itself. */
  lemma DecodeVerbatim(p: string)
    requires '%' !in p
    ensures Decode(p) == Some(p)
  {
    ReencodesItself(p);
    DecodeUndoesReencoding(p, p);
  }

  /** e stands for the character c in a re-encoded string. */
  predicate StandsFor(e: string, c: char) {
    e == [c] || (c !in "/?#" && Spells(e, c))
  }

  lemma ReencodesCons(c: char, e: string, p: string, q: string)
    requires StandsFor(e, c) && Reencodes(p, q)
    ensures Reencodes([c] + p, e + q)
  {
    assert (e + q)[..|e|] == e && (e + q)[|e|..] == q;
    assert ([c] + p)[1..] == p;
  }

  /** The first step of a re-encoding: what stands for p[0], and the rest. */
  lemma ReencodesUncons(p: string, q: string) returns (e: string, rest: string)
    requires p != "" && Reencodes(p, q)
    ensures q == e + rest && StandsFor(e, p[0]) && Reencodes(p[1..], rest)
    ensures e == [p[0]] || Spells(e, p[0])
  {
    if q != "" && q[0] == p[0] && Reencodes(p[1..], q[1..]) {
      e, rest := [p[0]], q[1..];
    } else {
      var w := 3 * |Utf8(p[0])|;
      e, rest := q[..w], q[w..];
    }
  }

  ghost predicate PartsReencoded(ps: seq<string>, qs: seq<string>) {
    |ps| == |qs| && forall i | 0 <= i < |ps| :: Reencodes(ps[i], qs[i])
  }

  lemma PartsCons(c: char, e: string, ps: seq<string>, qs: seq<string>)
    requires ps != [] && PartsReencoded(ps, qs) && StandsFor(e, c)
    ensures PartsReencoded([[c] + ps[0]] + ps[1..], [e + qs[0]] + qs[1..])
  {
    ReencodesCons(c, e, ps[0], qs[0]);
  }

  lemma NoMarkInside(e: string, c: char, mark: char)
    requires StandsFor(e, c) && c != mark && mark in "/?#"
    ensures mark !in e
  {
    if e != [c] { SpellingCharacters(e, c, mark); }
  }

  lemma SplitCons(c: char, e: string, rest: string)
    requires StandsFor(e, c)
    ensures Split(e + rest, '/') ==
            if c == '/' then [""] + Split(rest, '/')
            else [e + Split(rest, '/')[0]] + Split(rest, '/')[1..]
  {
    if c == '/' {
      assert e == "/";
      assert (e + rest)[1..] == rest;
    } else {
      NoMarkInside(e, c, '/');
      SplitPrefix(e, rest, '/');
    }
  }

  /** Encoding neither adds nor removes a path separator, and acts part by part. */
  lemma {:induction false} SplitReencoded(p: string, q: string)
    requires Reencodes(p, q)
    ensures PartsReencoded(Split(p, '/'), Split(q, '/'))
    decreases |p|
  {
    if p == "" {
      assert Split(p, '/') == Split(q, '/') == [""];
    } else {
      var c := p[0];
      var e, rest := ReencodesUncons(p, q);
      var ps, qs := Split(p[1..], '/'), Split(rest, '/');
      assert PartsReencoded(ps, qs) by { SplitReencoded(p[1..], rest); }
      SplitCons(c, e, rest);
      SplitCons(c, [c], p[1..]);
      assert p == [c] + p[1..];
      if c != '/' {
        PartsCons(c, e, ps, qs);
      }
    }
  }
}
