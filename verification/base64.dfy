/** The raw standard base64 of Go's encoding/base64 (section 4 of RFC 4648, without
    padding). The decoder skips carriage returns and line feeds, and does not look at the
    unused bits of an incomplete last group. */
module Base64 {
  import opened Outcomes

  type Byte = x: int | 0 <= x < 256

  type Sextet = x: int | 0 <= x < 64

  // ---- Bytes and six-bit values ----

  /** The six-bit values of a group of three bytes x, y, z. */
  function S0(x: Byte): Sextet { x / 4 }

  function S1(x: Byte, y: Byte): Sextet { x % 4 * 16 + y / 16 }

  function S2(y: Byte, z: Byte): Sextet { y % 16 * 4 + z / 64 }

  function S3(z: Byte): Sextet { z % 64 }

  /** The bytes of a group of four six-bit values p, q, r, s. */
  function B0(p: Sextet, q: Sextet): Byte {
    var n: int := p;
    n * 4 + q / 16
  }

  function B1(q: Sextet, r: Sextet): Byte {
    var n: int := q % 16;
    n * 16 + r / 4
  }

  function B2(r: Sextet, s: Sextet): Byte {
    var n: int := r % 4;
    n * 64 + s
  }

  lemma BytesBack(x: Byte, y: Byte, z: Byte)
    ensures B0(S0(x), S1(x, y)) == x && B1(S1(x, y), S2(y, z)) == y && B2(S2(y, z), S3(z)) == z
    ensures S1(x, 0) % 16 == 0 && S2(y, 0) % 4 == 0
  {
  }

  lemma SextetsBack(p: Sextet, q: Sextet, r: Sextet, s: Sextet)
    ensures S0(B0(p, q)) == p && S3(B2(r, s)) == s
    ensures S1(B0(p, q), B1(q, r)) == q && S2(B1(q, r), B2(r, s)) == r
    ensures q % 16 == 0 ==> S1(B0(p, q), 0) == q
    ensures r % 4 == 0 ==> S2(B1(q, r), 0) == r
  {
  }

  /** A group of bytes and its group of six-bit values are one 24-bit number. */
  lemma GroupNumber(x: Byte, y: Byte, z: Byte)
    ensures S0(x) * 0x4_0000 + S1(x, y) * 0x1000 + S2(y, z) * 0x40 + S3(z) == x * 0x1_0000 + y * 0x100 + z
  {
  }

  /** Three bytes become four six-bit values; one or two left over become two or three. */
  function Split(b: seq<Byte>): seq<Sextet> {
    if b == [] then []
    else if |b| == 1 then [S0(b[0]), S1(b[0], 0)]
    else if |b| == 2 then [S0(b[0]), S1(b[0], b[1]), S2(b[1], 0)]
    else [S0(b[0]), S1(b[0], b[1]), S2(b[1], b[2]), S3(b[2])] + Split(b[3..])
  }

  function Join(v: seq<Sextet>): Option<seq<Byte>> {
    if v == [] then Some([])
    else if |v| == 1 then None
    else if |v| == 2 then Some([B0(v[0], v[1])])
    else if |v| == 3 then Some([B0(v[0], v[1]), B1(v[1], v[2])])
    else
      match Join(v[4..])
      case None => None
      case Some(rest) => Some([B0(v[0], v[1]), B1(v[1], v[2]), B2(v[2], v[3])] + rest)
  }

  /** No lone value at the end, and the unused bits of a last group are zero. */
  predicate Tight(v: seq<Sextet>) {
    && |v| % 4 != 1
    && (|v| % 4 == 2 ==> v[|v| - 1] % 16 == 0)
    && (|v| % 4 == 3 ==> v[|v| - 1] % 4 == 0)
  }

  lemma JoinCons(p: Sextet, q: Sextet, r: Sextet, s: Sextet, rest: seq<Sextet>)
    ensures Join([p, q, r, s] + rest) ==
      match Join(rest)
      case None => None
      case Some(more) => Some([B0(p, q), B1(q, r), B2(r, s)] + more)
  {
    assert ([p, q, r, s] + rest)[4..] == rest;
  }

  lemma SplitCons(x: Byte, y: Byte, z: Byte, rest: seq<Byte>)
    ensures Split([x, y, z] + rest) == [S0(x), S1(x, y), S2(y, z), S3(z)] + Split(rest)
  {
    assert ([x, y, z] + rest)[3..] == rest;
  }

  lemma TightCons(p: Sextet, q: Sextet, r: Sextet, s: Sextet, rest: seq<Sextet>)
    ensures Tight([p, q, r, s] + rest) <==> Tight(rest)
  {
    assert |[p, q, r, s] + rest| % 4 == |rest| % 4;
  }

  lemma JoinTwo(p: Sextet, q: Sextet)
    requires q % 16 == 0
    ensures Tight([p, q]) && Join([p, q]) == Some([B0(p, q)])
  {
  }

  lemma JoinThree(p: Sextet, q: Sextet, r: Sextet)
    requires r % 4 == 0
    ensures Tight([p, q, r]) && Join([p, q, r]) == Some([B0(p, q), B1(q, r)])
  {
  }

  lemma JoinOfSplitOne(x: Byte)
    ensures Tight(Split([x])) && Join(Split([x])) == Some([x])
  {
    BytesBack(x, 0, 0);
    JoinTwo(S0(x), S1(x, 0));
  }

  lemma JoinOfSplitTwo(x: Byte, y: Byte)
    ensures Tight(Split([x, y])) && Join(Split([x, y])) == Some([x, y])
  {
    BytesBack(x, y, 0);
    JoinThree(S0(x), S1(x, y), S2(y, 0));
  }

  lemma JoinOfSplitMore(x: Byte, y: Byte, z: Byte, rest: seq<Byte>)
    requires Tight(Split(rest)) && Join(Split(rest)) == Some(rest)
    ensures Tight(Split([x, y, z] + rest)) && Join(Split([x, y, z] + rest)) == Some([x, y, z] + rest)
  {
    SplitCons(x, y, z, rest);
    BytesBack(x, y, z);
    JoinCons(S0(x), S1(x, y), S2(y, z), S3(z), Split(rest));
    TightCons(S0(x), S1(x, y), S2(y, z), S3(z), Split(rest));
  }

  lemma {:induction false} JoinOfSplit(b: seq<Byte>)
    ensures Tight(Split(b)) && Join(Split(b)) == Some(b)
  {
    if b == [] {
    } else if |b| == 1 {
      JoinOfSplitOne(b[0]);
      assert b == [b[0]];
    } else if |b| == 2 {
      JoinOfSplitTwo(b[0], b[1]);
      assert b == [b[0], b[1]];
    } else {
      JoinOfSplit(b[3..]);
      JoinOfSplitMore(b[0], b[1], b[2], b[3..]);
      assert b == [b[0], b[1], b[2]] + b[3..];
    }
  }

  lemma SplitOne(x: Byte)
    ensures Split([x]) == [S0(x), S1(x, 0)]
  {
  }

  lemma SplitTwo(x: Byte, y: Byte)
    ensures Split([x, y]) == [S0(x), S1(x, y), S2(y, 0)]
  {
  }

  lemma SplitOfJoinTwo(p: Sextet, q: Sextet)
    requires q % 16 == 0
    ensures Join([p, q]) == Some([B0(p, q)]) && Split([B0(p, q)]) == [p, q]
  {
    JoinTwo(p, q);
    SplitOne(B0(p, q));
    SextetsBack(p, q, 0, 0);
  }

  lemma SplitOfJoinThree(p: Sextet, q: Sextet, r: Sextet)
    requires r % 4 == 0
    ensures Join([p, q, r]) == Some([B0(p, q), B1(q, r)]) && Split([B0(p, q), B1(q, r)]) == [p, q, r]
  {
    JoinThree(p, q, r);
    SplitTwo(B0(p, q), B1(q, r));
    SextetsBack(p, q, r, 0);
  }

  lemma SplitOfJoinMore(p: Sextet, q: Sextet, r: Sextet, s: Sextet, rest: seq<Sextet>)
    requires Join(rest).Some? && Split(Join(rest).value) == rest
    ensures var v := [p, q, r, s] + rest; Join(v).Some? && Split(Join(v).value) == v
  {
    JoinCons(p, q, r, s, rest);
    SplitCons(B0(p, q), B1(q, r), B2(r, s), Join(rest).value);
    SextetsBack(p, q, r, s);
  }

  lemma {:induction false} SplitOfJoin(v: seq<Sextet>)
    requires Tight(v)
    ensures Join(v).Some? && Split(Join(v).value) == v
  {
    if |v| == 0 {
    } else if |v| == 2 {
      SplitOfJoinTwo(v[0], v[1]);
      assert v == [v[0], v[1]];
    } else if |v| == 3 {
      SplitOfJoinThree(v[0], v[1], v[2]);
      assert v == [v[0], v[1], v[2]];
    } else {
      assert v == [v[0], v[1], v[2], v[3]] + v[4..];
      TightCons(v[0], v[1], v[2], v[3], v[4..]);
      SplitOfJoin(v[4..]);
      SplitOfJoinMore(v[0], v[1], v[2], v[3], v[4..]);
    }
  }

  // ---- Symbols ----

  function Symbol(v: Sextet): char {
    if v < 26 then (v + 'A' as int) as char
    else if v < 52 then (v - 26 + 'a' as int) as char
    else if v < 62 then (v - 52 + '0' as int) as char
    else if v == 62 then '+'
    else '/'
  }

  predicate IsSymbol(c: char) {
    'A' <= c <= 'Z' || 'a' <= c <= 'z' || '0' <= c <= '9' || c == '+' || c == '/'
  }

  function SymbolValue(c: char): Sextet
    requires IsSymbol(c)
  {
    if 'A' <= c <= 'Z' then c as int - 'A' as int
    else if 'a' <= c <= 'z' then c as int - 'a' as int + 26
    else if '0' <= c <= '9' then c as int - '0' as int + 52
    else if c == '+' then 62
    else 63
  }

  lemma SymbolRoundTrip(v: Sextet)
    ensures IsSymbol(Symbol(v)) && SymbolValue(Symbol(v)) == v
  {
  }

  /** The alphabet in its order: capitals, small letters, digits, plus and slash. */
  lemma SymbolOrder(v: Sextet)
    ensures Symbol(0) == 'A' && Symbol(25) == 'Z' && Symbol(26) == 'a' && Symbol(51) == 'z'
    ensures Symbol(52) == '0' && Symbol(61) == '9' && Symbol(62) == '+' && Symbol(63) == '/'
    ensures v < 61 && v != 25 && v != 51 ==> Symbol(v + 1) as int == Symbol(v) as int + 1
  {
  }

  lemma ValueRoundTrip(c: char)
    requires IsSymbol(c)
    ensures Symbol(SymbolValue(c)) == c
  {
  }

  predicate AllSymbols(s: string) { forall i :: 0 <= i < |s| ==> IsSymbol(s[i]) }

  function Symbols(v: seq<Sextet>): string {
    seq(|v|, i requires 0 <= i < |v| => Symbol(v[i]))
  }

  function Values(s: string): seq<Sextet>
    requires AllSymbols(s)
  {
    seq(|s|, i requires 0 <= i < |s| => SymbolValue(s[i]))
  }

  // ---- The codec ----

  function Encode(b: seq<Byte>): string { Symbols(Split(b)) }

  /** The k-th six bits of a 24-bit number. */
  function SixBits(group: nat, k: nat): Sextet
    requires k < 4
  {
    match k
    case 0 => group / 0x4_0000 % 0x40
    case 1 => group / 0x1000 % 0x40
    case 2 => group / 0x40 % 0x40
    case _ => group % 0x40
  }

  function GroupOf(x: nat, y: nat, z: nat): nat { x * 0x1_0000 + y * 0x100 + z }

  /** The three bytes from the given position; missing ones are zero. */
  function GroupAt(b: seq<Byte>, at: nat): nat
    requires at < |b|
  {
    GroupOf(b[at], if at + 1 < |b| then b[at + 1] else 0, if at + 2 < |b| then b[at + 2] else 0)
  }

  lemma Quotients(high: nat, low: nat)
    ensures low < 0x40 ==> (high * 0x40 + low) / 0x40 == high && (high * 0x40 + low) % 0x40 == low
    ensures low < 0x1000 ==> (high * 0x1000 + low) / 0x1000 == high
    ensures low < 0x4_0000 ==> (high * 0x4_0000 + low) / 0x4_0000 == high
  {
  }

  lemma SextetsOfGroup(x: Byte, y: Byte, z: Byte)
    ensures var group := GroupOf(x, y, z);
      && S0(x) == SixBits(group, 0) && S1(x, y) == SixBits(group, 1)
      && S2(y, z) == SixBits(group, 2) && S3(z) == SixBits(group, 3)
  {
    GroupNumber(x, y, z);
    var group := GroupOf(x, y, z);
    var p: nat, q: nat, r: nat, s: nat := S0(x), S1(x, y), S2(y, z), S3(z);
    assert group == p * 0x4_0000 + q * 0x1000 + r * 0x40 + s;
    Quotients(p, q * 0x1000 + r * 0x40 + s);
    Quotients(p * 0x40 + q, r * 0x40 + s);
    Quotients(p * 0x1000 + q * 0x40 + r, s);
    Quotients(p, q);
    Quotients(p * 0x40 + q, r);
    assert group == p * 0x4_0000 + (q * 0x1000 + r * 0x40 + s);
    assert group == (p * 0x40 + q) * 0x1000 + (r * 0x40 + s);
    assert group == (p * 0x1000 + q * 0x40 + r) * 0x40 + s;
    assert p * 0x1000 + q * 0x40 + r == (p * 0x40 + q) * 0x40 + r;
  }

  lemma {:induction false} SplitLength(b: seq<Byte>)
    ensures |Split(b)| == (8 * |b| + 5) / 6
  {
    if |b| >= 3 {
      SplitLength(b[3..]);
      assert |Split(b)| == 4 + |Split(b[3..])|;
    }
  }

  lemma FirstGroup(b: seq<Byte>, r: nat)
    requires r < 4 && r < |Split(b)|
    ensures b != [] && Split(b)[r] == SixBits(GroupAt(b, 0), r)
  {
    SextetsOfGroup(b[0], if |b| > 1 then b[1] else 0, if |b| > 2 then b[2] else 0);
  }

  lemma NextGroup(b: seq<Byte>, i: nat)
    requires 4 <= i < |Split(b)|
    ensures |b| >= 3 && i - 4 < |Split(b[3..])| && Split(b)[i] == Split(b[3..])[i - 4]
  {
  }

  lemma GroupShift(b: seq<Byte>, at: nat)
    requires at + 3 < |b|
    ensures GroupAt(b[3..], at) == GroupAt(b, at + 3)
  {
  }

  lemma {:induction false} SplitAt(b: seq<Byte>, g: nat, r: nat)
    requires r < 4 && 4 * g + r < |Split(b)|
    ensures 3 * g < |b| && Split(b)[4 * g + r] == SixBits(GroupAt(b, 3 * g), r)
  {
    if g == 0 {
      FirstGroup(b, r);
    } else {
      NextGroup(b, 4 * g + r);
      SplitAt(b[3..], g - 1, r);
      GroupShift(b, 3 * (g - 1));
    }
  }

  /** The encoding, symbol by symbol: n bytes take the least number of symbols that have room
      for 8n bits, and each symbol stands for its six bits of its group of three bytes, with
      zeros after the end. */
  lemma EncodedSymbols(b: seq<Byte>, g: nat, r: nat)
    requires r < 4 && 4 * g + r < |Encode(b)|
    ensures |Encode(b)| == (8 * |b| + 5) / 6 && 3 * g < |b|
    ensures Encode(b)[4 * g + r] == Symbol(SixBits(GroupAt(b, 3 * g), r))
  {
    SplitLength(b);
    SplitAt(b, g, r);
  }

  predicate IsBreak(c: char) { c == '\r' || c == '\n' }

  function WithoutBreaks(s: string): string {
    if s == "" then "" else (if IsBreak(s[0]) then "" else [s[0]]) + WithoutBreaks(s[1..])
  }

  function Decode(s: string): Option<seq<Byte>> {
    if AllSymbols(WithoutBreaks(s)) then Join(Values(WithoutBreaks(s))) else None
  }

  /** The texts the encoder produces. */
  predicate Canonical(s: string) { AllSymbols(s) && Tight(Values(s)) }

  lemma {:induction false} NoBreaks(s: string)
    requires AllSymbols(s)
    ensures WithoutBreaks(s) == s
  {
    if s != "" {
      assert IsSymbol(s[0]);
      NoBreaks(s[1..]);
      assert s == [s[0]] + s[1..];
    }
  }

  lemma SymbolsBack(v: seq<Sextet>)
    ensures AllSymbols(Symbols(v)) && Values(Symbols(v)) == v
  {
    forall i | 0 <= i < |v| ensures IsSymbol(Symbols(v)[i]) && SymbolValue(Symbols(v)[i]) == v[i] {
      SymbolRoundTrip(v[i]);
    }
  }

  lemma ValuesBack(s: string)
    requires AllSymbols(s)
    ensures Symbols(Values(s)) == s
  {
    forall i | 0 <= i < |s| ensures Symbols(Values(s))[i] == s[i] {
      ValueRoundTrip(s[i]);
    }
  }

  lemma EncodeCanonical(b: seq<Byte>)
    ensures Canonical(Encode(b)) && Values(Encode(b)) == Split(b)
  {
    SymbolsBack(Split(b));
    JoinOfSplit(b);
  }

  /** Decoding what was encoded gives the bytes back. */
  lemma RoundTrip(b: seq<Byte>)
    ensures Decode(Encode(b)) == Some(b)
  {
    EncodeCanonical(b);
    NoBreaks(Encode(b));
    JoinOfSplit(b);
  }

  /** Encoding what was decoded gives the text back exactly when the text is canonical: any
      line break, or any unused bit that is set, makes it a second spelling of its bytes. */
  lemma DecodeThenEncode(s: string)
    requires Decode(s).Some?
    ensures Encode(Decode(s).value) == s <==> Canonical(s)
  {
    EncodeCanonical(Decode(s).value);
    if Canonical(s) {
      NoBreaks(s);
      SplitOfJoin(Values(s));
      ValuesBack(s);
    }
  }

  /** Unused bits that are set: sixteen spellings of one byte, one of them canonical. */
  lemma UnusedBitsIgnored(a: char, b: char)
    requires IsSymbol(a) && IsSymbol(b)
    ensures Decode([a, b]) == Some([B0(SymbolValue(a), SymbolValue(b))])
    ensures Canonical([a, b]) <==> SymbolValue(b) % 16 == 0
  {
    NoBreaks([a, b]);
    assert Values([a, b]) == [SymbolValue(a), SymbolValue(b)];
  }

  lemma {:induction false} BreakLeavesNothing(before: string, c: char, after: string)
    requires IsBreak(c)
    ensures WithoutBreaks(before + [c] + after) == WithoutBreaks(before + after)
  {
    if before == "" {
      assert before + [c] + after == [c] + after && before + after == after;
      assert ([c] + after)[1..] == after;
    } else {
      assert (before + [c] + after)[1..] == before[1..] + [c] + after;
      assert (before + after)[1..] == before[1..] + after;
      BreakLeavesNothing(before[1..], c, after);
    }
  }

  /** Line breaks: one more, anywhere in any text, changes nothing but its spelling. */
  lemma LineBreakIgnored(before: string, c: char, after: string)
    requires IsBreak(c)
    ensures Decode(before + [c] + after) == Decode(before + after) && !Canonical(before + [c] + after)
  {
    BreakLeavesNothing(before, c, after);
    assert (before + [c] + after)[|before|] == c;
  }
}
