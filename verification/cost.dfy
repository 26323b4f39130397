/** The automation-cost worker (frontend/public/up-automation-cost-worker.js): a bit-level
    threshold test on a digest, and the search for the first counter that passes it. */
module AutomationCost {
  import opened Outcomes
  import opened Powers

  // ---- The digest as a number ----

  type Byte = x: int | 0 <= x < 256

  /** The bytes read as one big-endian number. */
  function Number(bytes: seq<Byte>): nat {
    if bytes == [] then 0 else bytes[0] * Pow2(8 * (|bytes| - 1)) + Number(bytes[1..])
  }

  lemma {:induction false} NumberBound(bytes: seq<Byte>)
    ensures Number(bytes) < Pow2(8 * |bytes|)
  {
    if bytes != [] {
      NumberBound(bytes[1..]);
      FirstByte(bytes, 0);
      Pow8();
    }
  }

  lemma Pow8()
    ensures Pow2(8) == 256
  {
    assert Pow2(4) == 16;
    Pow2Sum(4, 4);
  }

  lemma Compare(b: nat, p: nat, unit: nat, tail: nat)
    requires tail < unit
    ensures b * unit + tail < p * unit <==> b < p
  {
    if b < p {
      assert (b + 1) * unit <= p * unit;
    } else {
      assert b * unit >= p * unit;
    }
  }

  /** The number is below a power of two exactly when its first byte is small enough. */
  lemma FirstByte(bytes: seq<Byte>, r: nat)
    requires bytes != [] && r <= 8 && Number(bytes[1..]) < Pow2(8 * (|bytes| - 1))
    ensures Number(bytes) < Pow2(8 * |bytes| - r) <==> bytes[0] < Pow2(8 - r)
  {
    var rest := 8 * (|bytes| - 1);
    Pow2Sum(8 - r, rest);
    assert 8 * |bytes| - r == (8 - r) + rest;
    Compare(bytes[0], Pow2(8 - r), Pow2(rest), Number(bytes[1..]));
  }

  lemma {:induction false} LeadingZeros(bytes: seq<Byte>, k: nat)
    requires k <= |bytes| && forall i :: 0 <= i < k ==> bytes[i] == 0
    ensures Number(bytes) == Number(bytes[k..])
  {
    if k > 0 {
      assert bytes[1..][k - 1..] == bytes[k..];
      LeadingZeros(bytes[1..], k - 1);
    } else {
      assert bytes[0..] == bytes;
    }
  }

  // ---- hasLeadingZeroBits ----

  function Bits(b: Byte): bv8 { b as bv8 }

  /** The mask of the r highest bits, as the source shifts it together. */
  function HighMask(r: nat): bv8
    requires 0 < r < 8
  {
    var shift: bv3 := (8 - r) as bv3;
    0xff << shift
  }

  lemma Masks(b: bv8)
    ensures (b & 0x80 == 0 <==> b < 0x80) && (b & 0xC0 == 0 <==> b < 0x40) && (b & 0xE0 == 0 <==> b < 0x20)
    ensures (b & 0xF0 == 0 <==> b < 0x10) && (b & 0xF8 == 0 <==> b < 0x08) && (b & 0xFC == 0 <==> b < 0x04)
    ensures b & 0xFE == 0 <==> b < 0x02
  {
  }

  lemma MaskValues()
    ensures HighMask(1) == 0x80 && HighMask(2) == 0xC0 && HighMask(3) == 0xE0 && HighMask(4) == 0xF0
    ensures HighMask(5) == 0xF8 && HighMask(6) == 0xFC && HighMask(7) == 0xFE
  {
  }

  lemma BitsCompare(b: Byte)
    ensures (Bits(b) < 0x80 <==> b < 128) && (Bits(b) < 0x40 <==> b < 64) && (Bits(b) < 0x20 <==> b < 32)
    ensures (Bits(b) < 0x10 <==> b < 16) && (Bits(b) < 0x08 <==> b < 8) && (Bits(b) < 0x04 <==> b < 4)
    ensures Bits(b) < 0x02 <==> b < 2
  {
  }

  /** A byte passes the mask of its r highest bits exactly when it is below 2^(8-r). */
  lemma MaskTest(b: Byte, r: nat)
    requires 0 < r < 8
    ensures Bits(b) & HighMask(r) == 0 <==> b < Pow2(8 - r)
  {
    SmallPowers();
    MaskValues();
    Masks(Bits(b));
    BitsCompare(b);
    if r == 1 {
    } else if r == 2 {
    } else if r == 3 {
    } else if r == 4 {
    } else if r == 5 {
    } else if r == 6 {
    } else {
    }
  }

  /** A digest beats a difficulty of d bits when its number is below 2^(8n - d). */
  predicate Beats(bytes: seq<Byte>, difficulty: nat)
    requires difficulty <= 8 * |bytes|
  {
    Number(bytes) < Pow2(8 * |bytes| - difficulty)
  }

  lemma NonZeroByte(bytes: seq<Byte>, k: nat, difficulty: nat)
    requires k < |bytes| && bytes[k] != 0 && 8 * (k + 1) <= difficulty <= 8 * |bytes|
    requires forall i :: 0 <= i < k ==> bytes[i] == 0
    ensures !Beats(bytes, difficulty)
  {
    LeadingZeros(bytes, k);
    var rest := bytes[k..];
    NumberBound(rest[1..]);
    FirstByte(rest, 8);
    assert Pow2(0) == 1;
    Pow2Grows(8 * |bytes| - difficulty, 8 * |rest| - 8);
  }

  lemma AllComplete(bytes: seq<Byte>, k: nat, r: nat)
    requires k + (if r == 0 then 0 else 1) <= |bytes| && r < 8 && forall i :: 0 <= i < k ==> bytes[i] == 0
    ensures Beats(bytes, 8 * k + r) <==> r == 0 || bytes[k] < Pow2(8 - r)
  {
    LeadingZeros(bytes, k);
    var rest := bytes[k..];
    NumberBound(rest);
    assert 8 * |bytes| - (8 * k + r) == 8 * |rest| - r;
    if r > 0 {
      NumberBound(rest[1..]);
      FirstByte(rest, r);
    }
  }

  /** hasLeadingZeroBits: whole zero bytes first, then the mask. */
  method HasLeadingZeroBits(bytes: seq<Byte>, difficulty: nat) returns (r: bool)
    requires difficulty <= 8 * |bytes|
    ensures r <==> Beats(bytes, difficulty)
  {
    var completeBytes := difficulty / 8;
    var index := 0;
    while index < completeBytes
      invariant index <= completeBytes
      invariant forall i :: 0 <= i < index ==> bytes[i] == 0
    {
      if bytes[index] != 0 {
        NonZeroByte(bytes, index, difficulty);
        return false;
      }
      index := index + 1;
    }
    var remainingBits := difficulty % 8;
    AllComplete(bytes, completeBytes, remainingBits);
    if remainingBits == 0 { return true; }
    MaskTest(bytes[completeBytes], remainingBits);
    r := Bits(bytes[completeBytes]) & HighMask(remainingBits) == 0;
  }

  // ---- solve ----

  const BATCH_SIZE := 256
  const MAX_SAFE_INTEGER := 0x1F_FFFF_FFFF_FFFF

  /** toString(36). */
  function Base36(n: nat): string {
    var digits := "0123456789abcdefghijklmnopqrstuvwxyz";
    if n < 36 then [digits[n]] else Base36(n / 36) + [digits[n % 36]]
  }

  /** The value of a base-36 digit, as parseInt reads it. */
  function Digit36(c: char): int {
    if '0' <= c <= '9' then c as int - '0' as int
    else if 'a' <= c <= 'z' then c as int - 'a' as int + 10
    else -1
  }

  function Read36(s: string): int {
    if s == "" then 0 else Read36(s[..|s| - 1]) * 36 + Digit36(s[|s| - 1])
  }

  /** The nonce names its counter: it is read back as the same number, is made of digits and
      small letters, and does not start with a zero unless it is one. */
  lemma {:induction false} Base36Reads(n: nat)
    ensures Read36(Base36(n)) == n && Base36(n) != ""
    ensures forall i :: 0 <= i < |Base36(n)| ==> 0 <= Digit36(Base36(n)[i]) < 36
    ensures Base36(n)[0] == '0' ==> n == 0
  {
    DigitsRead(n % 36);
    if n < 36 {
      assert Base36(n)[..0] == "";
    } else {
      Base36Reads(n / 36);
      assert Base36(n)[..|Base36(n)| - 1] == Base36(n / 36);
    }
  }

  lemma DigitsRead(d: nat)
    requires d < 36
    ensures Digit36("0123456789abcdefghijklmnopqrstuvwxyz"[d]) == d
  {
  }

  datatype SolveError = InvalidChallenge | NonceSpaceExhausted

  /** SHA-256 of the token, a colon and the nonce. */
  type Digest = string -> seq<Byte>

  function Candidate(token: string, counter: nat): string { token + ":" + Base36(counter) }

  predicate Solves(digest: Digest, token: string, difficulty: nat, counter: nat)
    requires |digest(Candidate(token, counter))| == 32 && difficulty <= 256
  {
    Beats(digest(Candidate(token, counter)), difficulty)
  }

  /** One batch: findIndex over the digests of its candidates. */
  method SearchBatch(digest: Digest, token: string, difficulty: nat, counter: nat) returns (matchIndex: Option<nat>)
    requires difficulty <= 256 && forall text :: |digest(text)| == 32
    ensures matchIndex.Some? ==>
      && matchIndex.value < BATCH_SIZE && Solves(digest, token, difficulty, counter + matchIndex.value)
      && (forall c: nat :: counter <= c < counter + matchIndex.value ==> !Solves(digest, token, difficulty, c))
    ensures matchIndex.None? ==>
      forall c: nat :: counter <= c < counter + BATCH_SIZE ==> !Solves(digest, token, difficulty, c)
  {
    var offset := 0;
    while offset < BATCH_SIZE
      invariant offset <= BATCH_SIZE
      invariant forall c: nat :: counter <= c < counter + offset ==> !Solves(digest, token, difficulty, c)
    {
      var passes := HasLeadingZeroBits(digest(Candidate(token, counter + offset)), difficulty);
      if passes { return Some(offset); }
      offset := offset + 1;
    }
    matchIndex := None;
  }

  /** solve: the nonce of the least counter whose digest beats the difficulty; it gives up
      exactly when no counter below 2^53 - 256 does. */
  method Solve(digest: Digest, token: string, difficulty: int) returns (r: Result<string, SolveError>, ghost found: nat)
    requires forall text :: |digest(text)| == 32
    ensures r == Failure(InvalidChallenge) <==> !(1 <= difficulty <= 30)
    ensures r.Success? ==>
      && 1 <= difficulty <= 30 && r.value == Base36(found) && Beats(digest(token + ":" + r.value), difficulty)
      && (forall c: nat :: c < found ==> !Solves(digest, token, difficulty, c))
    ensures r == Failure(NonceSpaceExhausted) ==>
      forall c: nat :: c < MAX_SAFE_INTEGER + 1 - BATCH_SIZE ==> !Solves(digest, token, difficulty, c)
    ensures (&& 1 <= difficulty <= 30
             && exists c: nat :: c < MAX_SAFE_INTEGER + 1 - BATCH_SIZE && Solves(digest, token, difficulty, c)) ==>
      r.Success?
  {
    found := 0;
    if difficulty < 1 || difficulty > 30 { return Failure(InvalidChallenge), found; }
    var counter: nat := 0;
    while counter <= MAX_SAFE_INTEGER - BATCH_SIZE
      invariant counter % BATCH_SIZE == 0
      invariant forall c: nat :: c < counter ==> !Solves(digest, token, difficulty, c)
      decreases MAX_SAFE_INTEGER - counter
    {
      var matchIndex := SearchBatch(digest, token, difficulty, counter);
      if matchIndex.Some? {
        found := counter + matchIndex.value;
        return Success(Base36(counter + matchIndex.value)), found;
      }
      counter := counter + BATCH_SIZE;
    }
    r := Failure(NonceSpaceExhausted);
  }
}
