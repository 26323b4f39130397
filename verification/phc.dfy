/** The stored form of a challenge answer (backend/internal/adminstepup/hasher.go): its
    printer, its parser, and the hasher that uses both. Argon2id, the pepper and the
    normalization of answers are given as functions. */
module Phc {
  import opened Outcomes
  import opened Decimals
  import B = Base64

  datatype Params = Params(memory: nat, iterations: nat, parallelism: nat, saltBytes: nat, keyBytes: nat)

  /** validArgon2Params. */
  predicate ValidParams(p: Params) {
    && 8 * 1024 <= p.memory <= 1024 * 1024 && 1 <= p.iterations <= 10 && 1 <= p.parallelism <= 16
    && 16 <= p.saltBytes <= 64 && 32 <= p.keyBytes <= 64
  }

  // ---- strings.Split ----

  predicate Lacks(s: string, c: char) { forall i :: 0 <= i < |s| ==> s[i] != c }

  function Split(s: string, sep: char): (parts: seq<string>)
    ensures parts != []
  {
    if s == "" then [""]
    else
      var rest := Split(s[1..], sep);
      if s[0] == sep then [""] + rest else [[s[0]] + rest[0]] + rest[1..]
  }

  function Joined(parts: seq<string>, sep: char): string {
    if parts == [] then ""
    else if |parts| == 1 then parts[0]
    else parts[0] + [sep] + Joined(parts[1..], sep)
  }

  lemma JoinedHead(c: char, parts: seq<string>, sep: char)
    requires parts != []
    ensures Joined([[c] + parts[0]] + parts[1..], sep) == [c] + Joined(parts, sep)
    ensures Joined([""] + parts, sep) == [sep] + Joined(parts, sep)
  {
    var longer := [[c] + parts[0]] + parts[1..];
    assert longer[1..] == parts[1..];
    if |parts| > 1 {
      assert Joined(longer, sep) == ([c] + parts[0]) + [sep] + Joined(parts[1..], sep);
    }
    assert ([""] + parts)[1..] == parts;
  }

  lemma {:induction false} SplitSpec(s: string, sep: char)
    ensures Joined(Split(s, sep), sep) == s
    ensures forall i :: 0 <= i < |Split(s, sep)| ==> Lacks(Split(s, sep)[i], sep)
  {
    if s != "" {
      SplitSpec(s[1..], sep);
      JoinedHead(s[0], Split(s[1..], sep), sep);
      assert s == [s[0]] + s[1..];
    }
  }

  lemma {:induction false} JoinedLacks(parts: seq<string>, sep: char, c: char)
    requires sep != c && forall i :: 0 <= i < |parts| ==> Lacks(parts[i], c)
    ensures Lacks(Joined(parts, sep), c)
  {
    if |parts| > 1 { JoinedLacks(parts[1..], sep, c); }
  }

  lemma {:induction false} SplitOne(s: string, sep: char)
    requires Lacks(s, sep)
    ensures Split(s, sep) == [s]
  {
    if s != "" {
      SplitOne(s[1..], sep);
      assert s == [s[0]] + s[1..];
    }
  }

  lemma {:induction false} SplitHead(head: string, tail: string, sep: char)
    requires Lacks(head, sep)
    ensures Split(head + [sep] + tail, sep) == [head] + Split(tail, sep)
  {
    var s := head + [sep] + tail;
    if head == "" {
      assert s[1..] == tail;
    } else {
      assert s[1..] == head[1..] + [sep] + tail;
      SplitHead(head[1..], tail, sep);
      assert head == [head[0]] + head[1..];
    }
  }

  lemma {:induction false} SplitJoined(parts: seq<string>, sep: char)
    requires parts != [] && forall i :: 0 <= i < |parts| ==> Lacks(parts[i], sep)
    ensures Split(Joined(parts, sep), sep) == parts
  {
    if |parts| == 1 {
      SplitOne(parts[0], sep);
    } else {
      SplitJoined(parts[1..], sep);
      SplitHead(parts[0], Joined(parts[1..], sep), sep);
    }
  }

  // ---- The printer and the parser ----

  const VERSION := "v=19"

  function ParamText(p: Params): string {
    Joined(["m=" + Print(p.memory), "t=" + Print(p.iterations), "p=" + Print(p.parallelism)], ',')
  }

  /** The six parts between the dollar signs. */
  function Parts(p: Params, salt: string, key: string): seq<string> {
    ["", "argon2id", VERSION, ParamText(p), salt, key]
  }

  /** encodePHC. */
  function EncodePhc(p: Params, salt: seq<B.Byte>, key: seq<B.Byte>): string {
    Joined(Parts(p, B.Encode(salt), B.Encode(key)), '$')
  }

  predicate HasPrefix(s: string, prefix: string) { |s| >= |prefix| && s[..|prefix|] == prefix }

  /** parsePHCUint: what was read must print back to the same digits. */
  function ParseField(value: string, prefix: string, limit: nat): Option<nat> {
    if !HasPrefix(value, prefix) then None
    else
      var raw := value[|prefix|..];
      var parsed := ParseUint(raw, limit);
      if parsed.None? || Print(parsed.value) != raw then None else parsed
  }

  type Parsed = (Params, seq<B.Byte>, seq<B.Byte>)

  function ParseParams(text: string): Option<(nat, nat, nat)> {
    var fields := Split(text, ',');
    if |fields| != 3 then None
    else
      var m := ParseField(fields[0], "m=", 0x1_0000_0000);
      var t := ParseField(fields[1], "t=", 0x1_0000_0000);
      var p := ParseField(fields[2], "p=", 0x100);
      if m.None? || t.None? || p.None? then None else Some((m.value, t.value, p.value))
  }

  /** parsePHC. */
  function Parse(phc: string): Option<Parsed> {
    var parts := Split(phc, '$');
    if |parts| != 6 || parts[0] != "" || parts[1] != "argon2id" || parts[2] != VERSION then None
    else
      var fields := ParseParams(parts[3]);
      if fields.None? then None
      else
        var salt, key := B.Decode(parts[4]), B.Decode(parts[5]);
        if salt.None? || key.None? then None
        else
          var params := Params(fields.value.0, fields.value.1, fields.value.2, |salt.value|, |key.value|);
          if ValidParams(params) then Some((params, salt.value, key.value)) else None
  }

  // ---- parsePHCUint ----

  /** A parameter field is accepted exactly when it is its name followed by the canonical
      decimal of a number in range, and yields that number. */
  lemma FieldExact(value: string, prefix: string, limit: nat, n: nat)
    ensures ParseField(value, prefix, limit) == Some(n) <==> n < limit && value == prefix + Print(n)
  {
    Decimals.ParsePrinted(n, limit);
    if value == prefix + Print(n) {
      assert value[..|prefix|] == prefix && value[|prefix|..] == Print(n);
    }
    if ParseField(value, prefix, limit) == Some(n) {
      assert value == value[..|prefix|] + value[|prefix|..];
    }
  }

  lemma PrintLacks(n: nat, c: char)
    requires !IsDigit(c)
    ensures Lacks(Print(n), c)
  {
    PrintSpec(n);
  }

  lemma ParamsExact(text: string, m: nat, t: nat, p: nat)
    ensures ParseParams(text) == Some((m, t, p)) <==>
      m < 0x1_0000_0000 && t < 0x1_0000_0000 && p < 0x100 && text == ParamText(Params(m, t, p, 0, 0))
  {
    var fields := ["m=" + Print(m), "t=" + Print(t), "p=" + Print(p)];
    PrintLacks(m, ',');
    PrintLacks(t, ',');
    PrintLacks(p, ',');
    SplitJoined(fields, ',');
    SplitSpec(text, ',');
    var found := Split(text, ',');
    if |found| == 3 {
      FieldExact(found[0], "m=", 0x1_0000_0000, m);
      FieldExact(found[1], "t=", 0x1_0000_0000, t);
      FieldExact(found[2], "p=", 0x100, p);
      assert found == [found[0], found[1], found[2]];
    }
  }

  lemma ParamTextLacks(p: Params)
    ensures Lacks(ParamText(p), '$')
  {
    PrintLacks(p.memory, '$');
    PrintLacks(p.iterations, '$');
    PrintLacks(p.parallelism, '$');
    JoinedLacks(["m=" + Print(p.memory), "t=" + Print(p.iterations), "p=" + Print(p.parallelism)], ',', '$');
  }

  // ---- Main results ----

  /** s and k are spellings of the salt and the key in the text. */
  ghost predicate Spells(phc: string, p: Params, salt: seq<B.Byte>, key: seq<B.Byte>, s: string, k: string) {
    && Lacks(s, '$') && Lacks(k, '$') && phc == Joined(Parts(p, s, k), '$')
    && B.Decode(s) == Some(salt) && B.Decode(k) == Some(key)
    && ValidParams(p) && p.saltBytes == |salt| && p.keyBytes == |key|
  }

  lemma ParseUnpacks(phc: string, p: Params, salt: seq<B.Byte>, key: seq<B.Byte>)
    requires Parse(phc) == Some((p, salt, key))
    ensures |Split(phc, '$')| == 6 && Spells(phc, p, salt, key, Split(phc, '$')[4], Split(phc, '$')[5])
  {
    var found := Split(phc, '$');
    SplitSpec(phc, '$');
    ParamsExact(found[3], p.memory, p.iterations, p.parallelism);
    assert found == Parts(p, found[4], found[5]);
  }

  lemma ParseAssembled(phc: string, p: Params, salt: seq<B.Byte>, key: seq<B.Byte>, s: string, k: string)
    requires Spells(phc, p, salt, key, s, k)
    ensures Parse(phc) == Some((p, salt, key))
  {
    ParamTextLacks(p);
    SplitJoined(Parts(p, s, k), '$');
    ParamsExact(ParamText(p), p.memory, p.iterations, p.parallelism);
  }

  /** A text is accepted exactly when it is the printed form with any accepted spelling of
      the salt and of the key, and the parameters are in the safe range. */
  lemma ParseExact(phc: string, p: Params, salt: seq<B.Byte>, key: seq<B.Byte>)
    ensures Parse(phc) == Some((p, salt, key)) <==> exists s, k :: Spells(phc, p, salt, key, s, k)
  {
    if Parse(phc) == Some((p, salt, key)) {
      ParseUnpacks(phc, p, salt, key);
    }
    forall s, k | Spells(phc, p, salt, key, s, k) ensures Parse(phc) == Some((p, salt, key)) {
      ParseAssembled(phc, p, salt, key, s, k);
    }
  }

  lemma EncodedLacks(b: seq<B.Byte>)
    ensures Lacks(B.Encode(b), '$')
  {
    B.EncodeCanonical(b);
  }

  lemma JoinedMore(head: string, rest: seq<string>, sep: char)
    requires rest != []
    ensures Joined([head] + rest, sep) == head + [sep] + Joined(rest, sep)
  {
    assert ([head] + rest)[1..] == rest;
  }

  lemma JoinedThree(a: string, b: string, c: string, sep: char)
    ensures Joined([a, b, c], sep) == a + [sep] + b + [sep] + c
  {
    JoinedMore(b, [c], sep);
    JoinedMore(a, [b, c], sep);
    assert [b] + [c] == [b, c] && [a] + [b, c] == [a, b, c];
    assert a + [sep] + (b + [sep] + c) == a + [sep] + b + [sep] + c;
  }

  lemma ParamForm(p: Params)
    ensures ParamText(p) == "m=" + Print(p.memory) + ",t=" + Print(p.iterations) + ",p=" + Print(p.parallelism)
  {
    JoinedThree("m=" + Print(p.memory), "t=" + Print(p.iterations), "p=" + Print(p.parallelism), ',');
    assert [','] + ("t=" + Print(p.iterations)) == ",t=" + Print(p.iterations);
    assert [','] + ("p=" + Print(p.parallelism)) == ",p=" + Print(p.parallelism);
  }

  lemma HeadForm(tail: string)
    ensures "" + ['$'] + ("argon2id" + ['$'] + (VERSION + ['$'] + tail)) == "$argon2id$v=19$" + tail
  {
    var head := "$argon2id$v=19$";
    assert head == ['$'] + ("argon2id" + ['$'] + (VERSION + ['$']));
  }

  /** The printed form. */
  lemma PrintedForm(p: Params, salt: seq<B.Byte>, key: seq<B.Byte>)
    ensures EncodePhc(p, salt, key) ==
      "$argon2id$v=19$" + (ParamText(p) + ['$'] + B.Encode(salt) + ['$'] + B.Encode(key))
    ensures ParamText(p) == "m=" + Print(p.memory) + ",t=" + Print(p.iterations) + ",p=" + Print(p.parallelism)
  {
    ParamForm(p);
    var last := [ParamText(p), B.Encode(salt), B.Encode(key)];
    JoinedThree(last[0], last[1], last[2], '$');
    JoinedMore(VERSION, last, '$');
    JoinedMore("argon2id", [VERSION] + last, '$');
    JoinedMore("", ["argon2id"] + ([VERSION] + last), '$');
    assert Parts(p, B.Encode(salt), B.Encode(key)) == [""] + (["argon2id"] + ([VERSION] + last));
    HeadForm(Joined(last, '$'));
  }

  lemma PrintedParams(p: Params)
    ensures ParseParams(ParamText(p)) ==
      if p.memory < 0x1_0000_0000 && p.iterations < 0x1_0000_0000 && p.parallelism < 0x100
      then Some((p.memory, p.iterations, p.parallelism)) else None
  {
    PrintLacks(p.memory, ',');
    PrintLacks(p.iterations, ',');
    PrintLacks(p.parallelism, ',');
    SplitJoined(["m=" + Print(p.memory), "t=" + Print(p.iterations), "p=" + Print(p.parallelism)], ',');
    PrintedField("m=", p.memory, 0x1_0000_0000);
    PrintedField("t=", p.iterations, 0x1_0000_0000);
    PrintedField("p=", p.parallelism, 0x100);
  }

  lemma PrintedField(prefix: string, n: nat, limit: nat)
    ensures ParseField(prefix + Print(n), prefix, limit) == if n < limit then Some(n) else None
  {
    Decimals.ParsePrinted(n, limit);
    assert (prefix + Print(n))[..|prefix|] == prefix && (prefix + Print(n))[|prefix|..] == Print(n);
  }

  /** Which printed forms are read again: those with 8 MiB to 1 GiB of memory, one to ten
      passes, one to sixteen lanes, 16 to 64 bytes of salt and 32 to 64 bytes of key. */
  lemma PrintedAccepted(p: Params, salt: seq<B.Byte>, key: seq<B.Byte>)
    ensures Parse(EncodePhc(p, salt, key)) ==
      if && 8_192 <= p.memory <= 1_048_576 && 1 <= p.iterations <= 10 && 1 <= p.parallelism <= 16
         && 16 <= |salt| <= 64 && 32 <= |key| <= 64
      then Some((p.(saltBytes := |salt|, keyBytes := |key|), salt, key)) else None
  {
    EncodedLacks(salt);
    EncodedLacks(key);
    B.RoundTrip(salt);
    B.RoundTrip(key);
    ParamTextLacks(p);
    SplitJoined(Parts(p, B.Encode(salt), B.Encode(key)), '$');
    PrintedParams(p);
  }

  /** Parsing what was printed gives the parameters, the salt and the key back. */
  lemma ParsePrinted(p: Params, salt: seq<B.Byte>, key: seq<B.Byte>)
    requires ValidParams(p) && p.saltBytes == |salt| && p.keyBytes == |key|
    ensures Parse(EncodePhc(p, salt, key)) == Some((p, salt, key))
  {
    EncodedLacks(salt);
    EncodedLacks(key);
    B.RoundTrip(salt);
    B.RoundTrip(key);
    ParseAssembled(EncodePhc(p, salt, key), p, salt, key, B.Encode(salt), B.Encode(key));
  }

  /** Printing what was parsed gives the text back exactly when its salt and key are spelled
      canonically; the parameters never have a second spelling. */
  lemma PrintParsed(phc: string)
    requires Parse(phc).Some?
    ensures var (p, salt, key) := Parse(phc).value;
      var parts := Split(phc, '$');
      EncodePhc(p, salt, key) == phc <==> B.Canonical(parts[4]) && B.Canonical(parts[5])
  {
    var (p, salt, key) := Parse(phc).value;
    var parts := Split(phc, '$');
    SplitSpec(phc, '$');
    ParamsExact(parts[3], p.memory, p.iterations, p.parallelism);
    assert parts == Parts(p, parts[4], parts[5]);
    B.DecodeThenEncode(parts[4]);
    B.DecodeThenEncode(parts[5]);
    EncodedLacks(salt);
    EncodedLacks(key);
    ParamTextLacks(p);
    SplitJoined(Parts(p, B.Encode(salt), B.Encode(key)), '$');
    assert Parts(p, B.Encode(salt), B.Encode(key))[4] == B.Encode(salt);
    assert Parts(p, B.Encode(salt), B.Encode(key))[5] == B.Encode(key);
  }

  // ---- The hasher ----

  datatype HashError = BadAnswer | BadPhc | NoPepper | Cancelled

  /** Argon2id over the peppered answer, and the normalization of answers. */
  datatype Crypto = Crypto(
    derive: (string, seq<B.Byte>, seq<B.Byte>, Params) -> seq<B.Byte>,
    normalize: string -> Option<string>)

  /** The key derivation returns as many bytes as asked for. */
  ghost predicate Sized(c: Crypto) {
    forall answer, pepper, salt, p :: |c.derive(answer, pepper, salt, p)| == p.keyBytes
  }

  /** How a wait for a slot ends: another call returns its slot, or the caller's context ends. */
  datatype Wait = SlotFreed | GivenUp

  /** AnswerHasher: retained peppers, the current one, and a counting semaphore. */
  class AnswerHasher {
    const crypto: Crypto
    const params: Params
    const capacity: nat
    var peppers: map<string, seq<B.Byte>>
    var current: string
    var running: nat

    ghost predicate Valid()
      reads this
    {
      ValidParams(params) && Sized(crypto) && running <= capacity && 0 < capacity && current in peppers
    }

    constructor (c: Crypto, p: Params, keys: map<string, seq<B.Byte>>, currentKey: string, maxConcurrent: nat)
      requires ValidParams(p) && Sized(c) && currentKey in keys && 0 < maxConcurrent <= 64
      ensures Valid() && running == 0 && crypto == c && params == p && capacity == maxConcurrent
      ensures peppers == keys && current == currentKey
    {
      crypto, params, capacity := c, p, maxConcurrent;
      peppers, current, running := keys, currentKey, 0;
    }

    /** The slots others hold once this call has waited for one, if it has to. */
    ghost function Others(cancelledBefore: bool, wait: Wait): int
      reads this
    {
      if running >= capacity && !cancelledBefore && wait.SlotFreed? then running - 1 else running
    }

    /** The caller's context ended before the slot was held for good. */
    ghost predicate Cancels(cancelledBefore: bool, wait: Wait, cancelledAfter: bool)
      reads this
    {
      cancelledBefore || (running >= capacity && wait.GivenUp?) || cancelledAfter
    }

    /** acquire: a full semaphore makes the caller wait, until a slot is free or its context
        ends. Only a cancellation refuses, and then no slot is kept; the capacity is never
        passed. */
    method Acquire(cancelledBefore: bool, wait: Wait, cancelledAfter: bool) returns (ok: bool)
      requires Valid()
      modifies this`running
      ensures Valid()
      ensures ok <==> !old(Cancels(cancelledBefore, wait, cancelledAfter))
      ensures running == old(Others(cancelledBefore, wait)) + (if ok then 1 else 0)
    {
      if cancelledBefore { return false; }
      if running >= capacity {
        if wait.GivenUp? { return false; }
        Release();
      }
      running := running + 1;
      if cancelledAfter {
        Release();
        return false;
      }
      ok := true;
    }

    method Release()
      requires running > 0
      modifies this`running
      ensures running == old(running) - 1
    {
      running := running - 1;
    }

    /** Hash, with the salt that was drawn. */
    method Hash(answer: string, salt: seq<B.Byte>, cancelledBefore: bool, wait: Wait, cancelledAfter: bool)
      returns (r: Result<(string, string), HashError>)
      requires Valid() && |salt| == params.saltBytes
      modifies this`running
      ensures Valid()
      ensures running == if r == Failure(BadAnswer) then old(running) else old(Others(cancelledBefore, wait))
      ensures r.Success? ==>
        && crypto.normalize(answer).Some? && r.value.1 == current
        && r.value.0 == EncodePhc(params, salt,
            crypto.derive(crypto.normalize(answer).value, peppers[current], salt, params))
      ensures r.Failure? ==> r.error == if crypto.normalize(answer).None? then BadAnswer else Cancelled
      ensures crypto.normalize(answer).Some? ==>
        (r == Failure(Cancelled) <==> old(Cancels(cancelledBefore, wait, cancelledAfter)))
    {
      var normalized := crypto.normalize(answer);
      if normalized.None? { return Failure(BadAnswer); }
      var ok := Acquire(cancelledBefore, wait, cancelledAfter);
      if !ok { return Failure(Cancelled); }
      var derived := crypto.derive(normalized.value, peppers[current], salt, params);
      Release();
      r := Success((EncodePhc(params, salt, derived), current));
    }

    /** Verify. */
    method Verify(answer: string, phc: string, keyId: string, cancelledBefore: bool, wait: Wait, cancelledAfter: bool)
      returns (r: Result<bool, HashError>)
      requires Valid()
      modifies this`running
      ensures Valid()
      ensures running ==
        if r.Failure? && !r.error.Cancelled? then old(running) else old(Others(cancelledBefore, wait))
      ensures r.Success? ==>
        && crypto.normalize(answer).Some? && Parse(phc).Some? && keyId in peppers
        && var (p, salt, key) := Parse(phc).value;
        && (r.value <==> crypto.derive(crypto.normalize(answer).value, peppers[keyId], salt, p) == key)
      ensures crypto.normalize(answer).None? ==> r == Failure(BadAnswer)
      ensures crypto.normalize(answer).Some? && Parse(phc).None? ==> r == Failure(BadPhc)
      ensures crypto.normalize(answer).Some? && Parse(phc).Some? && keyId !in peppers ==> r == Failure(NoPepper)
      ensures crypto.normalize(answer).Some? && Parse(phc).Some? && keyId in peppers ==>
        if old(Cancels(cancelledBefore, wait, cancelledAfter)) then r == Failure(Cancelled) else r.Success?
    {
      var normalized := crypto.normalize(answer);
      if normalized.None? { return Failure(BadAnswer); }
      var parsed := Parse(phc);
      if parsed.None? { return Failure(BadPhc); }
      if keyId !in peppers { return Failure(NoPepper); }
      var ok := Acquire(cancelledBefore, wait, cancelledAfter);
      if !ok { return Failure(Cancelled); }
      var actual := crypto.derive(normalized.value, peppers[keyId], parsed.value.1, parsed.value.0);
      Release();
      r := Success(actual == parsed.value.2);
    }

    /** Rotation of the current pepper; the old ones are retained. */
    method AddPepper(keyId: string, pepper: seq<B.Byte>)
      requires Valid() && keyId !in peppers
      modifies this`peppers, this`current
      ensures Valid() && current == keyId && peppers == old(peppers)[keyId := pepper]
    {
      peppers := peppers[keyId := pepper];
      current := keyId;
    }
  }

  /** While nobody cancels: what Hash stored, Verify accepts for the same answer, also after any number of new
      peppers; and a different answer exactly when its derivation collides. */
  method HashThenVerify(h: AnswerHasher, answer: string, other: string, salt: seq<B.Byte>,
      newPeppers: seq<(string, seq<B.Byte>)>)
    returns (stored: Result<(string, string), HashError>, same: Result<bool, HashError>,
             different: Result<bool, HashError>)
    requires h.Valid() && |salt| == h.params.saltBytes
    modifies h
    ensures stored.Success? <==> h.crypto.normalize(answer).Some?
    ensures stored.Success? ==> same == Success(true)
    ensures stored.Success? && different.Success? ==> h.crypto.normalize(other).Some?
    ensures stored.Success? && different.Success? ==>
      (different.value <==>
         var pepper := old(h.peppers)[old(h.current)];
         h.crypto.derive(h.crypto.normalize(other).value, pepper, salt, h.params)
         == h.crypto.derive(h.crypto.normalize(answer).value, pepper, salt, h.params))
    ensures stored.Success? && h.crypto.normalize(other).Some? ==> different.Success?
  {
    stored := h.Hash(answer, salt, false, SlotFreed, false);
    same, different := Failure(BadPhc), Failure(BadPhc);
    if stored.Failure? { return; }
    ghost var pepper := h.peppers[h.current];
    var phc, keyId := stored.value.0, stored.value.1;
    ghost var derived := h.crypto.derive(h.crypto.normalize(answer).value, pepper, salt, h.params);
    ParsePrinted(h.params, salt, derived);
    for i := 0 to |newPeppers|
      invariant h.Valid() && keyId in h.peppers && h.peppers[keyId] == pepper
    {
      if newPeppers[i].0 !in h.peppers { h.AddPepper(newPeppers[i].0, newPeppers[i].1); }
    }
    same := h.Verify(answer, phc, keyId, false, SlotFreed, false);
    different := h.Verify(other, phc, keyId, false, SlotFreed, false);
  }
}
