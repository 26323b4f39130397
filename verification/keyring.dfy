/** The duplicate-member check of the keyring loader
    (backend/internal/dreamupdelegation/keyring.go) over the token stream of a JSON decoder:
    one value, of bounded depth, in which no object repeats a member name (section 4 of
    RFC 8259). */
module KeyringJson {
  import opened Outcomes

  const MAX_DEPTH := 16

  /** Tokens as encoding/json's Decoder.Token yields them. Broken stands for the place where
      the text stops being JSON; Literal for a number, true, false or null. */
  datatype Token = OpenObject | CloseObject | OpenArray | CloseArray | Text(s: string) | Literal(raw: string) | Broken

  // ---- JSON values ----

  datatype Value =
    | Leaf(token: Token)
    | Object(members: seq<Member>)
    | Array(elements: seq<Value>)

  datatype Member = Member(name: string, value: Value)

  predicate IsLeaf(t: Token) { t.Text? || t.Literal? }

  /** The tokens of a value. */
  function Tokens(v: Value): seq<Token>
    decreases v, 1
  {
    match v
    case Leaf(t) => [t]
    case Object(members) => [OpenObject] + MemberTokens(members) + [CloseObject]
    case Array(elements) => [OpenArray] + ElementTokens(elements) + [CloseArray]
  }

  function MemberTokens(members: seq<Member>): seq<Token>
    decreases members, 0
  {
    if members == [] then [] else [Text(members[0].name)] + Tokens(members[0].value) + MemberTokens(members[1..])
  }

  function ElementTokens(elements: seq<Value>): seq<Token>
    decreases elements, 0
  {
    if elements == [] then [] else Tokens(elements[0]) + ElementTokens(elements[1..])
  }

  /** Proper leaves, distinct member names at every level, and no value more than the given
      number of levels below this one. */
  ghost predicate Fine(v: Value, levels: int)
    decreases v, 1
  {
    && levels >= 0
    && match v
       case Leaf(t) => IsLeaf(t)
       case Object(members) => FineMembers(members, levels - 1, {})
       case Array(elements) => FineElements(elements, levels - 1)
  }

  ghost predicate FineMembers(members: seq<Member>, levels: int, seen: set<string>)
    decreases members, 0
  {
    members == [] ||
    (&& members[0].name !in seen && Fine(members[0].value, levels)
     && FineMembers(members[1..], levels, seen + {members[0].name}))
  }

  ghost predicate FineElements(elements: seq<Value>, levels: int)
    decreases elements, 0
  {
    elements == [] || (Fine(elements[0], levels) && FineElements(elements[1..], levels))
  }

  // ---- What the recursion computes ----

  /** Decoder.More: something other than a closing delimiter follows. */
  predicate More(ts: seq<Token>, i: nat) { i < |ts| && !ts[i].CloseObject? && !ts[i].CloseArray? }

  /** consumeUniqueJSONValue from position i: the position after the value, if accepted. */
  function Consume(ts: seq<Token>, i: nat, depth: nat): (r: Option<nat>)
    requires i <= |ts|
    ensures r.Some? ==> i < r.value <= |ts|
    decreases |ts| - i, 1
  {
    if depth > MAX_DEPTH || i == |ts| then None
    else match ts[i]
      case OpenObject => ConsumeMembers(ts, i + 1, depth, {})
      case OpenArray => ConsumeElements(ts, i + 1, depth)
      case Text(_) => Some(i + 1)
      case Literal(_) => Some(i + 1)
      case _ => None
  }

  function ConsumeMembers(ts: seq<Token>, i: nat, depth: nat, seen: set<string>): (r: Option<nat>)
    requires i <= |ts|
    ensures r.Some? ==> i < r.value <= |ts|
    decreases |ts| - i, 0
  {
    if !More(ts, i) then
      if i < |ts| && ts[i].CloseObject? then Some(i + 1) else None
    else if !ts[i].Text? || ts[i].s in seen then None
    else
      match Consume(ts, i + 1, depth + 1)
      case None => None
      case Some(j) => ConsumeMembers(ts, j, depth, seen + {ts[i].s})
  }

  function ConsumeElements(ts: seq<Token>, i: nat, depth: nat): (r: Option<nat>)
    requires i <= |ts|
    ensures r.Some? ==> i < r.value <= |ts|
    decreases |ts| - i, 2
  {
    if !More(ts, i) then
      if i < |ts| && ts[i].CloseArray? then Some(i + 1) else None
    else
      match Consume(ts, i, depth + 1)
      case None => None
      case Some(j) => ConsumeElements(ts, j, depth)
  }

  // ---- Accepted token streams are fine values ----

  ghost predicate At(ts: seq<Token>, i: nat, part: seq<Token>) { i + |part| <= |ts| && ts[i..i + |part|] == part }

  lemma AtAppend(ts: seq<Token>, i: nat, a: seq<Token>, b: seq<Token>)
    requires At(ts, i, a) && At(ts, i + |a|, b)
    ensures At(ts, i, a + b)
  {
    assert ts[i..i + |a + b|] == ts[i..i + |a|] + ts[i + |a|..i + |a| + |b|];
  }

  lemma AtParts(ts: seq<Token>, i: nat, a: seq<Token>, b: seq<Token>)
    requires At(ts, i, a + b)
    ensures At(ts, i, a) && At(ts, i + |a|, b)
  {
    assert ts[i..i + |a|] == (a + b)[..|a|];
    assert ts[i + |a|..i + |a| + |b|] == (a + b)[|a|..];
  }

  lemma MemberTokensCons(m: Member, rest: seq<Member>)
    ensures MemberTokens([m] + rest) + [CloseObject] ==
      [Text(m.name)] + (Tokens(m.value) + (MemberTokens(rest) + [CloseObject]))
  {
    assert ([m] + rest)[1..] == rest;
  }

  lemma {:induction false} ConsumeSound(ts: seq<Token>, i: nat, depth: nat) returns (v: Value)
    requires i <= |ts| && Consume(ts, i, depth).Some?
    ensures Fine(v, MAX_DEPTH - depth) && At(ts, i, Tokens(v)) && i + |Tokens(v)| == Consume(ts, i, depth).value
    decreases |ts| - i, 1
  {
    match ts[i]
    case OpenObject =>
      var members := MembersSound(ts, i + 1, depth, {});
      v := Object(members);
      AtAppend(ts, i, [OpenObject], MemberTokens(members) + [CloseObject]);
      assert [OpenObject] + (MemberTokens(members) + [CloseObject]) == Tokens(v);
    case OpenArray =>
      var elements := ElementsSound(ts, i + 1, depth);
      v := Array(elements);
      AtAppend(ts, i, [OpenArray], ElementTokens(elements) + [CloseArray]);
      assert [OpenArray] + (ElementTokens(elements) + [CloseArray]) == Tokens(v);
    case Text(_) => v := Leaf(ts[i]);
    case Literal(_) => v := Leaf(ts[i]);
    case _ => assert false;
  }

  lemma {:induction false} MembersSound(ts: seq<Token>, i: nat, depth: nat, seen: set<string>)
    returns (members: seq<Member>)
    requires i <= |ts| && depth <= MAX_DEPTH && ConsumeMembers(ts, i, depth, seen).Some?
    ensures FineMembers(members, MAX_DEPTH - depth - 1, seen)
    ensures At(ts, i, MemberTokens(members) + [CloseObject])
    ensures i + |MemberTokens(members)| + 1 == ConsumeMembers(ts, i, depth, seen).value
    decreases |ts| - i, 0
  {
    if !More(ts, i) {
      members := [];
    } else {
      var v := ConsumeSound(ts, i + 1, depth + 1);
      var j := Consume(ts, i + 1, depth + 1).value;
      var rest := MembersSound(ts, j, depth, seen + {ts[i].s});
      members := [Member(ts[i].s, v)] + rest;
      assert members[1..] == rest;
      MemberAt(ts, i, Member(ts[i].s, v), rest);
    }
  }

  /** The tokens of one more member in front of the others. */
  lemma MemberAt(ts: seq<Token>, i: nat, m: Member, rest: seq<Member>)
    requires i < |ts| && ts[i] == Text(m.name) && At(ts, i + 1, Tokens(m.value))
    requires At(ts, i + 1 + |Tokens(m.value)|, MemberTokens(rest) + [CloseObject])
    ensures At(ts, i, MemberTokens([m] + rest) + [CloseObject])
    ensures |MemberTokens([m] + rest)| == 1 + |Tokens(m.value)| + |MemberTokens(rest)|
  {
    MemberTokensCons(m, rest);
    assert ts[i..i + 1] == [ts[i]];
    AtAppend(ts, i + 1, Tokens(m.value), MemberTokens(rest) + [CloseObject]);
    AtAppend(ts, i, [ts[i]], Tokens(m.value) + (MemberTokens(rest) + [CloseObject]));
  }

  lemma MemberParts(ts: seq<Token>, i: nat, m: Member, rest: seq<Member>)
    requires At(ts, i, MemberTokens([m] + rest) + [CloseObject])
    ensures i < |ts| && ts[i] == Text(m.name) && At(ts, i + 1, Tokens(m.value))
    ensures At(ts, i + 1 + |Tokens(m.value)|, MemberTokens(rest) + [CloseObject])
    ensures |MemberTokens([m] + rest)| == 1 + |Tokens(m.value)| + |MemberTokens(rest)|
  {
    MemberTokensCons(m, rest);
    FirstToken(ts, i, Text(m.name), Tokens(m.value) + (MemberTokens(rest) + [CloseObject]));
    AtParts(ts, i + 1, Tokens(m.value), MemberTokens(rest) + [CloseObject]);
  }

  lemma {:induction false} ElementsSound(ts: seq<Token>, i: nat, depth: nat) returns (elements: seq<Value>)
    requires i <= |ts| && depth <= MAX_DEPTH && ConsumeElements(ts, i, depth).Some?
    ensures FineElements(elements, MAX_DEPTH - depth - 1)
    ensures At(ts, i, ElementTokens(elements) + [CloseArray])
    ensures i + |ElementTokens(elements)| + 1 == ConsumeElements(ts, i, depth).value
    decreases |ts| - i, 2
  {
    if !More(ts, i) {
      elements := [];
    } else {
      var v := ConsumeSound(ts, i, depth + 1);
      var j := Consume(ts, i, depth + 1).value;
      var rest := ElementsSound(ts, j, depth);
      elements := [v] + rest;
      assert elements[1..] == rest;
      AtAppend(ts, i, Tokens(v), ElementTokens(rest) + [CloseArray]);
      assert Tokens(v) + (ElementTokens(rest) + [CloseArray]) == ElementTokens(elements) + [CloseArray];
    }
  }

  // ---- Fine values are accepted ----

  lemma TokensStart(v: Value, levels: int)
    requires Fine(v, levels)
    ensures Tokens(v) != [] && !Tokens(v)[0].CloseObject? && !Tokens(v)[0].CloseArray?
  {
  }

  lemma {:induction false} ConsumeComplete(ts: seq<Token>, i: nat, depth: nat, v: Value)
    requires Fine(v, MAX_DEPTH - depth) && At(ts, i, Tokens(v))
    ensures Consume(ts, i, depth) == Some(i + |Tokens(v)|)
    decreases v, 1
  {
    assert ts[i] == Tokens(v)[0] by { assert ts[i..i + |Tokens(v)|][0] == Tokens(v)[0]; }
    match v
    case Leaf(t) =>
    case Object(members) =>
      assert Tokens(v) == [OpenObject] + (MemberTokens(members) + [CloseObject]);
      AtParts(ts, i, [OpenObject], MemberTokens(members) + [CloseObject]);
      MembersComplete(ts, i + 1, depth, {}, members);
    case Array(elements) =>
      assert Tokens(v) == [OpenArray] + (ElementTokens(elements) + [CloseArray]);
      AtParts(ts, i, [OpenArray], ElementTokens(elements) + [CloseArray]);
      ElementsComplete(ts, i + 1, depth, elements);
  }

  lemma {:induction false} MembersComplete(ts: seq<Token>, i: nat, depth: nat, seen: set<string>, members: seq<Member>)
    requires depth <= MAX_DEPTH && FineMembers(members, MAX_DEPTH - depth - 1, seen)
    requires At(ts, i, MemberTokens(members) + [CloseObject])
    ensures ConsumeMembers(ts, i, depth, seen) == Some(i + |MemberTokens(members)| + 1)
    decreases members, 0
  {
    if members == [] {
      FirstToken(ts, i, CloseObject, []);
    } else {
      var m, v := members[0], members[0].value;
      assert members == [m] + members[1..];
      MemberParts(ts, i, m, members[1..]);
      ConsumeComplete(ts, i + 1, depth + 1, v);
      ConsumeOneMember(ts, i, depth, seen, i + 1 + |Tokens(v)|);
      MembersComplete(ts, i + 1 + |Tokens(v)|, depth, seen + {m.name}, members[1..]);
    }
  }

  lemma ConsumeOneMember(ts: seq<Token>, i: nat, depth: nat, seen: set<string>, j: nat)
    requires i < |ts| && ts[i].Text? && ts[i].s !in seen && Consume(ts, i + 1, depth + 1) == Some(j)
    ensures ConsumeMembers(ts, i, depth, seen) == ConsumeMembers(ts, j, depth, seen + {ts[i].s})
  {
  }

  lemma FirstToken(ts: seq<Token>, i: nat, t: Token, rest: seq<Token>)
    requires At(ts, i, [t] + rest)
    ensures i < |ts| && ts[i] == t && At(ts, i + 1, rest)
  {
    AtParts(ts, i, [t], rest);
    assert ts[i] == ts[i..i + 1][0];
  }

  lemma {:induction false} ElementsComplete(ts: seq<Token>, i: nat, depth: nat, elements: seq<Value>)
    requires depth <= MAX_DEPTH && FineElements(elements, MAX_DEPTH - depth - 1)
    requires At(ts, i, ElementTokens(elements) + [CloseArray])
    ensures ConsumeElements(ts, i, depth) == Some(i + |ElementTokens(elements)| + 1)
    decreases elements, 0
  {
    if elements == [] {
      FirstToken(ts, i, CloseArray, []);
    } else {
      var v := elements[0];
      var rest := ElementTokens(elements[1..]) + [CloseArray];
      assert ElementTokens(elements) + [CloseArray] == Tokens(v) + rest;
      AtParts(ts, i, Tokens(v), rest);
      TokensStart(v, MAX_DEPTH - depth - 1);
      assert ts[i] == ts[i..i + |Tokens(v)|][0];
      ConsumeComplete(ts, i, depth + 1, v);
      ElementsComplete(ts, i + |Tokens(v)|, depth, elements[1..]);
    }
  }

  // ---- Main result ----

  /** rejectDuplicateJSONMembers: one value and then the end. */
  predicate Accepts(ts: seq<Token>) { Consume(ts, 0, 0) == Some(|ts|) }

  /** A token stream is accepted exactly when it is the tokens of one value in which no
      object repeats a name and no value lies deeper than sixteen levels. */
  lemma AcceptsExactly(ts: seq<Token>)
    ensures Accepts(ts) <==> exists v :: Fine(v, 16) && Tokens(v) == ts
  {
    if Accepts(ts) {
      var v := ConsumeSound(ts, 0, 0);
      assert ts[0..|ts|] == ts;
    }
    forall v | Fine(v, MAX_DEPTH) && Tokens(v) == ts ensures Accepts(ts) {
      assert ts[0..0 + |Tokens(v)|] == ts;
      ConsumeComplete(ts, 0, 0, v);
    }
  }

  // ---- The decoder and the recursion over it ----

  class Decoder {
    const tokens: seq<Token>
    var pos: nat

    ghost predicate Valid()
      reads this
    {
      pos <= |tokens|
    }

    constructor (stream: seq<Token>)
      ensures Valid() && tokens == stream && pos == 0
    {
      tokens, pos := stream, 0;
    }

    /** Token: None is the end of the text. */
    method Token() returns (t: Option<Token>)
      requires Valid()
      modifies this
      ensures Valid()
      ensures if old(pos) < |tokens| then t == Some(tokens[old(pos)]) && pos == old(pos) + 1
        else t.None? && pos == old(pos)
    {
      if pos == |tokens| { return None; }
      t := Some(tokens[pos]);
      pos := pos + 1;
    }

    /** consumeUniqueJSONValue: it accepts what Consume accepts, and then has read exactly
        the value's own tokens. */
    method ConsumeUniqueValue(depth: nat) returns (ok: bool)
      requires Valid()
      modifies this
      ensures Valid() && pos >= old(pos)
      ensures ok <==> Consume(tokens, old(pos), depth).Some?
      ensures ok ==> pos == Consume(tokens, old(pos), depth).value
      decreases |tokens| - pos, 0
    {
      if depth > MAX_DEPTH { return false; }
      var token := Token();
      if token.None? { return false; }
      match token.value {
        case OpenObject =>
          ok := ConsumeObject(depth);
        case OpenArray =>
          ok := ConsumeArray(depth);
        case Text(_) => ok := true;
        case Literal(_) => ok := true;
        case CloseObject => ok := false;
        case CloseArray => ok := false;
        case Broken => ok := false;
      }
    }

    /** The member loop and its seen map. */
    method ConsumeObject(depth: nat) returns (ok: bool)
      requires Valid() && depth <= MAX_DEPTH
      modifies this
      ensures Valid() && pos >= old(pos)
      ensures ok <==> ConsumeMembers(tokens, old(pos), depth, {}).Some?
      ensures ok ==> pos == ConsumeMembers(tokens, old(pos), depth, {}).value
      decreases |tokens| - pos
    {
      var seen: set<string> := {};
      while More(tokens, pos)
        invariant Valid() && pos >= old(pos)
        invariant ConsumeMembers(tokens, old(pos), depth, {}) == ConsumeMembers(tokens, pos, depth, seen)
        decreases |tokens| - pos
      {
        var member := Token();
        if !member.value.Text? { return false; }
        var name := member.value.s;
        if name in seen { return false; }
        seen := seen + {name};
        var inner := ConsumeUniqueValue(depth + 1);
        if !inner { return false; }
      }
      var closing := Token();
      ok := closing == Some(CloseObject);
    }

    method ConsumeArray(depth: nat) returns (ok: bool)
      requires Valid() && depth <= MAX_DEPTH
      modifies this
      ensures Valid() && pos >= old(pos)
      ensures ok <==> ConsumeElements(tokens, old(pos), depth).Some?
      ensures ok ==> pos == ConsumeElements(tokens, old(pos), depth).value
      decreases |tokens| - pos, 1
    {
      while More(tokens, pos)
        invariant Valid() && pos >= old(pos)
        invariant ConsumeElements(tokens, old(pos), depth) == ConsumeElements(tokens, pos, depth)
        decreases |tokens| - pos
      {
        var inner := ConsumeUniqueValue(depth + 1);
        if !inner { return false; }
      }
      var closing := Token();
      ok := closing == Some(CloseArray);
    }
  }

  /** rejectDuplicateJSONMembers. */
  method RejectDuplicateMembers(tokens: seq<Token>) returns (accepted: bool)
    ensures accepted <==> exists v :: Fine(v, 16) && Tokens(v) == tokens
  {
    AcceptsExactly(tokens);
    var decoder := new Decoder(tokens);
    accepted := decoder.ConsumeUniqueValue(0);
    if !accepted { return; }
    var trailing := decoder.Token();
    accepted := trailing.None?;
  }
}
