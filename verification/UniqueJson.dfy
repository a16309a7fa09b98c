/** The duplicate-name check that runs over a frame's JSON tokens before the frame
    is decoded. */
module UniqueJson {
  import opened Basics

  const MAX_DEPTH := 32

  datatype Json =
    | Scalar
    | Text(s: string)
    | Array(items: seq<Json>)
    | Object(members: seq<Member>)

  datatype Member = Member(name: string, value: Json)

  datatype Token = OpenObject | CloseObject | OpenArray | CloseArray | TextToken(s: string) | ScalarToken

  function Tokens(v: Json): seq<Token>
    decreases v, 1
  {
    match v
    case Scalar => [ScalarToken]
    case Text(s) => [TextToken(s)]
    case Array(items) => [OpenArray] + ItemTokens(items) + [CloseArray]
    case Object(members) => [OpenObject] + MemberTokens(members) + [CloseObject]
  }

  function ItemTokens(items: seq<Json>): seq<Token>
    decreases items, 0
  {
    if items == [] then [] else Tokens(items[0]) + ItemTokens(items[1..])
  }

  function MemberTokens(members: seq<Member>): seq<Token>
    decreases members, 0
  {
    if members == [] then []
    else [TextToken(members[0].name)] + Tokens(members[0].value) + MemberTokens(members[1..])
  }

  // ---- what the check is for ------------------------------------------------

  /** No object, at any level, has two names that agree after folding case. */
  ghost predicate Unique(lower: string -> string, v: Json)
    decreases v
  {
    match v
    case Array(items) => forall i :: 0 <= i < |items| ==> Unique(lower, items[i])
    case Object(members) =>
      && (forall i, j :: 0 <= i < j < |members| ==> lower(members[i].name) != lower(members[j].name))
      && (forall i :: 0 <= i < |members| ==> Unique(lower, members[i].value))
    case _ => true
  }

  /** No value lies inside more than `room` containers. */
  ghost predicate Shallow(v: Json, room: int)
    decreases v
  {
    room >= 0 &&
    match v
    case Array(items) => forall i :: 0 <= i < |items| ==> Shallow(items[i], room - 1)
    case Object(members) => forall i :: 0 <= i < |members| ==> Shallow(members[i].value, room - 1)
    case _ => true
  }

  // ---- the check, on a token list -------------------------------------------

  /** `Decoder.More`: another element before the end of the current container. */
  predicate More(toks: seq<Token>) {
    toks != [] && !toks[0].CloseObject? && !toks[0].CloseArray?
  }

  /** The tokens left after one value, or nothing when the check fails. */
  function Scan(lower: string -> string, toks: seq<Token>, depth: nat): (r: Option<seq<Token>>)
    ensures r.Some? ==> |r.value| < |toks|
    decreases |toks|, 1
  {
    if depth > MAX_DEPTH || toks == [] then None
    else
      match toks[0]
      case OpenObject => ScanMembers(lower, toks[1..], {}, depth)
      case OpenArray => ScanItems(lower, toks[1..], depth)
      case CloseObject => None
      case CloseArray => None
      case _ => Some(toks[1..])
  }

  function ScanMembers(lower: string -> string, toks: seq<Token>, seen: set<string>, depth: nat): (r: Option<seq<Token>>)
    ensures r.Some? ==> |r.value| < |toks|
    decreases |toks|, 0
  {
    if !More(toks) then
      if toks != [] && toks[0] == CloseObject then Some(toks[1..]) else None
    else if !toks[0].TextToken? || lower(toks[0].s) in seen then None
    else
      match Scan(lower, toks[1..], depth + 1)
      case None => None
      case Some(rest) => ScanMembers(lower, rest, seen + {lower(toks[0].s)}, depth)
  }

  function ScanItems(lower: string -> string, toks: seq<Token>, depth: nat): (r: Option<seq<Token>>)
    ensures r.Some? ==> |r.value| < |toks|
    decreases |toks|, 2
  {
    if !More(toks) then
      if toks != [] && toks[0] == CloseArray then Some(toks[1..]) else None
    else
      match Scan(lower, toks, depth + 1)
      case None => None
      case Some(rest) => ScanItems(lower, rest, depth)
  }

  // ---- the check as it runs -------------------------------------------------

  class Decoder {
    var toks: seq<Token>

    method Token() returns (t: Option<Token>)
      modifies this
      ensures old(toks) == [] ==> t == None && toks == []
      ensures old(toks) != [] ==> t == Some(old(toks)[0]) && toks == old(toks)[1..]
    {
      if toks == [] {
        return None;
      }
      t := Some(toks[0]);
      toks := toks[1..];
    }
  }

  /** Recursive descent over the decoder; on success the decoder stands just after
      the value. */
  method CheckUnique(lower: string -> string, d: Decoder, depth: nat) returns (ok: bool)
    modifies d
    ensures ok <==> Scan(lower, old(d.toks), depth).Some?
    ensures ok ==> d.toks == Scan(lower, old(d.toks), depth).value
    decreases |d.toks|, depth
  {
    if depth > MAX_DEPTH {
      return false;
    }
    var t := d.Token();
    if t == None {
      return false;
    }
    match t.value {
      case OpenObject =>
        var seen: set<string> := {};
        ghost var inside := d.toks;
        while More(d.toks)
          invariant |d.toks| < |old(d.toks)|
          invariant ScanMembers(lower, inside, {}, depth) == ScanMembers(lower, d.toks, seen, depth)
          decreases |d.toks|
        {
          var k := d.Token();
          if !k.value.TextToken? {
            return false;
          }
          var name := lower(k.value.s);
          if name in seen {
            return false;
          }
          seen := seen + {name};
          var inner := CheckUnique(lower, d, depth + 1);
          if !inner {
            return false;
          }
        }
        var end := d.Token();
        return end == Some(CloseObject);
      case OpenArray =>
        ghost var inside := d.toks;
        while More(d.toks)
          invariant |d.toks| < |old(d.toks)|
          invariant ScanItems(lower, inside, depth) == ScanItems(lower, d.toks, depth)
          decreases |d.toks|
        {
          var inner := CheckUnique(lower, d, depth + 1);
          if !inner {
            return false;
          }
        }
        var end := d.Token();
        return end == Some(CloseArray);
      case CloseObject => return false;
      case CloseArray => return false;
      case _ => return true;
    }
  }

  // ---- the check decides exactly what it is for -----------------------------

  ghost predicate Accepted(lower: string -> string, v: Json, depth: int) {
    Unique(lower, v) && Shallow(v, MAX_DEPTH - depth)
  }

  lemma TokensStart(v: Json, rest: seq<Token>)
    ensures More(Tokens(v) + rest)
  {
  }

  ghost predicate MembersAccepted(lower: string -> string, members: seq<Member>, seen: set<string>, depth: int) {
    && (forall i :: 0 <= i < |members| ==> lower(members[i].name) !in seen && Accepted(lower, members[i].value, depth + 1))
    && (forall i, j :: 0 <= i < j < |members| ==> lower(members[i].name) != lower(members[j].name))
  }

  ghost predicate ItemsAccepted(lower: string -> string, items: seq<Json>, depth: int) {
    forall i :: 0 <= i < |items| ==> Accepted(lower, items[i], depth + 1)
  }

  lemma MembersAcceptedStep(lower: string -> string, members: seq<Member>, seen: set<string>, depth: int)
    requires members != []
    ensures MembersAccepted(lower, members, seen, depth) <==>
            && lower(members[0].name) !in seen && Accepted(lower, members[0].value, depth + 1)
            && MembersAccepted(lower, members[1..], seen + {lower(members[0].name)}, depth)
  {
    hide Accepted;
    var name := lower(members[0].name);
    assert forall i :: 0 <= i < |members[1..]| ==> members[1..][i] == members[i + 1];
    if lower(members[0].name) !in seen && Accepted(lower, members[0].value, depth + 1)
       && MembersAccepted(lower, members[1..], seen + {name}, depth) {
      forall i | 0 <= i < |members|
        ensures lower(members[i].name) !in seen && Accepted(lower, members[i].value, depth + 1)
        ensures i > 0 ==> lower(members[i].name) != name
      {
        if i > 0 {
          assert members[i] == members[1..][i - 1];
        }
      }
      forall i, j | 0 <= i < j < |members|
        ensures lower(members[i].name) != lower(members[j].name)
      {
        if i > 0 {
          assert members[i] == members[1..][i - 1] && members[j] == members[1..][j - 1];
        }
      }
    }
    if MembersAccepted(lower, members, seen, depth) {
      forall i | 0 <= i < |members[1..]|
        ensures lower(members[1..][i].name) !in seen + {name} && Accepted(lower, members[1..][i].value, depth + 1)
      {
        assert lower(members[0].name) != lower(members[i + 1].name);
      }
    }
  }

  lemma ItemsAcceptedStep(lower: string -> string, items: seq<Json>, depth: int)
    requires items != []
    ensures ItemsAccepted(lower, items, depth) <==>
            Accepted(lower, items[0], depth + 1) && ItemsAccepted(lower, items[1..], depth)
  {
    hide Accepted;
    assert forall i :: 0 <= i < |items[1..]| ==> items[1..][i] == items[i + 1];
    if Accepted(lower, items[0], depth + 1) && ItemsAccepted(lower, items[1..], depth) {
      forall i | 0 <= i < |items|
        ensures Accepted(lower, items[i], depth + 1)
      {
        if i > 0 {
          assert items[i] == items[1..][i - 1];
        }
      }
    }
  }

  /** On the tokens of a value followed by anything, the check succeeds exactly when
      names are unique at every level and nothing is too deep; it then consumes
      exactly that value. */
  lemma {:induction false} ScanExact(lower: string -> string, v: Json, rest: seq<Token>, depth: nat)
    ensures Scan(lower, Tokens(v) + rest, depth) == if Accepted(lower, v, depth) then Some(rest) else None
    decreases v, 1
  {
    hide Accepted, ItemsAccepted, MembersAccepted;
    match v
    case Scalar =>
      LeafAccepted(lower, v, depth);
      assert ([ScalarToken] + rest)[1..] == rest;
    case Text(s) =>
      LeafAccepted(lower, v, depth);
      assert ([TextToken(s)] + rest)[1..] == rest;
    case Array(items) =>
      ItemsExact(lower, items, rest, depth);
      ArrayExact(lower, items, rest, depth);
    case Object(members) =>
      MembersExact(lower, members, {}, rest, depth);
      ObjectExact(lower, members, rest, depth);
  }

  lemma ArrayExact(lower: string -> string, items: seq<Json>, rest: seq<Token>, depth: nat)
    requires ScanItems(lower, ItemTokens(items) + ([CloseArray] + rest), depth) ==
             if ItemsAccepted(lower, items, depth) then Some(rest) else None
    ensures Scan(lower, Tokens(Array(items)) + rest, depth) == if Accepted(lower, Array(items), depth) then Some(rest) else None
  {
    hide Accepted, ItemsAccepted, ScanItems;
    ArrayAccepted(lower, items, depth);
    assert (Tokens(Array(items)) + rest)[1..] == ItemTokens(items) + ([CloseArray] + rest);
  }

  lemma ObjectExact(lower: string -> string, members: seq<Member>, rest: seq<Token>, depth: nat)
    requires ScanMembers(lower, MemberTokens(members) + ([CloseObject] + rest), {}, depth) ==
             if MembersAccepted(lower, members, {}, depth) then Some(rest) else None
    ensures Scan(lower, Tokens(Object(members)) + rest, depth) == if Accepted(lower, Object(members), depth) then Some(rest) else None
  {
    hide Accepted, MembersAccepted, ScanMembers;
    ObjectAccepted(lower, members, depth);
    assert (Tokens(Object(members)) + rest)[1..] == MemberTokens(members) + ([CloseObject] + rest);
  }

  lemma LeafAccepted(lower: string -> string, v: Json, depth: nat)
    requires v.Scalar? || v.Text?
    ensures Accepted(lower, v, depth) <==> depth <= MAX_DEPTH
  {
  }

  lemma ArrayAccepted(lower: string -> string, items: seq<Json>, depth: nat)
    ensures Accepted(lower, Array(items), depth) <==> depth <= MAX_DEPTH && ItemsAccepted(lower, items, depth)
  {
  }

  lemma ObjectAccepted(lower: string -> string, members: seq<Member>, depth: nat)
    ensures Accepted(lower, Object(members), depth) <==> depth <= MAX_DEPTH && MembersAccepted(lower, members, {}, depth)
  {
  }

  lemma {:induction false} ItemsExact(lower: string -> string, items: seq<Json>, rest: seq<Token>, depth: nat)
    ensures ScanItems(lower, ItemTokens(items) + ([CloseArray] + rest), depth) ==
            if ItemsAccepted(lower, items, depth) then Some(rest) else None
    decreases items, 0
  {
    hide Accepted;
    var end := [CloseArray] + rest;
    if items == [] {
      assert ItemTokens(items) + end == end;
    } else {
      var more := ItemTokens(items[1..]) + end;
      assert ItemTokens(items) + end == Tokens(items[0]) + more;
      TokensStart(items[0], more);
      ScanExact(lower, items[0], more, depth + 1);
      ItemsExact(lower, items[1..], rest, depth);
      ItemsAcceptedStep(lower, items, depth);
    }
  }

  lemma {:induction false} MembersExact(lower: string -> string, members: seq<Member>, seen: set<string>,
                                        rest: seq<Token>, depth: nat)
    ensures ScanMembers(lower, MemberTokens(members) + ([CloseObject] + rest), seen, depth) ==
            if MembersAccepted(lower, members, seen, depth) then Some(rest) else None
    decreases members, 0
  {
    hide Accepted;
    var end := [CloseObject] + rest;
    if members == [] {
      assert MemberTokens(members) + end == end;
    } else {
      var more := MemberTokens(members[1..]) + end;
      var toks := MemberTokens(members) + end;
      assert toks == [TextToken(members[0].name)] + (Tokens(members[0].value) + more);
      assert toks[1..] == Tokens(members[0].value) + more;
      ScanExact(lower, members[0].value, more, depth + 1);
      MembersExact(lower, members[1..], seen + {lower(members[0].name)}, rest, depth);
      MembersAcceptedStep(lower, members, seen, depth);
    }
  }

  /** At the top of a frame: the whole body is one value, its names are unique at
      every level, and no value lies inside more than 32 containers. */
  lemma FrameCheckExact(lower: string -> string, v: Json)
    ensures Scan(lower, Tokens(v), 0) == Some([]) <==> Unique(lower, v) && Shallow(v, 32)
    ensures Scan(lower, Tokens(v), 0) == None <==> !(Unique(lower, v) && Shallow(v, 32))
  {
    ScanExact(lower, v, [], 0);
    assert Tokens(v) + [] == Tokens(v);
  }
}
