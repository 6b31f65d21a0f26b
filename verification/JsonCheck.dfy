/** The check that a JSON text is exactly one value in which no object repeats a key, over the
    token stream of a decoder. */
module JsonCheck {
  import opened Counting
  import opened Outcomes

  datatype Token = OpenObject | CloseObject | OpenArray | CloseArray | Str(text: string) | Scalar(id: int)

  /** How the stream goes on after its tokens: end of input, or text the decoder rejects. */
  datatype Ending = EndOfInput | SyntaxError

  datatype Json = Atom(token: Token) | Array(items: Items) | Object(members: Members)
  datatype Items = NoItems | Item(head: Json, tail: Items)
  datatype Members = NoMembers | Member(key: string, value: Json, rest: Members)

  predicate IsAtom(t: Token) { t.Str? || t.Scalar? }

  // ----- the values and their tokens -----

  function Tokens(v: Json): seq<Token> {
    match v
    case Atom(t) => [t]
    case Array(items) => [OpenArray] + ItemTokens(items) + [CloseArray]
    case Object(members) => [OpenObject] + MemberTokens(members) + [CloseObject]
  }

  function ItemTokens(items: Items): seq<Token> {
    match items
    case NoItems => []
    case Item(head, tail) => Tokens(head) + ItemTokens(tail)
  }

  function MemberTokens(members: Members): seq<Token> {
    match members
    case NoMembers => []
    case Member(key, value, rest) => [Str(key)] + Tokens(value) + MemberTokens(rest)
  }

  function Keys(members: Members): seq<string> {
    match members
    case NoMembers => []
    case Member(key, _, rest) => [key] + Keys(rest)
  }

  /** Atoms are atomic tokens, and no object at any depth repeats a key. */
  predicate Clean(v: Json) {
    match v
    case Atom(t) => IsAtom(t)
    case Array(items) => CleanItems(items)
    case Object(members) => Distinct(Keys(members)) && CleanMembers(members)
  }

  predicate CleanItems(items: Items) {
    items.NoItems? || (Clean(items.head) && CleanItems(items.tail))
  }

  predicate CleanMembers(members: Members) {
    members.NoMembers? || (Clean(members.value) && CleanMembers(members.rest))
  }

  // ----- reading as a function -----

  function Read(s: seq<Token>): (r: Outcome<(Json, seq<Token>)>)
    ensures r.Ok? ==> |r.value.1| < |s|
    decreases |s|, 0
  {
    if s == [] then Fail
    else match s[0]
      case OpenObject =>
        var m := ReadMembers(s[1..], {});
        if m.Ok? then Ok((Object(m.value.0), m.value.1)) else Fail
      case OpenArray =>
        var i := ReadItems(s[1..]);
        if i.Ok? then Ok((Array(i.value.0), i.value.1)) else Fail
      case Str(_) => Ok((Atom(s[0]), s[1..]))
      case Scalar(_) => Ok((Atom(s[0]), s[1..]))
      case _ => Fail
  }

  function ReadItems(s: seq<Token>): (r: Outcome<(Items, seq<Token>)>)
    ensures r.Ok? ==> |r.value.1| < |s|
    decreases |s|, 1
  {
    if s == [] || s[0] == CloseObject then Fail
    else if s[0] == CloseArray then Ok((NoItems, s[1..]))
    else
      var v := Read(s);
      if v.Fail? then Fail
      else
        var more := ReadItems(v.value.1);
        if more.Ok? then Ok((Item(v.value.0, more.value.0), more.value.1)) else Fail
  }

  function ReadMembers(s: seq<Token>, seen: set<string>): (r: Outcome<(Members, seq<Token>)>)
    ensures r.Ok? ==> |r.value.1| < |s|
    decreases |s|, 1
  {
    if s == [] || s[0] == CloseArray then Fail
    else if s[0] == CloseObject then Ok((NoMembers, s[1..]))
    else if !s[0].Str? || s[0].text in seen then Fail
    else
      var v := Read(s[1..]);
      if v.Fail? then Fail
      else
        var more := ReadMembers(v.value.1, seen + {s[0].text});
        if more.Ok? then Ok((Member(s[0].text, v.value.0, more.value.0), more.value.1)) else Fail
  }

  // ----- reading is exactly parsing clean values -----

  lemma {:induction false} ReadIsSound(s: seq<Token>)
    requires Read(s).Ok?
    ensures var r := Read(s).value; s == Tokens(r.0) + r.1 && Clean(r.0)
    decreases |s|, 0
  {
    assert s == [s[0]] + s[1..];
    match s[0]
    case OpenObject => MembersAreSound(s[1..], {});
    case OpenArray => ItemsAreSound(s[1..]);
    case _ =>
  }

  lemma {:induction false} ItemsAreSound(s: seq<Token>)
    requires ReadItems(s).Ok?
    ensures var r := ReadItems(s).value; s == ItemTokens(r.0) + [CloseArray] + r.1 && CleanItems(r.0)
    decreases |s|, 1
  {
    if s[0] == CloseArray {
      assert s == [s[0]] + s[1..];
    } else {
      ReadIsSound(s);
      ItemsAreSound(Read(s).value.1);
    }
  }

  lemma {:induction false} MembersAreSound(s: seq<Token>, seen: set<string>)
    requires ReadMembers(s, seen).Ok?
    ensures var r := ReadMembers(s, seen).value;
            && s == MemberTokens(r.0) + [CloseObject] + r.1 && CleanMembers(r.0)
            && Distinct(Keys(r.0)) && forall k :: k in Keys(r.0) ==> k !in seen
    decreases |s|, 1
  {
    assert s == [s[0]] + s[1..];
    if s[0] != CloseObject {
      ReadIsSound(s[1..]);
      MembersAreSound(Read(s[1..]).value.1, seen + {s[0].text});
    }
  }

  lemma {:induction false} ReadIsComplete(v: Json, rest: seq<Token>)
    requires Clean(v)
    ensures Read(Tokens(v) + rest) == Ok((v, rest))
    decreases v, 0
  {
    var s := Tokens(v) + rest;
    match v
    case Atom(t) => assert s[1..] == rest;
    case Array(items) =>
      assert s[1..] == ItemTokens(items) + ([CloseArray] + rest);
      ItemsAreComplete(items, rest);
    case Object(members) =>
      assert s[1..] == MemberTokens(members) + ([CloseObject] + rest);
      MembersAreComplete(members, {}, rest);
  }

  lemma FirstToken(v: Json)
    requires Clean(v)
    ensures Tokens(v) != [] && Tokens(v)[0] != CloseArray && Tokens(v)[0] != CloseObject
  {
  }

  lemma {:induction false} ItemsAreComplete(items: Items, rest: seq<Token>)
    requires CleanItems(items)
    ensures ReadItems(ItemTokens(items) + ([CloseArray] + rest)) == Ok((items, rest))
    decreases items, 1
  {
    var tail := [CloseArray] + rest;
    match items
    case NoItems =>
      assert ItemTokens(items) + tail == tail && tail[1..] == rest;
    case Item(head, more) =>
      FirstToken(head);
      assert ItemTokens(items) + tail == Tokens(head) + (ItemTokens(more) + tail);
      ReadIsComplete(head, ItemTokens(more) + tail);
      ItemsAreComplete(more, rest);
  }

  lemma {:induction false} MembersAreComplete(members: Members, seen: set<string>, rest: seq<Token>)
    requires CleanMembers(members) && Distinct(Keys(members)) && forall k :: k in Keys(members) ==> k !in seen
    ensures ReadMembers(MemberTokens(members) + ([CloseObject] + rest), seen) == Ok((members, rest))
    decreases members, 1
  {
    var tail := [CloseObject] + rest;
    match members
    case NoMembers =>
      assert MemberTokens(members) + tail == tail && tail[1..] == rest;
    case Member(key, value, more) =>
      var s := MemberTokens(members) + tail;
      MemberTokensSplit(key, value, more, tail);
      ReadIsComplete(value, MemberTokens(more) + tail);
      KeysSplit(members);
      MembersAreComplete(more, seen + {key}, rest);
      OneMemberMore(s, seen, key, value, MemberTokens(more) + tail, more, rest);
  }

  lemma MemberTokensSplit(key: string, value: Json, more: Members, tail: seq<Token>)
    ensures var s := MemberTokens(Member(key, value, more)) + tail;
            s != [] && s[0] == Str(key) && s[1..] == Tokens(value) + (MemberTokens(more) + tail)
  {
    var s := MemberTokens(Member(key, value, more)) + tail;
    assert s == [Str(key)] + (Tokens(value) + (MemberTokens(more) + tail));
  }

  lemma OneMemberMore(s: seq<Token>, seen: set<string>, key: string, value: Json, after: seq<Token>, more: Members,
      rest: seq<Token>)
    requires s != [] && s[0] == Str(key) && key !in seen && Read(s[1..]) == Ok((value, after))
    requires ReadMembers(after, seen + {key}) == Ok((more, rest))
    ensures ReadMembers(s, seen) == Ok((Member(key, value, more), rest))
  {
  }

  lemma KeysSplit(members: Members)
    requires members.Member? && Distinct(Keys(members))
    ensures Distinct(Keys(members.rest)) && members.key !in Keys(members.rest) && members.key in Keys(members)
    ensures forall k :: k in Keys(members.rest) ==> k in Keys(members)
  {
    var keys := Keys(members);
    assert keys[0] == members.key;
    assert forall i :: 0 <= i < |Keys(members.rest)| ==> Keys(members.rest)[i] == keys[i + 1];
  }

  /** A value is read exactly when the stream starts with the tokens of a clean value, and then
      exactly those tokens are consumed. */
  lemma ReadMeansStartsWithValue(s: seq<Token>, v: Json, rest: seq<Token>)
    ensures Read(s) == Ok((v, rest)) <==> Clean(v) && s == Tokens(v) + rest
  {
    if Read(s) == Ok((v, rest)) { ReadIsSound(s); }
    if Clean(v) && s == Tokens(v) + rest { ReadIsComplete(v, rest); }
  }

  // ----- the checker over a stateful decoder -----

  class Decoder {
    var left: seq<Token>
    const ending: Ending

    constructor (tokens: seq<Token>, ending: Ending)
      ensures left == tokens && this.ending == ending
    {
      left := tokens;
      this.ending := ending;
    }

    method Next() returns (r: Outcome<Token>)
      modifies this
      ensures r.Ok? <==> old(left) != []
      ensures r.Ok? ==> r.value == old(left)[0] && left == old(left)[1..]
      ensures r.Fail? ==> left == old(left)
    {
      if left == [] {
        return Fail;
      }
      r := Ok(left[0]);
      left := left[1..];
    }

    /** Another element follows unless the next token closes, or the input has ended. */
    function More(): bool
      reads this
    {
      if left == [] then ending == SyntaxError else left[0] != CloseArray && left[0] != CloseObject
    }

    /** Reads one value and consumes exactly its tokens, or fails. */
    method CheckValue() returns (ok: bool)
      modifies this
      ensures ok <==> Read(old(left)).Ok?
      ensures ok ==> left == Read(old(left)).value.1
      ensures |left| <= |old(left)|
      decreases |left|, 0
    {
      var token := Next();
      if token.Fail? {
        return false;
      }
      if token.value == OpenObject {
        ok := CheckMembers();
      } else if token.value == OpenArray {
        ok := CheckItems();
      } else {
        ok := IsAtom(token.value);
      }
    }

    method CheckItems() returns (ok: bool)
      modifies this
      ensures ok <==> ReadItems(old(left)).Ok?
      ensures ok ==> left == ReadItems(old(left)).value.1
      ensures |left| <= |old(left)|
      decreases |left|, 1
    {
      while More()
        invariant ReadItems(old(left)).Ok? <==> ReadItems(left).Ok?
        invariant ReadItems(left).Ok? ==> ReadItems(old(left)).value.1 == ReadItems(left).value.1
        invariant |left| <= |old(left)|
        decreases |left|
      {
        ok := CheckValue();
        if !ok {
          return false;
        }
      }
      var end := Next();
      ok := end == Ok(CloseArray);
    }

    method CheckMembers() returns (ok: bool)
      modifies this
      ensures ok <==> ReadMembers(old(left), {}).Ok?
      ensures ok ==> left == ReadMembers(old(left), {}).value.1
      ensures |left| <= |old(left)|
      decreases |left|, 1
    {
      var seen: set<string> := {};
      while More()
        invariant ReadMembers(old(left), {}).Ok? <==> ReadMembers(left, seen).Ok?
        invariant ReadMembers(left, seen).Ok? ==> ReadMembers(old(left), {}).value.1 == ReadMembers(left, seen).value.1
        invariant |left| <= |old(left)|
        decreases |left|
      {
        var key := Next();
        if key.Fail? || !key.value.Str? || key.value.text in seen {
          return false;
        }
        seen := seen + {key.value.text};
        ok := CheckValue();
        if !ok {
          return false;
        }
      }
      var end := Next();
      ok := end == Ok(CloseObject);
    }

    /** The whole check: one value, then the end of the input. */
    method Check() returns (ok: bool)
      modifies this
      ensures ok <==> ending == EndOfInput && exists v :: Clean(v) && old(left) == Tokens(v)
    {
      ghost var all := left;
      ok := CheckValue();
      ghost var rest := left;
      if ok {
        ReadIsSound(all);
        var next := Next();
        ok := next.Fail? && ending == EndOfInput;
        if ok { assert all == Tokens(Read(all).value.0); }
      }
      forall v | Clean(v) && all == Tokens(v) ensures Read(all) == Ok((v, [])) {
        assert Tokens(v) + [] == all;
        ReadIsComplete(v, []);
      }
    }
  }
}
