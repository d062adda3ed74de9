/** The strict JSON reader: bounded nesting, no repeated member names, nulls only on request. */
module Json {
  import opened Options

  /** What the tokenizer yields; `Malformed` stands for a position at which it reports an error. */
  datatype Token =
    | BeginObject | EndObject | BeginArray | EndArray
    | Text(text: string) | Number(digits: string) | Bool(value: bool) | Null
    | Malformed

  datatype Value = Scalar(token: Token) | List(items: seq<Value>) | Record(members: map<string, Value>)

  datatype Result = Ok(value: Value, rest: seq<Token>) | Error

  const MAX_DEPTH := 24

  predicate IsScalar(t: Token, allowNull: bool) {
    t.Text? || t.Number? || t.Bool? || (t.Null? && allowNull)
  }

  predicate Closing(t: Token) {
    t.EndObject? || t.EndArray?
  }

  // ------------------------------------------------ documents as written

  /** A document as written: members keep their order and may repeat a name. */
  datatype Doc = Leaf(token: Token) | Array(items: Docs) | Object(members: Members)
  datatype Docs = NoDocs | MoreDocs(head: Doc, tail: Docs)
  datatype Members = NoMembers | MoreMembers(key: string, head: Doc, tail: Members)

  function Tokens(d: Doc): seq<Token> {
    match d
    case Leaf(t) => [t]
    case Array(items) => [BeginArray] + ItemTokens(items) + [EndArray]
    case Object(members) => [BeginObject] + MemberTokens(members) + [EndObject]
  }

  function ItemTokens(ds: Docs): seq<Token> {
    match ds
    case NoDocs => []
    case MoreDocs(head, tail) => Tokens(head) + ItemTokens(tail)
  }

  function MemberTokens(ms: Members): seq<Token> {
    match ms
    case NoMembers => []
    case MoreMembers(key, head, tail) => [Text(key)] + Tokens(head) + MemberTokens(tail)
  }

  /** The value a document denotes. */
  function Denotes(d: Doc): Value {
    match d
    case Leaf(t) => Scalar(t)
    case Array(items) => List(ItemValues(items))
    case Object(members) => Record(MemberValues(members, map[]))
  }

  function ItemValues(ds: Docs): seq<Value> {
    match ds
    case NoDocs => []
    case MoreDocs(head, tail) => [Denotes(head)] + ItemValues(tail)
  }

  function MemberValues(ms: Members, before: map<string, Value>): map<string, Value> {
    match ms
    case NoMembers => before
    case MoreMembers(key, head, tail) => MemberValues(tail, before[key := Denotes(head)])
  }

  /** Levels of containers holding something: a scalar or an empty container has height zero. */
  function Height(d: Doc): nat {
    match d
    case Leaf(_) => 0
    case Array(items) => ItemsHeight(items)
    case Object(members) => MembersHeight(members)
  }

  function Max(a: nat, b: nat): nat {
    if a < b then b else a
  }

  function ItemsHeight(ds: Docs): nat {
    match ds
    case NoDocs => 0
    case MoreDocs(head, tail) => Max(1 + Height(head), ItemsHeight(tail))
  }

  function MembersHeight(ms: Members): nat {
    match ms
    case NoMembers => 0
    case MoreMembers(_, head, tail) => Max(1 + Height(head), MembersHeight(tail))
  }

  /** Leaves are scalars; with `allowNull` false none of them is null. */
  predicate ScalarLeaves(d: Doc, allowNull: bool) {
    match d
    case Leaf(t) => IsScalar(t, allowNull)
    case Array(items) => ItemsScalar(items, allowNull)
    case Object(members) => MembersScalar(members, allowNull)
  }

  predicate ItemsScalar(ds: Docs, allowNull: bool) {
    match ds
    case NoDocs => true
    case MoreDocs(head, tail) => ScalarLeaves(head, allowNull) && ItemsScalar(tail, allowNull)
  }

  predicate MembersScalar(ms: Members, allowNull: bool) {
    match ms
    case NoMembers => true
    case MoreMembers(_, head, tail) => ScalarLeaves(head, allowNull) && MembersScalar(tail, allowNull)
  }

  /** No object, at any depth, names a member twice. */
  predicate Unrepeated(d: Doc) {
    match d
    case Leaf(_) => true
    case Array(items) => ItemsUnrepeated(items)
    case Object(members) => MembersUnrepeated(members, {})
  }

  predicate ItemsUnrepeated(ds: Docs) {
    match ds
    case NoDocs => true
    case MoreDocs(head, tail) => Unrepeated(head) && ItemsUnrepeated(tail)
  }

  predicate MembersUnrepeated(ms: Members, before: set<string>) {
    match ms
    case NoMembers => true
    case MoreMembers(key, head, tail) =>
      key !in before && Unrepeated(head) && MembersUnrepeated(tail, before + {key})
  }

  /** The documents the reader is meant to accept when it starts at `depth`. */
  predicate Acceptable(d: Doc, depth: nat, allowNull: bool) {
    depth + Height(d) <= MAX_DEPTH && ScalarLeaves(d, allowNull) && Unrepeated(d)
  }

  // ---------------------------------------------- what the reader computes

  function Parse(ts: seq<Token>, depth: nat, allowNull: bool): (r: Result)
    ensures r.Ok? ==> |r.rest| < |ts|
    decreases |ts|, 0
  {
    if depth > MAX_DEPTH || ts == [] then Error
    else if ts[0].BeginObject? then ParseMembers(ts[1..], depth, allowNull, map[])
    else if ts[0].BeginArray? then ParseItems(ts[1..], depth, allowNull, [])
    else if IsScalar(ts[0], allowNull) then Ok(Scalar(ts[0]), ts[1..])
    else Error
  }

  function ParseMembers(ts: seq<Token>, depth: nat, allowNull: bool, found: map<string, Value>): (r: Result)
    ensures r.Ok? ==> |r.rest| < |ts|
    decreases |ts|, 1
  {
    if ts == [] || ts[0].EndArray? then Error
    else if ts[0].EndObject? then Ok(Record(found), ts[1..])
    else if !ts[0].Text? || ts[0].text in found then Error
    else
      match Parse(ts[1..], depth + 1, allowNull)
      case Error => Error
      case Ok(child, rest) => ParseMembers(rest, depth, allowNull, found[ts[0].text := child])
  }

  function ParseItems(ts: seq<Token>, depth: nat, allowNull: bool, values: seq<Value>): (r: Result)
    ensures r.Ok? ==> |r.rest| < |ts|
    decreases |ts|, 1
  {
    if ts == [] || ts[0].EndObject? then Error
    else if ts[0].EndArray? then Ok(List(values), ts[1..])
    else
      match Parse(ts, depth + 1, allowNull)
      case Error => Error
      case Ok(child, rest) => ParseItems(rest, depth, allowNull, values + [child])
  }

  // --------------------------------------------------------- completeness

  /** Every acceptable document is read back as its value, consuming exactly its tokens. */
  lemma {:induction false} ReadsAcceptable(d: Doc, rest: seq<Token>, depth: nat, allowNull: bool)
    requires Acceptable(d, depth, allowNull)
    ensures Parse(Tokens(d) + rest, depth, allowNull) == Ok(Denotes(d), rest)
    decreases d
  {
    match d
    case Leaf(t) =>
      assert ([t] + rest)[1..] == rest;
    case Array(items) =>
      var ts := Tokens(d) + rest;
      assert ts[1..] == ItemTokens(items) + ([EndArray] + rest);
      ReadsItems(items, rest, depth, allowNull, []);
      assert [] + ItemValues(items) == ItemValues(items);
    case Object(members) =>
      var ts := Tokens(d) + rest;
      assert ts[1..] == MemberTokens(members) + ([EndObject] + rest);
      var none: map<string, Value> := map[];
      assert none.Keys == {};
      ReadsMembers(members, rest, depth, allowNull, none);
  }

  lemma {:induction false} FirstToken(d: Doc, allowNull: bool)
    requires ScalarLeaves(d, allowNull)
    ensures Tokens(d) != [] && !Closing(Tokens(d)[0])
  {
  }

  lemma {:induction false} ReadsItems(ds: Docs, rest: seq<Token>, depth: nat, allowNull: bool, before: seq<Value>)
    requires depth + ItemsHeight(ds) <= MAX_DEPTH && ItemsScalar(ds, allowNull) && ItemsUnrepeated(ds)
    ensures ParseItems(ItemTokens(ds) + ([EndArray] + rest), depth, allowNull, before) == Ok(List(before + ItemValues(ds)), rest)
    decreases ds
  {
    var ts := ItemTokens(ds) + ([EndArray] + rest);
    match ds
    case NoDocs =>
      assert ts == [EndArray] + rest;
      assert ts[1..] == rest && before + [] == before;
    case MoreDocs(head, tail) =>
      var more := ItemTokens(tail) + ([EndArray] + rest);
      assert ts == Tokens(head) + more;
      FirstToken(head, allowNull);
      ReadsAcceptable(head, more, depth + 1, allowNull);
      ReadsItems(tail, rest, depth, allowNull, before + [Denotes(head)]);
      assert before + [Denotes(head)] + ItemValues(tail) == before + ItemValues(ds);
  }

  /** Reading one member and going on. */
  lemma {:induction false} ReadsOneMember(ts: seq<Token>, depth: nat, allowNull: bool, before: map<string, Value>,
                                          child: Value, rest: seq<Token>)
    requires ts != [] && ts[0].Text? && ts[0].text !in before
    requires Parse(ts[1..], depth + 1, allowNull) == Ok(child, rest)
    ensures ParseMembers(ts, depth, allowNull, before) == ParseMembers(rest, depth, allowNull, before[ts[0].text := child])
  {
  }

  lemma {:induction false} MemberAhead(key: string, head: Doc, tail: Members, rest: seq<Token>)
    ensures var ts := MemberTokens(MoreMembers(key, head, tail)) + ([EndObject] + rest);
            ts[0] == Text(key) && ts[1..] == Tokens(head) + (MemberTokens(tail) + ([EndObject] + rest))
  {
  }

  lemma {:induction false} ReadsMembers(ms: Members, rest: seq<Token>, depth: nat, allowNull: bool, before: map<string, Value>)
    requires depth + MembersHeight(ms) <= MAX_DEPTH && MembersScalar(ms, allowNull)
    requires MembersUnrepeated(ms, before.Keys)
    ensures ParseMembers(MemberTokens(ms) + ([EndObject] + rest), depth, allowNull, before)
            == Ok(Record(MemberValues(ms, before)), rest)
    decreases ms
  {
    var ts := MemberTokens(ms) + ([EndObject] + rest);
    match ms
    case NoMembers =>
      assert ts == [EndObject] + rest;
      assert ts[1..] == rest;
    case MoreMembers(key, head, tail) =>
      var more := MemberTokens(tail) + ([EndObject] + rest);
      var after := before[key := Denotes(head)];
      MemberAhead(key, head, tail, rest);
      ReadsAcceptable(head, more, depth + 1, allowNull);
      ReadsOneMember(ts, depth, allowNull, before, Denotes(head), more);
      assert after.Keys == before.Keys + {key};
      ReadsMembers(tail, rest, depth, allowNull, after);
  }

  // ------------------------------------------------------------ soundness

  /** Whatever the reader accepts is an acceptable document followed by the unread rest. */
  lemma {:induction false} AcceptsOnlyAcceptable(ts: seq<Token>, depth: nat, allowNull: bool) returns (d: Doc)
    requires Parse(ts, depth, allowNull).Ok?
    ensures Acceptable(d, depth, allowNull)
    ensures ts == Tokens(d) + Parse(ts, depth, allowNull).rest
    ensures Parse(ts, depth, allowNull).value == Denotes(d)
    decreases |ts|, 2
  {
    if ts[0].BeginObject? {
      d := AcceptsObject(ts, depth, allowNull);
    } else if ts[0].BeginArray? {
      d := AcceptsArray(ts, depth, allowNull);
    } else {
      d := Leaf(ts[0]);
    }
  }

  lemma {:induction false} Bracketed(ts: seq<Token>, open: Token, inner: seq<Token>, close: Token, rest: seq<Token>)
    requires ts != [] && ts[0] == open && ts[1..] == inner + [close] + rest
    ensures ts == [open] + inner + [close] + rest
  {
    assert ts == [open] + ts[1..];
    assert [open] + (inner + [close] + rest) == [open] + inner + [close] + rest;
  }

  lemma {:induction false} AcceptsObject(ts: seq<Token>, depth: nat, allowNull: bool) returns (d: Doc)
    requires ts != [] && ts[0].BeginObject? && Parse(ts, depth, allowNull).Ok?
    ensures Acceptable(d, depth, allowNull) && d.Object?
    ensures ts == Tokens(d) + Parse(ts, depth, allowNull).rest
    ensures Parse(ts, depth, allowNull).value == Denotes(d)
    decreases |ts|, 1
  {
    var none: map<string, Value> := map[];
    assert none.Keys == {};
    var members := AcceptsMembers(ts[1..], depth, allowNull, none);
    d := Object(members);
    Bracketed(ts, BeginObject, MemberTokens(members), EndObject, ParseMembers(ts[1..], depth, allowNull, none).rest);
  }

  lemma {:induction false} AcceptsArray(ts: seq<Token>, depth: nat, allowNull: bool) returns (d: Doc)
    requires ts != [] && ts[0].BeginArray? && Parse(ts, depth, allowNull).Ok?
    ensures Acceptable(d, depth, allowNull) && d.Array?
    ensures ts == Tokens(d) + Parse(ts, depth, allowNull).rest
    ensures Parse(ts, depth, allowNull).value == Denotes(d)
    decreases |ts|, 1
  {
    var items := AcceptsItems(ts[1..], depth, allowNull, []);
    d := Array(items);
    Bracketed(ts, BeginArray, ItemTokens(items), EndArray, ParseItems(ts[1..], depth, allowNull, []).rest);
  }

  lemma {:induction false} AcceptsItems(ts: seq<Token>, depth: nat, allowNull: bool, before: seq<Value>) returns (ds: Docs)
    requires depth <= MAX_DEPTH && ParseItems(ts, depth, allowNull, before).Ok?
    ensures depth + ItemsHeight(ds) <= MAX_DEPTH && ItemsScalar(ds, allowNull) && ItemsUnrepeated(ds)
    ensures ts == ItemTokens(ds) + [EndArray] + ParseItems(ts, depth, allowNull, before).rest
    ensures ParseItems(ts, depth, allowNull, before).value == List(before + ItemValues(ds))
    decreases |ts|, 3
  {
    if ts[0].EndArray? {
      ds := NoDocs;
      assert before + [] == before;
    } else {
      var head := AcceptsOnlyAcceptable(ts, depth + 1, allowNull);
      var child := Parse(ts, depth + 1, allowNull);
      var tail := AcceptsItems(child.rest, depth, allowNull, before + [child.value]);
      ds := MoreDocs(head, tail);
      assert before + [child.value] + ItemValues(tail) == before + ItemValues(ds);
    }
  }

  lemma {:induction false} MemberJoined(ts: seq<Token>, key: string, head: Doc, tail: Members, more: seq<Token>, rest: seq<Token>)
    requires ts != [] && ts[0] == Text(key) && ts[1..] == Tokens(head) + more
    requires more == MemberTokens(tail) + [EndObject] + rest
    ensures ts == MemberTokens(MoreMembers(key, head, tail)) + [EndObject] + rest
  {
    calc {
      ts;
      [Text(key)] + ts[1..];
      [Text(key)] + (Tokens(head) + (MemberTokens(tail) + [EndObject] + rest));
      [Text(key)] + Tokens(head) + MemberTokens(tail) + [EndObject] + rest;
    }
  }

  lemma {:induction false} AcceptsMembers(ts: seq<Token>, depth: nat, allowNull: bool, before: map<string, Value>)
    returns (ms: Members)
    requires depth <= MAX_DEPTH && ParseMembers(ts, depth, allowNull, before).Ok?
    ensures depth + MembersHeight(ms) <= MAX_DEPTH && MembersScalar(ms, allowNull)
    ensures MembersUnrepeated(ms, before.Keys)
    ensures ts == MemberTokens(ms) + [EndObject] + ParseMembers(ts, depth, allowNull, before).rest
    ensures ParseMembers(ts, depth, allowNull, before).value == Record(MemberValues(ms, before))
    decreases |ts|, 3
  {
    if ts[0].EndObject? {
      ms := NoMembers;
    } else {
      var key := ts[0].text;
      var head := AcceptsOnlyAcceptable(ts[1..], depth + 1, allowNull);
      var child := Parse(ts[1..], depth + 1, allowNull);
      ReadsOneMember(ts, depth, allowNull, before, child.value, child.rest);
      var after := before[key := child.value];
      assert after.Keys == before.Keys + {key};
      var tail := AcceptsMembers(child.rest, depth, allowNull, after);
      ms := MoreMembers(key, head, tail);
      MemberJoined(ts, key, head, tail, child.rest, ParseMembers(child.rest, depth, allowNull, after).rest);
    }
  }

  // ----------------------------------------------------------- uniqueness

  /** A token stream starts with at most one document: the tokens of a document determine it. */
  lemma {:induction false} TokensUnambiguous(d: Doc, e: Doc, x: seq<Token>, y: seq<Token>)
    requires ScalarLeaves(d, true) && ScalarLeaves(e, true)
    requires Tokens(d) + x == Tokens(e) + y
    ensures d == e && x == y
    decreases d
  {
    FirstToken(d, true);
    FirstToken(e, true);
    var ts := Tokens(d) + x;
    assert ts[0] == Tokens(d)[0] == Tokens(e)[0];
    match d
    case Leaf(t) =>
      assert x == ts[1..] == y;
    case Array(items) =>
      assert ts[1..] == ItemTokens(items) + ([EndArray] + x) == ItemTokens(e.items) + ([EndArray] + y);
      ItemsUnambiguous(items, e.items, x, y);
    case Object(members) =>
      assert ts[1..] == MemberTokens(members) + ([EndObject] + x) == MemberTokens(e.members) + ([EndObject] + y);
      MembersUnambiguous(members, e.members, x, y);
  }

  lemma {:induction false} ItemsUnambiguous(ds: Docs, es: Docs, x: seq<Token>, y: seq<Token>)
    requires ItemsScalar(ds, true) && ItemsScalar(es, true)
    requires ItemTokens(ds) + ([EndArray] + x) == ItemTokens(es) + ([EndArray] + y)
    ensures ds == es && x == y
    decreases ds
  {
    var ts := ItemTokens(ds) + ([EndArray] + x);
    if ds.MoreDocs? { FirstToken(ds.head, true); assert ts[0] == Tokens(ds.head)[0]; }
    if es.MoreDocs? { FirstToken(es.head, true); assert ts[0] == Tokens(es.head)[0]; }
    if ds.NoDocs? {
      assert ts == [EndArray] + x;
      assert x == ts[1..];
      assert es.NoDocs?;
      assert ts == [EndArray] + y;
      assert y == ts[1..];
    } else {
      assert es.MoreDocs?;
      var restX := ItemTokens(ds.tail) + ([EndArray] + x);
      var restY := ItemTokens(es.tail) + ([EndArray] + y);
      assert Tokens(ds.head) + restX == ts == Tokens(es.head) + restY;
      TokensUnambiguous(ds.head, es.head, restX, restY);
      ItemsUnambiguous(ds.tail, es.tail, x, y);
    }
  }

  lemma {:induction false} MembersUnambiguous(ms: Members, ns: Members, x: seq<Token>, y: seq<Token>)
    requires MembersScalar(ms, true) && MembersScalar(ns, true)
    requires MemberTokens(ms) + ([EndObject] + x) == MemberTokens(ns) + ([EndObject] + y)
    ensures ms == ns && x == y
    decreases ms
  {
    var ts := MemberTokens(ms) + ([EndObject] + x);
    if ms.NoMembers? {
      assert ts == [EndObject] + x;
      assert ts[0] == EndObject && x == ts[1..];
      assert ns.NoMembers?;
      assert ts == [EndObject] + y;
      assert y == ts[1..];
    } else {
      assert ts[0] == Text(ms.key);
      assert ns.MoreMembers?;
      assert ts[0] == Text(ns.key);
      var restX := MemberTokens(ms.tail) + ([EndObject] + x);
      var restY := MemberTokens(ns.tail) + ([EndObject] + y);
      assert Tokens(ms.head) + restX == ts[1..] == Tokens(ns.head) + restY;
      TokensUnambiguous(ms.head, ns.head, restX, restY);
      MembersUnambiguous(ms.tail, ns.tail, x, y);
    }
  }

  lemma {:induction false} NullsOnlyRelax(d: Doc, allowNull: bool)
    requires ScalarLeaves(d, allowNull)
    ensures ScalarLeaves(d, true)
    decreases d
  {
    match d
    case Leaf(_) =>
    case Array(items) => ItemsNullsOnlyRelax(items, allowNull);
    case Object(members) => MembersNullsOnlyRelax(members, allowNull);
  }

  lemma {:induction false} ItemsNullsOnlyRelax(ds: Docs, allowNull: bool)
    requires ItemsScalar(ds, allowNull)
    ensures ItemsScalar(ds, true)
    decreases ds
  {
    if ds.MoreDocs? {
      NullsOnlyRelax(ds.head, allowNull);
      ItemsNullsOnlyRelax(ds.tail, allowNull);
    }
  }

  lemma {:induction false} MembersNullsOnlyRelax(ms: Members, allowNull: bool)
    requires MembersScalar(ms, allowNull)
    ensures MembersScalar(ms, true)
    decreases ms
  {
    if ms.MoreMembers? {
      NullsOnlyRelax(ms.head, allowNull);
      MembersNullsOnlyRelax(ms.tail, allowNull);
    }
  }

  /** On the tokens of any document the reader returns its value exactly when the document is acceptable. */
  lemma {:induction false} ReadsExactlyAcceptable(d: Doc, rest: seq<Token>, depth: nat, allowNull: bool)
    requires ScalarLeaves(d, true)
    ensures Parse(Tokens(d) + rest, depth, allowNull)
            == if Acceptable(d, depth, allowNull) then Ok(Denotes(d), rest) else Error
  {
    if Acceptable(d, depth, allowNull) {
      ReadsAcceptable(d, rest, depth, allowNull);
    } else if Parse(Tokens(d) + rest, depth, allowNull).Ok? {
      var e := AcceptsOnlyAcceptable(Tokens(d) + rest, depth, allowNull);
      NullsOnlyRelax(e, allowNull);
      TokensUnambiguous(d, e, rest, Parse(Tokens(d) + rest, depth, allowNull).rest);
    }
  }

  // ----------------------------------------------------------- the reader

  class Decoder {
    const tokens: seq<Token>
    var position: nat

    constructor (tokens: seq<Token>)
      ensures this.tokens == tokens && position == 0
    {
      this.tokens := tokens;
      position := 0;
    }

    ghost predicate Valid()
      reads this
    {
      position <= |tokens|
    }

    function Unread(): seq<Token>
      requires Valid()
      reads this
    {
      tokens[position..]
    }

    /** Yields the next token; `Malformed` when the input ended or does not scan. */
    method Next() returns (token: Token)
      requires Valid()
      modifies this
      ensures Valid()
      ensures old(Unread()) == [] ==> token == Malformed && Unread() == []
      ensures old(Unread()) != [] ==> token == old(Unread())[0] && Unread() == old(Unread())[1..]
    {
      if position == |tokens| { return Malformed; }
      token := tokens[position];
      position := position + 1;
    }

    /** Whether the container being read has another element. */
    method More() returns (more: bool)
      requires Valid()
      ensures more <==> Unread() != [] && !Closing(Unread()[0])
    {
      more := position < |tokens| && !Closing(tokens[position]);
    }
  }

  ghost predicate Reads(before: seq<Token>, depth: nat, allowNull: bool, result: Option<Value>, after: seq<Token>) {
    match Parse(before, depth, allowNull)
    case Ok(value, rest) => result == Some(value) && after == rest
    case Error => result == None
  }

  method DecodeValue(decoder: Decoder, depth: nat, allowNull: bool) returns (result: Option<Value>)
    requires decoder.Valid()
    modifies decoder
    ensures decoder.Valid() && decoder.position >= old(decoder.position)
    ensures Reads(old(decoder.Unread()), depth, allowNull, result, decoder.Unread())
    decreases |decoder.tokens| - decoder.position
  {
    if depth > MAX_DEPTH { return None; }
    var token := decoder.Next();
    match token
    case Malformed => return None;
    case Null => return if allowNull then Some(Scalar(token)) else None;
    case Text(_) => return Some(Scalar(token));
    case Number(_) => return Some(Scalar(token));
    case Bool(_) => return Some(Scalar(token));
    case EndObject => return None;
    case EndArray => return None;
    case BeginObject =>
      var found: map<string, Value> := map[];
      var more := decoder.More();
      while more
        invariant decoder.Valid() && decoder.position > old(decoder.position)
        invariant more <==> decoder.Unread() != [] && !Closing(decoder.Unread()[0])
        invariant Parse(old(decoder.Unread()), depth, allowNull) == ParseMembers(decoder.Unread(), depth, allowNull, found)
        decreases |decoder.tokens| - decoder.position
      {
        var key := decoder.Next();
        if !key.Text? { return None; }
        if key.text in found { return None; }
        var child := DecodeValue(decoder, depth + 1, allowNull);
        if child.None? { return None; }
        found := found[key.text := child.value];
        more := decoder.More();
      }
      var closing := decoder.Next();
      return if closing.EndObject? then Some(Record(found)) else None;
    case BeginArray =>
      var values: seq<Value> := [];
      var more := decoder.More();
      while more
        invariant decoder.Valid() && decoder.position > old(decoder.position)
        invariant more <==> decoder.Unread() != [] && !Closing(decoder.Unread()[0])
        invariant Parse(old(decoder.Unread()), depth, allowNull) == ParseItems(decoder.Unread(), depth, allowNull, values)
        decreases |decoder.tokens| - decoder.position
      {
        var child := DecodeValue(decoder, depth + 1, allowNull);
        if child.None? { return None; }
        values := values + [child.value];
        more := decoder.More();
      }
      var closing := decoder.Next();
      return if closing.EndArray? then Some(List(values)) else None;
  }

  /** `d` is the whole of `tokens` and acceptable from the top. */
  ghost predicate Documents(tokens: seq<Token>, d: Doc) {
    tokens == Tokens(d) && Acceptable(d, 0, false)
  }

  /** The generic part of reading a document: the size and encoding gate, one value, nothing after it. */
  method DecodeDocument(size: nat, maximum: nat, validText: bool, tokens: seq<Token>) returns (result: Option<Value>)
    ensures result.Some? <==> 0 < size <= maximum && validText && exists d :: Documents(tokens, d)
    ensures forall d | result.Some? && Documents(tokens, d) :: result.value == Denotes(d)
  {
    if size == 0 || size > maximum || !validText { return None; }
    var decoder := new Decoder(tokens);
    assert decoder.Unread() == tokens;
    var value := DecodeValue(decoder, 0, false);
    forall d | Documents(tokens, d) ensures Parse(tokens, 0, false) == Ok(Denotes(d), []) {
      ReadsAcceptable(d, [], 0, false);
      assert tokens + [] == tokens;
    }
    if value.None? { return None; }
    if decoder.position < |tokens| { return None; }
    var d := AcceptsOnlyAcceptable(tokens, 0, false);
    assert Documents(tokens, d);
    result := value;
  }
}
