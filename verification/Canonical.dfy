/**
 The canonical text of a JSON value, which together with the endpoint identifies a request.

 Text is UTF-16, as in JavaScript: a string can hold a surrogate without its partner.  A number is
 known by the token it prints as.
 */
module Canonical {
  type Unit = u: nat | u < 0x10000

  type Text = seq<Unit>

  // Huge stands for a number beyond the range of a double, which is parsed to infinity.
  datatype Json =
    | Null | Bool(value: bool) | Number(token: Text) | Huge | Str(text: Text)
    | Arr(items: Items) | Obj(members: Members)

  datatype Items = NoItems | Item(head: Json, tail: Items)

  datatype Members = NoMembers | Member(key: Text, value: Json, rest: Members)

  const QUOTE: Unit := 34
  const COMMA: Unit := 44
  const COLON: Unit := 58
  const OPEN: Unit := 91
  const BACKSLASH: Unit := 92
  const CLOSE: Unit := 93
  const LOWER_U: Unit := 117
  const BEGIN: Unit := 123
  const END: Unit := 125
  const NEWLINE: Unit := 10

  const NULL_TEXT: Text := [110, 117, 108, 108]
  const TRUE_TEXT: Text := [116, 114, 117, 101]
  const FALSE_TEXT: Text := [102, 97, 108, 115, 101]

  predicate High(u: Unit) { 0xD800 <= u < 0xDC00 }
  predicate Low(u: Unit) { 0xDC00 <= u < 0xE000 }

  // Digits, sign, point, exponent.
  predicate NumberUnit(u: Unit) {
    48 <= u <= 57 || u == 43 || u == 45 || u == 46 || u == 69 || u == 101
  }

  predicate NumberToken(token: Text) {
    |token| > 0 && (token[0] == 45 || 48 <= token[0] <= 57) && forall i :: 0 <= i < |token| ==> NumberUnit(token[i])
  }

  // ---------------------------------------------------------------- strings

  function HexDigit(n: nat): Unit
    requires n < 16
  {
    if n < 10 then 48 + n else 87 + n
  }

  function Hex4(u: Unit): (t: Text)
    ensures |t| == 4
  {
    [HexDigit(u / 4096), HexDigit(u / 256 % 16), HexDigit(u / 16 % 16), HexDigit(u % 16)]
  }

  // The short escapes.
  function Short(u: Unit): Unit {
    if u == 8 then 98 else if u == 9 then 116 else if u == 10 then 110 else if u == 12 then 102
    else if u == 13 then 114 else u
  }

  predicate HasShort(u: Unit) {
    u in {8, 9, 10, 12, 13, QUOTE, BACKSLASH}
  }

  // How JSON.stringify writes the unit at the front of a string, and how many units it takes.
  function Escaped(s: Text): Text
    requires |s| > 0
  {
    var u := s[0];
    if HasShort(u) then [BACKSLASH, Short(u)]
    else if High(u) && |s| > 1 && Low(s[1]) then [u, s[1]]
    else if u < 32 || High(u) || Low(u) then [BACKSLASH, LOWER_U] + Hex4(u)
    else [u]
  }

  function Taken(s: Text): (n: nat)
    requires |s| > 0
    ensures 1 <= n <= |s|
  {
    if High(s[0]) && |s| > 1 && Low(s[1]) then 2 else 1
  }

  function EscapeAll(s: Text): Text
    decreases |s|
  {
    if |s| == 0 then [] else Escaped(s) + EscapeAll(s[Taken(s)..])
  }

  function Quoted(s: Text): Text {
    [QUOTE] + EscapeAll(s) + [QUOTE]
  }

  // ---------------------------------------------------------------- canonicalize

  // a < b on strings compares code units.
  predicate Less(a: Text, b: Text) {
    |b| > 0 && (|a| == 0 || a[0] < b[0] || (a[0] == b[0] && Less(a[1..], b[1..])))
  }

  function Size(v: Json): nat {
    match v
    case Arr(items) => 1 + ItemsSize(items)
    case Obj(members) => 1 + MembersSize(members)
    case _ => 0
  }

  function ItemsSize(items: Items): nat {
    match items
    case NoItems => 0
    case Item(head, tail) => 1 + Size(head) + ItemsSize(tail)
  }

  function MembersSize(members: Members): nat {
    match members
    case NoMembers => 0
    case Member(_, value, rest) => 1 + Size(value) + MembersSize(rest)
  }

  function InsertMember(key: Text, value: Json, members: Members): (r: Members)
    ensures MembersSize(r) == 1 + Size(value) + MembersSize(members)
  {
    match members
    case NoMembers => Member(key, value, NoMembers)
    case Member(k, v, rest) =>
      if Less(k, key) then Member(k, v, InsertMember(key, value, rest)) else Member(key, value, members)
  }

  function SortMembers(members: Members): (r: Members)
    ensures MembersSize(r) == MembersSize(members)
  {
    match members
    case NoMembers => NoMembers
    case Member(key, value, rest) => InsertMember(key, value, SortMembers(rest))
  }

  function Canonicalize(v: Json): Text
    decreases Size(v)
  {
    match v
    case Null => NULL_TEXT
    case Huge => NULL_TEXT
    case Bool(b) => if b then TRUE_TEXT else FALSE_TEXT
    case Number(token) => token
    case Str(s) => Quoted(s)
    case Arr(items) => [OPEN] + JoinItems(items) + [CLOSE]
    case Obj(members) => [BEGIN] + JoinMembers(SortMembers(members)) + [END]
  }

  function JoinItems(items: Items): Text
    decreases ItemsSize(items)
  {
    match items
    case NoItems => []
    case Item(head, tail) =>
      if tail.NoItems? then Canonicalize(head) else Canonicalize(head) + [COMMA] + JoinItems(tail)
  }

  function JoinMembers(members: Members): Text
    decreases MembersSize(members)
  {
    match members
    case NoMembers => []
    case Member(key, value, rest) =>
      var text := Quoted(key) + [COLON] + Canonicalize(value);
      if rest.NoMembers? then text else text + [COMMA] + JoinMembers(rest)
  }

  // The text fed to the hash.
  function RequestText(endpoint: Text, body: Json): Text {
    endpoint + [NEWLINE] + Canonicalize(body)
  }

  // ---------------------------------------------------------------- a reader for the grammar

  datatype Read<+T> = Bad | Good(value: T, rest: Text)

  function HexValue(u: Unit): (n: int)
    ensures -1 <= n < 16
  {
    if 48 <= u <= 57 then u - 48 else if 97 <= u <= 102 then u - 87 else if 65 <= u <= 70 then u - 55 else -1
  }

  function ReadHex4(t: Text): Read<Unit> {
    if |t| < 4 then Bad
    else
      var a, b, c, d := HexValue(t[0]), HexValue(t[1]), HexValue(t[2]), HexValue(t[3]);
      if a < 0 || b < 0 || c < 0 || d < 0 then Bad else Good(((a * 16 + b) * 16 + c) * 16 + d, t[4..])
  }

  // What follows a backslash.
  function ReadEscape(t: Text): (r: Read<Unit>)
    ensures r.Good? ==> |r.rest| < |t|
  {
    if |t| == 0 then Bad
    else if t[0] == LOWER_U then ReadHex4(t[1..])
    else if t[0] == QUOTE || t[0] == BACKSLASH || t[0] == 47 then Good(t[0], t[1..])
    else if t[0] == 98 then Good(8, t[1..])
    else if t[0] == 116 then Good(9, t[1..])
    else if t[0] == 110 then Good(10, t[1..])
    else if t[0] == 102 then Good(12, t[1..])
    else if t[0] == 114 then Good(13, t[1..])
    else Bad
  }

  // Up to and including the closing quotation mark.
  function ReadChars(t: Text): (r: Read<Text>)
    ensures r.Good? ==> |r.rest| < |t|
    decreases |t|
  {
    if |t| == 0 || t[0] < 32 then Bad
    else if t[0] == QUOTE then Good([], t[1..])
    else
      var first := if t[0] == BACKSLASH then ReadEscape(t[1..]) else Good(t[0], t[1..]);
      if first.Bad? then Bad
      else
        var more := ReadChars(first.rest);
        if more.Bad? then Bad else Good([first.value] + more.value, more.rest)
  }

  function ReadNumber(t: Text): (r: Read<Text>)
    ensures r.Good? && |r.rest| + |r.value| == |t|
  {
    if |t| == 0 || !NumberUnit(t[0]) then Good([], t)
    else
      var more := ReadNumber(t[1..]);
      Good([t[0]] + more.value, more.rest)
  }

  function ReadWord(t: Text, word: Text, v: Json): (r: Read<Json>)
    requires |word| > 0
    ensures r.Good? ==> |r.rest| < |t|
  {
    if word <= t then Good(v, t[|word|..]) else Bad
  }

  function ReadValue(t: Text): (r: Read<Json>)
    ensures r.Good? ==> |r.rest| < |t|
    decreases |t|, 0
  {
    if |t| == 0 then Bad
    else if t[0] == 110 then ReadWord(t, NULL_TEXT, Null)
    else if t[0] == 116 then ReadWord(t, TRUE_TEXT, Bool(true))
    else if t[0] == 102 then ReadWord(t, FALSE_TEXT, Bool(false))
    else if t[0] == QUOTE then
      var s := ReadChars(t[1..]);
      if s.Bad? then Bad else Good(Str(s.value), s.rest)
    else if t[0] == OPEN then
      if |t| > 1 && t[1] == CLOSE then Good(Arr(NoItems), t[2..])
      else
        var items := ReadItems(t[1..]);
        if items.Bad? then Bad else Good(Arr(items.value), items.rest)
    else if t[0] == BEGIN then
      if |t| > 1 && t[1] == END then Good(Obj(NoMembers), t[2..])
      else
        var members := ReadMembers(t[1..]);
        if members.Bad? then Bad else Good(Obj(members.value), members.rest)
    else
      var n := ReadNumber(t);
      if NumberToken(n.value) then Good(Number(n.value), n.rest) else Bad
  }

  // value *( , value ) ]
  function ReadItems(t: Text): (r: Read<Items>)
    ensures r.Good? ==> |r.rest| < |t|
    decreases |t|, 1
  {
    var v := ReadValue(t);
    if v.Bad? || |v.rest| == 0 then Bad
    else if v.rest[0] == CLOSE then Good(Item(v.value, NoItems), v.rest[1..])
    else if v.rest[0] != COMMA then Bad
    else
      var more := ReadItems(v.rest[1..]);
      if more.Bad? then Bad else Good(Item(v.value, more.value), more.rest)
  }

  // string : value *( , string : value ) }
  function ReadMembers(t: Text): (r: Read<Members>)
    ensures r.Good? ==> |r.rest| < |t|
    decreases |t|, 1
  {
    if |t| == 0 || t[0] != QUOTE then Bad
    else
      var key := ReadChars(t[1..]);
      if key.Bad? || |key.rest| == 0 || key.rest[0] != COLON then Bad
      else
        var v := ReadValue(key.rest[1..]);
        if v.Bad? || |v.rest| == 0 then Bad
        else if v.rest[0] == END then Good(Member(key.value, v.value, NoMembers), v.rest[1..])
        else if v.rest[0] != COMMA then Bad
        else
          var more := ReadMembers(v.rest[1..]);
          if more.Bad? then Bad else Good(Member(key.value, v.value, more.value), more.rest)
  }

  // ---------------------------------------------------------------- strings read back

  lemma HexDigits(u: Unit)
    ensures u == ((u / 4096 * 16 + u / 256 % 16) * 16 + u / 16 % 16) * 16 + u % 16
  {
    assert u / 16 == u / 256 * 16 + u / 16 % 16;
    assert u / 256 == u / 4096 * 16 + u / 256 % 16;
  }

  lemma HexDigitReads(n: nat)
    requires n < 16
    ensures HexValue(HexDigit(n)) == n
  {
  }

  lemma HexReadsBack(u: Unit, rest: Text)
    ensures ReadHex4(Hex4(u) + rest) == Good(u, rest)
  {
    assert (Hex4(u) + rest)[4..] == rest;
    HexDigits(u);
    HexDigitReads(u / 4096);
    HexDigitReads(u / 256 % 16);
    HexDigitReads(u / 16 % 16);
    HexDigitReads(u % 16);
  }

  lemma RawReads(u: Unit, t: Text, value: Text, rest: Text)
    requires u >= 32 && u != QUOTE && u != BACKSLASH && ReadChars(t) == Good(value, rest)
    ensures ReadChars([u] + t) == Good([u] + value, rest)
  {
    assert ([u] + t)[1..] == t;
  }

  lemma PairReads(high: Unit, low: Unit, t: Text, value: Text, rest: Text)
    requires High(high) && Low(low) && ReadChars(t) == Good(value, rest)
    ensures ReadChars([high, low] + t) == Good([high, low] + value, rest)
  {
    RawReads(low, t, value, rest);
    RawReads(high, [low] + t, [low] + value, rest);
    assert [high, low] + t == [high] + ([low] + t);
    assert [high, low] + value == [high] + ([low] + value);
  }

  lemma EscapeReads(escape: Text, u: Unit, t: Text, value: Text, rest: Text)
    requires ReadEscape(escape + t) == Good(u, t) && ReadChars(t) == Good(value, rest)
    ensures ReadChars([BACKSLASH] + escape + t) == Good([u] + value, rest)
  {
    assert ([BACKSLASH] + escape + t)[1..] == escape + t;
  }

  lemma ShortReads(u: Unit, t: Text)
    requires HasShort(u)
    ensures ReadEscape([Short(u)] + t) == Good(u, t)
  {
    assert ([Short(u)] + t)[1..] == t;
  }

  lemma LongReads(u: Unit, t: Text)
    ensures ReadEscape([LOWER_U] + Hex4(u) + t) == Good(u, t)
  {
    assert ([LOWER_U] + Hex4(u) + t)[1..] == Hex4(u) + t;
    HexReadsBack(u, t);
  }

  // The front of a string, written and read.
  lemma FrontReadsBack(s: Text, t: Text, value: Text, rest: Text)
    requires |s| > 0 && ReadChars(t) == Good(value, rest)
    ensures ReadChars(Escaped(s) + t) == Good(s[..Taken(s)] + value, rest)
  {
    var u := s[0];
    if HasShort(u) {
      ShortReads(u, t);
      EscapeReads([Short(u)], u, t, value, rest);
      assert Escaped(s) == [BACKSLASH] + [Short(u)];
      assert s[..1] == [u];
    } else if Taken(s) == 2 {
      PairReads(u, s[1], t, value, rest);
      assert s[..2] == [u, s[1]];
    } else if u < 32 || High(u) || Low(u) {
      LongReads(u, t);
      EscapeReads([LOWER_U] + Hex4(u), u, t, value, rest);
      assert Escaped(s) == [BACKSLASH] + ([LOWER_U] + Hex4(u));
      assert s[..1] == [u];
    } else {
      RawReads(u, t, value, rest);
      assert s[..1] == [u];
    }
  }

  lemma Regroup(a: Text, b: Text, c: Text, d: Text)
    ensures a + b + c + d == a + (b + c + d)
  {
  }

  lemma {:induction false} CharsReadBack(s: Text, rest: Text)
    ensures ReadChars(EscapeAll(s) + [QUOTE] + rest) == Good(s, rest)
    decreases |s|
  {
    if |s| == 0 {
      assert EscapeAll(s) + [QUOTE] + rest == [QUOTE] + rest;
    } else {
      var tail := s[Taken(s)..];
      CharsReadBack(tail, rest);
      FrontReadsBack(s, EscapeAll(tail) + [QUOTE] + rest, tail, rest);
      Regroup(Escaped(s), EscapeAll(tail), [QUOTE], rest);
      assert s == s[..Taken(s)] + tail;
    }
  }

  // ---------------------------------------------------------------- values read back

  predicate HasKey(members: Members, key: Text) {
    members.Member? && (members.key == key || HasKey(members.rest, key))
  }

  // What JSON.parse yields: numbers that print as number tokens, and no key twice in an object.
  predicate Proper(v: Json) {
    match v
    case Number(token) => NumberToken(token)
    case Arr(items) => ProperItems(items)
    case Obj(members) => ProperMembers(members)
    case _ => true
  }

  predicate ProperItems(items: Items) {
    items.Item? ==> Proper(items.head) && ProperItems(items.tail)
  }

  predicate ProperMembers(members: Members) {
    members.Member? ==> !HasKey(members.rest, members.key) && Proper(members.value) && ProperMembers(members.rest)
  }

  // The value with the members of every object in key order, as far as JSON text can tell values apart.
  function SortKeys(v: Json): Json
    decreases Size(v)
  {
    match v
    case Huge => Null
    case Arr(items) => Arr(SortItems(items))
    case Obj(members) => Obj(SortValues(SortMembers(members)))
    case _ => v
  }

  function SortItems(items: Items): Items
    decreases ItemsSize(items)
  {
    match items
    case NoItems => NoItems
    case Item(head, tail) => Item(SortKeys(head), SortItems(tail))
  }

  function SortValues(members: Members): Members
    decreases MembersSize(members)
  {
    match members
    case NoMembers => NoMembers
    case Member(key, value, rest) => Member(key, SortKeys(value), SortValues(rest))
  }

  lemma {:induction false} InsertIsProper(key: Text, value: Json, members: Members)
    requires ProperMembers(members) && Proper(value) && !HasKey(members, key)
    ensures ProperMembers(InsertMember(key, value, members))
    ensures forall k :: HasKey(InsertMember(key, value, members), k) <==> k == key || HasKey(members, k)
  {
    if members.Member? {
      InsertIsProper(key, value, members.rest);
    }
  }

  lemma {:induction false} SortIsProper(members: Members)
    requires ProperMembers(members)
    ensures ProperMembers(SortMembers(members))
    ensures forall k :: HasKey(SortMembers(members), k) <==> HasKey(members, k)
  {
    if members.Member? {
      SortIsProper(members.rest);
      InsertIsProper(members.key, members.value, SortMembers(members.rest));
    }
  }

  // A number ends where no digit follows.
  predicate Stops(rest: Text) {
    |rest| == 0 || !NumberUnit(rest[0])
  }

  lemma {:induction false} NumberReadsBack(token: Text, rest: Text)
    requires Stops(rest) && forall i :: 0 <= i < |token| ==> NumberUnit(token[i])
    ensures ReadNumber(token + rest) == Good(token, rest)
  {
    if |token| == 0 {
      assert token + rest == rest;
    } else {
      NumberReadsBack(token[1..], rest);
      assert (token + rest)[1..] == token[1..] + rest;
      assert token == [token[0]] + token[1..];
    }
  }

  lemma NumberValueReadsBack(token: Text, rest: Text)
    requires Stops(rest) && NumberToken(token)
    ensures ReadValue(token + rest) == Good(Number(token), rest)
  {
    NumberReadsBack(token, rest);
    assert (token + rest)[0] == token[0];
  }

  lemma StringReadsBack(s: Text, rest: Text)
    ensures ReadChars((Quoted(s) + rest)[1..]) == Good(s, rest)
    ensures (Quoted(s) + rest)[0] == QUOTE
  {
    CharsReadBack(s, rest);
    assert (Quoted(s) + rest)[1..] == EscapeAll(s) + [QUOTE] + rest;
  }

  lemma WordReadsBack(word: Text, v: Json, rest: Text)
    requires |word| > 0
    ensures ReadWord(word + rest, word, v) == Good(v, rest)
  {
    assert (word + rest)[|word|..] == rest;
  }

  // No value starts with a closing bracket.
  lemma FirstUnit(v: Json)
    requires Proper(v)
    ensures |Canonicalize(v)| > 0 && Canonicalize(v)[0] != CLOSE && Canonicalize(v)[0] != END
  {
  }

  lemma {:induction false} ValueReadsBack(v: Json, rest: Text)
    requires Proper(v) && Stops(rest)
    ensures ReadValue(Canonicalize(v) + rest) == Good(SortKeys(v), rest)
    decreases Size(v), 1
  {
    match v
    case Null => WordReadsBack(NULL_TEXT, Null, rest);
    case Huge => WordReadsBack(NULL_TEXT, Null, rest);
    case Bool(b) => if b { WordReadsBack(TRUE_TEXT, v, rest); } else { WordReadsBack(FALSE_TEXT, v, rest); }
    case Number(token) => NumberValueReadsBack(token, rest);
    case Str(s) => StringReadsBack(s, rest);
    case Arr(items) => ArrayReadsBack(items, rest);
    case Obj(members) => ObjectReadsBack(members, rest);
  }

  lemma {:induction false} ArrayReadsBack(items: Items, rest: Text)
    requires ProperItems(items)
    ensures ReadValue(Canonicalize(Arr(items)) + rest) == Good(Arr(SortItems(items)), rest)
    decreases Size(Arr(items)), 0
  {
    var text := [OPEN] + JoinItems(items) + [CLOSE] + rest;
    if items.NoItems? {
      assert text == [OPEN, CLOSE] + rest;
    } else {
      var body := JoinItems(items) + [CLOSE] + rest;
      FirstUnit(items.head);
      assert text[1..] == body && text[1] == Canonicalize(items.head)[0];
      ItemsReadBack(items, rest);
    }
  }

  lemma LastItemReads(text: Text, v: Json, rest: Text)
    requires ReadValue(text) == Good(v, [CLOSE] + rest)
    ensures ReadItems(text) == Good(Item(v, NoItems), rest)
  {
    assert ([CLOSE] + rest)[1..] == rest;
  }

  lemma ItemReads(text: Text, v: Json, more: Text, items: Items, rest: Text)
    requires ReadValue(text) == Good(v, [COMMA] + more) && ReadItems(more) == Good(items, rest)
    ensures ReadItems(text) == Good(Item(v, items), rest)
  {
    assert ([COMMA] + more)[1..] == more;
  }

  lemma ItemText(value: Text, more: Text, rest: Text)
    ensures value + [CLOSE] + rest == value + ([CLOSE] + rest)
    ensures value + [COMMA] + more + [CLOSE] + rest == value + ([COMMA] + (more + [CLOSE] + rest))
  {
  }

  lemma {:induction false} ItemsReadBack(items: Items, rest: Text)
    requires ProperItems(items) && items.Item?
    ensures ReadItems(JoinItems(items) + [CLOSE] + rest) == Good(SortItems(items), rest)
    decreases ItemsSize(items), 0
  {
    var text := JoinItems(items) + [CLOSE] + rest;
    if items.tail.NoItems? {
      ValueReadsBack(items.head, [CLOSE] + rest);
      ItemText(Canonicalize(items.head), [], rest);
      LastItemReads(text, SortKeys(items.head), rest);
    } else {
      var more := JoinItems(items.tail) + [CLOSE] + rest;
      ItemsReadBack(items.tail, rest);
      ValueReadsBack(items.head, [COMMA] + more);
      ItemText(Canonicalize(items.head), JoinItems(items.tail), rest);
      ItemReads(text, SortKeys(items.head), more, SortItems(items.tail), rest);
    }
  }

  lemma {:induction false} ObjectReadsBack(members: Members, rest: Text)
    requires ProperMembers(members)
    ensures ReadValue(Canonicalize(Obj(members)) + rest) == Good(Obj(SortValues(SortMembers(members))), rest)
    decreases Size(Obj(members)), 0
  {
    var sorted := SortMembers(members);
    SortIsProper(members);
    var text := [BEGIN] + JoinMembers(sorted) + [END] + rest;
    if sorted.NoMembers? {
      assert text == [BEGIN, END] + rest;
    } else {
      var body := JoinMembers(sorted) + [END] + rest;
      assert text[1..] == body && text[1] == QUOTE;
      MembersReadBack(sorted, rest);
    }
  }

  lemma LastMemberReads(text: Text, key: Text, value: Text, v: Json, rest: Text)
    requires |text| > 0 && text[0] == QUOTE && ReadChars(text[1..]) == Good(key, [COLON] + value)
    requires ReadValue(value) == Good(v, [END] + rest)
    ensures ReadMembers(text) == Good(Member(key, v, NoMembers), rest)
  {
    assert ([COLON] + value)[1..] == value;
    assert ([END] + rest)[1..] == rest;
  }

  lemma MemberReads(text: Text, key: Text, value: Text, v: Json, more: Text, members: Members, rest: Text)
    requires |text| > 0 && text[0] == QUOTE && ReadChars(text[1..]) == Good(key, [COLON] + value)
    requires ReadValue(value) == Good(v, [COMMA] + more) && ReadMembers(more) == Good(members, rest)
    ensures ReadMembers(text) == Good(Member(key, v, members), rest)
  {
    assert ([COLON] + value)[1..] == value;
    assert ([COMMA] + more)[1..] == more;
  }

  lemma MemberText(key: Text, value: Text, more: Text, rest: Text)
    ensures Quoted(key) + [COLON] + value + [END] + rest == Quoted(key) + ([COLON] + (value + ([END] + rest)))
    ensures Quoted(key) + [COLON] + value + [COMMA] + more + [END] + rest
            == Quoted(key) + ([COLON] + (value + ([COMMA] + (more + [END] + rest))))
  {
  }

  lemma {:induction false} MembersReadBack(members: Members, rest: Text)
    requires ProperMembers(members) && members.Member?
    ensures ReadMembers(JoinMembers(members) + [END] + rest) == Good(SortValues(members), rest)
    decreases MembersSize(members), 0
  {
    var text := JoinMembers(members) + [END] + rest;
    var printed := Canonicalize(members.value);
    if members.rest.NoMembers? {
      ValueReadsBack(members.value, [END] + rest);
      StringReadsBack(members.key, [COLON] + (printed + ([END] + rest)));
      MemberText(members.key, printed, [], rest);
      LastMemberReads(text, members.key, printed + ([END] + rest), SortKeys(members.value), rest);
    } else {
      var more := JoinMembers(members.rest) + [END] + rest;
      MembersReadBack(members.rest, rest);
      ValueReadsBack(members.value, [COMMA] + more);
      StringReadsBack(members.key, [COLON] + (printed + ([COMMA] + more)));
      MemberText(members.key, printed, JoinMembers(members.rest), rest);
      MemberReads(text, members.key, printed + ([COMMA] + more), SortKeys(members.value), more,
                  SortValues(members.rest), rest);
    }
  }

  // ---------------------------------------------------------------- equality up to key order

  function Get(members: Members, key: Text): (v: Json)
    requires HasKey(members, key)
    ensures Size(v) < MembersSize(members)
  {
    if members.key == key then members.value else Get(members.rest, key)
  }

  // The same value, objects being unordered.  An infinite number is written as null.
  ghost predicate Same(a: Json, b: Json)
    decreases Size(a)
  {
    match a
    case Null => b.Null? || b.Huge?
    case Huge => b.Null? || b.Huge?
    case Arr(items) => b.Arr? && SameItems(items, b.items)
    case Obj(members) =>
      && b.Obj?
      && (forall k :: HasKey(members, k) <==> HasKey(b.members, k))
      && (forall k :: HasKey(members, k) && HasKey(b.members, k) ==> Same(Get(members, k), Get(b.members, k)))
    case _ => a == b
  }

  ghost predicate SameItems(a: Items, b: Items)
    decreases ItemsSize(a)
  {
    match a
    case NoItems => b.NoItems?
    case Item(head, tail) => b.Item? && Same(head, b.head) && SameItems(tail, b.tail)
  }

  lemma {:induction false} GetIsProper(members: Members, key: Text)
    requires ProperMembers(members) && HasKey(members, key)
    ensures Proper(Get(members, key))
  {
    if members.key != key { GetIsProper(members.rest, key); }
  }

  lemma {:induction false} InsertGets(key: Text, value: Json, members: Members, k: Text)
    requires ProperMembers(members) && Proper(value) && !HasKey(members, key)
    requires k == key || HasKey(members, k)
    ensures HasKey(InsertMember(key, value, members), k)
    ensures Get(InsertMember(key, value, members), k) == if k == key then value else Get(members, k)
  {
    if members.Member? && Less(members.key, key) && k != members.key {
      InsertGets(key, value, members.rest, k);
    }
  }

  lemma {:induction false} SortGets(members: Members, k: Text)
    requires ProperMembers(members) && HasKey(members, k)
    ensures HasKey(SortMembers(members), k) && Get(SortMembers(members), k) == Get(members, k)
  {
    SortIsProper(members.rest);
    if k != members.key {
      SortGets(members.rest, k);
    }
    InsertGets(members.key, members.value, SortMembers(members.rest), k);
  }

  lemma {:induction false} SortValuesGets(members: Members, k: Text)
    ensures HasKey(SortValues(members), k) <==> HasKey(members, k)
    ensures HasKey(members, k) ==> Get(SortValues(members), k) == SortKeys(Get(members, k))
    decreases members
  {
    if members.Member? { SortValuesGets(members.rest, k); }
  }

  lemma {:induction false} SortedEqualMeansSame(a: Json, b: Json)
    requires Proper(a) && Proper(b) && SortKeys(a) == SortKeys(b)
    ensures Same(a, b)
    decreases Size(a), 1
  {
    match a
    case Arr(items) => ItemsEqualMeansSame(items, b.items);
    case Obj(members) =>
      forall k ensures HasKey(members, k) <==> HasKey(b.members, k) {
        SortIsProper(members);
        SortIsProper(b.members);
        SortValuesGets(SortMembers(members), k);
        SortValuesGets(SortMembers(b.members), k);
      }
      forall k | HasKey(members, k) && HasKey(b.members, k) ensures Same(Get(members, k), Get(b.members, k)) {
        MemberEqualMeansSame(members, b.members, k);
      }
    case _ =>
  }

  lemma {:induction false} MemberEqualMeansSame(a: Members, b: Members, k: Text)
    requires ProperMembers(a) && ProperMembers(b) && HasKey(a, k) && HasKey(b, k)
    requires SortValues(SortMembers(a)) == SortValues(SortMembers(b))
    ensures Same(Get(a, k), Get(b, k))
    decreases MembersSize(a), 0
  {
    SortGets(a, k);
    SortGets(b, k);
    SortValuesGets(SortMembers(a), k);
    SortValuesGets(SortMembers(b), k);
    GetIsProper(a, k);
    GetIsProper(b, k);
    SortedEqualMeansSame(Get(a, k), Get(b, k));
  }

  lemma {:induction false} ItemsEqualMeansSame(a: Items, b: Items)
    requires ProperItems(a) && ProperItems(b) && SortItems(a) == SortItems(b)
    ensures SameItems(a, b)
    decreases ItemsSize(a), 0
  {
    if a.Item? {
      SortedEqualMeansSame(a.head, b.head);
      ItemsEqualMeansSame(a.tail, b.tail);
    }
  }

  lemma {:induction false} LessIsTotal(a: Text, b: Text)
    ensures Less(a, b) || Less(b, a) || a == b
    ensures !(Less(a, b) && Less(b, a)) && !Less(a, a)
  {
    if |a| > 0 && |b| > 0 {
      LessIsTotal(a[1..], b[1..]);
      assert a == [a[0]] + a[1..] && b == [b[0]] + b[1..];
    } else if |a| > 0 {
      LessIsTotal(a[1..], []);
    }
  }

  lemma {:induction false} LessIsTransitive(a: Text, b: Text, c: Text)
    requires Less(a, b) && Less(b, c)
    ensures Less(a, c)
  {
    if |a| > 0 && a[0] == b[0] == c[0] {
      LessIsTransitive(a[1..], b[1..], c[1..]);
    }
  }

  // In key order, every later key being greater.
  ghost predicate Ascending(members: Members) {
    members.Member? ==> Ascending(members.rest) && forall k :: HasKey(members.rest, k) ==> Less(members.key, k)
  }

  lemma {:induction false} InsertAscends(key: Text, value: Json, members: Members)
    requires ProperMembers(members) && Ascending(members) && Proper(value) && !HasKey(members, key)
    ensures Ascending(InsertMember(key, value, members))
  {
    if members.Member? {
      if Less(members.key, key) {
        InsertIsProper(key, value, members.rest);
        InsertAscends(key, value, members.rest);
      } else {
        LessIsTotal(members.key, key);
        forall k | HasKey(members, k) ensures Less(key, k) {
          if k != members.key { LessIsTransitive(key, members.key, k); }
        }
      }
    }
  }

  lemma {:induction false} SortAscends(members: Members)
    requires ProperMembers(members)
    ensures Ascending(SortMembers(members))
  {
    if members.Member? {
      SortAscends(members.rest);
      SortIsProper(members.rest);
      InsertAscends(members.key, members.value, SortMembers(members.rest));
    }
  }

  // Ordered lists of the same keys and values, one member at a time.
  ghost predicate Alike(a: Members, b: Members) {
    && (forall k :: HasKey(a, k) <==> HasKey(b, k))
    && (forall k :: HasKey(a, k) && HasKey(b, k) ==> Same(Get(a, k), Get(b, k)))
  }

  lemma AlikeStartAlike(a: Members, b: Members)
    requires ProperMembers(a) && ProperMembers(b) && Ascending(a) && Ascending(b) && Alike(a, b) && a.Member?
    ensures b.Member? && a.key == b.key && Same(a.value, b.value) && Alike(a.rest, b.rest)
  {
    assert HasKey(a, a.key) && HasKey(b, a.key) && HasKey(b, b.key) && HasKey(a, b.key);
    LessIsTotal(a.key, b.key);
    assert Get(a, a.key) == a.value && Get(b, b.key) == b.value;
    forall k ensures HasKey(a.rest, k) <==> HasKey(b.rest, k) {
      assert HasKey(a, k) <==> HasKey(b, k);
    }
    forall k | HasKey(a.rest, k) && HasKey(b.rest, k) ensures Same(Get(a.rest, k), Get(b.rest, k)) {
      assert k != a.key;
      assert Get(a, k) == Get(a.rest, k) && Get(b, k) == Get(b.rest, k);
    }
  }

  lemma {:induction false} AlikePrintAlike(a: Members, b: Members)
    requires ProperMembers(a) && ProperMembers(b) && Ascending(a) && Ascending(b) && Alike(a, b)
    ensures JoinMembers(a) == JoinMembers(b)
    decreases MembersSize(a), 0
  {
    assert b.Member? ==> HasKey(b, b.key) && HasKey(a, b.key);
    if a.Member? {
      AlikeStartAlike(a, b);
      SameMeansEqual(a.value, b.value);
      AlikePrintAlike(a.rest, b.rest);
      assert a.rest.NoMembers? <==> b.rest.NoMembers? by {
        if a.rest.Member? { assert HasKey(b.rest, a.rest.key); }
        if b.rest.Member? { assert HasKey(a.rest, b.rest.key); }
      }
    }
  }

  lemma {:induction false} SameMeansEqual(a: Json, b: Json)
    requires Proper(a) && Proper(b) && Same(a, b)
    ensures Canonicalize(a) == Canonicalize(b)
    decreases Size(a), 1
  {
    match a
    case Arr(items) => SameItemsMeansEqual(items, b.items);
    case Obj(members) =>
      SortAscends(members);
      SortAscends(b.members);
      SortIsProper(members);
      SortIsProper(b.members);
      forall k | HasKey(members, k) && HasKey(b.members, k)
        ensures Same(Get(SortMembers(members), k), Get(SortMembers(b.members), k))
      {
        SortGets(members, k);
        SortGets(b.members, k);
      }
      AlikePrintAlike(SortMembers(members), SortMembers(b.members));
    case _ =>
  }

  lemma {:induction false} SameItemsMeansEqual(a: Items, b: Items)
    requires ProperItems(a) && ProperItems(b) && SameItems(a, b)
    ensures JoinItems(a) == JoinItems(b)
    decreases ItemsSize(a), 0
  {
    if a.Item? {
      SameMeansEqual(a.head, b.head);
      SameItemsMeansEqual(a.tail, b.tail);
    }
  }

  // ---------------------------------------------------------------- the identity of a request

  // Canonical texts are equal exactly when the values are equal up to key order.
  lemma CanonicalIff(a: Json, b: Json)
    requires Proper(a) && Proper(b)
    ensures Canonicalize(a) == Canonicalize(b) <==> Same(a, b)
  {
    if Canonicalize(a) == Canonicalize(b) {
      ValueReadsBack(a, []);
      ValueReadsBack(b, []);
      SortedEqualMeansSame(a, b);
    }
    if Same(a, b) {
      SameMeansEqual(a, b);
    }
  }

  // The reader for the grammar reads the value back, whatever follows it.
  lemma CanonicalReadsBack(v: Json)
    requires Proper(v)
    ensures ReadValue(Canonicalize(v)) == Good(SortKeys(v), [])
  {
    ValueReadsBack(v, []);
    assert Canonicalize(v) + [] == Canonicalize(v);
  }

  function BeforeNewline(t: Text): Text {
    if |t| == 0 || t[0] == NEWLINE then [] else [t[0]] + BeforeNewline(t[1..])
  }

  lemma {:induction false} EndpointReadsBack(endpoint: Text, rest: Text)
    requires NEWLINE !in endpoint
    ensures BeforeNewline(endpoint + [NEWLINE] + rest) == endpoint
  {
    var t := endpoint + [NEWLINE] + rest;
    if |endpoint| > 0 {
      assert t[1..] == endpoint[1..] + [NEWLINE] + rest;
      EndpointReadsBack(endpoint[1..], rest);
      assert endpoint == [endpoint[0]] + endpoint[1..];
    }
  }

  // The hashed text determines the endpoint and the body, as long as endpoints have no line break.
  lemma RequestIff(endpoint: Text, body: Json, endpoint': Text, body': Json)
    requires Proper(body) && Proper(body') && NEWLINE !in endpoint && NEWLINE !in endpoint'
    ensures RequestText(endpoint, body) == RequestText(endpoint', body') <==> endpoint == endpoint' && Same(body, body')
  {
    var a, b := RequestText(endpoint, body), RequestText(endpoint', body');
    EndpointReadsBack(endpoint, Canonicalize(body));
    EndpointReadsBack(endpoint', Canonicalize(body'));
    assert a[|endpoint| + 1..] == Canonicalize(body) && b[|endpoint'| + 1..] == Canonicalize(body');
    CanonicalIff(body, body');
  }

  // A number too large for a double is the same request as null.
  lemma HugeLooksLikeNull()
    ensures Canonicalize(Huge) == Canonicalize(Null) && Huge != Null
  {
  }

  // ---------------------------------------------------------------- encoding

  // Every surrogate has its partner, so that encoding the text as UTF-8 loses nothing.
  predicate WellFormed(t: Text)
    decreases |t|
  {
    |t| == 0
    || (if High(t[0]) then |t| > 1 && Low(t[1]) && WellFormed(t[2..]) else !Low(t[0]) && WellFormed(t[1..]))
  }

  lemma {:induction false} WellFormedConcat(a: Text, b: Text)
    requires WellFormed(a) && WellFormed(b)
    ensures WellFormed(a + b)
    decreases |a|
  {
    if |a| == 0 {
      assert a + b == b;
    } else {
      var n := if High(a[0]) then 2 else 1;
      WellFormedConcat(a[n..], b);
      assert (a + b)[n..] == a[n..] + b;
    }
  }

  lemma {:induction false} PlainIsWellFormed(t: Text)
    requires forall i :: 0 <= i < |t| ==> t[i] < 0xD800
    ensures WellFormed(t)
  {
    if |t| > 0 { PlainIsWellFormed(t[1..]); }
  }

  lemma EscapedIsWellFormed(s: Text)
    requires |s| > 0
    ensures WellFormed(Escaped(s))
  {
    if Taken(s) == 2 && !HasShort(s[0]) {
      assert Escaped(s)[2..] == [];
    } else {
      PlainOrRaw(s);
    }
  }

  lemma PlainOrRaw(s: Text)
    requires |s| > 0 && Taken(s) == 1
    ensures WellFormed(Escaped(s))
  {
    var t := Escaped(s);
    if HasShort(s[0]) || s[0] < 32 || High(s[0]) || Low(s[0]) {
      PlainIsWellFormed(t);
    } else {
      assert t[1..] == [];
    }
  }

  lemma {:induction false} EscapeAllIsWellFormed(s: Text)
    ensures WellFormed(EscapeAll(s))
    decreases |s|
  {
    if |s| > 0 {
      EscapedIsWellFormed(s);
      EscapeAllIsWellFormed(s[Taken(s)..]);
      WellFormedConcat(Escaped(s), EscapeAll(s[Taken(s)..]));
    }
  }

  // Text between single plain units.
  lemma BetweenIsWellFormed(open: Unit, t: Text, close: Unit)
    requires WellFormed(t) && open < 0xD800 && close < 0xD800
    ensures WellFormed([open] + t + [close]) && WellFormed(t + [close])
  {
    PlainIsWellFormed([open]);
    PlainIsWellFormed([close]);
    WellFormedConcat([open], t);
    WellFormedConcat([open] + t, [close]);
    WellFormedConcat(t, [close]);
  }

  // However broken the surrogates in the strings of a body are, its canonical text has none.
  lemma {:induction false} CanonicalIsWellFormed(v: Json)
    requires Proper(v)
    ensures WellFormed(Canonicalize(v))
    decreases Size(v), 1
  {
    match v
    case Str(s) =>
      EscapeAllIsWellFormed(s);
      BetweenIsWellFormed(QUOTE, EscapeAll(s), QUOTE);
    case Arr(items) =>
      ItemsAreWellFormed(items);
      BetweenIsWellFormed(OPEN, JoinItems(items), CLOSE);
    case Obj(members) =>
      SortIsProper(members);
      MembersAreWellFormed(SortMembers(members));
      BetweenIsWellFormed(BEGIN, JoinMembers(SortMembers(members)), END);
    case _ => PlainIsWellFormed(Canonicalize(v));
  }

  lemma {:induction false} ItemsAreWellFormed(items: Items)
    requires ProperItems(items)
    ensures WellFormed(JoinItems(items))
    decreases ItemsSize(items), 0
  {
    if items.Item? {
      CanonicalIsWellFormed(items.head);
      ItemsAreWellFormed(items.tail);
      BetweenIsWellFormed(COMMA, Canonicalize(items.head), COMMA);
      WellFormedConcat(Canonicalize(items.head) + [COMMA], JoinItems(items.tail));
    }
  }

  lemma {:induction false} MembersAreWellFormed(members: Members)
    requires ProperMembers(members)
    ensures WellFormed(JoinMembers(members))
    decreases MembersSize(members), 0
  {
    if members.Member? {
      EscapeAllIsWellFormed(members.key);
      BetweenIsWellFormed(QUOTE, EscapeAll(members.key), QUOTE);
      BetweenIsWellFormed(QUOTE, Quoted(members.key), COLON);
      CanonicalIsWellFormed(members.value);
      var text := Quoted(members.key) + [COLON] + Canonicalize(members.value);
      WellFormedConcat(Quoted(members.key) + [COLON], Canonicalize(members.value));
      BetweenIsWellFormed(QUOTE, text, COMMA);
      MembersAreWellFormed(members.rest);
      WellFormedConcat(text + [COMMA], JoinMembers(members.rest));
    }
  }
}
