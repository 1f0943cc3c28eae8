/** The object grammar of RFC 8259 as syntax trees: every JSON text is `Print` of a valid tree. */
module JsonGrammar {
  import opened Basics
  import opened CodeUnits

  const QUOTE: CodeUnit := 0x22
  const BACKSLASH: CodeUnit := 0x5C
  const OPEN_BRACE: CodeUnit := 0x7B
  const CLOSE_BRACE: CodeUnit := 0x7D
  const OPEN_BRACKET: CodeUnit := 0x5B
  const CLOSE_BRACKET: CodeUnit := 0x5D
  const COLON: CodeUnit := 0x3A
  const COMMA: CodeUnit := 0x2C
  const LETTER_U: CodeUnit := 0x75
  const ZERO: CodeUnit := 0x30
  const NINE: CodeUnit := 0x39
  const MINUS: CodeUnit := 0x2D
  const PLUS: CodeUnit := 0x2B
  const POINT: CodeUnit := 0x2E

  // ------------------------------------------------------------------- strings

  predicate HexDigit(c: CodeUnit) {
    0x30 <= c <= 0x39 || 0x41 <= c <= 0x46 || 0x61 <= c <= 0x66
  }

  function HexValue(c: CodeUnit): (v: nat)
    requires HexDigit(c)
    ensures v < 16
  {
    if c <= 0x39 then c - 0x30 else if c <= 0x46 then c - 0x37 else c - 0x57
  }

  predicate AllHex(digits: Text) {
    |digits| == 4 && forall i | 0 <= i < 4 :: HexDigit(digits[i])
  }

  function HexUnit(digits: Text): CodeUnit
    requires AllHex(digits)
  {
    ((HexValue(digits[0]) * 16 + HexValue(digits[1])) * 16 + HexValue(digits[2])) * 16 + HexValue(digits[3])
  }

  /** The code unit an escape letter stands for. */
  function EscapeMeaning(letter: CodeUnit): Option<CodeUnit> {
    if letter == QUOTE || letter == BACKSLASH || letter == 0x2F then Some(letter)
    else if letter == 0x62 then Some(8)
    else if letter == 0x66 then Some(12)
    else if letter == 0x6E then Some(10)
    else if letter == 0x72 then Some(13)
    else if letter == 0x74 then Some(9)
    else None
  }

  datatype Piece = Plain(unit: CodeUnit) | Escape(letter: CodeUnit) | Unicode(digits: Text) {
    predicate Valid() {
      match this
      case Plain(c) => c >= 0x20 && c != QUOTE && c != BACKSLASH
      case Escape(letter) => EscapeMeaning(letter).Some?
      case Unicode(digits) => AllHex(digits)
    }

    function Print(): Text {
      match this
      case Plain(c) => [c]
      case Escape(letter) => [BACKSLASH, letter]
      case Unicode(digits) => [BACKSLASH, LETTER_U] + digits
    }

    function Meaning(): CodeUnit
      requires Valid()
    {
      match this
      case Plain(c) => c
      case Escape(letter) => EscapeMeaning(letter).value
      case Unicode(digits) => HexUnit(digits)
    }
  }

  predicate ValidPieces(pieces: seq<Piece>) {
    forall i | 0 <= i < |pieces| :: pieces[i].Valid()
  }

  function PrintPieces(pieces: seq<Piece>): Text {
    if pieces == [] then [] else pieces[0].Print() + PrintPieces(pieces[1..])
  }

  /** What a string literal denotes. */
  function Meaning(pieces: seq<Piece>): Text
    requires ValidPieces(pieces)
  {
    if pieces == [] then [] else [pieces[0].Meaning()] + Meaning(pieces[1..])
  }

  function PrintString(pieces: seq<Piece>): Text {
    [QUOTE] + PrintPieces(pieces) + [QUOTE]
  }

  /** How far the closing quote is; the length of the text if there is none. */
  function CloseAt(text: Text): (n: nat)
    ensures n <= |text|
    ensures n < |text| ==> text[n] == QUOTE
  {
    if text == [] then 0
    else if text[0] == BACKSLASH then if |text| >= 2 then 2 + CloseAt(text[2..]) else 1
    else if text[0] == QUOTE then 0
    else 1 + CloseAt(text[1..])
  }

  /** The search for the closing quote of the literal that opens at `start`. */
  method FindClose(text: Text, start: nat) returns (index: nat)
    requires start < |text|
    ensures index == start + 1 + CloseAt(text[start + 1..])
  {
    index := start + 1;
    while index < |text|
      invariant start < index <= |text|
      invariant start + 1 + CloseAt(text[start + 1..]) == index + CloseAt(text[index..])
    {
      if text[index] == BACKSLASH {
        index := if index + 2 <= |text| then index + 2 else |text|;
        continue;
      }
      if text[index] == QUOTE {
        break;
      }
      index := index + 1;
    }
  }

  /** `JSON.parse` on a string literal, given what stands between its quotes. */
  function Decode(body: Text): Option<Text> {
    if body == [] then Some([])
    else if body[0] == BACKSLASH then
      if |body| < 2 then None
      else if body[1] == LETTER_U then
        if |body| >= 6 && AllHex(body[2..6]) then Prefixed(HexUnit(body[2..6]), Decode(body[6..])) else None
      else if EscapeMeaning(body[1]).Some? then Prefixed(EscapeMeaning(body[1]).value, Decode(body[2..]))
      else None
    else if body[0] < 0x20 || body[0] == QUOTE then None
    else Prefixed(body[0], Decode(body[1..]))
  }

  function Prefixed(c: CodeUnit, rest: Option<Text>): Option<Text> {
    if rest.Some? then Some([c] + rest.value) else None
  }

  lemma CloseAtPiece(piece: Piece, rest: Text)
    requires piece.Valid()
    ensures CloseAt(piece.Print() + rest) == |piece.Print()| + CloseAt(rest)
  {
    var text := piece.Print() + rest;
    match piece
    case Plain(c) => assert text[1..] == rest;
    case Escape(letter) => assert text[2..] == rest;
    case Unicode(digits) =>
      assert text[2..] == digits + rest;
      CloseAtHex(digits, rest);
  }

  lemma {:induction false} CloseAtHex(digits: Text, rest: Text)
    requires forall i | 0 <= i < |digits| :: HexDigit(digits[i])
    ensures CloseAt(digits + rest) == |digits| + CloseAt(rest)
  {
    if digits == [] {
      assert digits + rest == rest;
    } else {
      CloseAtHex(digits[1..], rest);
      assert (digits + rest)[1..] == digits[1..] + rest;
    }
  }

  lemma {:induction false} CloseAtPieces(pieces: seq<Piece>, rest: Text)
    requires ValidPieces(pieces)
    ensures CloseAt(PrintPieces(pieces) + [QUOTE] + rest) == |PrintPieces(pieces)|
  {
    if pieces == [] {
      assert PrintPieces(pieces) + [QUOTE] + rest == [QUOTE] + rest;
    } else {
      var more := PrintPieces(pieces[1..]) + [QUOTE] + rest;
      CloseAtPieces(pieces[1..], rest);
      CloseAtPiece(pieces[0], more);
      assert PrintPieces(pieces) + [QUOTE] + rest == pieces[0].Print() + more;
    }
  }

  lemma DecodePiece(piece: Piece, rest: Text)
    requires piece.Valid()
    ensures Decode(piece.Print() + rest) == Prefixed(piece.Meaning(), Decode(rest))
  {
    var text := piece.Print() + rest;
    match piece
    case Plain(c) => assert text[1..] == rest;
    case Escape(letter) => assert text[2..] == rest;
    case Unicode(digits) => assert text[2..6] == digits && text[6..] == rest;
  }

  /** Decoding undoes printing. */
  lemma {:induction false} DecodePrint(pieces: seq<Piece>)
    requires ValidPieces(pieces)
    ensures Decode(PrintPieces(pieces)) == Some(Meaning(pieces))
  {
    if pieces != [] {
      DecodePrint(pieces[1..]);
      DecodePiece(pieces[0], PrintPieces(pieces[1..]));
    }
  }

  /** Whatever decodes is a printed literal. */
  lemma {:induction false} DecodeOnlyLiterals(body: Text) returns (pieces: seq<Piece>)
    requires Decode(body).Some?
    ensures ValidPieces(pieces) && PrintPieces(pieces) == body && Meaning(pieces) == Decode(body).value
    decreases |body|
  {
    if body == [] {
      return [];
    }
    var piece := Plain(body[0]);
    if body[0] == BACKSLASH {
      piece := if body[1] == LETTER_U then Unicode(body[2..6]) else Escape(body[1]);
    }
    var n := |piece.Print()|;
    assert body == piece.Print() + body[n..];
    var more := DecodeOnlyLiterals(body[n..]);
    pieces := [piece] + more;
    assert pieces[1..] == more;
  }

  // --------------------------------------------------------------------- trees

  /** Spaces between tokens are kept in the tree so that it determines the text. */
  datatype Node =
    | Scalar(token: Text)
    | Str(pieces: seq<Piece>)
    | Arr(items: Items)
    | Obj(members: Members)

  /** The space of `NoItems` is printed only when the array is empty. */
  datatype Items =
    | NoItems(space: Text)
    | Item(before: Text, value: Node, after: Text, rest: Items)

  datatype Members =
    | NoMembers(space: Text)
    | Member(before: Text, key: seq<Piece>, beforeColon: Text, afterColon: Text, value: Node, after: Text, rest: Members)

  datatype Document = Document(before: Text, root: Node, after: Text)

  predicate SpaceUnit(c: CodeUnit) {
    c == 0x20 || c == 0x09 || c == 0x0D || c == 0x0A
  }

  predicate Space(text: Text) {
    forall i | 0 <= i < |text| :: SpaceUnit(text[i])
  }

  predicate Digit(c: CodeUnit) {
    ZERO <= c <= NINE
  }

  predicate Digits(text: Text) {
    forall i | 0 <= i < |text| :: Digit(text[i])
  }

  const TRUE_TOKEN: Text := [0x74, 0x72, 0x75, 0x65]
  const FALSE_TOKEN: Text := [0x66, 0x61, 0x6C, 0x73, 0x65]
  const NULL_TOKEN: Text := [0x6E, 0x75, 0x6C, 0x6C]

  /** The parts of a number: sign, integer digits, fraction digits, exponent letter, sign and digits. */
  datatype NumberParts = NumberParts(minus: bool, whole: Text, fraction: Text, exponent: Text, sign: Text, power: Text) {
    predicate Valid() {
      && Digits(whole) && whole != [] && (whole[0] == ZERO ==> |whole| == 1)
      && Digits(fraction)
      && (exponent == [] ==> sign == [] && power == [])
      && (exponent != [] ==> (exponent == [0x65] || exponent == [0x45]) && power != [] && Digits(power))
      && (sign == [] || sign == [PLUS] || sign == [MINUS])
    }

    function MinusText(): Text {
      if minus then [MINUS] else []
    }

    function FractionText(): Text {
      if fraction == [] then [] else [POINT] + fraction
    }

    function ExponentText(): Text {
      exponent + (sign + power)
    }

    function TailText(): Text {
      FractionText() + ExponentText()
    }

    function Print(): Text {
      MinusText() + (whole + TailText())
    }
  }

  ghost predicate NumberToken(token: Text) {
    exists parts: NumberParts :: parts.Valid() && parts.Print() == token
  }

  ghost predicate ScalarToken(token: Text) {
    token == TRUE_TOKEN || token == FALSE_TOKEN || token == NULL_TOKEN || NumberToken(token)
  }

  ghost predicate ValidNode(node: Node) {
    match node
    case Scalar(token) => ScalarToken(token)
    case Str(pieces) => ValidPieces(pieces)
    case Arr(items) => ValidItems(items)
    case Obj(members) => ValidMembers(members)
  }

  ghost predicate ValidItems(items: Items) {
    match items
    case NoItems(space) => Space(space)
    case Item(before, value, after, rest) => Space(before) && ValidNode(value) && Space(after) && ValidItems(rest)
  }

  ghost predicate ValidMembers(members: Members) {
    match members
    case NoMembers(space) => Space(space)
    case Member(before, key, beforeColon, afterColon, value, after, rest) =>
      Space(before) && ValidPieces(key) && Space(beforeColon) && Space(afterColon) && ValidNode(value) && Space(after)
      && ValidMembers(rest)
  }

  ghost predicate ValidDocument(doc: Document) {
    Space(doc.before) && ValidNode(doc.root) && Space(doc.after)
  }

  function Print(node: Node): Text {
    match node
    case Scalar(token) => token
    case Str(pieces) => PrintString(pieces)
    case Arr(items) => [OPEN_BRACKET] + PrintItems(items) + [CLOSE_BRACKET]
    case Obj(members) => [OPEN_BRACE] + PrintMembers(members) + [CLOSE_BRACE]
  }

  function PrintItems(items: Items): Text {
    match items
    case NoItems(space) => space
    case Item(before, value, after, rest) =>
      before + Print(value) + after + if rest.NoItems? then [] else [COMMA] + PrintItems(rest)
  }

  function PrintMembers(members: Members): Text {
    match members
    case NoMembers(space) => space
    case Member(before, key, beforeColon, afterColon, value, after, rest) =>
      before + PrintString(key) + beforeColon + [COLON] + afterColon + Print(value) + after
      + if rest.NoMembers? then [] else [COMMA] + PrintMembers(rest)
  }

  function PrintDocument(doc: Document): Text {
    doc.before + Print(doc.root) + doc.after
  }

  /** The decoded keys of one object, in order. */
  ghost function Keys(members: Members): seq<Text>
    requires ValidMembers(members)
  {
    if members.NoMembers? then [] else [Meaning(members.key)] + Keys(members.rest)
  }

  /** Some object of the tree, at any depth, has two members with equal decoded keys. */
  ghost predicate RepeatsKey(node: Node)
    requires ValidNode(node)
  {
    match node
    case Scalar(_) => false
    case Str(_) => false
    case Arr(items) => ItemsRepeatKey(items)
    case Obj(members) => !NoDuplicates(Keys(members)) || MembersRepeatKey(members)
  }

  ghost predicate ItemsRepeatKey(items: Items)
    requires ValidItems(items)
  {
    items.Item? && (RepeatsKey(items.value) || ItemsRepeatKey(items.rest))
  }

  ghost predicate MembersRepeatKey(members: Members)
    requires ValidMembers(members)
  {
    members.Member? && (RepeatsKey(members.value) || MembersRepeatKey(members.rest))
  }

  /** A later member repeats a key in `keys` or an earlier one, or some value repeats a key. */
  ghost predicate Clashes(members: Members, keys: set<Text>)
    requires ValidMembers(members)
  {
    members.Member?
    && (Meaning(members.key) in keys || RepeatsKey(members.value) || Clashes(members.rest, keys + {Meaning(members.key)}))
  }

  lemma {:induction false} ClashesMeans(members: Members, keys: set<Text>)
    requires ValidMembers(members)
    ensures Clashes(members, keys) <==>
            || !NoDuplicates(Keys(members))
            || MembersRepeatKey(members)
            || exists i | 0 <= i < |Keys(members)| :: Keys(members)[i] in keys
  {
    if members.Member? {
      var key := Meaning(members.key);
      ClashesMeans(members.rest, keys + {key});
      Extended(key, Keys(members.rest), keys);
    }
  }

  lemma Extended(key: Text, more: seq<Text>, keys: set<Text>)
    ensures (NoDuplicates([key] + more) && forall i | 0 <= i < |[key] + more| :: ([key] + more)[i] !in keys)
       <==> (key !in keys && NoDuplicates(more) && forall i | 0 <= i < |more| :: more[i] !in keys + {key})
  {
    var all := [key] + more;
    assert all[0] == key && forall i | 0 <= i < |more| :: all[i + 1] == more[i];
    assert forall i | 0 < i < |all| :: all[i] == more[i - 1];
    if NoDuplicates(all) && forall i | 0 <= i < |all| :: all[i] !in keys {
      forall i, j | 0 <= i < j < |more| ensures more[i] != more[j] {
        assert all[i + 1] != all[j + 1];
      }
      forall i | 0 <= i < |more| ensures more[i] !in keys + {key} {
        assert all[0] != all[i + 1];
      }
    }
  }

  // ------------------------------------------------------------- scalar tokens

  /** Units that may occur in a number or a literal name. */
  predicate TokenUnit(c: CodeUnit) {
    Digit(c) || c == MINUS || c == PLUS || c == POINT || 0x41 <= c <= 0x5A || 0x61 <= c <= 0x7A
  }

  predicate TokenUnits(text: Text) {
    forall i | 0 <= i < |text| :: TokenUnit(text[i])
  }

  lemma TokenUnitsConcat(a: Text, b: Text)
    requires TokenUnits(a) && TokenUnits(b)
    ensures TokenUnits(a + b)
  {
  }

  lemma NumberUnits(parts: NumberParts)
    requires parts.Valid()
    ensures parts.Print() != [] && TokenUnits(parts.Print())
  {
    TokenUnitsConcat(parts.sign, parts.power);
    TokenUnitsConcat(parts.exponent, parts.sign + parts.power);
    TokenUnitsConcat([POINT], parts.fraction);
    TokenUnitsConcat(parts.FractionText(), parts.ExponentText());
    TokenUnitsConcat(parts.whole, parts.FractionText() + parts.ExponentText());
    TokenUnitsConcat(parts.MinusText(), parts.whole + (parts.FractionText() + parts.ExponentText()));
    assert |parts.Print()| >= |parts.whole|;
  }

  lemma ScalarUnits(token: Text)
    requires ScalarToken(token)
    ensures token != [] && TokenUnits(token)
  {
    if NumberToken(token) {
      var parts: NumberParts :| parts.Valid() && parts.Print() == token;
      NumberUnits(parts);
    }
  }

  // ---------------------------------------------------- members of an object

  /** What follows a member's value. */
  function MembersTail(others: Members, rest: Text): (tail: Text)
    ensures tail != [] && tail == [tail[0]] + tail[1..]
    ensures tail[0] == (if others.NoMembers? then CLOSE_BRACE else COMMA)
    ensures tail[1..] == (if others.NoMembers? then rest else PrintMembers(others) + [CLOSE_BRACE] + rest)
  {
    if others.NoMembers? then [CLOSE_BRACE] + rest else [COMMA] + (PrintMembers(others) + [CLOSE_BRACE] + rest)
  }

  lemma FirstMember(m: Members, rest: Text)
    requires m.Member?
    ensures PrintMembers(m) + [CLOSE_BRACE] + rest
         == m.before + (PrintString(m.key) + (m.beforeColon + ([COLON] + (m.afterColon
            + (Print(m.value) + (m.after + MembersTail(m.rest, rest)))))))
  {
    var last := if m.rest.NoMembers? then [] else [COMMA] + PrintMembers(m.rest);
    var key, value, tail := PrintString(m.key), Print(m.value), MembersTail(m.rest, rest);
    var a1 := m.before + key;
    var a2 := a1 + m.beforeColon;
    var a3 := a2 + [COLON];
    var a4 := a3 + m.afterColon;
    var a5 := a4 + value;
    var a6 := a5 + m.after;
    hide Print, PrintString, MembersTail;
    assert PrintMembers(m) == a6 + last;
    hide *;
    Shift(a6, last, [CLOSE_BRACE]);
    Shift(a6, last + [CLOSE_BRACE], rest);
    MembersTailIs(m.rest, rest);
    Shift(a5, m.after, tail);
    Shift(a4, value, m.after + tail);
    Shift(a3, m.afterColon, value + (m.after + tail));
    Shift(a2, [COLON], m.afterColon + (value + (m.after + tail)));
    Shift(a1, m.beforeColon, [COLON] + (m.afterColon + (value + (m.after + tail))));
    Shift(m.before, key, m.beforeColon + ([COLON] + (m.afterColon + (value + (m.after + tail)))));
  }

  lemma MembersTailIs(others: Members, rest: Text)
    ensures (if others.NoMembers? then [] else [COMMA] + PrintMembers(others)) + [CLOSE_BRACE] + rest
         == MembersTail(others, rest)
  {
    hide PrintMembers;
  }
}
