/** The strict recursive-descent parser of observation receipts, against the grammar. */
module StrictJson {
  import opened Basics
  import opened CodeUnits
  import opened JsonGrammar

  const MAX_DEPTH := 8

  datatype Code =
    | InvalidPolicy | InvalidReceipt | InvalidEncoding | InputTooLarge | InvalidJson | DuplicateKey | DigestMismatch

  /** A number of the host language; which one a token denotes is the host's rounding rule. */
  datatype Number = Finite(value: real, negativeZero: bool) | Infinite

  /** Objects have no prototype, so a result is no more than its keys and their values. */
  datatype Json =
    | JNull
    | JBool(bit: bool)
    | JNumber(number: Number)
    | JString(text: Text)
    | JObject(fields: map<Text, Json>)

  type Rounding = Text -> Number

  datatype Parsed<+T> = Parsed(value: T, rest: Text)

  // -------------------------------------------------------------------- tokens

  function SkipSpace(text: Text): (rest: Text)
    ensures |rest| <= |text|
    ensures rest != [] ==> !SpaceUnit(rest[0])
  {
    if text != [] && SpaceUnit(text[0]) then SkipSpace(text[1..]) else text
  }

  /** The number of digits at the start of the text. */
  function DigitRun(text: Text): (n: nat)
    ensures n <= |text| && Digits(text[..n])
    ensures n < |text| ==> !Digit(text[n])
  {
    if text != [] && Digit(text[0]) then
      var n := DigitRun(text[1..]);
      assert text[..n + 1] == [text[0]] + text[1..][..n];
      1 + n
    else 0
  }

  /** The length of the integer part, 0 if there is none. */
  function WholeLength(text: Text): (n: nat)
    ensures n <= |text|
  {
    if text != [] && text[0] == ZERO then 1 else DigitRun(text)
  }

  /** The length of an optional fraction. */
  function FractionLength(text: Text): (n: nat)
    ensures n <= |text|
  {
    if text != [] && text[0] == POINT && DigitRun(text[1..]) > 0 then 1 + DigitRun(text[1..]) else 0
  }

  /** The length of an optionally signed run of digits, 0 if there is none. */
  function PowerLength(text: Text): (n: nat)
    ensures n <= |text|
  {
    if text != [] && (text[0] == PLUS || text[0] == MINUS) then
      if DigitRun(text[1..]) > 0 then 1 + DigitRun(text[1..]) else 0
    else DigitRun(text)
  }

  /** The length of an optional exponent. */
  function ExponentLength(text: Text): (n: nat)
    ensures n <= |text|
  {
    if text != [] && (text[0] == 0x65 || text[0] == 0x45) && PowerLength(text[1..]) > 0 then 1 + PowerLength(text[1..])
    else 0
  }

  /** A fraction and an exponent, each optional. */
  function TailLength(text: Text): (n: nat)
    ensures n <= |text|
  {
    FractionLength(text) + ExponentLength(text[FractionLength(text)..])
  }

  function UnsignedLength(text: Text): (n: nat)
    ensures n <= |text|
  {
    var w := WholeLength(text);
    if w == 0 then 0 else w + TailLength(text[w..])
  }

  /** The longest number at the start of the text, 0 if there is none. */
  function NumberLength(text: Text): (n: nat)
    ensures n <= |text|
  {
    if text != [] && text[0] == MINUS then
      if UnsignedLength(text[1..]) == 0 then 0 else 1 + UnsignedLength(text[1..])
    else UnsignedLength(text)
  }

  /** The length of the scalar token at the start of the text, 0 if there is none. */
  function TokenLength(text: Text): (n: nat)
    ensures n <= |text|
  {
    if TRUE_TOKEN <= text then 4
    else if FALSE_TOKEN <= text then 5
    else if NULL_TOKEN <= text then 4
    else NumberLength(text)
  }

  function ScalarValue(token: Text, round: Rounding): Json {
    if token == TRUE_TOKEN then JBool(true)
    else if token == FALSE_TOKEN then JBool(false)
    else if token == NULL_TOKEN then JNull
    else JNumber(round(token))
  }

  // ----------------------------------------------------------- what it computes

  /** A string literal at the start of the text. */
  function ParseString(text: Text): (r: Result<Parsed<Text>, Code>)
    requires text != []
    ensures r.Success? ==> |r.value.rest| < |text|
  {
    var n := CloseAt(text[1..]);
    if n == |text| - 1 then Failure(InvalidJson)
    else
      var s := Decode(text[1..n + 1]);
      if s.None? then Failure(InvalidJson)
      else if !WellFormed(s.value) then Failure(InvalidEncoding)
      else Success(Parsed(s.value, text[n + 2..]))
  }

  function ParseValue(text: Text, depth: nat, round: Rounding): (r: Result<Parsed<Json>, Code>)
    ensures r.Success? ==> |r.value.rest| < |text|
    decreases |text|, 2
  {
    if depth > MAX_DEPTH then Failure(InvalidReceipt) else ParseStart(SkipSpace(text), depth, round)
  }

  /** A value whose first unit is at the start of the text. */
  function ParseStart(start: Text, depth: nat, round: Rounding): (r: Result<Parsed<Json>, Code>)
    ensures r.Success? ==> |r.value.rest| < |start|
    decreases |start|, 1
  {
    if start == [] then Failure(InvalidJson)
    else if start[0] == QUOTE then
      var s := ParseString(start);
      if s.Failure? then Failure(s.error) else Success(Parsed(JString(s.value.value), s.value.rest))
    else if start[0] == OPEN_BRACE then
      var inside := SkipSpace(start[1..]);
      if inside != [] && inside[0] == CLOSE_BRACE then Success(Parsed(JObject(map[]), inside[1..]))
      else ParseMembers(inside, depth, map[], round)
    else if start[0] == OPEN_BRACKET then Failure(InvalidReceipt)
    else if TokenLength(start) == 0 then Failure(InvalidJson)
    else Success(Parsed(ScalarValue(start[..TokenLength(start)], round), start[TokenLength(start)..]))
  }

  /** The members of an object from the next key on. */
  function ParseMembers(text: Text, depth: nat, sofar: map<Text, Json>, round: Rounding): (r: Result<Parsed<Json>, Code>)
    ensures r.Success? ==> |r.value.rest| < |text|
    decreases |text|, 0
  {
    if text == [] || text[0] != QUOTE then Failure(InvalidJson)
    else
      var key := ParseString(text);
      if key.Failure? then Failure(key.error)
      else if key.value.value in sofar then Failure(DuplicateKey)
      else
        var colon := SkipSpace(key.value.rest);
        if colon == [] || colon[0] != COLON then Failure(InvalidJson)
        else
          var value := ParseValue(colon[1..], depth + 1, round);
          if value.Failure? then Failure(value.error)
          else ParseMore(SkipSpace(value.value.rest), depth, sofar[key.value.value := value.value.value], round)
  }

  /** What follows a member: the end of the object, or a comma and more members. */
  function ParseMore(text: Text, depth: nat, sofar: map<Text, Json>, round: Rounding): (r: Result<Parsed<Json>, Code>)
    ensures r.Success? ==> |r.value.rest| < |text|
    decreases |text|, 0
  {
    if text == [] then Failure(InvalidJson)
    else if text[0] == CLOSE_BRACE then Success(Parsed(JObject(sofar), text[1..]))
    else if text[0] != COMMA then Failure(InvalidJson)
    else ParseMembers(SkipSpace(text[1..]), depth, sofar, round)
  }

  function ParseStrict(text: Text, round: Rounding): Result<Json, Code> {
    var r := ParseValue(text, 0, round);
    if r.Failure? then Failure(r.error)
    else if SkipSpace(r.value.rest) != [] then Failure(InvalidJson)
    else Success(r.value.value)
  }

  // ----------------------------------------------- what it means on the grammar

  /** The value of a tree, or the first fault in document order. */
  ghost function Eval(node: Node, depth: nat, round: Rounding): Result<Json, Code>
    requires ValidNode(node)
    decreases node
  {
    if depth > MAX_DEPTH then Failure(InvalidReceipt)
    else
      match node
      case Scalar(token) => Success(ScalarValue(token, round))
      case Str(pieces) =>
        if WellFormed(Meaning(pieces)) then Success(JString(Meaning(pieces))) else Failure(InvalidEncoding)
      case Arr(_) => Failure(InvalidReceipt)
      case Obj(members) => EvalMembers(members, depth, map[], round)
  }

  ghost function EvalMembers(members: Members, depth: nat, sofar: map<Text, Json>, round: Rounding): Result<Json, Code>
    requires ValidMembers(members)
    decreases members
  {
    match members
    case NoMembers(_) => Success(JObject(sofar))
    case Member(_, key, _, _, value, _, rest) =>
      if !WellFormed(Meaning(key)) then Failure(InvalidEncoding)
      else if Meaning(key) in sofar then Failure(DuplicateKey)
      else
        var v := Eval(value, depth + 1, round);
        if v.Failure? then Failure(v.error) else EvalMembers(rest, depth, sofar[Meaning(key) := v.value], round)
  }

  // --------------------------------------------------------- numbers at a start

  /** Where a scalar token must end. */
  predicate TokenEnds(rest: Text) {
    rest == [] || !TokenUnit(rest[0])
  }

  lemma {:induction false} DigitRunIs(digits: Text, rest: Text)
    requires Digits(digits) && (rest == [] || !Digit(rest[0]))
    ensures DigitRun(digits + rest) == |digits|
  {
    if digits == [] {
      assert digits + rest == rest;
    } else {
      DigitRunIs(digits[1..], rest);
      assert (digits + rest)[1..] == digits[1..] + rest;
    }
  }

  lemma PowerLengthIs(p: NumberParts, rest: Text)
    requires p.Valid() && p.power != [] && TokenEnds(rest)
    ensures PowerLength((p.sign + p.power) + rest) == |p.sign + p.power|
  {
    Shift(p.sign, p.power, rest);
    Cut(p.sign, p.power + rest);
    Cut(p.power, rest);
    DigitRunIs(p.power, rest);
    hide DigitRun;
  }

  lemma ExponentLengthIs(p: NumberParts, rest: Text)
    requires p.Valid() && TokenEnds(rest)
    ensures ExponentLength(p.ExponentText() + rest) == |p.ExponentText()|
  {
    if p.exponent == [] {
      Cut(p.ExponentText(), rest);
    } else {
      PowerLengthIs(p, rest);
      Shift(p.exponent, p.sign + p.power, rest);
      Cut(p.exponent, p.sign + p.power + rest);
      hide PowerLength;
    }
  }

  lemma FractionLengthIs(p: NumberParts, after: Text)
    requires p.Valid() && (after == [] || (!Digit(after[0]) && after[0] != POINT))
    ensures FractionLength(p.FractionText() + after) == |p.FractionText()|
  {
    Cut(p.FractionText(), after);
    if p.fraction != [] {
      Shift([POINT], p.fraction, after);
      Cut([POINT], p.fraction + after);
      DigitRunIs(p.fraction, after);
    }
  }

  lemma TailLengthIs(p: NumberParts, rest: Text)
    requires p.Valid() && TokenEnds(rest)
    ensures TailLength(p.TailText() + rest) == |p.TailText()|
    ensures p.TailText() + rest == [] || !Digit((p.TailText() + rest)[0])
  {
    var after := p.ExponentText() + rest;
    Cut(p.ExponentText(), rest);
    Cut(p.exponent, p.sign + p.power);
    assert after == [] || (!Digit(after[0]) && after[0] != POINT);
    Cut(p.FractionText(), after);
    FractionLengthIs(p, after);
    ExponentLengthIs(p, rest);
    Shift(p.FractionText(), p.ExponentText(), rest);
    hide FractionLength, ExponentLength;
  }

  lemma UnsignedLengthIs(p: NumberParts, rest: Text)
    requires p.Valid() && TokenEnds(rest)
    ensures UnsignedLength((p.whole + p.TailText()) + rest) == |p.whole + p.TailText()|
  {
    var after := p.TailText() + rest;
    TailLengthIs(p, rest);
    DigitRunIs(p.whole, after);
    Cut(p.whole, after);
    Shift(p.whole, p.TailText(), rest);
    hide TailLength, DigitRun;
  }

  lemma NumberLengthIs(p: NumberParts, rest: Text)
    requires p.Valid() && TokenEnds(rest)
    ensures NumberLength(p.Print() + rest) == |p.Print()|
  {
    var unsigned := p.whole + p.TailText();
    UnsignedLengthIs(p, rest);
    Cut(p.MinusText(), unsigned + rest);
    Shift(p.MinusText(), unsigned, rest);
    Cut(unsigned, rest);
    Cut(p.whole, p.TailText());
    hide UnsignedLength;
  }

  lemma TokenLengthIs(token: Text, rest: Text)
    requires ScalarToken(token) && TokenEnds(rest)
    ensures TokenLength(token + rest) == |token|
    ensures (token + rest)[0] != QUOTE && (token + rest)[0] != OPEN_BRACE && (token + rest)[0] != OPEN_BRACKET
    ensures !SpaceUnit((token + rest)[0])
  {
    ScalarUnits(token);
    assert (token + rest)[0] == token[0];
    if NumberToken(token) && token != TRUE_TOKEN && token != FALSE_TOKEN && token != NULL_TOKEN {
      var p: NumberParts :| p.Valid() && p.Print() == token;
      assert p.Print()[0] == (if p.minus then MINUS else p.whole[0]);
      NumberLengthIs(p, rest);
    }
  }

  /** Conversely, what the token pattern matches is a token. */
  lemma TokenLengthOnly(text: Text)
    requires TokenLength(text) > 0
    ensures ScalarToken(text[..TokenLength(text)])
  {
    if !(TRUE_TOKEN <= text) && !(FALSE_TOKEN <= text) && !(NULL_TOKEN <= text) {
      NumberLengthOnly(text);
    }
  }

  lemma ExponentLengthOnly(text: Text) returns (exponent: Text, sign: Text, power: Text)
    ensures exponent + (sign + power) == text[..ExponentLength(text)]
    ensures exponent == [] ==> sign == [] && power == []
    ensures exponent != [] ==> (exponent == [0x65] || exponent == [0x45]) && power != [] && Digits(power)
    ensures sign == [] || sign == [PLUS] || sign == [MINUS]
  {
    var n := ExponentLength(text);
    if n == 0 {
      return [], [], [];
    }
    exponent := text[..1];
    sign, power := [], text[1..][..n - 1];
    if text[1] == PLUS || text[1] == MINUS {
      sign, power := [text[1]], text[1..][1..][..n - 2];
    }
    assert sign + power == text[1..n];
  }

  lemma FractionLengthOnly(text: Text) returns (fraction: Text)
    ensures Digits(fraction)
    ensures (if fraction == [] then [] else [POINT] + fraction) == text[..FractionLength(text)]
  {
    var n := FractionLength(text);
    if n == 0 {
      return [];
    }
    fraction := text[1..][..n - 1];
    assert text[..n] == [text[0]] + fraction;
  }

  /** The first `i` units and then `j` more. */
  lemma TakeTake<T>(s: seq<T>, i: nat, j: nat)
    requires i + j <= |s|
    ensures s[..i + j] == s[..i] + s[i..][..j]
  {
  }

  lemma TailLengthOnly(text: Text, minus: bool, whole: Text) returns (p: NumberParts)
    requires Digits(whole) && whole != [] && (whole[0] == ZERO ==> |whole| == 1)
    ensures p.Valid() && p.minus == minus && p.whole == whole && p.TailText() == text[..TailLength(text)]
  {
    var f := FractionLength(text);
    var fraction := FractionLengthOnly(text);
    var exponent, sign, power := ExponentLengthOnly(text[f..]);
    TakeTake(text, f, ExponentLength(text[f..]));
    p := NumberParts(minus, whole, fraction, exponent, sign, power);
    hide FractionLength, ExponentLength;
  }

  lemma UnsignedLengthOnly(text: Text, minus: bool) returns (p: NumberParts)
    requires UnsignedLength(text) > 0
    ensures p.Valid() && p.minus == minus && p.whole + p.TailText() == text[..UnsignedLength(text)]
  {
    var w := WholeLength(text);
    TakeTake(text, w, TailLength(text[w..]));
    p := TailLengthOnly(text[w..], minus, text[..w]);
    hide TailLength;
  }

  lemma NumberLengthOnly(text: Text)
    requires NumberLength(text) > 0
    ensures NumberToken(text[..NumberLength(text)])
  {
    var minus := text[0] == MINUS;
    var unsigned := if minus then text[1..] else text;
    var p := UnsignedLengthOnly(unsigned, minus);
    hide UnsignedLength;
    TakeTake(text, 1, NumberLength(text) - 1);
    Cut(p.MinusText(), p.whole + p.TailText());
    assert p.Print() == text[..NumberLength(text)];
  }

  // ------------------------------------------------- the parser on the grammar

  lemma {:induction false} SkipSpaceIs(space: Text, rest: Text)
    requires Space(space) && (rest == [] || !SpaceUnit(rest[0]))
    ensures SkipSpace(space + rest) == rest
  {
    if space == [] {
      assert space + rest == rest;
    } else {
      SkipSpaceIs(space[1..], rest);
      assert (space + rest)[1..] == space[1..] + rest;
    }
  }

  lemma ParseStringIs(pieces: seq<Piece>, rest: Text)
    requires ValidPieces(pieces)
    ensures ParseString(PrintString(pieces) + rest)
         == if WellFormed(Meaning(pieces)) then Success(Parsed(Meaning(pieces), rest)) else Failure(InvalidEncoding)
  {
    CloseAtPieces(pieces, rest);
    DecodePrint(pieces);
    Unquoted(PrintPieces(pieces), rest);
    hide Decode, WellFormed, Meaning, CloseAt, PrintPieces;
  }

  lemma Unquoted(body: Text, rest: Text)
    ensures var text := [QUOTE] + body + [QUOTE] + rest;
            text[1..] == body + [QUOTE] + rest && text[1..|body| + 1] == body && text[|body| + 2..] == rest
  {
  }

  /** No value starts with a space, so the parser finds it after any. */
  lemma FirstUnit(node: Node, rest: Text)
    requires ValidNode(node)
    ensures Print(node) != [] && Print(node) + rest != [] && !SpaceUnit((Print(node) + rest)[0])
    ensures (Print(node) + rest)[0] == Print(node)[0]
  {
    match node
    case Scalar(token) => ScalarUnits(token);
    case Str(_) =>
    case Arr(_) =>
    case Obj(_) =>
  }

  /** The outcome of parsing a text that starts with something whose value is known. */
  function Then<T>(value: Result<T, Code>, rest: Text): Result<Parsed<T>, Code> {
    if value.Failure? then Failure(value.error) else Success(Parsed(value.value, rest))
  }

  lemma {:induction false} ValueIs(before: Text, node: Node, rest: Text, depth: nat, round: Rounding)
    requires Space(before) && ValidNode(node) && TokenEnds(rest)
    ensures ParseValue(before + (Print(node) + rest), depth, round) == Then(Eval(node, depth, round), rest)
    decreases node, 1
  {
    FirstUnit(node, rest);
    SkipSpaceIs(before, Print(node) + rest);
    if depth <= MAX_DEPTH {
      StartIs(node, rest, depth, round);
    }
    hide ParseStart, SkipSpace, Print;
  }

  lemma {:induction false} StartIs(node: Node, rest: Text, depth: nat, round: Rounding)
    requires ValidNode(node) && TokenEnds(rest) && depth <= MAX_DEPTH
    ensures ParseStart(Print(node) + rest, depth, round) == Then(Eval(node, depth, round), rest)
    decreases node, 0
  {
    match node
    case Scalar(token) =>
      ScalarUnits(token);
      TokenLengthIs(token, rest);
      Cut(token, rest);
      hide TokenLength, SkipSpace;
    case Str(pieces) =>
      ParseStringIs(pieces, rest);
      hide ParseString, SkipSpace;
    case Arr(items) =>
      Shift([OPEN_BRACKET], PrintItems(items) + [CLOSE_BRACKET], rest);
      hide SkipSpace, PrintItems;
    case Obj(members) =>
      var inside := PrintMembers(members) + [CLOSE_BRACE] + rest;
      assert Print(node) + rest == [OPEN_BRACE] + inside;
      Cut([OPEN_BRACE], inside);
      if members.NoMembers? {
        Shift(members.space, [CLOSE_BRACE], rest);
        Cut([CLOSE_BRACE], rest);
        SkipSpaceIs(members.space, [CLOSE_BRACE] + rest);
      } else {
        MembersIs(members, rest, depth, map[], round);
      }
      hide SkipSpace, PrintMembers, ParseMembers, EvalMembers;
  }

  lemma MembersStep(key: seq<Piece>, beforeColon: Text, fromValue: Text, depth: nat, sofar: map<Text, Json>, round: Rounding)
    requires ValidPieces(key) && Space(beforeColon)
    ensures ParseMembers(PrintString(key) + (beforeColon + ([COLON] + fromValue)), depth, sofar, round)
         == if !WellFormed(Meaning(key)) then Failure(InvalidEncoding)
            else if Meaning(key) in sofar then Failure(DuplicateKey)
            else
              var value := ParseValue(fromValue, depth + 1, round);
              if value.Failure? then Failure(value.error)
              else ParseMore(SkipSpace(value.value.rest), depth, sofar[Meaning(key) := value.value.value], round)
  {
    var fromColon := [COLON] + fromValue;
    ParseStringIs(key, beforeColon + fromColon);
    SkipSpaceIs(beforeColon, fromColon);
    Cut([COLON], fromValue);
    hide SkipSpace, ParseString, ParseValue, WellFormed, Meaning;
  }

  lemma StringFirst(pieces: seq<Piece>, rest: Text)
    ensures PrintString(pieces) + rest != [] && (PrintString(pieces) + rest)[0] == QUOTE
  {
  }

  lemma TailEnds(after: Text, others: Members, rest: Text)
    requires Space(after)
    ensures TokenEnds(after + MembersTail(others, rest)) && !SpaceUnit(MembersTail(others, rest)[0])
  {
    Cut(after, MembersTail(others, rest));
    hide MembersTail;
  }

  lemma MoreIs(others: Members, rest: Text, depth: nat, sofar: map<Text, Json>, round: Rounding)
    ensures ParseMore(MembersTail(others, rest), depth, sofar, round)
         == if others.NoMembers? then Success(Parsed(JObject(sofar), rest))
            else ParseMembers(SkipSpace(PrintMembers(others) + [CLOSE_BRACE] + rest), depth, sofar, round)
  {
    hide MembersTail, PrintMembers, ParseMembers, SkipSpace;
  }

  lemma {:induction false} MembersIs(m: Members, rest: Text, depth: nat, sofar: map<Text, Json>, round: Rounding)
    requires ValidMembers(m) && m.Member?
    ensures var text := SkipSpace(PrintMembers(m) + [CLOSE_BRACE] + rest);
            && text != [] && text[0] == QUOTE
            && ParseMembers(text, depth, sofar, round) == Then(EvalMembers(m, depth, sofar, round), rest)
    decreases m
  {
    var tail := MembersTail(m.rest, rest);
    var fromAfter := m.after + tail;
    var fromValue := m.afterColon + (Print(m.value) + fromAfter);
    var fromKey := PrintString(m.key) + (m.beforeColon + ([COLON] + fromValue));
    FirstMember(m, rest);
    StringFirst(m.key, m.beforeColon + ([COLON] + fromValue));
    TailEnds(m.after, m.rest, rest);
    hide SkipSpace, ParseMembers, ParseMore, ParseValue, PrintString, WellFormed, PrintMembers;
    SkipSpaceIs(m.before, fromKey);
    MembersStep(m.key, m.beforeColon, fromValue, depth, sofar, round);
    ValueIs(m.afterColon, m.value, fromAfter, depth + 1, round);
    SkipSpaceIs(m.after, tail);
    hide Print;
    var key, v := Meaning(m.key), Eval(m.value, depth + 1, round);
    if WellFormed(key) && key !in sofar && v.Success? {
      var next := sofar[key := v.value];
      MoreIs(m.rest, rest, depth, next, round);
      if m.rest.Member? {
        MembersIs(m.rest, rest, depth, next, round);
      }
    }
  }

  /** On every text of the grammar the parser computes the value of its tree, or the tree's first fault. */
  lemma ParseIsEval(doc: Document, round: Rounding)
    requires ValidDocument(doc)
    ensures ParseStrict(PrintDocument(doc), round) == Eval(doc.root, 0, round)
  {
    Shift(doc.before, Print(doc.root), doc.after);
    ValueIs(doc.before, doc.root, doc.after, 0, round);
    SkipSpaceIs(doc.after, []);
    assert doc.after + [] == doc.after;
    hide ParseValue, Eval, SkipSpace;
  }

  // --------------------------------------------- the parser accepts no more

  lemma ParseStringOnly(text: Text) returns (pieces: seq<Piece>)
    requires text != [] && text[0] == QUOTE && ParseString(text).Success?
    ensures ValidPieces(pieces) && text == PrintString(pieces) + ParseString(text).value.rest
    ensures Meaning(pieces) == ParseString(text).value.value && WellFormed(Meaning(pieces))
  {
    var n := CloseAt(text[1..]);
    pieces := DecodeOnlyLiterals(text[1..n + 1]);
    Quoted(text, n);
    hide *;
  }

  lemma Quoted(text: Text, n: nat)
    requires n + 1 < |text| && text[0] == QUOTE && text[1..][n] == QUOTE
    ensures text == [QUOTE] + text[1..n + 1] + [QUOTE] + text[n + 2..]
  {
    assert text[1..][n] == text[n + 1];
  }

  lemma {:induction false} SkipSpaceOnly(text: Text) returns (space: Text)
    ensures Space(space) && text == space + SkipSpace(text)
  {
    space := [];
    if text != [] && SpaceUnit(text[0]) {
      space := SkipSpaceOnly(text[1..]);
      Shift([text[0]], space, SkipSpace(text));
      space := [text[0]] + space;
    }
  }

  lemma {:induction false} ValueOnly(text: Text, depth: nat, round: Rounding) returns (before: Text, node: Node)
    requires ParseValue(text, depth, round).Success?
    ensures Space(before) && ValidNode(node)
    ensures text == before + (Print(node) + ParseValue(text, depth, round).value.rest)
    ensures Eval(node, depth, round) == Success(ParseValue(text, depth, round).value.value)
    decreases |text|, 2
  {
    before := SkipSpaceOnly(text);
    hide ParseStart, SkipSpace;
    node := StartOnly(SkipSpace(text), depth, round);
  }

  lemma {:induction false} StartOnly(text: Text, depth: nat, round: Rounding) returns (node: Node)
    requires ParseStart(text, depth, round).Success? && depth <= MAX_DEPTH
    ensures ValidNode(node) && text == Print(node) + ParseStart(text, depth, round).value.rest
    ensures Eval(node, depth, round) == Success(ParseStart(text, depth, round).value.value)
    decreases |text|, 1
  {
    hide SkipSpace, ParseMembers, ParseString, TokenLength;
    if text[0] == QUOTE {
      var pieces := ParseStringOnly(text);
      return Str(pieces);
    }
    if text[0] == OPEN_BRACE {
      var space := SkipSpaceOnly(text[1..]);
      node := ObjectOnly(text, space, SkipSpace(text[1..]), depth, round);
    } else {
      var n := TokenLength(text);
      TokenLengthOnly(text);
      node := Scalar(text[..n]);
    }
  }

  lemma {:induction false} ObjectOnly(text: Text, space: Text, inside: Text, depth: nat, round: Rounding) returns (node: Node)
    requires text != [] && text[0] == OPEN_BRACE && text[1..] == space + inside && Space(space) && depth <= MAX_DEPTH
    requires inside == SkipSpace(text[1..]) && ParseStart(text, depth, round).Success?
    ensures ValidNode(node) && text == Print(node) + ParseStart(text, depth, round).value.rest
    ensures Eval(node, depth, round) == Success(ParseStart(text, depth, round).value.value)
    decreases |text|, 0
  {
    hide SkipSpace, ParseMembers;
    if inside != [] && inside[0] == CLOSE_BRACE {
      assert text == [OPEN_BRACE] + space + [CLOSE_BRACE] + inside[1..];
      return Obj(NoMembers(space));
    }
    var m := MembersOnly(inside, depth, map[], round);
    var n := m.(before := space);
    node := Obj(n);
    MovedBefore(m, space, depth, map[], round);
    var rest := ParseStart(text, depth, round).value.rest;
    Shift(space, PrintMembers(m), [CLOSE_BRACE]);
    Shift(space, PrintMembers(m) + [CLOSE_BRACE], rest);
    assert text == [OPEN_BRACE] + (PrintMembers(n) + [CLOSE_BRACE] + rest);
    Shift([OPEN_BRACE] + PrintMembers(n), [CLOSE_BRACE], rest);
    Shift([OPEN_BRACE], PrintMembers(n), [CLOSE_BRACE] + rest);
    Shift(PrintMembers(n), [CLOSE_BRACE], rest);
    hide PrintMembers, EvalMembers;
  }

  /** Space before the first key changes nothing but the text. */
  lemma MovedBefore(m: Members, space: Text, depth: nat, sofar: map<Text, Json>, round: Rounding)
    requires ValidMembers(m) && m.Member? && m.before == [] && Space(space)
    ensures ValidMembers(m.(before := space)) && PrintMembers(m.(before := space)) == space + PrintMembers(m)
    ensures EvalMembers(m.(before := space), depth, sofar, round) == EvalMembers(m, depth, sofar, round)
  {
    var last := if m.rest.NoMembers? then [] else [COMMA] + PrintMembers(m.rest);
    var a1 := PrintString(m.key) + m.beforeColon + [COLON];
    assert [] + PrintString(m.key) == PrintString(m.key);
    Shift(space, PrintString(m.key), m.beforeColon);
    Shift(space, PrintString(m.key) + m.beforeColon, [COLON]);
    Shift(space, a1, m.afterColon);
    Shift(space, a1 + m.afterColon, Print(m.value));
    Shift(space, a1 + m.afterColon + Print(m.value), m.after);
    Shift(space, a1 + m.afterColon + Print(m.value) + m.after, last);
    hide Print, PrintString;
  }

  lemma {:induction false} MembersOnly(text: Text, depth: nat, sofar: map<Text, Json>, round: Rounding) returns (m: Members)
    requires ParseMembers(text, depth, sofar, round).Success?
    ensures ValidMembers(m) && m.Member? && m.before == []
    ensures PrintMembers(m) + [CLOSE_BRACE] + ParseMembers(text, depth, sofar, round).value.rest == text
    ensures EvalMembers(m, depth, sofar, round) == Success(ParseMembers(text, depth, sofar, round).value.value)
    decreases |text|, 0
  {
    hide SkipSpace, ParseString, ParseValue, ParseMore, PrintString, Print, PrintMembers, Eval, WellFormed;
    var pieces := ParseStringOnly(text);
    var afterKey := ParseString(text).value.rest;
    var beforeColon := SkipSpaceOnly(afterKey);
    var fromColon := SkipSpace(afterKey);
    var afterColon, value := ValueOnly(fromColon[1..], depth + 1, round);
    var parsed := ParseValue(fromColon[1..], depth + 1, round).value;
    var after := SkipSpaceOnly(parsed.rest);
    var tail := SkipSpace(parsed.rest);
    var next := sofar[Meaning(pieces) := parsed.value];
    var others := MoreOnly(tail, depth, next, round);
    m := Member([], pieces, beforeColon, afterColon, value, after, others);
    var rest := ParseMore(tail, depth, next, round).value.rest;
    FirstMember(m, rest);
    assert fromColon == [COLON] + fromColon[1..];
    Cut([], PrintString(pieces) + (beforeColon + ([COLON] + (afterColon + (Print(value) + (after + tail))))));
  }

  lemma {:induction false} MoreOnly(text: Text, depth: nat, sofar: map<Text, Json>, round: Rounding) returns (others: Members)
    requires ParseMore(text, depth, sofar, round).Success?
    ensures ValidMembers(others) && MembersTail(others, ParseMore(text, depth, sofar, round).value.rest) == text
    ensures EvalMembers(others, depth, sofar, round) == Success(ParseMore(text, depth, sofar, round).value.value)
    decreases |text|, 0
  {
    hide SkipSpace, ParseMembers, PrintMembers;
    if text[0] == CLOSE_BRACE {
      assert text == [CLOSE_BRACE] + text[1..];
      return NoMembers([]);
    }
    var space := SkipSpaceOnly(text[1..]);
    var m := MembersOnly(SkipSpace(text[1..]), depth, sofar, round);
    var rest := ParseMembers(SkipSpace(text[1..]), depth, sofar, round).value.rest;
    MovedBefore(m, space, depth, sofar, round);
    others := m.(before := space);
    Shift(space, PrintMembers(m), [CLOSE_BRACE]);
    Shift(space, PrintMembers(m) + [CLOSE_BRACE], rest);
    assert text == [COMMA] + text[1..];
    hide EvalMembers;
  }

  /** The main result: the parser accepts exactly the texts of trees that have a value, and returns that value. */
  lemma Accepted(text: Text, value: Json, round: Rounding)
    ensures ParseStrict(text, round) == Success(value)
       <==> exists doc :: ValidDocument(doc) && PrintDocument(doc) == text && Eval(doc.root, 0, round) == Success(value)
  {
    if ParseStrict(text, round) == Success(value) {
      var rest := ParseValue(text, 0, round).value.rest;
      var before, node := ValueOnly(text, 0, round);
      var after := SkipSpaceOnly(rest);
      assert rest == after + [] == after;
      Shift(before, Print(node), rest);
      assert PrintDocument(Document(before, node, after)) == text;
    }
    if doc :| ValidDocument(doc) && PrintDocument(doc) == text && Eval(doc.root, 0, round) == Success(value) {
      ParseIsEval(doc, round);
    }
  }

  // --------------------------------------------------- which trees have a value

  /** No array, no deep nesting, and only well-formed strings. */
  ghost predicate Acceptable(node: Node, depth: nat)
    requires ValidNode(node)
  {
    && depth <= MAX_DEPTH
    && match node
       case Scalar(_) => true
       case Str(pieces) => WellFormed(Meaning(pieces))
       case Arr(_) => false
       case Obj(members) => AcceptableMembers(members, depth)
  }

  ghost predicate AcceptableMembers(members: Members, depth: nat)
    requires ValidMembers(members)
  {
    members.NoMembers?
    || (WellFormed(Meaning(members.key)) && Acceptable(members.value, depth + 1) && AcceptableMembers(members.rest, depth))
  }

  /** A tree of the accepted kind has a value exactly when no object of it repeats a key. */
  lemma {:induction false} EvalSucceeds(node: Node, depth: nat, round: Rounding)
    requires ValidNode(node)
    ensures Eval(node, depth, round).Success? <==> Acceptable(node, depth) && !RepeatsKey(node)
    decreases node
  {
    if node.Obj? && depth <= MAX_DEPTH {
      EvalMembersSucceeds(node.members, depth, map[], round);
      ClashesMeans(node.members, {});
      var none: map<Text, Json> := map[];
      assert none.Keys == {};
    }
  }

  lemma {:induction false} EvalMembersSucceeds(m: Members, depth: nat, sofar: map<Text, Json>, round: Rounding)
    requires ValidMembers(m)
    ensures EvalMembers(m, depth, sofar, round).Success? <==> AcceptableMembers(m, depth) && !Clashes(m, sofar.Keys)
    decreases m
  {
    if m.Member? {
      EvalSucceeds(m.value, depth + 1, round);
      var v := Eval(m.value, depth + 1, round);
      if v.Success? {
        EvalMembersSucceeds(m.rest, depth, sofar[Meaning(m.key) := v.value], round);
        assert sofar[Meaning(m.key) := v.value].Keys == sofar.Keys + {Meaning(m.key)};
      }
    }
  }

  /** No text in which an object repeats a key is accepted, whatever else it contains. */
  lemma RepeatedKeyRejected(doc: Document, round: Rounding)
    requires ValidDocument(doc) && RepeatsKey(doc.root)
    ensures ParseStrict(PrintDocument(doc), round).Failure?
  {
    ParseIsEval(doc, round);
    EvalSucceeds(doc.root, 0, round);
  }

  // ---------------------------------------------------------- order of members

  /** What a tree is worth to the parser, whatever the fault is if it is worth nothing. */
  ghost function ValueOf(node: Node, depth: nat, round: Rounding): Option<Json>
    requires ValidNode(node)
  {
    var r := Eval(node, depth, round);
    if r.Success? then Some(r.value) else None
  }

  ghost function Pairs(m: Members, depth: nat, round: Rounding): seq<(Text, Option<Json>)>
    requires ValidMembers(m)
  {
    if m.NoMembers? then [] else [(Meaning(m.key), ValueOf(m.value, depth + 1, round))] + Pairs(m.rest, depth, round)
  }

  predicate HasField(fields: map<Text, Json>, key: Text, value: Json) {
    key in fields && fields[key] == value
  }

  /** The fields of an accepted object are its pairs. */
  lemma {:induction false} FieldsArePairs(m: Members, depth: nat, sofar: map<Text, Json>, round: Rounding)
    requires ValidMembers(m) && EvalMembers(m, depth, sofar, round).Success?
    ensures EvalMembers(m, depth, sofar, round).value.JObject?
    ensures var fields := EvalMembers(m, depth, sofar, round).value.fields;
            forall k: Text, x: Json ::
              HasField(fields, k, x) <==> HasField(sofar, k, x) || (k, Some(x)) in Pairs(m, depth, round)
    decreases m
  {
    if m.Member? {
      var key, x := Meaning(m.key), Eval(m.value, depth + 1, round).value;
      var next := sofar[key := x];
      FieldsArePairs(m.rest, depth, next, round);
      EvalMembersSucceeds(m.rest, depth, next, round);
      NoSuchPair(m.rest, next.Keys, key, depth, round);
    }
  }

  lemma {:induction false} NoSuchPair(m: Members, keys: set<Text>, key: Text, depth: nat, round: Rounding)
    requires ValidMembers(m) && !Clashes(m, keys) && key in keys
    ensures forall x :: (key, x) !in Pairs(m, depth, round)
    decreases m
  {
    if m.Member? {
      NoSuchPair(m.rest, keys + {Meaning(m.key)}, key, depth, round);
    }
  }

  /** Every pair has a well-formed key outside `keys` and a value, and no two of them share a key. */
  ghost predicate Usable(pairs: multiset<(Text, Option<Json>)>, keys: set<Text>) {
    forall x | x in pairs ::
      && pairs[x] == 1 && WellFormed(x.0) && x.0 !in keys && x.1.Some?
      && forall y | y in pairs && y.0 == x.0 :: y == x
  }

  lemma UsableFirst(x: (Text, Option<Json>), more: multiset<(Text, Option<Json>)>, keys: set<Text>)
    ensures Usable(multiset{x} + more, keys) <==>
            WellFormed(x.0) && x.0 !in keys && x.1.Some? && Usable(more, keys + {x.0})
  {
    var all := multiset{x} + more;
    if Usable(all, keys) {
      forall y | y in more ensures y.0 != x.0 && more[y] == 1 {
        assert y in all && x in all && all[y] == 1;
      }
    }
    if WellFormed(x.0) && x.0 !in keys && x.1.Some? && Usable(more, keys + {x.0}) {
      assert x !in more;
      forall y | y in all && y != x ensures y in more && all[y] == 1 {
      }
    }
  }

  /** Whether the members of an object are accepted depends on the collection of their pairs alone. */
  lemma {:induction false} MembersUsable(m: Members, depth: nat, sofar: map<Text, Json>, round: Rounding)
    requires ValidMembers(m)
    ensures EvalMembers(m, depth, sofar, round).Success? <==> Usable(multiset(Pairs(m, depth, round)), sofar.Keys)
    decreases m
  {
    if m.Member? {
      var x := (Meaning(m.key), ValueOf(m.value, depth + 1, round));
      UsableFirst(x, multiset(Pairs(m.rest, depth, round)), sofar.Keys);
      if x.1.Some? {
        var next := sofar[x.0 := x.1.value];
        MembersUsable(m.rest, depth, next, round);
        assert next.Keys == sofar.Keys + {x.0};
      }
      hide Usable;
    }
  }

  lemma SameAcceptance(m: Members, n: Members, depth: nat, round: Rounding)
    requires ValidMembers(m) && ValidMembers(n)
    requires multiset(Pairs(m, depth, round)) == multiset(Pairs(n, depth, round))
    ensures EvalMembers(m, depth, map[], round).Success? <==> EvalMembers(n, depth, map[], round).Success?
  {
    hide Usable, Pairs, EvalMembers;
    MembersUsable(m, depth, map[], round);
    MembersUsable(n, depth, map[], round);
  }

  /** The order of the members of an object does not matter, neither to its acceptance nor to its value. */
  lemma OrderIrrelevant(m: Members, n: Members, depth: nat, round: Rounding)
    requires ValidMembers(m) && ValidMembers(n)
    requires multiset(Pairs(m, depth, round)) == multiset(Pairs(n, depth, round))
    ensures ValueOf(Obj(m), depth, round) == ValueOf(Obj(n), depth, round)
  {
    hide Pairs, EvalMembers;
    SameAcceptance(m, n, depth, round);
    if EvalMembers(m, depth, map[], round).Success? {
      SameFields(m, n, depth, round);
    }
  }

  lemma SameFields(m: Members, n: Members, depth: nat, round: Rounding)
    requires ValidMembers(m) && ValidMembers(n)
    requires multiset(Pairs(m, depth, round)) == multiset(Pairs(n, depth, round))
    requires EvalMembers(m, depth, map[], round).Success? && EvalMembers(n, depth, map[], round).Success?
    ensures EvalMembers(m, depth, map[], round) == EvalMembers(n, depth, map[], round)
  {
    FieldsArePairs(m, depth, map[], round);
    FieldsArePairs(n, depth, map[], round);
    var p, q := Pairs(m, depth, round), Pairs(n, depth, round);
    assert forall x :: x in p <==> x in multiset(p);
    assert forall x :: x in q <==> x in multiset(q);
    var a := EvalMembers(m, depth, map[], round).value.fields;
    var b := EvalMembers(n, depth, map[], round).value.fields;
    hide EvalMembers, Pairs;
    forall k | k in a ensures k in b && b[k] == a[k] {
      assert HasField(a, k, a[k]);
      assert (k, Some(a[k])) in p;
      assert HasField(b, k, a[k]);
    }
    forall k | k in b ensures k in a {
      assert HasField(b, k, b[k]);
      assert (k, Some(b[k])) in q;
      assert HasField(a, k, b[k]);
    }
    assert a == b;
  }
}
