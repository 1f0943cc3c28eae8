/** The one-pass scan that finds repeated keys, which the host's own JSON parser forgets. */
module StrictManifest {
  import opened Basics
  import opened CodeUnits
  import opened JsonGrammar

  const MAX_DOCUMENT_BYTES := 65_536

  datatype Frame = ArrayFrame | ObjectFrame(keys: set<Text>)

  datatype Outcome = Clean | Duplicate | Malformed

  datatype ParseError = DocumentTooLarge | JsonInvalid | DuplicateKey

  /** The white space class of regular expressions, wider than JSON's. */
  predicate Blank(c: CodeUnit) {
    0x09 <= c <= 0x0D || c == 0x20 || c == 0xA0 || c == 0x1680 || 0x2000 <= c <= 0x200A
    || c == 0x2028 || c == 0x2029 || c == 0x202F || c == 0x205F || c == 0x3000 || c == 0xFEFF
  }

  function SkipBlank(text: Text): Text {
    if text != [] && Blank(text[0]) then SkipBlank(text[1..]) else text
  }

  predicate ColonNext(text: Text) {
    var next := SkipBlank(text);
    next != [] && next[0] == COLON
  }

  function Pop(stack: seq<Frame>): seq<Frame> {
    if stack == [] then [] else stack[..|stack| - 1]
  }

  function Push(stack: seq<Frame>, frame: Frame): seq<Frame> {
    stack + [frame]
  }

  /** What the scan of the remaining text finds, the open brackets being on the stack. */
  function Scan(text: Text, stack: seq<Frame>): Outcome
    decreases |text|, 0
  {
    if text == [] then Clean
    else if text[0] == OPEN_BRACE then Scan(text[1..], Push(stack, ObjectFrame({})))
    else if text[0] == OPEN_BRACKET then Scan(text[1..], Push(stack, ArrayFrame))
    else if text[0] == CLOSE_BRACE || text[0] == CLOSE_BRACKET then Scan(text[1..], Pop(stack))
    else if text[0] != QUOTE then Scan(text[1..], stack)
    else
      var n := CloseAt(text[1..]);
      if n == |text| - 1 then Malformed
      else ScanAfter(text[1..n + 1], text[n + 2..], stack)
  }

  /** The scan after a string literal, which is a key if a colon follows inside an object. */
  function ScanAfter(body: Text, text: Text, stack: seq<Frame>): Outcome
    decreases |text|, 1
  {
    if ColonNext(text) && stack != [] && Last(stack).ObjectFrame? then
      var key := Decode(body);
      if key.None? then Malformed
      else if key.value in Last(stack).keys then Duplicate
      else Scan(text, Push(Pop(stack), ObjectFrame(Last(stack).keys + {key.value})))
    else
      Scan(text, stack)
  }

  function Parsed<T>(outcome: Outcome, document: Option<T>): Result<T, ParseError> {
    match outcome
    case Duplicate => Failure(DuplicateKey)
    case Malformed => Failure(JsonInvalid)
    case Clean => if document.Some? then Success(document.value) else Failure(JsonInvalid)
  }

  // ------------------------------------------------------- the scan as it runs

  method ColonAfter(text: Text, index: nat) returns (colon: bool)
    requires index <= |text|
    ensures colon == ColonNext(text[index..])
  {
    var cursor := index;
    while cursor < |text| && Blank(text[cursor])
      invariant index <= cursor <= |text|
      invariant SkipBlank(text[index..]) == SkipBlank(text[cursor..])
    {
      cursor := cursor + 1;
    }
    colon := cursor < |text| && text[cursor] == COLON;
  }

  lemma NothingLeft(text: Text, stack: seq<Frame>)
    requires text == []
    ensures Scan(text, stack) == Clean
  {
  }

  /** One iteration on a unit that is not a quote. */
  lemma ScanUnit(text: Text, i: nat, stack: seq<Frame>)
    requires i < |text| && text[i] != QUOTE
    ensures Scan(text[i..], stack)
         == Scan(text[i + 1..],
                 if text[i] == OPEN_BRACE then Push(stack, ObjectFrame({}))
                 else if text[i] == OPEN_BRACKET then Push(stack, ArrayFrame)
                 else if text[i] == CLOSE_BRACE || text[i] == CLOSE_BRACKET then Pop(stack)
                 else stack)
  {
    assert text[i..][1..] == text[i + 1..];
  }

  /** One iteration on a string literal. */
  lemma ScanLiteral(text: Text, start: nat, index: nat, stack: seq<Frame>)
    requires start < |text| && text[start] == QUOTE && index == start + 1 + CloseAt(text[start + 1..])
    ensures Scan(text[start..], stack)
         == if index >= |text| then Malformed else ScanAfter(text[start + 1..index], text[index + 1..], stack)
  {
    assert text[start..][1..] == text[start + 1..];
    if index < |text| {
      assert text[start..][1..index - start] == text[start + 1..index];
      assert text[start..][index - start + 1..] == text[index + 1..];
    }
  }

  /** `document` is what `JSON.parse` makes of the whole text, if it accepts it. */
  method ParseStrictJsonDocument<T>(text: Text, document: Option<T>) returns (r: Result<T, ParseError>)
    ensures r == if Utf8Length(text) > MAX_DOCUMENT_BYTES then Failure(DocumentTooLarge)
                 else Parsed(Scan(text, []), document)
  {
    if Utf8Length(text) > MAX_DOCUMENT_BYTES {
      return Failure(DocumentTooLarge);
    }
    hide Scan, Push, Pop, CloseAt;
    var stack: seq<Frame> := [];
    var index := 0;
    assert text[0..] == text;
    while index < |text|
      invariant 0 <= index <= |text|
      invariant Scan(text, []) == Scan(text[index..], stack)
    {
      var character := text[index];
      if character == QUOTE {
        var start := index;
        index := FindClose(text, start);
        ScanLiteral(text, start, index, stack);
        if index >= |text| {
          return Failure(JsonInvalid);
        }
        var colon := ColonAfter(text, index + 1);
        if colon && stack != [] && Last(stack).ObjectFrame? {
          var key := Decode(text[start + 1..index]);
          if key.None? {
            return Failure(JsonInvalid);
          }
          if key.value in Last(stack).keys {
            return Failure(DuplicateKey);
          }
          stack := Push(Pop(stack), ObjectFrame(Last(stack).keys + {key.value}));
        }
      } else {
        ScanUnit(text, index, stack);
        if character == OPEN_BRACE {
          stack := Push(stack, ObjectFrame({}));
        } else if character == OPEN_BRACKET {
          stack := Push(stack, ArrayFrame);
        } else if character == CLOSE_BRACE || character == CLOSE_BRACKET {
          stack := Pop(stack);
        }
      }
      index := index + 1;
    }
    NothingLeft(text[index..], stack);
    if document.None? {
      return Failure(JsonInvalid);
    }
    r := Success(document.value);
  }

  // ---------------------------------------------- the scan against the grammar

  /** Nothing in `text` opens, closes or starts a string. */
  predicate Inert(text: Text) {
    forall i | 0 <= i < |text| ::
      text[i] != OPEN_BRACE && text[i] != OPEN_BRACKET && text[i] != CLOSE_BRACE && text[i] != CLOSE_BRACKET
      && text[i] != QUOTE
  }

  lemma {:induction false} ScanInert(inert: Text, rest: Text, stack: seq<Frame>)
    requires Inert(inert)
    ensures Scan(inert + rest, stack) == Scan(rest, stack)
  {
    if inert == [] {
      assert inert + rest == rest;
    } else {
      ScanInert(inert[1..], rest, stack);
      assert (inert + rest)[1..] == inert[1..] + rest;
    }
  }

  lemma {:induction false} SkipSpace(space: Text, rest: Text)
    requires Space(space)
    ensures SkipBlank(space + rest) == SkipBlank(rest)
  {
    if space == [] {
      assert space + rest == rest;
    } else {
      SkipSpace(space[1..], rest);
      assert (space + rest)[1..] == space[1..] + rest;
    }
  }

  lemma ScanString(pieces: seq<Piece>, rest: Text, stack: seq<Frame>)
    requires ValidPieces(pieces)
    ensures Scan(PrintString(pieces) + rest, stack) == ScanAfter(PrintPieces(pieces), rest, stack)
  {
    var text := PrintString(pieces) + rest;
    var body := PrintPieces(pieces);
    CloseAtPieces(pieces, rest);
    assert text[1..] == body + [QUOTE] + rest;
    assert text[1..|body| + 1] == body && text[|body| + 2..] == rest;
  }

  lemma ScanKey(key: seq<Piece>, beforeColon: Text, rest: Text, stack: seq<Frame>, keys: set<Text>)
    requires ValidPieces(key) && Space(beforeColon)
    ensures Scan(PrintString(key) + (beforeColon + ([COLON] + rest)), Push(stack, ObjectFrame(keys)))
         == if Meaning(key) in keys then Duplicate else Scan(rest, Push(stack, ObjectFrame(keys + {Meaning(key)})))
  {
    var more := beforeColon + ([COLON] + rest);
    var open := Push(stack, ObjectFrame(keys));
    ScanString(key, more, open);
    DecodePrint(key);
    SkipSpace(beforeColon, [COLON] + rest);
    assert Pop(open) == stack;
    var next := Push(stack, ObjectFrame(keys + {Meaning(key)}));
    ScanInert(beforeColon, [COLON] + rest, next);
    ScanInert([COLON], rest, next);
  }

  lemma {:induction false} ScanNode(node: Node, rest: Text, stack: seq<Frame>)
    requires ValidNode(node) && !ColonNext(rest)
    ensures Scan(Print(node) + rest, stack) == if RepeatsKey(node) then Duplicate else Scan(rest, stack)
    decreases node
  {
    match node
    case Scalar(token) =>
      ScalarUnits(token);
      ScanInert(token, rest, stack);
    case Str(pieces) =>
      ScanString(pieces, rest, stack);
    case Arr(items) =>
      var more := PrintItems(items) + [CLOSE_BRACKET] + rest;
      assert (Print(node) + rest)[1..] == more;
      ScanItems(items, rest, stack);
    case Obj(members) =>
      var more := PrintMembers(members) + [CLOSE_BRACE] + rest;
      assert (Print(node) + rest)[1..] == more;
      ScanMembers(members, rest, stack, {});
      ClashesMeans(members, {});
  }

  lemma AfterValue(after: Text, c: CodeUnit, rest: Text)
    requires Space(after) && !Blank(c) && c != COLON
    ensures !ColonNext(after + ([c] + rest))
  {
    SkipSpace(after, [c] + rest);
  }

  function ItemsTail(others: Items, rest: Text): (tail: Text)
    ensures tail != [] && tail == [tail[0]] + tail[1..]
    ensures tail[0] == (if others.NoItems? then CLOSE_BRACKET else COMMA)
    ensures tail[1..] == (if others.NoItems? then rest else PrintItems(others) + [CLOSE_BRACKET] + rest)
  {
    if others.NoItems? then [CLOSE_BRACKET] + rest else [COMMA] + (PrintItems(others) + [CLOSE_BRACKET] + rest)
  }

  lemma FirstItem(m: Items, rest: Text)
    requires m.Item?
    ensures PrintItems(m) + [CLOSE_BRACKET] + rest
         == m.before + (Print(m.value) + (m.after + ItemsTail(m.rest, rest)))
  {
    var last := if m.rest.NoItems? then [] else [COMMA] + PrintItems(m.rest);
    var value, tail := Print(m.value), ItemsTail(m.rest, rest);
    var a1 := m.before + value;
    var a2 := a1 + m.after;
    assert PrintItems(m) == a2 + last;
    hide *;
    Shift(a2, last, [CLOSE_BRACKET]);
    Shift(a2, last + [CLOSE_BRACKET], rest);
    ItemsTailIs(m.rest, rest);
    Shift(a1, m.after, tail);
    Shift(m.before, value, m.after + tail);
  }

  lemma ItemsTailIs(others: Items, rest: Text)
    ensures (if others.NoItems? then [] else [COMMA] + PrintItems(others)) + [CLOSE_BRACKET] + rest
         == ItemsTail(others, rest)
  {
    hide PrintItems;
  }

  lemma {:induction false} ScanItems(items: Items, rest: Text, stack: seq<Frame>)
    requires ValidItems(items)
    ensures Scan(PrintItems(items) + [CLOSE_BRACKET] + rest, Push(stack, ArrayFrame))
         == if ItemsRepeatKey(items) then Duplicate else Scan(rest, stack)
    decreases items
  {
    hide Scan, ScanAfter, SkipBlank;
    var open := Push(stack, ArrayFrame);
    assert Pop(open) == stack;
    match items
    case NoItems(space) =>
      assert space + [CLOSE_BRACKET] + rest == space + ([CLOSE_BRACKET] + rest);
      ScanInert(space, [CLOSE_BRACKET] + rest, open);
      ScanClose(CLOSE_BRACKET, rest, open);
    case Item(before, value, after, others) =>
      var tail := ItemsTail(others, rest);
      FirstItem(items, rest);
      ScanInert(before, Print(value) + (after + tail), open);
      AfterValue(after, tail[0], tail[1..]);
      ScanNode(value, after + tail, open);
      ScanInert(after, tail, open);
      if others.Item? {
        ScanInert([COMMA], tail[1..], open);
        ScanItems(others, rest, stack);
      } else {
        ScanClose(CLOSE_BRACKET, rest, open);
      }
  }

  lemma ScanClose(c: CodeUnit, rest: Text, stack: seq<Frame>)
    requires c == CLOSE_BRACE || c == CLOSE_BRACKET
    ensures Scan([c] + rest, stack) == Scan(rest, Pop(stack))
  {
    assert ([c] + rest)[1..] == rest;
  }

  lemma {:induction false} ScanMembers(members: Members, rest: Text, stack: seq<Frame>, keys: set<Text>)
    requires ValidMembers(members)
    ensures Scan(PrintMembers(members) + [CLOSE_BRACE] + rest, Push(stack, ObjectFrame(keys)))
         == if Clashes(members, keys) then Duplicate else Scan(rest, stack)
    decreases members
  {
    hide Scan, ScanAfter, SkipBlank, PrintString;
    var open := Push(stack, ObjectFrame(keys));
    match members
    case NoMembers(space) =>
      assert Pop(open) == stack;
      assert space + [CLOSE_BRACE] + rest == space + ([CLOSE_BRACE] + rest);
      ScanInert(space, [CLOSE_BRACE] + rest, open);
      ScanClose(CLOSE_BRACE, rest, open);
    case Member(before, key, beforeColon, afterColon, value, after, others) =>
      var tail := MembersTail(others, rest);
      var fromAfter := after + tail;
      var fromValue := afterColon + (Print(value) + fromAfter);
      var fromKey := PrintString(key) + (beforeColon + ([COLON] + fromValue));
      FirstMember(members, rest);
      ScanInert(before, fromKey, open);
      ScanKey(key, beforeColon, fromValue, stack, keys);
      var next := Push(stack, ObjectFrame(keys + {Meaning(key)}));
      ScanInert(afterColon, Print(value) + fromAfter, next);
      AfterValue(after, tail[0], tail[1..]);
      ScanNode(value, fromAfter, next);
      ScanInert(after, tail, next);
      if others.Member? {
        ScanInert([COMMA], tail[1..], next);
        ScanMembers(others, rest, stack, keys + {Meaning(key)});
      } else {
        assert Pop(next) == stack;
        ScanClose(CLOSE_BRACE, rest, next);
      }
  }

  /** The main result: on every JSON text the scan fails exactly when some object repeats a key. */
  lemma ScanFindsRepeatedKeys(doc: Document)
    requires ValidDocument(doc)
    ensures Scan(PrintDocument(doc), []) == if RepeatsKey(doc.root) then Duplicate else Clean
  {
    assert PrintDocument(doc) == doc.before + (Print(doc.root) + doc.after);
    ScanInert(doc.before, Print(doc.root) + doc.after, []);
    SkipSpace(doc.after, []);
    assert doc.after + [] == doc.after;
    ScanNode(doc.root, doc.after, []);
    ScanInert(doc.after, [], []);
  }

  /** The same for the whole function: the duplicate-key error means what it says, and nothing else is lost. */
  lemma StrictDocument<T>(doc: Document, document: Option<T>)
    requires ValidDocument(doc) && document.Some?
    ensures Parsed(Scan(PrintDocument(doc), []), document)
         == if RepeatsKey(doc.root) then Failure(DuplicateKey) else Success(document.value)
  {
    ScanFindsRepeatedKeys(doc);
  }
}
