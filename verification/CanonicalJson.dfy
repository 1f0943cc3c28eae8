/** The canonical printer of receipts: keys sorted, no spaces. Parsing undoes it. */
module CanonicalJson {
  import opened Basics
  import opened CodeUnits
  import opened JsonGrammar
  import opened StrictJson

  /** How the host prints its numbers. */
  type Printing = Number -> Text

  // ------------------------------------------------------------------- strings

  function HexLetter(v: nat): (c: CodeUnit)
    requires v < 16
    ensures HexDigit(c) && HexValue(c) == v
  {
    if v < 10 then 0x30 + v else 0x57 + v
  }

  function HexDigits(c: CodeUnit): (digits: Text)
    ensures AllHex(digits) && HexUnit(digits) == c
  {
    var high, low := c / 256, c % 256;
    [HexLetter(high / 16), HexLetter(high % 16), HexLetter(low / 16), HexLetter(low % 16)]
  }

  function PieceOf(c: CodeUnit): (piece: Piece)
    ensures piece.Valid() && piece.Meaning() == c
  {
    if c == QUOTE || c == BACKSLASH then Escape(c)
    else if c == 8 then Escape(0x62)
    else if c == 9 then Escape(0x74)
    else if c == 10 then Escape(0x6E)
    else if c == 12 then Escape(0x66)
    else if c == 13 then Escape(0x72)
    else if c < 0x20 || LeadSurrogate(c) || TrailSurrogate(c) then Unicode(HexDigits(c))
    else Plain(c)
  }

  /** Paired surrogates are printed as they are, lone ones are escaped. */
  function PiecesOf(text: Text): (pieces: seq<Piece>)
    ensures ValidPieces(pieces)
  {
    if text == [] then []
    else if Width(text, 0) == 2 then [Plain(text[0]), Plain(text[1])] + PiecesOf(text[2..])
    else [PieceOf(text[0])] + PiecesOf(text[1..])
  }

  function Stringify(text: Text): Text {
    PrintString(PiecesOf(text))
  }

  lemma {:induction false} PiecesMean(text: Text)
    ensures Meaning(PiecesOf(text)) == text
  {
    if text != [] {
      if Width(text, 0) == 2 {
        PiecesMean(text[2..]);
        var p := PiecesOf(text);
        assert p[1..] == [Plain(text[1])] + PiecesOf(text[2..]);
        assert p[1..][1..] == PiecesOf(text[2..]);
      } else {
        PiecesMean(text[1..]);
      }
    }
  }

  // -------------------------------------------------------------- order of keys

  /** The order of code units, first difference first. */
  predicate Less(a: Text, b: Text) {
    b != [] && (a == [] || a[0] < b[0] || (a[0] == b[0] && Less(a[1..], b[1..])))
  }

  lemma {:induction false} LessTotal(a: Text, b: Text)
    requires a != b
    ensures Less(a, b) || Less(b, a)
  {
    if a != [] && b != [] && a[0] == b[0] {
      assert a == [a[0]] + a[1..] && b == [b[0]] + b[1..];
      LessTotal(a[1..], b[1..]);
    }
  }

  lemma {:induction false} LessTransitive(a: Text, b: Text, c: Text)
    requires Less(a, b) && Less(b, c)
    ensures Less(a, c)
  {
    if a != [] && a[0] == b[0] == c[0] {
      LessTransitive(a[1..], b[1..], c[1..]);
    }
  }

  predicate IsLeast(k: Text, keys: set<Text>) {
    k in keys && forall j | j in keys && j != k :: Less(k, j)
  }

  lemma {:induction false} HasLeast(keys: set<Text>)
    requires keys != {}
    ensures exists k :: IsLeast(k, keys)
    decreases |keys|
  {
    var x :| x in keys;
    if keys == {x} {
      assert IsLeast(x, keys);
    } else {
      var rest := keys - {x};
      assert rest != {};
      HasLeast(rest);
      var k :| IsLeast(k, rest);
      LessTotal(x, k);
      if Less(x, k) {
        forall j | j in keys && j != x ensures Less(x, j) {
          if j != k {
            LessTransitive(x, k, j);
          }
        }
        assert IsLeast(x, keys);
      } else {
        assert IsLeast(k, keys);
      }
    }
  }

  lemma {:induction false} LessIrreflexive(a: Text)
    ensures !Less(a, a)
  {
    if a != [] {
      LessIrreflexive(a[1..]);
    }
  }

  lemma LeastUnique(j: Text, k: Text, keys: set<Text>)
    requires IsLeast(j, keys) && IsLeast(k, keys)
    ensures j == k
  {
    if j != k {
      LessTransitive(j, k, j);
      LessIrreflexive(j);
    }
  }

  function Least(keys: set<Text>): (k: Text)
    requires keys != {}
    ensures IsLeast(k, keys)
  {
    HasLeast(keys);
    assert forall j, k | IsLeast(j, keys) && IsLeast(k, keys) :: j == k by {
      forall j, k | IsLeast(j, keys) && IsLeast(k, keys) ensures j == k {
        LeastUnique(j, k, keys);
      }
    }
    var k :| k in keys && IsLeast(k, keys);
    k
  }

  function SortedKeys(keys: set<Text>): (sorted: seq<Text>)
    ensures |sorted| == |keys| && NoDuplicates(sorted)
    ensures forall k :: k in sorted <==> k in keys
    ensures forall i, j | 0 <= i < j < |sorted| :: Less(sorted[i], sorted[j])
    decreases |keys|
  {
    if keys == {} then []
    else
      var k := Least(keys);
      var others := SortedKeys(keys - {k});
      assert forall j | 0 <= j < |others| :: others[j] in others;
      [k] + others
  }

  // -------------------------------------------------------------------- printer

  function Canonical(v: Json, show: Printing): Text
    decreases v, 1, 0
  {
    match v
    case JNull => NULL_TOKEN
    case JBool(bit) => if bit then TRUE_TOKEN else FALSE_TOKEN
    case JNumber(n) => show(n)
    case JString(text) => Stringify(text)
    case JObject(fields) => [OPEN_BRACE] + Joined(v, SortedKeys(fields.Keys), show) + [CLOSE_BRACE]
  }

  ghost predicate SomeKeys(v: Json, keys: seq<Text>) {
    v.JObject? && NoDuplicates(keys) && forall k | k in keys :: k in v.fields
  }

  function Joined(v: Json, keys: seq<Text>, show: Printing): Text
    requires SomeKeys(v, keys)
    decreases v, 0, |keys|
  {
    if keys == [] then []
    else
      Stringify(keys[0]) + [COLON] + Canonical(v.fields[keys[0]], show)
      + if |keys| == 1 then [] else [COMMA] + Joined(v, keys[1..], show)
  }

  /** The syntax tree of the canonical text. */
  ghost function Tree(v: Json, show: Printing): Node
    decreases v, 1, 0
  {
    match v
    case JNull => Scalar(NULL_TOKEN)
    case JBool(bit) => Scalar(if bit then TRUE_TOKEN else FALSE_TOKEN)
    case JNumber(n) => Scalar(show(n))
    case JString(text) => Str(PiecesOf(text))
    case JObject(fields) => Obj(TreeMembers(v, SortedKeys(fields.Keys), show))
  }

  ghost function TreeMembers(v: Json, keys: seq<Text>, show: Printing): Members
    requires SomeKeys(v, keys)
    decreases v, 0, |keys|
  {
    if keys == [] then NoMembers([])
    else Member([], PiecesOf(keys[0]), [], [], Tree(v.fields[keys[0]], show), [], TreeMembers(v, keys[1..], show))
  }

  lemma {:induction false} PrintTree(v: Json, show: Printing)
    ensures Print(Tree(v, show)) == Canonical(v, show)
    decreases v, 1, 0
  {
    if v.JObject? {
      PrintTreeMembers(v, SortedKeys(v.fields.Keys), show);
    }
  }

  lemma {:induction false} PrintTreeMembers(v: Json, keys: seq<Text>, show: Printing)
    requires SomeKeys(v, keys)
    ensures PrintMembers(TreeMembers(v, keys, show)) == Joined(v, keys, show)
    decreases v, 0, |keys|
  {
    if keys != [] {
      var value := Canonical(v.fields[keys[0]], show);
      PrintTree(v.fields[keys[0]], show);
      PrintTreeMembers(v, keys[1..], show);
      var key := Stringify(keys[0]);
      var last := if |keys| == 1 then [] else [COMMA] + Joined(v, keys[1..], show);
      hide Canonical, Tree, Stringify, PrintString;
      Plainly(key, value, last);
    }
  }

  lemma Plainly(key: Text, value: Text, last: Text)
    ensures [] + key + [] + [COLON] + [] + value + [] + last == key + [COLON] + value + last
  {
    assert [] + key == key && key + [] == key;
    assert key + [COLON] + [] == key + [COLON];
    assert key + [COLON] + value + [] == key + [COLON] + value;
  }

  // ----------------------------------------------------------------- round trip

  /** A number that reads back as itself. */
  ghost predicate Shows(n: Number, show: Printing, round: Rounding) {
    NumberToken(show(n)) && round(show(n)) == n
  }

  /** A value that can come out of the parser: well-formed strings, readable numbers, bounded depth. */
  ghost predicate Printable(v: Json, depth: nat, show: Printing, round: Rounding) {
    && depth <= MAX_DEPTH
    && match v
       case JNull => true
       case JBool(_) => true
       case JNumber(n) => Shows(n, show, round)
       case JString(text) => WellFormed(text)
       case JObject(fields) =>
         forall k | k in fields :: WellFormed(k) && Printable(fields[k], depth + 1, show, round)
  }

  lemma NumberIsNoName(token: Text)
    requires NumberToken(token)
    ensures token != TRUE_TOKEN && token != FALSE_TOKEN && token != NULL_TOKEN
  {
    var parts: NumberParts :| parts.Valid() && parts.Print() == token;
    Cut(parts.MinusText(), parts.whole + parts.TailText());
    Cut(parts.whole, parts.TailText());
    assert token[0] == MINUS || Digit(token[0]);
  }

  /** The fields under some of the keys. */
  function Part(fields: map<Text, Json>, keys: seq<Text>): map<Text, Json> {
    map k | k in fields && k in keys :: fields[k]
  }

  lemma PartNone(sofar: map<Text, Json>, fields: map<Text, Json>)
    ensures sofar + Part(fields, []) == sofar
  {
  }

  lemma PartAll(fields: map<Text, Json>, keys: seq<Text>)
    requires forall k :: k in keys <==> k in fields
    ensures map[] + Part(fields, keys) == fields
  {
  }

  lemma PartStep(sofar: map<Text, Json>, fields: map<Text, Json>, keys: seq<Text>)
    requires keys != [] && keys[0] in fields
    ensures sofar[keys[0] := fields[keys[0]]] + Part(fields, keys[1..]) == sofar + Part(fields, keys)
  {
    assert forall k :: k in keys <==> k == keys[0] || k in keys[1..];
  }

  lemma EvalLeaf(v: Json, depth: nat, show: Printing, round: Rounding)
    requires Printable(v, depth, show, round) && !v.JObject?
    ensures ValidNode(Tree(v, show)) && Eval(Tree(v, show), depth, round) == Success(v)
  {
    match v
    case JNull =>
    case JBool(_) =>
    case JNumber(n) =>
      NumberIsNoName(show(n));
      hide NumberToken;
    case JString(text) =>
      PiecesMean(text);
      hide WellFormed, PiecesOf, Meaning;
  }

  lemma ObjectTree(v: Json, keys: seq<Text>, depth: nat, show: Printing, round: Rounding)
    requires v.JObject? && keys == SortedKeys(v.fields.Keys) && depth <= MAX_DEPTH
    ensures Tree(v, show) == Obj(TreeMembers(v, keys, show))
    ensures var members := TreeMembers(v, keys, show);
            ValidMembers(members) ==>
              ValidNode(Tree(v, show)) && Eval(Tree(v, show), depth, round) == EvalMembers(members, depth, map[], round)
  {
    hide TreeMembers, EvalMembers, ValidMembers;
  }

  lemma {:induction false} EvalTree(v: Json, depth: nat, show: Printing, round: Rounding)
    requires Printable(v, depth, show, round)
    ensures ValidNode(Tree(v, show)) && Eval(Tree(v, show), depth, round) == Success(v)
    decreases v, 1, 0
  {
    if v.JObject? {
      var keys := SortedKeys(v.fields.Keys);
      EvalTreeMembers(v, keys, depth, map[], show, round);
      PartAll(v.fields, keys);
      ObjectTree(v, keys, depth, show, round);
      hide *;
    } else {
      EvalLeaf(v, depth, show, round);
    }
  }

  lemma {:induction false} EvalTreeMembers(
      v: Json, keys: seq<Text>, depth: nat, sofar: map<Text, Json>, show: Printing, round: Rounding)
    requires SomeKeys(v, keys) && Printable(v, depth, show, round)
    requires forall k | k in keys :: k !in sofar
    ensures ValidMembers(TreeMembers(v, keys, show))
    ensures EvalMembers(TreeMembers(v, keys, show), depth, sofar, round) == Success(JObject(sofar + Part(v.fields, keys)))
    decreases v, 0, |keys|
  {
    if keys == [] {
      PartNone(sofar, v.fields);
    } else {
      var key := keys[0];
      PiecesMean(key);
      EvalTree(v.fields[key], depth + 1, show, round);
      var next := sofar[key := v.fields[key]];
      assert forall k | k in keys[1..] :: k in keys && k != key;
      EvalTreeMembers(v, keys[1..], depth, next, show, round);
      PartStep(sofar, v.fields, keys);
      assert WellFormed(key);
      hide Part, PiecesOf, Meaning, Eval, Tree, WellFormed, Printable;
    }
  }

  /** The canonical text of a value parses back to that value. */
  lemma CanonicalRoundTrip(v: Json, show: Printing, round: Rounding)
    requires Printable(v, 0, show, round)
    ensures ParseStrict(Canonical(v, show), round) == Success(v)
  {
    EvalTree(v, 0, show, round);
    PrintTree(v, show);
    var doc := Document([], Tree(v, show), []);
    assert PrintDocument(doc) == Canonical(v, show);
    ParseIsEval(doc, round);
    hide ParseStrict, Eval, Canonical, Tree, Printable;
  }

  /** Different values print differently. */
  lemma CanonicalInjective(v: Json, w: Json, show: Printing, round: Rounding)
    requires Printable(v, 0, show, round) && Printable(w, 0, show, round)
    requires Canonical(v, show) == Canonical(w, show)
    ensures v == w
  {
    CanonicalRoundTrip(v, show, round);
    CanonicalRoundTrip(w, show, round);
  }
}
