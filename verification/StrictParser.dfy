/** The same parser as it runs: one index shared by its nested procedures. */
module StrictParser {
  import opened Basics
  import opened CodeUnits
  import opened JsonGrammar
  import opened StrictJson

  /** The literal between two quotes, seen from its first quote and in the whole text. */
  lemma LiteralAt(raw: Text, start: nat, close: nat)
    requires start < |raw| && close == start + 1 + CloseAt(raw[start + 1..])
    ensures raw[start..][1..] == raw[start + 1..]
    ensures close < |raw| ==> raw[start..][1..close - start] == raw[start + 1..close]
    ensures close < |raw| ==> raw[start..][close - start + 1..] == raw[close + 1..]
  {
  }

  /** One member: its key, which must be new, and its value. */
  function ParseField(text: Text, depth: nat, keys: set<Text>, round: Rounding): Result<Parsed<(Text, Json)>, Code> {
    if text == [] || text[0] != QUOTE then Failure(InvalidJson)
    else
      var key := ParseString(text);
      if key.Failure? then Failure(key.error)
      else if key.value.value in keys then Failure(DuplicateKey)
      else
        var colon := SkipSpace(key.value.rest);
        if colon == [] || colon[0] != COLON then Failure(InvalidJson)
        else
          var value := ParseValue(colon[1..], depth + 1, round);
          if value.Failure? then Failure(value.error)
          else Success(Parsed((key.value.value, value.value.value), value.value.rest))
  }

  lemma OneMember(text: Text, depth: nat, sofar: map<Text, Json>, round: Rounding)
    ensures ParseMembers(text, depth, sofar, round)
         == var field := ParseField(text, depth, sofar.Keys, round);
            if field.Failure? then Failure(field.error)
            else ParseMore(SkipSpace(field.value.rest), depth, sofar[field.value.value.0 := field.value.value.1], round)
  {
    hide ParseString, SkipSpace, ParseValue, ParseMore;
  }

  lemma NoMember(depth: nat, sofar: map<Text, Json>, round: Rounding)
    ensures ParseMembers([], depth, sofar, round) == Failure(InvalidJson)
  {
  }

  lemma AfterMember(text: Text, depth: nat, sofar: map<Text, Json>, round: Rounding)
    ensures ParseMore(text, depth, sofar, round)
         == if text == [] then Failure(InvalidJson)
            else if text[0] == CLOSE_BRACE then Success(Parsed(JObject(sofar), text[1..]))
            else if text[0] != COMMA then Failure(InvalidJson)
            else ParseMembers(SkipSpace(text[1..]), depth, sofar, round)
  {
    hide SkipSpace, ParseMembers;
  }

  class Parser {
    const raw: Text
    const round: Rounding
    var i: nat

    ghost predicate Valid()
      reads this
    {
      i <= |raw|
    }

    ghost function Left(): Text
      reads this
      requires Valid()
    {
      raw[i..]
    }

    /** What a procedure that started with `expected` still to do has to leave behind. */
    ghost predicate Reaches<T>(r: Result<T, Code>, expected: Result<Parsed<T>, Code>)
      reads this
    {
      match expected
      case Failure(code) => r == Failure(code)
      case Success(parsed) => r == Success(parsed.value) && Valid() && Left() == parsed.rest
    }

    constructor (raw: Text, round: Rounding)
      ensures this.raw == raw && this.round == round && Valid() && Left() == raw
    {
      this.raw, this.round, this.i := raw, round, 0;
    }

    method Ws()
      requires Valid()
      modifies this
      ensures Valid() && i >= old(i) && Left() == SkipSpace(old(Left()))
    {
      while i < |raw| && SpaceUnit(raw[i])
        invariant old(i) <= i <= |raw| && SkipSpace(raw[i..]) == SkipSpace(old(Left()))
      {
        assert raw[i..][1..] == raw[i + 1..];
        i := i + 1;
      }
    }

    method String() returns (r: Result<Text, Code>)
      requires Valid() && i < |raw| && raw[i] == QUOTE
      modifies this
      ensures Reaches(r, ParseString(old(Left()))) && i > old(i)
    {
      ghost var text := Left();
      var start := i;
      var close := FindClose(raw, start);
      LiteralAt(raw, start, close);
      if close >= |raw| {
        i := close + 1;
        return Failure(InvalidJson);
      }
      i := close + 1;
      hide CloseAt, Decode, WellFormed;
      var s := Decode(raw[start + 1..close]);
      if s.None? {
        return Failure(InvalidJson);
      }
      var ok := CheckWellFormed(s.value);
      r := if ok then Success(s.value) else Failure(InvalidEncoding);
    }

    method Value(depth: nat) returns (r: Result<Json, Code>)
      requires Valid()
      modifies this
      ensures Reaches(r, ParseValue(old(Left()), depth, round))
      ensures r.Success? ==> i > old(i)
      decreases |raw| - i, 1
    {
      if depth > MAX_DEPTH {
        return Failure(InvalidReceipt);
      }
      Ws();
      ghost var start := raw[i..];
      hide SkipSpace, ParseString, ParseMembers, TokenLength;
      if i < |raw| && raw[i] == QUOTE {
        var s := String();
        if s.Failure? {
          return Failure(s.error);
        }
        return Success(JString(s.value));
      }
      if i < |raw| && raw[i] == OPEN_BRACE {
        i := i + 1;
        assert start[1..] == raw[i..];
        r := Object(depth);
        return;
      }
      if i < |raw| && raw[i] == OPEN_BRACKET {
        return Failure(InvalidReceipt);
      }
      r := Token(start);
    }

    method Token(ghost start: Text) returns (r: Result<Json, Code>)
      requires Valid() && start == Left()
      modifies this
      ensures Reaches(r, if start == [] || TokenLength(start) == 0 then Failure(InvalidJson)
                         else Success(Parsed(ScalarValue(start[..TokenLength(start)], round), start[TokenLength(start)..])))
      ensures r.Success? ==> i > old(i)
    {
      var n := TokenLength(raw[i..]);
      if n == 0 {
        return Failure(InvalidJson);
      }
      i := i + n;
      assert Left() == start[n..] && raw[i - n..i] == start[..n];
      r := Success(ScalarValue(raw[i - n..i], round));
    }

    method Field(depth: nat, seen: set<Text>) returns (r: Result<(Text, Json), Code>)
      requires Valid()
      modifies this
      ensures Reaches(r, ParseField(old(Left()), depth, seen, round))
      ensures r.Success? ==> i > old(i)
      decreases |raw| - i, 2
    {
      hide SkipSpace, ParseString, ParseValue;
      if i >= |raw| || raw[i] != QUOTE {
        return Failure(InvalidJson);
      }
      var key := String();
      if key.Failure? {
        return Failure(key.error);
      }
      if key.value in seen {
        return Failure(DuplicateKey);
      }
      Ws();
      ghost var colon := Left();
      if i >= |raw| || raw[i] != COLON {
        return Failure(InvalidJson);
      }
      i := i + 1;
      assert colon[1..] == Left();
      var value := Value(depth + 1);
      if value.Failure? {
        return Failure(value.error);
      }
      r := Success((key.value, value.value));
    }

    /** The part of `value` after an opening brace. */
    method Object(depth: nat) returns (r: Result<Json, Code>)
      requires Valid() && depth <= MAX_DEPTH
      modifies this
      ensures var inside := SkipSpace(old(Left()));
              Reaches(r, if inside != [] && inside[0] == CLOSE_BRACE then Success(Parsed(JObject(map[]), inside[1..]))
                         else ParseMembers(inside, depth, map[], round))
      ensures r.Success? ==> i > old(i)
      decreases |raw| - i, 4
    {
      Ws();
      ghost var inside := raw[i..];
      if i < |raw| && raw[i] == CLOSE_BRACE {
        i := i + 1;
        assert inside[1..] == Left();
        return Success(JObject(map[]));
      }
      hide SkipSpace, ParseMembers;
      r := Members(depth);
    }

    method Members(depth: nat) returns (r: Result<Json, Code>)
      requires Valid() && depth <= MAX_DEPTH
      modifies this
      ensures Reaches(r, ParseMembers(old(Left()), depth, map[], round))
      ensures r.Success? ==> i > old(i)
      decreases |raw| - i, 3
    {
      hide SkipSpace, ParseMembers, ParseMore, ParseField, ParseValue, ParseString;
      var result: map<Text, Json> := map[];
      var seen: set<Text> := {};
      while i < |raw|
        invariant Valid() && i >= old(i) && seen == result.Keys
        invariant ParseMembers(Left(), depth, result, round) == ParseMembers(old(Left()), depth, map[], round)
        decreases |raw| - i
      {
        OneMember(Left(), depth, result, round);
        var field := Field(depth, seen);
        if field.Failure? {
          return Failure(field.error);
        }
        seen := seen + {field.value.0};
        result := result[field.value.0 := field.value.1];
        Ws();
        AfterMember(Left(), depth, result, round);
        if i >= |raw| {
          return Failure(InvalidJson);
        }
        assert raw[i..][1..] == raw[i + 1..];
        i := i + 1;
        if raw[i - 1] == CLOSE_BRACE {
          return Success(JObject(result));
        }
        if raw[i - 1] != COMMA {
          return Failure(InvalidJson);
        }
        Ws();
      }
      NoMember(depth, result, round);
      r := Failure(InvalidJson);
    }
  }

  /** Parsing a whole text; see `StrictJson.Accepted` for what this means. */
  method ParseText(raw: Text, round: Rounding) returns (r: Result<Json, Code>)
    ensures r == ParseStrict(raw, round)
  {
    var parser := new Parser(raw, round);
    r := parser.Value(0);
    if r.Success? {
      parser.Ws();
      if parser.i != |raw| {
        r := Failure(InvalidJson);
      }
    }
  }
}
