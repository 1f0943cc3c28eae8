/** Rearranging the members of objects, at any depth of a text. */
module MemberOrder {
  import opened Basics
  import opened CodeUnits
  import opened JsonGrammar
  import opened StrictJson

  /** The members of an object as decoded keys and trees. */
  ghost function Entries(m: Members): (entries: seq<(Text, Node)>)
    requires ValidMembers(m)
    ensures forall e | e in entries :: ValidNode(e.1)
  {
    if m.NoMembers? then [] else [(Meaning(m.key), m.value)] + Entries(m.rest)
  }

  function Without<T>(s: seq<T>, i: nat): (r: seq<T>)
    requires i < |s|
    ensures |r| == |s| - 1 && multiset(r) + multiset{s[i]} == multiset(s)
    ensures forall x | x in r :: x in s
  {
    assert s == s[..i] + [s[i]] + s[i + 1..];
    s[..i] + s[i + 1..]
  }

  /**
   * The same tree up to spaces, the spelling of strings and, in every object, the order of the
   * members. Repeated keys, arrays and any depth are allowed.
   */
  ghost predicate Rearranged(a: Node, b: Node)
    requires ValidNode(a) && ValidNode(b)
    decreases a
  {
    match a
    case Scalar(token) => b == Scalar(token)
    case Str(pieces) => b.Str? && Meaning(b.pieces) == Meaning(pieces)
    case Arr(items) => b.Arr? && RearrangedItems(items, b.items)
    case Obj(members) => b.Obj? && RearrangedMembers(members, Entries(b.members))
  }

  ghost predicate RearrangedItems(a: Items, b: Items)
    requires ValidItems(a) && ValidItems(b)
    decreases a
  {
    if a.NoItems? then b.NoItems?
    else b.Item? && Rearranged(a.value, b.value) && RearrangedItems(a.rest, b.rest)
  }

  /** Each member finds one of the entries for itself, with its key and its tree rearranged; none is left. */
  ghost predicate RearrangedMembers(m: Members, entries: seq<(Text, Node)>)
    requires ValidMembers(m) && forall e | e in entries :: ValidNode(e.1)
    decreases m
  {
    if m.NoMembers? then entries == []
    else
      exists i | 0 <= i < |entries| ::
        && entries[i].0 == Meaning(m.key) && Rearranged(m.value, entries[i].1)
        && RearrangedMembers(m.rest, Without(entries, i))
  }

  // ------------------------------------------------- what a rearrangement is

  lemma {:induction false} RearrangedSelf(a: Node)
    requires ValidNode(a)
    ensures Rearranged(a, a)
    decreases a
  {
    match a
    case Scalar(_) =>
    case Str(_) =>
    case Arr(items) => RearrangedItemsSelf(items);
    case Obj(members) => PermutedIsRearranged(members, Entries(members));
  }

  lemma {:induction false} RearrangedItemsSelf(items: Items)
    requires ValidItems(items)
    ensures RearrangedItems(items, items)
    decreases items
  {
    if items.Item? {
      RearrangedSelf(items.value);
      RearrangedItemsSelf(items.rest);
    }
  }

  /** Any permutation of the members is a rearrangement. */
  lemma {:induction false} PermutedIsRearranged(m: Members, entries: seq<(Text, Node)>)
    requires ValidMembers(m) && (forall e | e in entries :: ValidNode(e.1))
    requires multiset(Entries(m)) == multiset(entries)
    ensures RearrangedMembers(m, entries)
    decreases m
  {
    if m.NoMembers? {
      assert |multiset(entries)| == 0;
    } else {
      var first, rest := (Meaning(m.key), m.value), Entries(m.rest);
      assert multiset(Entries(m)) == multiset{first} + multiset(rest);
      assert first in multiset(entries);
      var i :| 0 <= i < |entries| && entries[i] == first;
      assert multiset(Without(entries, i)) == multiset(entries) - multiset{first};
      assert multiset(rest) == multiset(Entries(m)) - multiset{first};
      RearrangedSelf(m.value);
      PermutedIsRearranged(m.rest, Without(entries, i));
    }
  }

  // ------------------------------------------------------- what it leaves alone

  ghost function PairsOf(entries: seq<(Text, Node)>, depth: nat, round: Rounding): (pairs: seq<(Text, Option<Json>)>)
    requires forall e | e in entries :: ValidNode(e.1)
  {
    seq(|entries|, i requires 0 <= i < |entries| => (entries[i].0, ValueOf(entries[i].1, depth + 1, round)))
  }

  lemma {:induction false} PairsOfEntries(m: Members, depth: nat, round: Rounding)
    requires ValidMembers(m)
    ensures PairsOf(Entries(m), depth, round) == Pairs(m, depth, round)
  {
    if m.Member? {
      PairsOfEntries(m.rest, depth, round);
    }
  }

  lemma PairsWithout(entries: seq<(Text, Node)>, i: nat, depth: nat, round: Rounding)
    requires i < |entries| && forall e | e in entries :: ValidNode(e.1)
    ensures multiset(PairsOf(entries, depth, round))
         == multiset{PairsOf(entries, depth, round)[i]} + multiset(PairsOf(Without(entries, i), depth, round))
  {
    assert PairsOf(Without(entries, i), depth, round) == Without(PairsOf(entries, depth, round), i);
  }

  /** Rearranged members have the same pairs, if not in the same order. */
  lemma {:induction false} RearrangedPairs(m: Members, entries: seq<(Text, Node)>, depth: nat, round: Rounding)
    requires ValidMembers(m) && (forall e | e in entries :: ValidNode(e.1)) && RearrangedMembers(m, entries)
    ensures multiset(Pairs(m, depth, round)) == multiset(PairsOf(entries, depth, round))
    decreases m
  {
    if m.Member? {
      var i :| 0 <= i < |entries| && entries[i].0 == Meaning(m.key) && Rearranged(m.value, entries[i].1)
               && RearrangedMembers(m.rest, Without(entries, i));
      RearrangedValue(m.value, entries[i].1, depth + 1, round);
      RearrangedPairs(m.rest, Without(entries, i), depth, round);
      PairsWithout(entries, i, depth, round);
      assert Pairs(m, depth, round) == [PairsOf(entries, depth, round)[i]] + Pairs(m.rest, depth, round);
    }
  }

  /**
   * The parser accepts a tree exactly when it accepts the tree rearranged, and gives both the same
   * value. Only the fault of a rejected tree depends on the order.
   */
  lemma {:induction false} RearrangedValue(a: Node, b: Node, depth: nat, round: Rounding)
    requires ValidNode(a) && ValidNode(b) && Rearranged(a, b)
    ensures ValueOf(a, depth, round) == ValueOf(b, depth, round)
    decreases a
  {
    if a.Obj? {
      RearrangedPairs(a.members, Entries(b.members), depth, round);
      PairsOfEntries(b.members, depth, round);
      OrderIrrelevant(a.members, b.members, depth, round);
    }
  }

  /** An object with two members of one key. */
  function Twice(first: Node, second: Node): Node {
    var key := [Plain(0x61)];
    Obj(Member([], key, [], [], first, [], Member([], key, [], [], second, [], NoMembers([]))))
  }

  lemma TwiceValid(first: Node, second: Node)
    requires ValidNode(first) && ValidNode(second)
    ensures ValidNode(Twice(first, second))
    ensures Meaning([Plain(0x61)]) == [0x61] && WellFormed([0x61])
    ensures Entries(Twice(first, second).members) == [([0x61], first)] + [([0x61], second)]
  {
    var m := Twice(first, second).members;
    assert ValidPieces(m.key) && ValidMembers(m.rest.rest) && ValidMembers(m.rest) && ValidMembers(m);
    hide ValidNode;
    assert Meaning(m.key) == [0x61] + Meaning([]) == [0x61];
    assert Entries(m.rest) == [([0x61], second)] + Entries(m.rest.rest) == [([0x61], second)];
    assert Entries(m) == [([0x61], first)] + Entries(m.rest);
  }

  /** The second member always repeats the key, unless the first has a fault of its own. */
  lemma TwiceFaults(first: Node, second: Node, round: Rounding)
    requires ValidNode(first) && ValidNode(second) && ValidNode(Twice(first, second))
    ensures Eval(Twice(first, second), 0, round) ==
            Failure(if Eval(first, 1, round).Failure? then Eval(first, 1, round).error else DuplicateKey)
  {
    TwiceValid(first, second);
    var m := Twice(first, second).members;
    assert ValidMembers(m) && ValidMembers(m.rest);
    hide ValidNode, ValidMembers, Meaning, WellFormed;
    var v := Eval(first, 1, round);
    if v.Success? {
      assert EvalMembers(m.rest, 0, map[[0x61] := v.value], round) == Failure(DuplicateKey);
    }
    assert Eval(Twice(first, second), 0, round) == EvalMembers(m, 0, map[], round);
  }

  lemma TwiceRearranged(first: Node, second: Node)
    requires ValidNode(first) && ValidNode(second)
    ensures ValidNode(Twice(first, second)) && ValidNode(Twice(second, first))
    ensures Rearranged(Twice(first, second), Twice(second, first))
  {
    hide Entries, RearrangedMembers, Meaning, WellFormed;
    TwiceValid(first, second);
    TwiceValid(second, first);
    var x, y := ([0x61], first), ([0x61], second);
    assert multiset([x] + [y]) == multiset{x, y} == multiset([y] + [x]);
    PermutedIsRearranged(Twice(first, second).members, Entries(Twice(second, first).members));
  }

  /** Which fault is reported does depend on the order. */
  lemma FaultDependsOnOrder(round: Rounding)
    ensures var empty, none := Arr(NoItems([])), Scalar(NULL_TOKEN);
            && ValidNode(Twice(empty, none)) && ValidNode(Twice(none, empty))
            && Rearranged(Twice(empty, none), Twice(none, empty))
            && Eval(Twice(empty, none), 0, round) == Failure(InvalidReceipt)
            && Eval(Twice(none, empty), 0, round) == Failure(DuplicateKey)
  {
    hide Twice, Rearranged;
    var empty, none := Arr(NoItems([])), Scalar(NULL_TOKEN);
    TwiceRearranged(empty, none);
    TwiceFaults(empty, none, round);
    TwiceFaults(none, empty, round);
  }
}
