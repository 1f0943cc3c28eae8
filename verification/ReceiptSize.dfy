/** Every valid content, sealed, fits the size limit of receipts. */
module ReceiptSize {
  import opened Basics
  import opened CodeUnits
  import opened StrictJson
  import opened CanonicalJson
  import opened ObservationReceipt
  import opened ReceiptLanguage

  /** The units one member adds to its object: quotes, colon, comma, key and value. */
  ghost function Weight(v: Json, key: Text, host: Host): nat
    requires v.JObject?
  {
    |key| + 4 + if key in v.fields then |Canonical(v.fields[key], host.show)| else 0
  }

  ghost function TotalWeight(v: Json, keys: seq<Text>, host: Host): nat
    requires v.JObject?
  {
    if keys == [] then 0 else Weight(v, keys[0], host) + TotalWeight(v, keys[1..], host)
  }

  lemma {:induction false} JoinedFits(v: Json, keys: seq<Text>, host: Host)
    requires SomeKeys(v, keys) && forall k | k in keys :: Simple(k)
    ensures |Joined(v, keys, host.show)| <= TotalWeight(v, keys, host)
    decreases |keys|
  {
    if keys != [] {
      StringifyAscii(keys[0]);
      JoinedFits(v, keys[1..], host);
      hide Canonical, Stringify;
    }
  }

  lemma {:induction false} WeightWithout(v: Json, keys: seq<Text>, i: nat, host: Host)
    requires v.JObject? && i < |keys|
    ensures TotalWeight(v, keys, host) == Weight(v, keys[i], host) + TotalWeight(v, keys[..i] + keys[i + 1..], host)
    decreases |keys|
  {
    if i == 0 {
      assert keys[..0] + keys[1..] == keys[1..];
    } else {
      var fewer := keys[..i] + keys[i + 1..];
      WeightWithout(v, keys[1..], i - 1, host);
      assert keys[1..][..i - 1] + keys[1..][i..] == fewer[1..];
    }
  }

  /** Distinct keys out of a list weigh no more than the list. */
  lemma {:induction false} SomeOfTheList(v: Json, keys: seq<Text>, list: seq<Text>, host: Host)
    requires v.JObject? && NoDuplicates(keys) && forall k | k in keys :: k in list
    ensures TotalWeight(v, keys, host) <= TotalWeight(v, list, host)
    decreases |keys|
  {
    if keys != [] {
      assert keys[0] in keys;
      var i :| 0 <= i < |list| && list[i] == keys[0];
      var others := list[..i] + list[i + 1..];
      WeightWithout(v, list, i, host);
      forall k | k in keys[1..] ensures k in others {
        assert k in keys && k != keys[0];
        var j :| 0 <= j < |list| && list[j] == k;
        assert j < i ==> others[j] == k;
        assert j > i ==> others[j - 1] == k;
      }
      SomeOfTheList(v, keys[1..], others, host);
    }
  }

  lemma {:induction false} AtMostEach(v: Json, list: seq<Text>, each: nat, host: Host)
    requires v.JObject? && forall k | k in list :: Weight(v, k, host) <= each
    ensures TotalWeight(v, list, host) <= each * |list|
  {
    hide Weight;
    if list != [] {
      assert list[0] in list;
      AtMostEach(v, list[1..], each, host);
      assert each * |list| == each + each * (|list| - 1);
    }
  }

  lemma ObjectFits(v: Json, list: seq<Text>, depth: nat, host: Host)
    requires PlainValue(v, depth, host) && v.JObject? && forall k | k in v.fields :: k in list
    ensures |Canonical(v, host.show)| <= 2 + TotalWeight(v, list, host)
  {
    var keys := SortedKeys(v.fields.Keys);
    ObjectText(v, host.show);
    JoinedFits(v, keys, host);
    SomeOfTheList(v, keys, list, host);
    hide Canonical, Joined, TotalWeight;
  }

  lemma SmallObject(v: Json, list: seq<Text>, each: nat, depth: nat, host: Host)
    requires PlainValue(v, depth, host) && v.JObject? && forall k | k in v.fields :: k in list
    requires forall k | k in list :: Weight(v, k, host) <= each
    ensures |Canonical(v, host.show)| <= 2 + each * |list|
  {
    ObjectFits(v, list, depth, host);
    AtMostEach(v, list, each, host);
  }

  lemma TextWeight(v: Json, key: Text, host: Host)
    requires v.JObject? && key in v.fields && v.fields[key].JString? && Simple(v.fields[key].text)
    ensures Weight(v, key, host) == |key| + 6 + |v.fields[key].text|
  {
    StringifyAscii(v.fields[key].text);
  }

  lemma CountWeight(v: Json, key: Text, host: Host)
    requires Sound(host) && CountField(v, key, 0)
    ensures Weight(v, key, host) <= |key| + 9
  {
    assert ShowsCount(host, CountAt(v, key));
  }

  lemma ProvenanceFits(v: Json, host: Host)
    requires ValidProvenance(v)
    ensures |Canonical(v, host.show)| <= 316
  {
    ProvenanceIsPlain(v, host);
    TextWeight(v, COMMIT, host);
    TextWeight(v, CLOSURE, host);
    TextWeight(v, CONTRACT, host);
    hide Weight, PlainValue, Canonical;
    SmallObject(v, [COMMIT, CLOSURE, CONTRACT], 85, 1, host);
  }

  lemma RequestFits(v: Json, host: Host)
    requires ValidRequest(v)
    ensures |Canonical(v, host.show)| <= 316
  {
    RequestIsPlain(v, host);
    TextWeight(v, OUTCOME, host);
    hide Weight, PlainValue, Canonical;
    SmallObject(v, [OUTCOME], 24, 1, host);
  }

  lemma FiveWeights(v: Json, a: Text, b: Text, c: Text, d: Text, e: Text, host: Host)
    requires v.JObject?
    ensures TotalWeight(v, [a, b, c, d, e], host)
         == Weight(v, a, host) + Weight(v, b, host) + Weight(v, c, host) + Weight(v, d, host) + Weight(v, e, host)
  {
    hide Weight;
    assert [a, b, c, d, e][1..] == [b, c, d, e] && [b, c, d, e][1..] == [c, d, e];
    assert [c, d, e][1..] == [d, e] && [d, e][1..] == [e] && [e][1..] == [];
    assert TotalWeight(v, [e], host) == Weight(v, e, host);
    assert TotalWeight(v, [d, e], host) == Weight(v, d, host) + Weight(v, e, host);
    assert TotalWeight(v, [c, d, e], host) == Weight(v, c, host) + TotalWeight(v, [d, e], host);
    assert TotalWeight(v, [b, c, d, e], host) == Weight(v, b, host) + TotalWeight(v, [c, d, e], host);
  }

  lemma ObservedFits(v: Json, p: Policy, host: Host)
    requires Sound(host) && ValidAttribution(v, p) && NameField(v, STATE, {OBSERVED})
    ensures |Canonical(v, host.show)| <= 316
  {
    AttributionIsPlain(v, p, host);
    TextWeight(v, STATE, host);
    TextWeight(v, PROVIDER, host);
    TextWeight(v, MODEL, host);
    CountWeight(v, ATTEMPT_ORDINAL, host);
    TextWeight(v, BASIS, host);
    FiveWeights(v, STATE, PROVIDER, MODEL, ATTEMPT_ORDINAL, BASIS, host);
    hide Weight, PlainValue, Canonical, TotalWeight;
    ObjectFits(v, [STATE, PROVIDER, MODEL, ATTEMPT_ORDINAL, BASIS], 1, host);
  }

  lemma ReasonsAreShort()
    ensures forall t | t in UNAVAILABLE_REASONS :: Simple(t) && |t| <= 28
    ensures forall t | t in AMBIGUOUS_REASONS :: Simple(t) && |t| <= 28
    ensures forall t | t in NO_TOOLS_REASONS :: Simple(t) && |t| <= 28
  {
    hide Simple;
  }

  /** The objects that hold only a state and a reason. */
  lemma ReasonFits(v: Json, reasons: set<Text>, host: Host)
    requires Exact(v, {STATE, REASON}) && NameField(v, REASON, reasons) && PlainValue(v, 1, host)
    requires NameField(v, STATE, {UNAVAILABLE, AMBIGUOUS})
    requires forall t | t in reasons :: Simple(t) && |t| <= 28
    ensures |Canonical(v, host.show)| <= 316
  {
    TextWeight(v, STATE, host);
    TextWeight(v, REASON, host);
    hide Weight, PlainValue, Canonical;
    SmallObject(v, [STATE, REASON], 45, 1, host);
  }

  lemma AttributionFits(v: Json, p: Policy, host: Host)
    requires Sound(host) && ValidAttribution(v, p)
    ensures |Canonical(v, host.show)| <= 316
  {
    if NameField(v, STATE, {OBSERVED}) {
      ObservedFits(v, p, host);
    } else {
      AttributionIsPlain(v, p, host);
      ReasonsAreShort();
      hide PlainValue, Canonical, Simple, Ascii, CountField;
      ReasonFits(v, if NameField(v, STATE, {UNAVAILABLE}) then UNAVAILABLE_REASONS else AMBIGUOUS_REASONS, host);
    }
  }

  lemma NameWeighs(v: Json, key: Text, names: set<Text>, host: Host)
    requires NameField(v, key, names) && |key| <= 11 && forall t | t in names :: Simple(t) && |t| <= 28
    ensures Weight(v, key, host) <= 45
  {
    hide Simple, Weight;
    TextWeight(v, key, host);
  }

  lemma CountsWeigh(v: Json, host: Host)
    requires Sound(host) && CountField(v, STARTED, 0) && CountField(v, COMPLETED, 0) && CountField(v, FAILED, 0)
    ensures Weight(v, STARTED, host) <= 45 && Weight(v, COMPLETED, host) <= 45 && Weight(v, FAILED, host) <= 45
  {
    CountWeight(v, STARTED, host);
    CountWeight(v, COMPLETED, host);
    CountWeight(v, FAILED, host);
    hide Weight, CountField;
  }

  /** What the rules say of tools that were counted. */
  lemma CountedTools(v: Json)
    requires ValidTools(v) && !NameField(v, STATE, {UNAVAILABLE})
    ensures NameField(v, STATE, {COMPLETED_STATE, INCOMPLETE})
    ensures CountField(v, STARTED, 0) && CountField(v, COMPLETED, 0) && CountField(v, FAILED, 0)
    ensures Exact(v, {STATE, STARTED, COMPLETED, FAILED})
            || (Exact(v, {STATE, STARTED, COMPLETED, FAILED, REASON}) && NameField(v, REASON, INCOMPLETE_REASONS))
  {
    hide CountField, Ascii;
    if v.fields[STATE].text == INCOMPLETE {
      assert {STATE, STARTED, COMPLETED, FAILED} + {REASON} == {STATE, STARTED, COMPLETED, FAILED, REASON};
      StatesDiffer();
    } else {
      var none: set<Text> := {};
      assert {STATE, STARTED, COMPLETED, FAILED} + none == {STATE, STARTED, COMPLETED, FAILED};
    }
  }

  lemma StatesDiffer()
    ensures INCOMPLETE != COMPLETED_STATE
  {
    assert |INCOMPLETE| == 10 && |COMPLETED_STATE| == 9;
  }

  lemma StateWeighs(v: Json, host: Host)
    requires NameField(v, STATE, {COMPLETED_STATE, INCOMPLETE})
    ensures Weight(v, STATE, host) <= 45
  {
    hide Weight;
    NameWeighs(v, STATE, {COMPLETED_STATE, INCOMPLETE}, host);
  }

  lemma ReasonWeighs(v: Json, host: Host)
    requires NameField(v, REASON, INCOMPLETE_REASONS)
    ensures Weight(v, REASON, host) <= 45
  {
    hide Weight;
    NameWeighs(v, REASON, INCOMPLETE_REASONS, host);
  }

  lemma CountsFit(v: Json, host: Host)
    requires Sound(host) && ValidTools(v) && !NameField(v, STATE, {UNAVAILABLE})
    ensures |Canonical(v, host.show)| <= 316
  {
    hide Weight, PlainValue, Canonical, CountField, ValidTools, NameField, Ascii, Sound;
    ToolsArePlain(v, host);
    CountedTools(v);
    StateWeighs(v, host);
    CountsWeigh(v, host);
    if Exact(v, {STATE, STARTED, COMPLETED, FAILED}) {
      SmallObject(v, [STATE, STARTED, COMPLETED, FAILED], 45, 1, host);
    } else {
      ReasonWeighs(v, host);
      SmallObject(v, [STATE, STARTED, COMPLETED, FAILED, REASON], 45, 1, host);
    }
  }

  lemma ToolsFit(v: Json, host: Host)
    requires Sound(host) && ValidTools(v)
    ensures |Canonical(v, host.show)| <= 316
  {
    if NameField(v, STATE, {UNAVAILABLE}) {
      ToolsArePlain(v, host);
      ReasonsAreShort();
      hide PlainValue, Canonical, Simple, Ascii, CountField;
      ReasonFits(v, NO_TOOLS_REASONS, host);
    } else {
      CountsFit(v, host);
    }
  }

  lemma TextFieldFits(c: Json, p: Policy, hasId: bool, host: Host, key: Text)
    requires ValidContent(c, p, hasId, host) && key in c.fields
    requires key != PROVENANCE && key != REQUEST && key != ATTRIBUTION && key != TOOLS
    ensures Weight(c, key, host) <= 334
  {
    hide ValidProvenance, ValidRequest, ValidAttribution, ValidTools, ValidPolicy, Canonical, Weight, Simple;
    TextFieldIsPlain(c, p, hasId, host, key);
    assert c.fields[key].JString? && |c.fields[key].text| <= 300 && |key| <= 14;
    hide ValidContent;
    TextWeight(c, key, host);
  }

  lemma NestedFits(c: Json, p: Policy, hasId: bool, host: Host, key: Text)
    requires Sound(host) && ValidContent(c, p, hasId, host) && key in {PROVENANCE, REQUEST, ATTRIBUTION, TOOLS}
    ensures Weight(c, key, host) <= 334
  {
    hide ValidProvenance, ValidRequest, ValidAttribution, ValidTools, Canonical, Fresh;
    if key == PROVENANCE {
      ProvenanceFits(c.fields[PROVENANCE], host);
    } else if key == REQUEST {
      RequestFits(c.fields[REQUEST], host);
    } else if key == ATTRIBUTION {
      AttributionFits(c.fields[ATTRIBUTION], p, host);
    } else {
      ToolsFit(c.fields[TOOLS], host);
    }
  }

  /** The size check of `finish` never fires on valid content. */
  lemma ContentFits(c: Json, p: Policy, hasId: bool, host: Host)
    requires Sound(host) && ValidContent(c, p, hasId, host)
    ensures |Canonical(c, host.show)| <= MAX_RECEIPT_BYTES
  {
    hide ValidContent, PlainValue, Sound;
    ContentIsPlain(c, p, hasId, host);
    ValidIsExact(c, p, hasId, host);
    var list := [SCHEMA, OBSERVATION_ID, PROJECT_REF, OBSERVED_AT, FRESH_UNTIL, SOURCE, EVIDENCE_MODE, PROVENANCE,
                 REQUEST, ATTRIBUTION, TOOLS, RECEIPT_ID];
    forall key | key in list ensures Weight(c, key, host) <= 334 {
      if key in {PROVENANCE, REQUEST, ATTRIBUTION, TOOLS} {
        NestedFits(c, p, hasId, host, key);
      } else if key in c.fields {
        TextFieldFits(c, p, hasId, host, key);
      }
    }
    hide Weight, Canonical;
    SmallObject(c, list, 334, 0, host);
  }
}
