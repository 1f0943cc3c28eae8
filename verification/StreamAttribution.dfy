/** The bounded-memory reader of attribution trailers in a chunked event stream. */
module StreamAttribution {
  import opened Basics
  import opened CodeUnits

  const CR: CodeUnit := 13
  const LF: CodeUnit := 10
  const MAX_ATTRIBUTION_LINE_LENGTH := 1024

  /** What the trailer pattern makes of one line. */
  datatype Trailer = NoTrailer | ProviderTrailer(name: Text) | ModelTrailer(name: Text)

  datatype Attribution = Attribution(provider: Option<Text>, model: Option<Text>)

  const NOTHING := Attribution(None, None)

  // ------------------------------------------------------------ lines of a text

  predicate Break(c: CodeUnit) {
    c == CR || c == LF
  }

  predicate NoBreak(line: Text) {
    forall i | 0 <= i < |line| :: !Break(line[i])
  }

  /** The first line break of `text`, or its length. */
  function FirstBreak(text: Text): (k: nat)
    ensures k <= |text| && NoBreak(text[..k]) && (k < |text| ==> Break(text[k]))
  {
    if text == [] || Break(text[0]) then 0
    else
      var k := FirstBreak(text[1..]);
      assert text[..k + 1] == [text[0]] + text[1..][..k];
      k + 1
  }

  /** Where the next line starts after the break at `k`; CR LF is one break. */
  function AfterBreak(text: Text, k: nat): (n: nat)
    requires k < |text|
    ensures k < n <= |text|
  {
    if text[k] == CR && k + 1 < |text| && text[k + 1] == LF then k + 2 else k + 1
  }

  /** The terminated lines of a whole text, without their breaks. */
  function Lines(text: Text): seq<Text>
    decreases |text|
  {
    var k := FirstBreak(text);
    if k == |text| then [] else [text[..k]] + Lines(text[AfterBreak(text, k)..])
  }

  /** What follows the last break. */
  function Rest(text: Text): Text
    decreases |text|
  {
    var k := FirstBreak(text);
    if k == |text| then text else Rest(text[AfterBreak(text, k)..])
  }

  /** The lines of a text that has ended: an unterminated last line counts if it is not empty. */
  function AllLines(text: Text): seq<Text> {
    Lines(text) + if Rest(text) == [] then [] else [Rest(text)]
  }

  lemma FirstBreakIs(text: Text, k: nat)
    requires k <= |text| && NoBreak(text[..k]) && (k < |text| ==> Break(text[k]))
    ensures FirstBreak(text) == k
  {
    var n := FirstBreak(text);
    assert forall i | 0 <= i < k :: text[i] == text[..k][i];
    assert forall i | 0 <= i < n :: text[i] == text[..n][i];
  }

  lemma LinesFrom(text: Text, k: nat)
    requires k <= |text| && NoBreak(text[..k]) && (k < |text| ==> Break(text[k]))
    ensures if k == |text| then Lines(text) == [] && Rest(text) == text
            else var more := text[AfterBreak(text, k)..];
                 Lines(text) == [text[..k]] + Lines(more) && Rest(text) == Rest(more)
  {
    FirstBreakIs(text, k);
  }

  /** The two functions do cut a text into lines: any breaks put between lines come off again. */
  function Terminated(lines: seq<Text>, breaks: seq<Text>): Text
    requires |lines| == |breaks|
  {
    if lines == [] then [] else lines[0] + breaks[0] + Terminated(lines[1..], breaks[1..])
  }

  lemma {:induction false} LinesOfTerminated(lines: seq<Text>, breaks: seq<Text>, tail: Text)
    requires |lines| == |breaks| && NoBreak(tail)
    requires forall i | 0 <= i < |lines| :: NoBreak(lines[i])
    requires forall i | 0 <= i < |breaks| :: breaks[i] in {[CR], [LF], [CR, LF]}
    requires forall i | 0 <= i < |lines| - 1 :: breaks[i] == [CR] ==> !(lines[i + 1] == [] && breaks[i + 1] == [LF])
    ensures Lines(Terminated(lines, breaks) + tail) == lines
    ensures Rest(Terminated(lines, breaks) + tail) == tail
  {
    hide Lines, Rest;
    var text := Terminated(lines, breaks) + tail;
    if lines == [] {
      assert text == tail && tail[..|tail|] == tail;
      LinesFrom(text, |tail|);
    } else {
      var more := Terminated(lines[1..], breaks[1..]) + tail;
      var k := |lines[0]|;
      assert text == lines[0] + breaks[0] + more;
      assert text[..k] == lines[0];
      LinesFrom(text, k);
      if breaks[0] == [CR] && more != [] {
        if lines[1..] != [] {
          assert more[0] == (lines[1] + breaks[1])[0];
        } else {
          assert more == tail;
        }
        assert text[k + 1] == more[0];
      }
      assert AfterBreak(text, k) == k + |breaks[0]|;
      assert text[k + |breaks[0]|..] == more;
      LinesOfTerminated(lines[1..], breaks[1..], tail);
    }
  }

  /** One more code unit on an unterminated line. */
  lemma AppendToLine(line: Text, c: CodeUnit)
    requires NoBreak(line)
    ensures Lines(line) == [] && Rest(line) == line
    ensures if Break(c) then Lines(line + [c]) == [line] && Rest(line + [c]) == []
            else Lines(line + [c]) == [] && Rest(line + [c]) == line + [c]
  {
    var k := |line|;
    hide Lines, Rest;
    assert line[..k] == line && (line + [c])[..k] == line;
    LinesFrom(line, k);
    LinesFrom([], 0);
    if Break(c) {
      LinesFrom(line + [c], k);
      assert (line + [c])[k + 1..] == [];
    } else {
      assert (line + [c])[..k + 1] == line + [c];
      LinesFrom(line + [c], k + 1);
    }
  }

  /** One more code unit changes the lines in one of three ways. */
  lemma {:induction false} LinesAppend(text: Text, c: CodeUnit)
    ensures if text != [] && Last(text) == CR && c == LF then
              Lines(text + [c]) == Lines(text) && Rest(text) == [] && Rest(text + [c]) == []
            else if Break(c) then
              Lines(text + [c]) == Lines(text) + [Rest(text)] && Rest(text + [c]) == []
            else
              Lines(text + [c]) == Lines(text) && Rest(text + [c]) == Rest(text) + [c]
    decreases |text|
  {
    hide Lines, Rest;
    var k := FirstBreak(text);
    if k == |text| {
      assert text[..k] == text;
      AppendToLine(text, c);
    } else {
      var more, n := text + [c], AfterBreak(text, k);
      assert more[..k] == text[..k];
      LinesFrom(text, k);
      LinesFrom(more, k);
      if AfterBreak(more, k) == n {
        assert more[n..] == text[n..] + [c];
        LinesAppend(text[n..], c);
      } else {
        assert more[n + 1..] == [] && text[n..] == [];
        LinesFrom([], 0);
      }
    }
  }

  // ---------------------------------------------------------- trailers of lines

  /** The effect of one finished line; longer lines are never looked at. */
  function Inspect(trailer: Text -> Trailer, was: Attribution, line: Text): Attribution {
    if |line| > MAX_ATTRIBUTION_LINE_LENGTH then was
    else
      match trailer(line)
      case NoTrailer => was
      case ProviderTrailer(name) => was.(provider := Some(name))
      case ModelTrailer(name) => was.(model := Some(name))
  }

  function InspectAll(trailer: Text -> Trailer, was: Attribution, lines: seq<Text>): Attribution {
    if lines == [] then was
    else Inspect(trailer, InspectAll(trailer, was, lines[..|lines| - 1]), Last(lines))
  }

  predicate NamesProvider(trailer: Text -> Trailer, line: Text) {
    |line| <= MAX_ATTRIBUTION_LINE_LENGTH && trailer(line).ProviderTrailer?
  }

  predicate NamesModel(trailer: Text -> Trailer, line: Text) {
    |line| <= MAX_ATTRIBUTION_LINE_LENGTH && trailer(line).ModelTrailer?
  }

  /** `found` is the name in the last line that satisfies `names`, or `was` if none does. */
  ghost predicate IsLast(
      trailer: Text -> Trailer, names: Text -> bool, lines: seq<Text>, was: Option<Text>, found: Option<Text>) {
    || (found == was && forall i | 0 <= i < |lines| :: !names(lines[i]))
    || (exists i | 0 <= i < |lines| ::
          && names(lines[i]) && !trailer(lines[i]).NoTrailer? && found == Some(trailer(lines[i]).name)
          && forall j | i < j < |lines| :: !names(lines[j]))
  }

  /** Reading lines one by one keeps the last provider and the last model. */
  lemma {:induction false} InspectAllMeans(trailer: Text -> Trailer, was: Attribution, lines: seq<Text>)
    ensures var got := InspectAll(trailer, was, lines);
            && IsLast(trailer, line => NamesProvider(trailer, line), lines, was.provider, got.provider)
            && IsLast(trailer, line => NamesModel(trailer, line), lines, was.model, got.model)
  {
    if lines != [] {
      var n := |lines| - 1;
      var shorter := lines[..n];
      InspectAllMeans(trailer, was, shorter);
      var before := InspectAll(trailer, was, shorter);
      LastExtends(trailer, line => NamesProvider(trailer, line), shorter, Last(lines), was.provider, before.provider);
      LastExtends(trailer, line => NamesModel(trailer, line), shorter, Last(lines), was.model, before.model);
      assert shorter + [Last(lines)] == lines;
    }
  }

  lemma LastExtends(
      trailer: Text -> Trailer, names: Text -> bool, lines: seq<Text>, line: Text, was: Option<Text>, found: Option<Text>)
    requires IsLast(trailer, names, lines, was, found)
    requires names(line) ==> !trailer(line).NoTrailer?
    ensures IsLast(trailer, names, lines + [line], was, if names(line) then Some(trailer(line).name) else found)
  {
    var more := lines + [line];
    if names(line) {
      assert more[|lines|] == line;
    } else if !(forall i | 0 <= i < |lines| :: !names(lines[i])) {
      var i :| 0 <= i < |lines| && names(lines[i]) && !trailer(lines[i]).NoTrailer?
               && found == Some(trailer(lines[i]).name) && forall j | i < j < |lines| :: !names(lines[j]);
      assert more[i] == lines[i];
    }
  }

  lemma InspectAllAppend(trailer: Text -> Trailer, was: Attribution, lines: seq<Text>, line: Text)
    ensures InspectAll(trailer, was, lines + [line]) == Inspect(trailer, InspectAll(trailer, was, lines), line)
  {
    assert (lines + [line])[..|lines|] == lines;
  }

  lemma NothingRead(trailer: Text -> Trailer, was: Attribution)
    ensures Lines([]) == [] && Rest([]) == [] && InspectAll(trailer, was, []) == was
  {
    LinesFrom([], 0);
  }

  // -------------------------------------------------------------------- parser

  class StreamAttributionParser {
    const trailer: Text -> Trailer
    var pending: Text
    var droppingOversizedLine: bool
    var ignoreLeadingLf: bool
    var attribution: Attribution
    /** Everything pushed since the last final push, and the value that push returned. */
    ghost var text: Text
    ghost var base: Attribution

    /** The parser remembers one short line of the text and nothing else. */
    ghost predicate Valid()
      reads this
    {
      && attribution == InspectAll(trailer, base, Lines(text))
      && droppingOversizedLine == (|Rest(text)| > MAX_ATTRIBUTION_LINE_LENGTH)
      && pending == (if droppingOversizedLine then [] else Rest(text))
      && ignoreLeadingLf == (text != [] && Last(text) == CR)
    }

    constructor (trailer: Text -> Trailer)
      ensures Valid() && this.trailer == trailer && text == [] && base == NOTHING
    {
      this.trailer := trailer;
      pending, droppingOversizedLine, ignoreLeadingLf, attribution := [], false, false, NOTHING;
      text, base := [], NOTHING;
    }

    method FinishLine()
      modifies `pending, `droppingOversizedLine, `attribution
      ensures pending == [] && !droppingOversizedLine
      ensures attribution == if old(droppingOversizedLine) then old(attribution)
                             else Inspect(trailer, old(attribution), old(pending))
      requires |pending| <= MAX_ATTRIBUTION_LINE_LENGTH
    {
      if !droppingOversizedLine {
        match trailer(pending) {
          case NoTrailer =>
          case ProviderTrailer(name) => attribution := attribution.(provider := Some(name));
          case ModelTrailer(name) => attribution := attribution.(model := Some(name));
        }
      }
      pending := [];
      droppingOversizedLine := false;
    }

    /** One code point of a chunk. */
    method Take(character: Text)
      requires Valid()
      requires |character| == 1 || (|character| == 2 && LeadSurrogate(character[0]) && TrailSurrogate(character[1]))
      modifies this
      ensures Valid() && text == old(text) + character && base == old(base)
    {
      hide Lines, Rest, InspectAll;
      Appended(text, character);
      InspectAllAppend(trailer, base, Lines(text), Rest(text));
      text := text + character;
      if ignoreLeadingLf {
        ignoreLeadingLf := false;
        if character == [LF] {
          return;
        }
      }
      if character == [CR] {
        FinishLine();
        ignoreLeadingLf := true;
        return;
      }
      if character == [LF] {
        FinishLine();
        return;
      }
      if droppingOversizedLine {
        return;
      }
      pending := pending + character;
      if |pending| > MAX_ATTRIBUTION_LINE_LENGTH {
        pending := [];
        droppingOversizedLine := true;
      }
    }

    /**
     * However the stream was cut into chunks, the value after a push is that of the
     * whole text so far: of its terminated lines, or of all its lines once it is final.
     */
    method Push(chunk: Text, final: bool) returns (value: Attribution)
      requires Valid()
      modifies this
      ensures Valid() && value == attribution && |pending| <= MAX_ATTRIBUTION_LINE_LENGTH
      ensures var all := old(text) + chunk;
              if final then
                value == InspectAll(trailer, old(base), AllLines(all)) && text == [] && base == value
              else
                value == InspectAll(trailer, old(base), Lines(all)) && text == all && base == old(base)
    {
      hide Lines, Rest, InspectAll;
      var i := 0;
      while i < |chunk|
        invariant 0 <= i <= |chunk|
        invariant Valid() && text == old(text) + chunk[..i] && base == old(base)
      {
        var n := Width(chunk, i);
        assert chunk[..i + n] == chunk[..i] + chunk[i..i + n];
        Take(chunk[i..i + n]);
        i := i + n;
      }
      assert chunk[..i] == chunk;
      if final {
        InspectAllAppend(trailer, base, Lines(text), Rest(text));
        if pending != [] || droppingOversizedLine {
          FinishLine();
        }
        assert Lines(text) + [] == Lines(text);
        NothingRead(trailer, attribution);
        ignoreLeadingLf := false;
        text, base := [], attribution;
      }
      value := attribution;
    }
  }

  /** The lines after one code point, which may be a pair of surrogates. */
  lemma Appended(text: Text, character: Text)
    requires |character| == 1 || (|character| == 2 && LeadSurrogate(character[0]) && TrailSurrogate(character[1]))
    ensures var more := text + character;
            if text != [] && Last(text) == CR && character == [LF] then
              Lines(more) == Lines(text) && Rest(text) == [] && Rest(more) == []
            else if character == [CR] || character == [LF] then
              Lines(more) == Lines(text) + [Rest(text)] && Rest(more) == []
            else
              Lines(more) == Lines(text) && Rest(more) == Rest(text) + character
  {
    hide Lines, Rest;
    LinesAppend(text, character[0]);
    if |character| == 2 {
      LinesAppend(text + [character[0]], character[1]);
      assert text + [character[0]] + [character[1]] == text + character;
      assert Rest(text) + [character[0]] + [character[1]] == Rest(text) + character;
    } else {
      assert [character[0]] == character;
    }
  }

  function Concat(chunks: seq<Text>): Text {
    if chunks == [] then [] else Concat(chunks[..|chunks| - 1]) + Last(chunks)
  }

  /** The main result: any chunking of a stream gives the attribution of its whole text. */
  method ReadStream(trailer: Text -> Trailer, chunks: seq<Text>) returns (value: Attribution)
    ensures value == InspectAll(trailer, NOTHING, AllLines(Concat(chunks)))
  {
    var parser := new StreamAttributionParser(trailer);
    var i := 0;
    while i < |chunks|
      invariant 0 <= i <= |chunks|
      invariant parser.Valid() && parser.trailer == trailer && fresh(parser)
      invariant parser.text == Concat(chunks[..i]) && parser.base == NOTHING
    {
      assert chunks[..i + 1][..i] == chunks[..i];
      var _ := parser.Push(chunks[i], false);
      i := i + 1;
    }
    assert chunks[..i] == chunks;
    assert Concat(chunks) + [] == Concat(chunks);
    value := parser.Push([], true);
  }
}
