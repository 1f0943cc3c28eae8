/** The host language's strings are sequences of UTF-16 code units. */
module CodeUnits {

  type CodeUnit = x: int | 0 <= x < 0x1_0000

  /** A string of code units; Dafny's `string` is kept for names that are only compared. */
  type Text = seq<CodeUnit>

  predicate LeadSurrogate(c: CodeUnit) {
    0xD800 <= c <= 0xDBFF
  }

  predicate TrailSurrogate(c: CodeUnit) {
    0xDC00 <= c <= 0xDFFF
  }

  /** How many code units the code point at `i` takes; a lone surrogate stands for itself. */
  function Width(text: Text, i: nat): (n: nat)
    requires i < |text|
    ensures 1 <= n <= 2 && i + n <= |text|
    ensures n == 2 <==> i + 1 < |text| && LeadSurrogate(text[i]) && TrailSurrogate(text[i + 1])
  {
    if i + 1 < |text| && LeadSurrogate(text[i]) && TrailSurrogate(text[i + 1]) then 2 else 1
  }

  /** The bytes of the UTF-8 encoding; a lone surrogate takes those of its replacement character. */
  function Utf8Length(text: Text): (n: nat)
    ensures |text| <= n <= 3 * |text|
  {
    if text == [] then 0
    else if Width(text, 0) == 2 then 4 + Utf8Length(text[2..])
    else (if text[0] < 0x80 then 1 else if text[0] < 0x800 then 2 else 3) + Utf8Length(text[1..])
  }

  /** Every surrogate is part of a pair. */
  predicate WellFormed(text: Text) {
    text == []
    || (if LeadSurrogate(text[0]) then |text| >= 2 && TrailSurrogate(text[1]) && WellFormed(text[2..])
        else !TrailSurrogate(text[0]) && WellFormed(text[1..]))
  }

  method CheckWellFormed(text: Text) returns (ok: bool)
    ensures ok == WellFormed(text)
  {
    var i := 0;
    while i < |text|
      invariant 0 <= i <= |text|
      invariant WellFormed(text) == WellFormed(text[i..])
    {
      if LeadSurrogate(text[i]) {
        i := i + 1;
        if i == |text| || !TrailSurrogate(text[i]) {
          return false;
        }
      } else if TrailSurrogate(text[i]) {
        return false;
      }
      i := i + 1;
    }
    ok := true;
  }
}
