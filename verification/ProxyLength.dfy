/** The declared length of a request body (src/proxy.js, contentLength). */
module ProxyLength {
  import opened Results
  import opened Texts
  import opened Numbers
  import opened ManifestScalars

  datatype Length = Absent | Malformed | Exactly(n: nat)

  /** null for no value, NaN unless there is one canonical decimal that is a safe integer. */
  function LengthOf(values: seq<string>): Length {
    if values == [] then Absent
    else if |values| != 1 || !IsCanonical(values[0]) then Malformed
    else if DecimalValue(values[0]) <= MAX_SAFE_INTEGER then Exactly(DecimalValue(values[0]))
    else Malformed
  }

  predicate IsLengthField(field: (string, string)) { Lower(field.0) == "content-length" }

  /** The values of the Content-Length fields among raw names and values, in order. */
  function LengthFields(raw: seq<(string, string)>): seq<string> {
    if raw == [] then []
    else
      var before := LengthFields(raw[..|raw| - 1]);
      if IsLengthField(raw[|raw| - 1]) then before + [raw[|raw| - 1].1] else before
  }

  /** All values that declare a length: the raw fields, or else the parsed one. */
  function Declared(raw: seq<(string, string)>, parsed: Option<string>): seq<string> {
    if LengthFields(raw) == [] && parsed.Some? then [parsed.value] else LengthFields(raw)
  }

  /** The loop finds the declared values; a length is returned exactly for a single one
      that is the decimal text of a safe integer, so that `String(length)` gives the
      declared text back, and null exactly when nothing is declared. */
  method ContentLength(raw: seq<(string, string)>, parsed: Option<string>) returns (r: Length)
    ensures forall n: nat :: r == Exactly(n) <==> Declared(raw, parsed) == [Decimal(n)] && n <= MAX_SAFE_INTEGER
    ensures r == Absent <==> parsed.None? && forall i :: 0 <= i < |raw| ==> !IsLengthField(raw[i])
    ensures r == LengthOf(Declared(raw, parsed))
  {
    var values: seq<string> := [];
    for i := 0 to |raw|
      invariant values == LengthFields(raw[..i])
    {
      assert raw[..i + 1][..i] == raw[..i];
      if Lower(raw[i].0) == "content-length" { values := values + [raw[i].1]; }
    }
    assert raw[..|raw|] == raw;
    if values == [] && parsed.Some? { values := [parsed.value]; }
    r := LengthOf(values);
    LengthIsExact(values);
    LengthFieldsAre(raw);
  }

  /** A length stands for one text, the decimal text of that safe integer. */
  lemma LengthIsExact(values: seq<string>)
    ensures forall n: nat :: LengthOf(values) == Exactly(n) <==> values == [Decimal(n)] && n <= MAX_SAFE_INTEGER
  {
    forall n: nat ensures LengthOf(values) == Exactly(n) <==> values == [Decimal(n)] && n <= MAX_SAFE_INTEGER {
      DecimalIsCanonical(n);
      if LengthOf(values) == Exactly(n) {
        CanonicalIsDecimal(values[0]);
        assert values == [values[0]];
      }
    }
  }

  /** A text is among the collected values exactly when some field, whatever the case of
      its name, carries it. */
  lemma {:induction false} LengthFieldsAre(raw: seq<(string, string)>)
    ensures forall v :: v in LengthFields(raw) <==> exists i :: 0 <= i < |raw| && IsLengthField(raw[i]) && raw[i].1 == v
    ensures LengthFields(raw) == [] <==> forall i :: 0 <= i < |raw| ==> !IsLengthField(raw[i])
  {
    if raw != [] {
      var last := |raw| - 1;
      LengthFieldsAre(raw[..last]);
      assert raw == raw[..last] + [raw[last]];
    }
  }
}
