/**
 * The extraction and parse step of get_dynamic_field_mapping
 * (llm_mapper.py): strip the model's reply, take the greedy DOTALL
 * match of the regular expression \{.*\}, and hand that span to the JSON
 * parser. The model call itself is outside this module: the reply is an
 * input, and json.loads is the partial function `loads`.
 */
module LlmMapper {
  import opened Wrappers

  /** Python's str.isspace for a single character. */
  predicate IsSpace(c: char) {
    || c == ' ' || c == '\t' || c == '\n' || c == '\r'
    || c == '\U{0B}' || c == '\U{0C}'
    || ('\U{1C}' <= c <= '\U{1F}')
    || c == '\U{85}' || c == '\U{A0}' || c == '\U{1680}'
    || ('\U{2000}' <= c <= '\U{200A}')
    || c == '\U{2028}' || c == '\U{2029}' || c == '\U{202F}'
    || c == '\U{205F}' || c == '\U{3000}'
  }

  ghost predicate AllSpace(s: string) {
    forall k :: 0 <= k < |s| ==> IsSpace(s[k])
  }

  /** Number of whitespace characters at the start of s. */
  function LeadLen(s: string): (n: nat)
    ensures n <= |s|
    ensures forall k :: 0 <= k < n ==> IsSpace(s[k])
    ensures n < |s| ==> !IsSpace(s[n])
  {
    if s == [] || !IsSpace(s[0]) then 0 else 1 + LeadLen(s[1..])
  }

  /** Number of whitespace characters at the end of s. */
  function TrailLen(s: string): (n: nat)
    ensures n <= |s|
    ensures forall k :: |s| - n <= k < |s| ==> IsSpace(s[k])
    ensures n < |s| ==> !IsSpace(s[|s| - n - 1])
  {
    if s == [] || !IsSpace(s[|s| - 1]) then 0 else 1 + TrailLen(s[..|s| - 1])
  }

  /** Python's str.strip() with no argument. */
  function Strip(s: string): (r: string)
    ensures r == [] || (!IsSpace(r[0]) && !IsSpace(r[|r| - 1]))
    ensures |r| <= |s|
  {
    var a := LeadLen(s);
    if a == |s| then [] else
      var b := |s| - TrailLen(s);
      assert a < b by { assert !IsSpace(s[a]); }
      s[a..b]
  }

  /** Stripping only removes whitespace: s is the result padded on both sides. */
  lemma StripSplit(s: string) returns (lead: string, trail: string)
    ensures s == lead + Strip(s) + trail
    ensures AllSpace(lead) && AllSpace(trail)
  {
    var a := LeadLen(s);
    if a == |s| {
      lead, trail := s, [];
    } else {
      var b := |s| - TrailLen(s);
      assert a < b by { assert !IsSpace(s[a]); }
      lead, trail := s[..a], s[b..];
      assert s == s[..a] + s[a..b] + s[b..];
    }
  }

  /** Index of the first occurrence of c in s. */
  function IndexOf(s: string, c: char): (r: Option<nat>)
    ensures r.None? <==> c !in s
    ensures r.Some? ==> r.value < |s| && s[r.value] == c
    ensures r.Some? ==> forall k :: 0 <= k < r.value ==> s[k] != c
  {
    if s == [] then None
    else if s[0] == c then Some(0)
    else match IndexOf(s[1..], c)
      case None => None
      case Some(i) => Some(i + 1)
  }

  /** Index of the last occurrence of c in s. */
  function LastIndexOf(s: string, c: char): (r: Option<nat>)
    ensures r.None? <==> c !in s
    ensures r.Some? ==> r.value < |s| && s[r.value] == c
    ensures r.Some? ==> forall k :: r.value < k < |s| ==> s[k] != c
  {
    if s == [] then None
    else if s[|s| - 1] == c then Some(|s| - 1)
    else
      assert s == s[..|s| - 1] + [s[|s| - 1]];
      LastIndexOf(s[..|s| - 1], c)
  }

  /**
   * re.search(r"\{.*\}", s, re.DOTALL).group(0): from the first '{' to
   * the last '}', when that '}' comes after that '{'.
   */
  function ExtractSpan(s: string): (r: Option<string>)
    ensures r.Some? ==> 2 <= |r.value| && r.value[0] == '{' && r.value[|r.value| - 1] == '}'
  {
    match (IndexOf(s, '{'), LastIndexOf(s, '}'))
    case (Some(i), Some(j)) => if i < j then Some(s[i..j + 1]) else None
    case _ => None
  }

  /** s[i..j+1] is a match of \{.*\} under DOTALL: any characters between the braces. */
  ghost predicate IsMatch(s: string, i: int, j: int) {
    0 <= i < j < |s| && s[i] == '{' && s[j] == '}'
  }

  /** The match re.search reports: leftmost start, then the longest (greedy) extent. */
  ghost predicate IsChosenMatch(s: string, i: int, j: int) {
    && IsMatch(s, i, j)
    && forall i', j' :: IsMatch(s, i', j') ==> i < i' || (i == i' && j' <= j)
  }

  /** No match exists exactly when ExtractSpan finds nothing. */
  lemma ExtractSpanNone(s: string)
    ensures ExtractSpan(s).None? <==> forall i, j :: !IsMatch(s, i, j)
  {
    match (IndexOf(s, '{'), LastIndexOf(s, '}'))
    case (Some(i), Some(j)) =>
      if i < j { assert IsMatch(s, i, j); }
    case _ =>
  }

  /** When ExtractSpan finds a span, it is the leftmost-longest match. */
  lemma ExtractSpanChosen(s: string) returns (i: nat, j: nat)
    requires ExtractSpan(s).Some?
    ensures IsChosenMatch(s, i, j)
    ensures ExtractSpan(s) == Some(s[i..j + 1])
  {
    i, j := IndexOf(s, '{').value, LastIndexOf(s, '}').value;
  }

  /** The chosen match is unique. */
  lemma ChosenMatchUnique(s: string, i: int, j: int, i': int, j': int)
    requires IsChosenMatch(s, i, j) && IsChosenMatch(s, i', j')
    ensures i == i' && j == j'
  {
    assert IsMatch(s, i', j') && IsMatch(s, i, j);
  }

  /** Any chosen match is what ExtractSpan returns. */
  lemma ChosenMatchIsSpan(s: string, i: int, j: int)
    requires IsChosenMatch(s, i, j)
    ensures ExtractSpan(s) == Some(s[i..j + 1])
  {
    ExtractSpanNone(s);
    var i', j' := ExtractSpanChosen(s);
    ChosenMatchUnique(s, i, j, i', j');
  }

  /** The extracted span is a brace-delimited substring of s, found at offset i. */
  lemma SpanShape(s: string) returns (i: nat)
    requires ExtractSpan(s).Some?
    ensures var t := ExtractSpan(s).value;
      && 2 <= |t| && t[0] == '{' && t[|t| - 1] == '}'
      && i + |t| <= |s| && s[i..i + |t|] == t
  {
    var j;
    i, j := ExtractSpanChosen(s);
  }

  /** Whitespace holds no brace. */
  lemma SpaceHasNoBraces(w: string)
    requires AllSpace(w)
    ensures '{' !in w && '}' !in w
  {
    forall k | 0 <= k < |w| ensures w[k] != '{' && w[k] != '}' {
      assert IsSpace(w[k]);
    }
  }

  /** A match of p + s + q that avoids p's and q's outer braces is a match of s. */
  lemma MatchInMiddle(p: string, s: string, q: string, i: int, j: int)
    requires '{' !in p && '}' !in q
    requires IsMatch(p + s + q, i, j)
    ensures |p| <= i && j < |p| + |s| && IsMatch(s, i - |p|, j - |p|)
  {
    var x := p + s + q;
    assert forall k :: 0 <= k < |p| ==> x[k] == p[k] && x[k] != '{';
    assert forall k :: |p| + |s| <= k < |x| ==> x[k] == q[k - |p| - |s|] && x[k] != '}';
    assert x[i] == s[i - |p|] && x[j] == s[j - |p|];
  }

  /** A match of s is a match of p + s + q, shifted by |p|, covering the same text. */
  lemma ShiftMatch(p: string, s: string, q: string, i: int, j: int)
    requires IsMatch(s, i, j)
    ensures IsMatch(p + s + q, i + |p|, j + |p|)
    ensures (p + s + q)[i + |p|..j + |p| + 1] == s[i..j + 1]
  {
    var x := p + s + q;
    assert x[|p|..|p| + |s|] == s;
    assert x[i + |p|..j + |p| + 1] == x[|p|..|p| + |s|][i..j + 1];
  }

  /** A span of s is also the span of s surrounded by brace-free text. */
  lemma SurroundedSpan(p: string, s: string, q: string)
    requires '{' !in p && '}' !in q
    requires ExtractSpan(s).Some?
    ensures ExtractSpan(p + s + q) == ExtractSpan(s)
  {
    var x := p + s + q;
    var i, j := ExtractSpanChosen(s);
    var i0, j0 := i + |p|, j + |p|;
    ShiftMatch(p, s, q, i, j);
    forall i', j' | IsMatch(x, i', j') ensures i0 < i' || (i0 == i' && j' <= j0) {
      MatchInMiddle(p, s, q, i', j');
    }
    ChosenMatchIsSpan(x, i0, j0);
  }

  /** Brace-free surroundings add no match to a reply that has none. */
  lemma SurroundedNoSpan(p: string, s: string, q: string)
    requires '{' !in p && '}' !in q
    requires ExtractSpan(s).None?
    ensures ExtractSpan(p + s + q).None?
  {
    var x := p + s + q;
    ExtractSpanNone(s);
    forall i', j' | 0 <= i' < j' < |x| ensures !IsMatch(x, i', j') {
      if IsMatch(x, i', j') { MatchInMiddle(p, s, q, i', j'); }
    }
    ExtractSpanNone(x);
  }

  /**
   * Text before the first '{' and after the last '}' does not change
   * the extracted span.
   */
  lemma SurroundingTextIgnored(p: string, s: string, q: string)
    requires '{' !in p && '}' !in q
    ensures ExtractSpan(p + s + q) == ExtractSpan(s)
  {
    if ExtractSpan(s).Some? { SurroundedSpan(p, s, q); } else { SurroundedNoSpan(p, s, q); }
  }

  /** Whitespace holds no brace, so stripping never changes the span. */
  lemma StripKeepsSpan(s: string)
    ensures ExtractSpan(Strip(s)) == ExtractSpan(s)
  {
    var lead, trail := StripSplit(s);
    SpaceHasNoBraces(lead);
    SpaceHasNoBraces(trail);
    SurroundingTextIgnored(lead, Strip(s), trail);
  }

  /** What get_dynamic_field_mapping raises. */
  datatype MappingError<E> =
    | ValueError(message: string)  // no brace-delimited span in the reply
    | Reraised(cause: E)            // the parser's own exception, passed on

  const NoJsonMessage: string := "No valid JSON object found in response"

  /**
   * Lines 31-44 of get_dynamic_field_mapping, for the model's reply
   * `response`, with `loads` standing for json.loads.
   */
  function GetDynamicFieldMapping<J, E>(response: string, loads: string -> Result<J, E>): (r: Result<J, MappingError<E>>)
    ensures r.Success? ==> ExtractSpan(response).Some? && loads(ExtractSpan(response).value) == Success(r.value)
    ensures r.Failure? && r.error.ValueError? ==> ExtractSpan(response).None? && r.error.message == NoJsonMessage
  {
    StripKeepsSpan(response);
    var raw := Strip(response);
    match ExtractSpan(raw)
    case None => Failure(ValueError(NoJsonMessage))
    case Some(span) =>
      match loads(span)
      case Success(v) => Success(v)
      case Failure(e) => Failure(Reraised(e))
  }

  /**
   * The outcome is decided by the span of the unstripped reply: no brace
   * pair means ValueError, a span the parser rejects re-raises the parser's
   * error, and a result is only ever what the parser returned for the span.
   */
  lemma MappingOutcome<J, E>(response: string, loads: string -> Result<J, E>)
    ensures var r := GetDynamicFieldMapping(response, loads);
      && (r == Failure(ValueError(NoJsonMessage)) <==> forall i, j :: !IsMatch(response, i, j))
      && (ExtractSpan(response).Some? ==>
            var span := ExtractSpan(response).value;
            && (r.Success? <==> loads(span).Success?)
            && (r.Success? ==> r.value == loads(span).value)
            && (r.Failure? ==> r.error == Reraised(loads(span).error)))
  {
    StripKeepsSpan(response);
    ExtractSpanNone(response);
  }

  /** Leading or trailing whitespace around the reply changes nothing. */
  lemma PaddingIgnored<J, E>(w1: string, response: string, w2: string, loads: string -> Result<J, E>)
    requires AllSpace(w1) && AllSpace(w2)
    ensures GetDynamicFieldMapping(w1 + response + w2, loads) == GetDynamicFieldMapping(response, loads)
  {
    var padded := w1 + response + w2;
    assert ExtractSpan(Strip(padded)) == ExtractSpan(Strip(response)) by {
      SpaceHasNoBraces(w1);
      SpaceHasNoBraces(w2);
      SurroundingTextIgnored(w1, response, w2);
      StripKeepsSpan(padded);
      StripKeepsSpan(response);
    }
  }
}
