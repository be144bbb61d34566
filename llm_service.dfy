// The intent parser around the local language model: the span of the reply
// handed to the JSON parser, and the keyword fallback used whenever the model
// call, the span search or the parse fails. The HTTP call and the JSON parser
// are parameters of the model.
module LlmService {
  import opened Wrappers
  import opened Text
  import opened Seqs

  const NoJsonError := "No JSON object found"
  const MinKeywordLength := 3

  // ---------- the JSON span ----------

  /** The first position at or after `from` holding `c`. */
  function FirstIndex(s: string, c: char, from: nat): (r: Option<nat>)
    ensures r.Some? ==> from <= r.value < |s| && s[r.value] == c && c !in s[from..r.value]
    ensures r.None? ==> forall k :: from <= k < |s| ==> s[k] != c
    decreases |s| - from
  {
    if from >= |s| then None
    else if s[from] == c then Some(from)
    else
      var r := FirstIndex(s, c, from + 1);
      assert r.Some? ==> s[from..r.value] == [s[from]] + s[from + 1..r.value];
      r
  }

  /** The last position of `c` in `s`. */
  function LastIndex(s: string, c: char): (r: Option<nat>)
    ensures r.Some? ==> r.value < |s| && s[r.value] == c && c !in s[r.value + 1..]
    ensures r.None? ==> c !in s
    decreases |s|
  {
    if s == [] then None
    else if s[|s| - 1] == c then Some(|s| - 1)
    else
      var r := LastIndex(s[..|s| - 1], c);
      assert r.Some? ==> s[r.value + 1..] == s[..|s| - 1][r.value + 1..] + [s[|s| - 1]];
      assert r.None? ==> s == s[..|s| - 1] + [s[|s| - 1]];
      r
  }

  /** `text[i..j + 1]` runs from the first '{' to the last '}'. */
  predicate SpanAt(text: string, i: int, j: int) {
    0 <= i < j < |text| && text[i] == '{' && text[j] == '}' && '{' !in text[..i] && '}' !in text[j + 1..]
  }

  /**
   * What `\{[\s\S]*\}` selects: the leftmost '{' that has a '}' after it, up
   * to the last '}' (the star is greedy); an error when there is no such pair.
   */
  function ExtractJsonSpan(text: string): (r: Result<string, string>)
    ensures r.Ok? <==> exists i, j :: 0 <= i < j < |text| && text[i] == '{' && text[j] == '}'
    ensures r.Ok? ==> exists i, j :: SpanAt(text, i, j) && r.value == text[i..j + 1]
    ensures r.Err? ==> r.error == NoJsonError
  {
    match FirstIndex(text, '{', 0)
    case None => Err(NoJsonError)
    case Some(i) =>
      match LastIndex(text, '}')
      case None => Err(NoJsonError)
      case Some(j) =>
        if i < j then
          assert SpanAt(text, i, j);
          Ok(text[i..j + 1])
        else
          NoBraceBefore(text, i);
          NoBraceAfter(text, j);
          Err(NoJsonError)
  }

  /** The span is a braced object: it starts with '{' and ends with '}'. */
  lemma SpanIsBraced(text: string)
    requires ExtractJsonSpan(text).Ok?
    ensures var v := ExtractJsonSpan(text).value; |v| >= 2 && v[0] == '{' && v[|v| - 1] == '}'
  {
  }

  /** Text around a braced object does not change the span, as long as it holds no braces. */
  lemma SpanIgnoresSurroundingText(before: string, obj: string, after: string)
    requires |obj| >= 2 && obj[0] == '{' && obj[|obj| - 1] == '}'
    requires '{' !in before && '}' !in after
    ensures ExtractJsonSpan(before + obj + after) == Ok(obj)
  {
    var text := before + obj + after;
    var i := |before|;
    var j := |before| + |obj| - 1;
    assert text[..i] == before;
    assert text[j + 1..] == after;
    assert text[i..j + 1] == obj;
    assert SpanAt(text, i, j);
    var r := ExtractJsonSpan(text);
    var i', j' :| SpanAt(text, i', j') && r.value == text[i'..j' + 1];
    SpanUnique(text, i, j, i', j');
  }

  lemma SpanUnique(text: string, i: int, j: int, i': int, j': int)
    requires SpanAt(text, i, j) && SpanAt(text, i', j')
    ensures i == i' && j == j'
  {
    NoBraceBefore(text, i);
    NoBraceBefore(text, i');
    NoBraceAfter(text, j);
    NoBraceAfter(text, j');
  }

  lemma NoBraceBefore(text: string, i: nat)
    requires i <= |text| && '{' !in text[..i]
    ensures forall k :: 0 <= k < i ==> text[k] != '{'
  {
    forall k | 0 <= k < i
      ensures text[k] != '{'
    {
      assert text[..i][k] == text[k];
    }
  }

  lemma NoBraceAfter(text: string, j: nat)
    requires j < |text| && '}' !in text[j + 1..]
    ensures forall k :: j < k < |text| ==> text[k] != '}'
  {
    forall k | j < k < |text|
      ensures text[k] != '}'
    {
      assert text[j + 1..][k - j - 1] == text[k];
    }
  }

  // ---------- the keyword fallback ----------

  /** The number of ASCII letters from position `j` on. */
  function LetterRunLength(s: string, j: nat): (n: nat)
    requires j <= |s|
    ensures j + n <= |s|
    ensures forall k :: j <= k < j + n ==> IsLetter(s[k])
    ensures j + n == |s| || !IsLetter(s[j + n])
    decreases |s| - j
  {
    if j < |s| && IsLetter(s[j]) then 1 + LetterRunLength(s, j + 1) else 0
  }

  /** `re.findall(r"[a-zA-Z]+", s)`: the maximal runs of ASCII letters, left to right. */
  function LetterRuns(s: string): (r: seq<string>)
    ensures forall k :: 0 <= k < |r| ==> |r[k]| > 0 && forall c :: c in r[k] ==> IsLetter(c)
    decreases |s|
  {
    if s == [] then []
    else if !IsLetter(s[0]) then LetterRuns(s[1..])
    else
      var n := LetterRunLength(s, 0);
      [s[..n]] + LetterRuns(s[n..])
  }

  /** The letters of `s`, in order. */
  function Letters(s: string): string
    decreases |s|
  {
    if s == [] then [] else (if IsLetter(s[0]) then [s[0]] else []) + Letters(s[1..])
  }

  function Concat(words: seq<string>): string
    decreases |words|
  {
    if words == [] then [] else words[0] + Concat(words[1..])
  }

  lemma {:induction false} LettersAppend(a: string, b: string)
    ensures Letters(a + b) == Letters(a) + Letters(b)
    decreases |a|
  {
    if a != [] {
      assert (a + b)[1..] == a[1..] + b;
      LettersAppend(a[1..], b);
    } else {
      assert a + b == b;
    }
  }

  lemma {:induction false} LettersOfLetters(s: string)
    requires forall k :: 0 <= k < |s| ==> IsLetter(s[k])
    ensures Letters(s) == s
    decreases |s|
  {
    if s != [] {
      LettersOfLetters(s[1..]);
      assert s == [s[0]] + s[1..];
    }
  }

  /** The runs lose no letter and add nothing: glued together they are the letters of the text. */
  lemma {:induction false} RunsAreTheLetters(s: string)
    ensures Concat(LetterRuns(s)) == Letters(s)
    decreases |s|
  {
    if s != [] {
      if !IsLetter(s[0]) {
        RunsAreTheLetters(s[1..]);
      } else {
        var n := LetterRunLength(s, 0);
        RunsAreTheLetters(s[n..]);
        assert s == s[..n] + s[n..];
        LettersAppend(s[..n], s[n..]);
        LettersOfLetters(s[..n]);
      }
    }
  }

  function LongEnough(): string -> bool { w => |w| >= MinKeywordLength }

  /** The parsed intent: the ingredient words and the numeric constraints. */
  datatype ParsedIntent = ParsedIntent(ingredients: seq<string>, constraints: map<string, int>)

  /** The fallback: the letter runs of the lower-cased query longer than two characters, no constraints. */
  function Fallback(query: string): (r: ParsedIntent)
    ensures r.constraints == map[]
    ensures forall k :: 0 <= k < |r.ingredients| ==> |r.ingredients[k]| > 2
    ensures forall k :: 0 <= k < |r.ingredients| ==> forall c :: c in r.ingredients[k] ==> 'a' <= c <= 'z'
    ensures IsSubseq(r.ingredients, LetterRuns(Lower(query)))
    ensures forall k :: 0 <= k < |LetterRuns(Lower(query))| && |LetterRuns(Lower(query))[k]| > 2 ==>
      LetterRuns(Lower(query))[k] in r.ingredients
  {
    var runs := LetterRuns(Lower(query));
    var words := Filter(runs, LongEnough());
    FilterIsSubseq(runs, LongEnough());
    forall k | 0 <= k < |words|
      ensures forall c :: c in words[k] ==> 'a' <= c <= 'z'
    {
      var m :| 0 <= m < |runs| && runs[m] == words[k];
      RunOfLowerIsLower(Lower(query), m);
    }
    ParsedIntent(words, map[])
  }

  /** Runs of a lower-cased text hold only lower-case letters. */
  lemma RunOfLowerIsLower(s: string, m: nat)
    requires forall k :: 0 <= k < |s| ==> !IsUpper(s[k])
    requires m < |LetterRuns(s)|
    ensures forall c :: c in LetterRuns(s)[m] ==> 'a' <= c <= 'z'
  {
    RunsAreTheLetters(s);
    ConcatMembers(LetterRuns(s), m);
    LettersMembers(s);
  }

  lemma {:induction false} ConcatMembers(words: seq<string>, m: nat)
    requires m < |words|
    ensures forall c :: c in words[m] ==> c in Concat(words)
    decreases |words|
  {
    if m > 0 {
      ConcatMembers(words[1..], m - 1);
    }
  }

  lemma {:induction false} LettersMembers(s: string)
    ensures forall c :: c in Letters(s) ==> c in s
    decreases |s|
  {
    if s != [] {
      LettersMembers(s[1..]);
    }
  }

  /** How the model call ended: it failed (network, status, missing field), or it replied with text. */
  datatype LlmOutcome = CallFailed | Replied(text: string)

  /**
   * The intent of a query: the parsed span of the model's reply, or the
   * fallback when the call failed, no span was found, or `parse` (the JSON
   * parser) rejected it.
   */
  function ParseRecipeIntent(query: string, outcome: LlmOutcome, parse: string -> Option<ParsedIntent>): (r: ParsedIntent)
    ensures outcome.CallFailed? ==> r == Fallback(query)
    ensures outcome.Replied? && ExtractJsonSpan(outcome.text).Err? ==> r == Fallback(query)
    ensures outcome.Replied? && ExtractJsonSpan(outcome.text).Ok? ==>
      r == parse(ExtractJsonSpan(outcome.text).value).GetOr(Fallback(query))
  {
    match outcome
    case CallFailed => Fallback(query)
    case Replied(text) =>
      match ExtractJsonSpan(text)
      case Err(_) => Fallback(query)
      case Ok(span) =>
        match parse(span)
        case None => Fallback(query)
        case Some(intent) => intent
  }

  /** A failure anywhere on the model path never escapes: the answer is the parsed span or the fallback. */
  lemma NeverRaises(query: string, outcome: LlmOutcome, parse: string -> Option<ParsedIntent>)
    ensures var r := ParseRecipeIntent(query, outcome, parse);
      r == Fallback(query) || (outcome.Replied? && ExtractJsonSpan(outcome.text).Ok? && parse(ExtractJsonSpan(outcome.text).value) == Some(r))
  {
  }
}
