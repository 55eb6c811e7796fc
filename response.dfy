/** Normalising a model's reply (`_parse_response`, identical in both
    generator services) and the records the services return. */
module Response {
  import opened Wrappers
  import opened Text
  import opened Json
  import opened Models

  // ---------------------------------------------------------------------
  // The JSON span

  /** Whether `s[i..j]` matches the pattern `\{.*\}` under DOTALL: it opens
      with '{', closes with '}', and anything, newlines included, may come
      between. */
  predicate MatchesAt(s: string, i: nat, j: nat) {
    i + 2 <= j <= |s| && s[i] == '{' && s[j - 1] == '}'
  }

  /** The span `re.search` reports for `\{.*\}`: it starts at the leftmost
      position where a match exists, and the greedy `.*` makes it the
      longest match from there. Such a match exists exactly when some '}'
      follows the first '{', and then it runs up to the last '}'. */
  function SearchSpan(s: string): (r: Option<(nat, nat)>)
    ensures r.Some? ==> MatchesAt(s, r.value.0, r.value.1)
    ensures r.Some? ==> forall i: nat, j: nat :: MatchesAt(s, i, j) ==> r.value.0 < i || (r.value.0 == i && j <= r.value.1)
    ensures r.None? ==> forall i: nat, j: nat :: !MatchesAt(s, i, j)
  {
    match (IndexOf(s, '{'), LastIndexOf(s, '}'))
    case (Some(first), Some(last)) =>
      assert forall i :: 0 <= i < first ==> s[i] == s[..first][i];
      assert forall j :: last < j < |s| ==> s[j] == s[last + 1..][j - last - 1];
      if first < last then Some((first, last + 1)) else None
    case (None, _) => None
    case (_, None) => None
  }

  /** The text handed to the JSON parser, if the search matched. */
  function JsonSpan(s: string): (r: Option<string>)
    ensures r.Some? ==> |r.value| >= 2 && r.value[0] == '{' && r.value[|r.value| - 1] == '}'
  {
    match SearchSpan(s)
    case None => None
    case Some((i, j)) => Some(s[i..j])
  }

  /** A reply that is itself one JSON object is handed over whole. */
  lemma WholeReplySpan(s: string)
    requires |s| >= 2 && s[0] == '{' && s[|s| - 1] == '}'
    ensures JsonSpan(s) == Some(s)
  {
    assert MatchesAt(s, 0, |s|);
    assert s[0..|s|] == s;
  }

  /** Prose before and after an object is cut away, provided no '{' comes
      before it and no '}' after it. */
  lemma ProseAroundSpan(before: string, inner: string, after: string)
    requires '{' !in before && '}' !in after
    ensures JsonSpan(before + "{" + inner + "}" + after) == Some("{" + inner + "}")
  {
    var span := "{" + inner + "}";
    var s := before + span + after;
    assert before + "{" + inner + "}" + after == s;
    var i: nat, j: nat := |before|, |before| + |span|;
    assert s[..i] == before && s[i] == '{';
    assert s[j..] == after && s[j - 1] == '}';
    IndexOfIs(s, '{', i);
    LastIndexOfIs(s, '}', j - 1);
    assert s[i..j] == span;
  }

  // ---------------------------------------------------------------------
  // The normalised reply

  /** The record returned when no JSON could be read from the reply. */
  function RawRecord(text: string, ct: ContentType): (r: JsonValue)
    ensures r.JObject? && |r.fields| == 3
    ensures Get(r, "raw_content") == JString(text)
    ensures Get(r, "parsed") == JBool(false)
    ensures Get(r, "content_type") == JString(ct.Value())
  {
    var fields := [("raw_content", JString(text)), ("parsed", JBool(false)), ("content_type", JString(ct.Value()))];
    assert fields[1..] == [fields[1], fields[2]] && fields[1..][1..] == [fields[2]];
    JObject(fields)
  }

  /** `_parse_response`. `parse` stands for `json.loads`: `None` where it
      raises a decoding error. */
  function ParseResponse(text: string, ct: ContentType, parse: string -> Option<JsonValue>): JsonValue {
    match JsonSpan(text)
    case None => RawRecord(text, ct)
    case Some(span) =>
      match parse(span)
      case Some(v) => v
      case None => RawRecord(text, ct)
  }

  /** Once the parser reads the span, the prose around it does not matter:
      replies with the same span normalise to the same value. */
  lemma SpanDecides(text: string, other: string, ct: ContentType, parse: string -> Option<JsonValue>)
    requires JsonSpan(text).Some? && JsonSpan(other) == JsonSpan(text)
    requires parse(JsonSpan(text).value).Some?
    ensures ParseResponse(text, ct, parse) == ParseResponse(other, ct, parse) == parse(JsonSpan(text).value).value
  {
  }

  /** The `parsed` flag: false on the fallback record, and whatever the
      decoded value itself holds otherwise, as nothing is added to it. */
  lemma ParsedFlag(text: string, ct: ContentType, parse: string -> Option<JsonValue>)
    ensures var r := ParseResponse(text, ct, parse);
            Get(r, "parsed") == (if JsonSpan(text).Some? && parse(JsonSpan(text).value).Some?
                                 then Get(parse(JsonSpan(text).value).value, "parsed")
                                 else JBool(false))
  {
  }

  // ---------------------------------------------------------------------
  // Provider replies and generation results

  /** What a provider call yields: the reply's text and its token count, or
      the message of the exception the SDK raised. */
  datatype ProviderReply = Reply(text: string, tokens: int) | ProviderError(message: string)

  /** The dict a generator returns. A success carries the normalised
      content, the provider's name where the service reports one, the model,
      the prompt and the token count; a failure carries the error text, and
      its `content` is `None`. */
  datatype GenerationResult =
    | Succeeded(content: JsonValue, provider: Option<string>, modelUsed: string, promptUsed: string, tokensUsed: int)
    | Failed(error: string)

  /** The record returned when the consistency analysis raises. */
  function AnalysisError(message: string): (r: JsonValue)
    ensures Get(r, "error") == JString(message) && Get(r, "overall_score") == JInt(0)
    ensures !Truthy(Get(r, "overall_score"))
  {
    var fields := [("error", JString(message)), ("overall_score", JInt(0))];
    assert fields[1..] == [fields[1]];
    JObject(fields)
  }
}
