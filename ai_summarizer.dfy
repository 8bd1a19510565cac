/** The data side of the AI summary service: the summary record, the Python values
    the service reads from a SKU's metrics, the prompt built from them, and the
    parsing and normalisation of a model's chat reply into a summary. The model
    cascade that uses them is in the `AiService` module. */
module AiSummarizer {
  import opened Basics
  import opened Text

  /** `AiSummary`; its generation time (a clock reading) is left out. */
  datatype AiSummary = AiSummary(summary: string, actions: seq<string>, risks: seq<string>, source: string)

  /** A Python dict with string keys, in insertion order (JSON objects and the
      metrics passed to `summarize`). */
  type Dict = seq<(string, Json)>

  // Python values

  /** `key in d` and `d[key]`: the value of the first entry with that key. */
  function Lookup(d: Dict, key: string): Option<Json>
  {
    if |d| == 0 then None
    else if d[0].0 == key then Some(d[0].1)
    else Lookup(d[1..], key)
  }

  /** A key is found exactly when some entry has it, and then with that entry's value. */
  lemma {:induction false} LookupSpec(d: Dict, key: string)
    ensures Lookup(d, key).None? <==> forall i :: 0 <= i < |d| ==> d[i].0 != key
    ensures Lookup(d, key).Some? ==> exists i :: 0 <= i < |d| && d[i] == (key, Lookup(d, key).value)
    decreases |d|
  {
    if |d| > 0 {
      LookupSpec(d[1..], key);
      if d[0].0 == key {
        assert d[0] == (key, d[0].1);
      } else {
        assert forall i :: 1 <= i < |d| ==> d[i] == d[1..][i - 1];
        if Lookup(d, key).Some? {
          var i :| 0 <= i < |d[1..]| && d[1..][i] == (key, Lookup(d, key).value);
          assert d[i + 1] == (key, Lookup(d, key).value);
        }
      }
    }
  }

  /** `d.get(key)`: None (JNull) when the key is absent. */
  function Get(d: Dict, key: string): Json
  {
    var r := Lookup(d, key);
    if r.Some? then r.value else JNull
  }

  /** Python truthiness (`bool(v)`); NaN is truthy. */
  predicate Truthy(v: Json)
  {
    match v
    case JNull => false
    case JBool(b) => b
    case JInt(i) => i != 0
    case JNum(x) => x != 0.0
    case JNaN => true
    case JStr(s) => s != ""
    case JArr(items) => items != []
    case JObj(fields) => fields != []
  }

  /** Python `a or b`. */
  function Or(a: Json, b: Json): Json
  {
    if Truthy(a) then a else b
  }

  function Quoted(s: string): string
  {
    "'" + s + "'"
  }

  /** Python `str(v)`; a string inside a list or dict prints in single quotes (the
      escaping of quotes inside it is not modelled). */
  function PyStr(v: Json): (s: string)
    ensures v.JArr? ==> |s| >= 2 && s[0] == '['
    ensures v.JObj? ==> |s| >= 2 && s[0] == '{'
    decreases v, 1
  {
    match v
    case JNull => "None"
    case JBool(b) => if b then "True" else "False"
    case JInt(i) => IntToString(i)
    case JNum(x) => FloatToString(x)
    case JNaN => "nan"
    case JStr(s) => s
    case JArr(items) =>
      "[" + Join(seq(|items|, i requires 0 <= i < |items| => Repr(items[i])), ", ") + "]"
    case JObj(fields) =>
      "{" + Join(seq(|fields|, i requires 0 <= i < |fields| => Quoted(fields[i].0) + ": " + Repr(fields[i].1)), ", ") + "}"
  }

  /** Python `repr(v)`. */
  function Repr(v: Json): string
    decreases v, 2
  {
    if v.JStr? then Quoted(v.s) else PyStr(v)
  }

  /** `float(v)` where it gives a finite number; None where it raises (or the value is NaN). */
  function FloatOf(v: Json): Option<real>
  {
    match v
    case JBool(b) => Some(if b then 1.0 else 0.0)
    case JInt(i) => Some(i as real)
    case JNum(x) => Some(x)
    case JStr(s) => ParseDecimal(s)
    case _ => None
  }

  /** A text, or None when it is empty (Python's `text or None`). */
  function NonEmpty(s: string): (r: Option<string>)
    ensures r.Some? <==> s != ""
    ensures r.Some? ==> r.value == s
  {
    if s == "" then None else Some(s)
  }

  // Formatting the model's reply

  /** `_format_value`: None, blank text and NaN give None, booleans "yes"/"no",
      integers their digits, floats two decimals, anything else its stripped `str`. */
  function FormatValue(v: Json): (r: Option<string>)
    ensures r.Some? ==> r.value != ""
  {
    match v
    case JNull => None
    case JStr(s) => NonEmpty(Strip(s))
    case JBool(b) => Some(if b then "yes" else "no")
    case JInt(i) => Some(IntToString(i))
    case JNum(x) => Some(FormatFixed(x, 2))
    case JNaN => None
    case _ => NonEmpty(Strip(PyStr(v)))
  }

  /** Exactly None, NaN and blank text format to nothing; booleans format as "yes"/"no". */
  lemma FormatValueSpec(v: Json)
    ensures FormatValue(v).None? <==> v == JNull || v == JNaN || (v.JStr? && Strip(v.s) == "")
    ensures v.JBool? ==> FormatValue(v) == Some(if v.b then "yes" else "no")
    ensures v.JStr? && Strip(v.s) != "" ==> FormatValue(v) == Some(Strip(v.s))
  {
    match v
    case JArr(_) => ContainerNotBlank(v);
    case JObj(_) => ContainerNotBlank(v);
    case _ =>
  }

  /** The `str` of a list or dict starts with a bracket, so it is not blank. */
  lemma ContainerNotBlank(v: Json)
    requires v.JArr? || v.JObj?
    ensures |Strip(PyStr(v))| > 0
  {
    var s := PyStr(v);
    assert s[0] !in Whitespace;
    StripKeepsNonBlank(s, 0);
  }

  /** `key.replace("_", " ").capitalize()`. */
  function Label(key: string): string
  {
    Capitalize(ReplaceChar(key, '_', ' '))
  }

  /** The "Label: value" segments of a dict's entries whose values format to
      something; a key in `bare` contributes its value alone. */
  function Segments(fields: Dict, bare: set<string>): (r: seq<string>)
    ensures |r| <= |fields|
    ensures forall i :: 0 <= i < |r| ==> r[i] != ""
  {
    if |fields| == 0 then []
    else
      var rest := Segments(fields[1..], bare);
      var (key, value) := fields[0];
      var formatted := FormatValue(value);
      if formatted.None? then rest
      else [if key in bare then formatted.value else Label(key) + ": " + formatted.value] + rest
  }

  /** The keys whose value stands alone in an item segment. */
  const BareKeys: set<string> := {"action", "risk", "message"}

  /** The text of a dict's "text" entry when it is a string that is not blank. */
  function TextEntry(fields: Dict): Option<string>
  {
    var t := Get(fields, "text");
    if t.JStr? then NonEmpty(Strip(t.s)) else None
  }

  /** `_format_item`: a string stripped, a dict by its "text" entry or else its
      segments joined with "; ", anything else by `_format_value`. */
  function FormatItem(item: Json): (r: Option<string>)
    ensures r.Some? ==> r.value != ""
  {
    match item
    case JStr(s) => NonEmpty(Strip(s))
    case JObj(fields) =>
      if TextEntry(fields).Some? then TextEntry(fields) else NonEmpty(Join(Segments(fields, BareKeys), "; "))
    case _ => FormatValue(item)
  }

  /** The items that format to something, formatted, in order. */
  function FormatItems(items: seq<Json>): (r: seq<string>)
    ensures |r| <= |items|
    ensures forall i :: 0 <= i < |r| ==> r[i] != ""
  {
    if |items| == 0 then []
    else
      var f := FormatItem(items[0]);
      (if f.Some? then [f.value] else []) + FormatItems(items[1..])
  }

  /** `_normalise_items`: a list item by item, a dict or other single value as one item. */
  function NormaliseItems(items: Json): (r: seq<string>)
    ensures forall i :: 0 <= i < |r| ==> r[i] != ""
  {
    match items
    case JArr(xs) => FormatItems(xs)
    case JObj(_) => var f := FormatItem(items); if f.Some? then [f.value] else []
    case JNull => []
    case _ => var f := FormatValue(items); if f.Some? then [f.value] else []
  }

  /** A list is normalised item by item: a text is among the items exactly when some
      element formats to it. */
  lemma {:induction false} FormatItemsMembers(xs: seq<Json>, t: string)
    ensures t in FormatItems(xs) <==> exists i :: 0 <= i < |xs| && FormatItem(xs[i]) == Some(t)
    decreases |xs|
  {
    if |xs| > 0 {
      FormatItemsMembers(xs[1..], t);
      if t in FormatItems(xs[1..]) {
        var i :| 0 <= i < |xs[1..]| && FormatItem(xs[1..][i]) == Some(t);
        assert FormatItem(xs[i + 1]) == Some(t);
      }
      if exists i :: 0 <= i < |xs| && FormatItem(xs[i]) == Some(t) {
        var i :| 0 <= i < |xs| && FormatItem(xs[i]) == Some(t);
        if i > 0 {
          assert FormatItem(xs[1..][i - 1]) == Some(t);
        }
      }
    }
  }

  /** Every element is kept exactly when every element formats to something. */
  lemma {:induction false} AllKept(xs: seq<Json>)
    ensures |FormatItems(xs)| == |xs| <==> forall i :: 0 <= i < |xs| ==> FormatItem(xs[i]).Some?
    decreases |xs|
  {
    if |xs| > 0 {
      AllKept(xs[1..]);
      if FormatItem(xs[0]).Some? {
        if forall i :: 0 <= i < |xs[1..]| ==> FormatItem(xs[1..][i]).Some? {
        } else {
          var i :| 0 <= i < |xs[1..]| && FormatItem(xs[1..][i]).None?;
          assert FormatItem(xs[i + 1]).None?;
        }
      } else {
        assert |FormatItems(xs)| == |FormatItems(xs[1..])| <= |xs[1..]|;
      }
    }
  }

  /** The values of a list that format to something, formatted, in order. */
  function FormatValues(items: seq<Json>): (r: seq<string>)
    ensures forall i :: 0 <= i < |r| ==> r[i] != ""
  {
    if |items| == 0 then []
    else
      var f := FormatValue(items[0]);
      (if f.Some? then [f.value] else []) + FormatValues(items[1..])
  }

  /** `_normalise_summary`: a string stripped; a dict by its "text" entry, else its
      "Label: value" parts; a list by its formatted values joined with "; "; and,
      failing those, `_format_value` of the whole value. */
  function NormaliseSummary(field: Json): (r: Option<string>)
    ensures r.Some? ==> r.value != ""
  {
    match field
    case JNull => None
    case JStr(s) => NonEmpty(Strip(s))
    case JObj(fields) =>
      if TextEntry(fields).Some? then TextEntry(fields)
      else
        var combined := Join(Segments(fields, {}), "; ");
        if combined != "" then Some(combined) else FormatValue(field)
    case JArr(xs) =>
      var items := FormatValues(xs);
      if |items| > 0 then Some(Join(items, "; ")) else FormatValue(field)
    case _ => FormatValue(field)
  }

  // The JSON payload in a reply

  /** A '{' before a '}' somewhere in the text. */
  predicate HasBraces(s: string)
  {
    exists i, j :: 0 <= i < j < |s| && s[i] == '{' && s[j] == '}'
  }

  /** The part of `_extract_payload` before `json.loads`: the stripped text from its
      first '{' to its last '}', inclusive, or None when there is no such span. */
  function ExtractCandidate(text: string): Option<string>
  {
    BraceSpan(Strip(text))
  }

  /** `cleaned[cleaned.find("{"):cleaned.rfind("}") + 1]`, None when either brace is
      missing or the last '}' does not follow the first '{'. */
  function BraceSpan(cleaned: string): Option<string>
  {
    var start := FindChar(cleaned, '{');
    var end := RFindChar(cleaned, '}');
    if start == -1 || end == -1 || end <= start then None else Some(cleaned[start..end + 1])
  }

  /** There is a span exactly when some '{' comes before some '}'. */
  lemma BraceSpanNone(s: string)
    ensures BraceSpan(s).None? <==> !HasBraces(s)
  {
    BracesFound(s);
  }

  /** The span runs from a '{' to a '}'. */
  lemma BraceSpanEnds(s: string)
    requires BraceSpan(s).Some?
    ensures var c := BraceSpan(s).value; |c| >= 2 && c[0] == '{' && c[|c| - 1] == '}'
  {
  }

  /** No '{' comes before the span and no '}' after it. */
  lemma BraceSpanOutermost(s: string)
    requires BraceSpan(s).Some?
    ensures Outermost(s, BraceSpan(s).value)
  {
    Span(s, FindChar(s, '{'), RFindChar(s, '}'));
  }

  /** c occurs in s with no '{' before it and no '}' after it. */
  ghost predicate Outermost(s: string, c: string)
  {
    exists a, b :: s == a + c + b && '{' !in a && '}' !in b
  }

  lemma Span(s: string, start: int, end: int)
    requires 0 <= start < end < |s|
    requires s[start] == '{' && s[end] == '}'
    requires forall k :: 0 <= k < start ==> s[k] != '{'
    requires forall k :: end < k < |s| ==> s[k] != '}'
    ensures Outermost(s, s[start..end + 1])
  {
    var a, b := s[..start], s[end + 1..];
    assert s == a + s[start..end + 1] + b;
    assert forall k :: 0 <= k < |a| ==> a[k] == s[k];
    assert forall k :: 0 <= k < |b| ==> b[k] == s[end + 1 + k];
    assert '{' !in a && '}' !in b;
  }

  lemma BracesFound(s: string)
    ensures HasBraces(s) <==> FindChar(s, '{') != -1 && FindChar(s, '{') < RFindChar(s, '}')
  {
    var start := FindChar(s, '{');
    var end := RFindChar(s, '}');
    if start != -1 && start < end {
      assert s[start] == '{' && s[end] == '}';
    }
  }

  /** What `_extract_payload` returns: a summary text with its action and risk items. */
  datatype Parsed = Parsed(summary: string, actions: seq<string>, risks: seq<string>)

  /** `_extract_payload`, with `json.loads` as `decode` (None where it raises): the
      candidate must decode to an object whose "summary" normalises to a text. */
  function ExtractPayload(text: string, decode: string -> Option<Json>): (r: Option<Parsed>)
    ensures r.Some? ==> r.value.summary != ""
    ensures var c := ExtractCandidate(text);
      r.Some? <==> c.Some? && decode(c.value).Some? && decode(c.value).value.JObj?
                    && NormaliseSummary(Get(decode(c.value).value.fields, "summary")).Some?
    ensures r.Some? ==> var c := ExtractCandidate(text);
      && c.Some? && decode(c.value).Some? && decode(c.value).value.JObj?
      && NormaliseSummary(Get(decode(c.value).value.fields, "summary")) == Some(r.value.summary)
  {
    var candidate := ExtractCandidate(text);
    if candidate.None? then None
    else
      var payload := decode(candidate.value);
      if payload.None? || !payload.value.JObj? then None
      else
        var fields := payload.value.fields;
        var summary := NormaliseSummary(Get(fields, "summary"));
        if summary.None? then None
        else Some(Parsed(summary.value, NormaliseItems(Get(fields, "actions")), NormaliseItems(Get(fields, "risks"))))
  }

  /** The text `_parse_response` looks for in a reply, None where that lookup raises
      (a first choice or its message that is not a dict). */
  function CandidateText(response: Json): Option<Json>
  {
    match response
    case JArr(items) =>
      if |items| == 0 then Some(JNull)
      else if items[0].JObj? then Some(Get(items[0].fields, "generated_text"))
      else if items[0].JStr? then Some(items[0])
      else Some(JNull)
    case JObj(fields) =>
      var choices := Get(fields, "choices");
      var fromChoices :=
        if choices.JArr? && |choices.items| > 0 then
          var first := choices.items[0];
          if !first.JObj? then None
          else
            var looked := Lookup(first.fields, "message");
            var message := if looked.Some? then looked.value else JObj([]);
            if message.JObj? then Some(Get(message.fields, "content")) else None
        else Some(JNull);
      if fromChoices.None? then None
      else if Truthy(fromChoices.value) then fromChoices
      else Some(Or(Get(fields, "generated_text"), Get(fields, "data")))
    case JStr(_) => Some(response)
    case _ => Some(JNull)
  }

  /** `_parse_response`: the summary a reply yields, credited to `source`. None when
      it has no text, when its text holds no usable payload, and where parsing raises
      (a text that is not a string), since `summarize` treats all three alike. */
  function ParseResponse(response: Json, source: string, decode: string -> Option<Json>): (r: Option<AiSummary>)
    ensures r.Some? ==> r.value.source == source && r.value.summary != ""
  {
    ParseCandidate(CandidateText(response), source, decode)
  }

  /** The summary a reply's text yields: only a non-empty string is parsed. */
  function ParseCandidate(candidate: Option<Json>, source: string, decode: string -> Option<Json>): (r: Option<AiSummary>)
    ensures r.Some? ==> r.value.source == source && r.value.summary != ""
  {
    if candidate.None? || !Truthy(candidate.value) || !candidate.value.JStr? then None
    else
      var parsed := ExtractPayload(candidate.value.s, decode);
      if parsed.None? then None
      else Some(AiSummary(parsed.value.summary, parsed.value.actions, parsed.value.risks, source))
  }

  /** A reply yields a summary exactly when its text is a string holding a payload. */
  lemma ParseResponseSome(response: Json, source: string, decode: string -> Option<Json>)
    ensures var c := CandidateText(response);
      ParseResponse(response, source, decode).Some? <==> c.Some? && c.value.JStr? && ExtractPayload(c.value.s, decode).Some?
  {
    CandidateParses(CandidateText(response), source, decode);
  }

  lemma CandidateParses(c: Option<Json>, source: string, decode: string -> Option<Json>)
    ensures ParseCandidate(c, source, decode).Some? <==> c.Some? && c.value.JStr? && ExtractPayload(c.value.s, decode).Some?
  {
    if c.Some? && c.value.JStr? {
      var p := ExtractPayload(c.value.s, decode);
      if p.Some? {
        PayloadText(c.value.s, decode);
        assert Truthy(c.value);
        assert ParseCandidate(c, source, decode) == Some(AiSummary(p.value.summary, p.value.actions, p.value.risks, source));
      }
    }
  }

  /** A chat-completions reply whose first choice's message content holds the payload
      yields that payload's summary. */
  lemma ChatReplyParses(content: string, source: string, decode: string -> Option<Json>)
    requires ExtractPayload(content, decode).Some?
    ensures var p := ExtractPayload(content, decode).value;
      ParseResponse(ChatReply(content), source, decode) == Some(AiSummary(p.summary, p.actions, p.risks, source))
  {
    PayloadText(content, decode);
    ChatCandidate(content);
    assert ParseResponse(ChatReply(content), source, decode) == ParseCandidate(Some(JStr(content)), source, decode);
    StringCandidateParses(content, source, decode);
  }

  /** A string holding a payload parses to that payload's summary. */
  lemma StringCandidateParses(text: string, source: string, decode: string -> Option<Json>)
    requires ExtractPayload(text, decode).Some?
    ensures var p := ExtractPayload(text, decode).value;
      ParseCandidate(Some(JStr(text)), source, decode) == Some(AiSummary(p.summary, p.actions, p.risks, source))
  {
    PayloadText(text, decode);
    assert Truthy(JStr(text));
  }

  /** The text of a non-empty chat reply is its first choice's message content. */
  lemma ChatCandidate(content: string)
    requires content != ""
    ensures CandidateText(ChatReply(content)) == Some(JStr(content))
  {
    var message := JObj([("content", JStr(content))]);
    var choice := JObj([("message", message)]);
    assert Lookup(choice.fields, "message") == Some(message);
    assert Get(message.fields, "content") == JStr(content);
    assert Get(ChatReply(content).fields, "choices") == JArr([choice]);
  }

  /** A text holding a payload is not empty. */
  lemma PayloadText(text: string, decode: string -> Option<Json>)
    requires ExtractPayload(text, decode).Some?
    ensures text != ""
  {
    BraceSpanEnds(Strip(text));
  }

  /** The reply shape of the chat-completions API: one choice whose message has the content. */
  function ChatReply(content: string): Json
  {
    JObj([("choices", JArr([JObj([("message", JObj([("content", JStr(content))]))])]))])
  }

  // The prompt

  const PromptIntro := "You are an inventory planning assistant. Summarise the supply posture for one SKU.\n\n"
  const PromptClosing := "Respond in JSON with keys `summary`, `actions` (array), `risks` (array). Keep sentences short, avoid jargon, and reference the SKU name once."
  const MaxInsights: nat := 10
  const MaxBullet: nat := 200
  const MaxPrompt: nat := 6000

  /** The insights `build` iterates over: a list's items, a string's characters, a
      dict's keys; nothing for a falsy value; None where iterating raises TypeError. */
  function InsightValues(v: Json): Option<seq<Json>>
  {
    if !Truthy(v) then Some([])
    else
      match v
      case JArr(items) => Some(items)
      case JStr(s) => Some(seq(|s|, i requires 0 <= i < |s| => JStr([s[i]])))
      case JObj(fields) => Some(seq(|fields|, i requires 0 <= i < |fields| => JStr(fields[i].0)))
      case _ => None
  }

  /** The insights as stripped texts, the blank ones dropped, in order. */
  function NormalisedInsights(xs: seq<Json>): (r: seq<string>)
    ensures forall i :: 0 <= i < |r| ==> r[i] != ""
    ensures forall t :: t in r <==> t in InsightTexts(xs) && t != ""
  {
    NonBlank(InsightTexts(xs))
  }

  /** Each insight as a stripped text. */
  function InsightTexts(xs: seq<Json>): (r: seq<string>)
    ensures |r| == |xs|
    ensures forall j :: 0 <= j < |xs| ==> r[j] == InsightText(xs[j])
  {
    seq(|xs|, j requires 0 <= j < |xs| => InsightText(xs[j]))
  }

  /** The texts that are not empty, in order. */
  function NonBlank(ts: seq<string>): (r: seq<string>)
    ensures forall i :: 0 <= i < |r| ==> r[i] != ""
    ensures forall t :: t in r <==> t in ts && t != ""
  {
    if |ts| == 0 then []
    else (if ts[0] != "" then [ts[0]] else []) + NonBlank(ts[1..])
  }

  /** `str(message).strip()`. */
  function InsightText(x: Json): string
  {
    Strip(PyStr(x))
  }

  /** One bullet line: "- item", cut to 200 characters. */
  function Bullet(item: string): string
  {
    Take("- " + item, MaxBullet)
  }

  function Bullets(items: seq<string>): (r: seq<string>)
    ensures |r| == |items|
    ensures forall i :: 0 <= i < |r| ==> r[i] == Bullet(items[i])
  {
    seq(|items|, i requires 0 <= i < |items| => Bullet(items[i]))
  }

  /** The "Key model insights" block: "None", or a bullet per insight (ten at most). */
  function InsightBlock(xs: seq<Json>): string
  {
    var normalised := NormalisedInsights(xs);
    if |normalised| == 0 then "None" else Join(Bullets(Take(normalised, MaxInsights)), "\n")
  }

  /** The bullet lines are the first ten normalised insights in order, each "- item"
      cut to at most 200 characters. */
  lemma BulletsSpec(items: seq<string>)
    ensures |Bullets(Take(items, MaxInsights))| <= MaxInsights
    ensures forall i :: 0 <= i < |Bullets(Take(items, MaxInsights))| ==>
      var b := Bullets(Take(items, MaxInsights))[i];
      |b| <= MaxBullet && b == Take("- " + items[i], MaxBullet) && StartsWith("- " + items[i], b)
  {
  }

  lemma JoinHead(parts: seq<string>, sep: string)
    requires |parts| > 0 && |parts[0]| > 0
    ensures |Join(parts, sep)| > 0 && Join(parts, sep)[0] == parts[0][0]
  {
  }

  /** The block reads "None" exactly when no insight has text. */
  lemma InsightBlockNone(xs: seq<Json>)
    ensures InsightBlock(xs) == "None" <==> NormalisedInsights(xs) == []
  {
    if NormalisedInsights(xs) != [] {
      BlockStartsWithBullet(xs);
      assert "None"[0] == 'N';
    }
  }

  lemma BlockStartsWithBullet(xs: seq<Json>)
    requires NormalisedInsights(xs) != []
    ensures |InsightBlock(xs)| > 0 && InsightBlock(xs)[0] == '-'
  {
    var normalised := NormalisedInsights(xs);
    var lines := Bullets(Take(normalised, MaxInsights));
    assert lines[0] == Take("- " + normalised[0], MaxBullet);
    JoinHead(lines, "\n");
  }

  /** `metrics.get(key) or default`, printed. */
  function OrText(v: Json, default: string): string
  {
    if Truthy(v) then PyStr(v) else default
  }

  /** `_safe_number`: "unknown" for None, two decimals for a number (a bool counts
      as one), `str` otherwise (NaN prints as "nan"). */
  function SafeNumber(v: Json): string
  {
    match v
    case JNull => "unknown"
    case JBool(b) => FormatFixed(if b then 1.0 else 0.0, 2)
    case JInt(i) => FormatFixed(i as real, 2)
    case JNum(x) => FormatFixed(x, 2)
    case _ => PyStr(v)
  }

  /** `_format_percentage`: "unknown" for None; a fraction in [0, 1] as a percentage,
      any other number with a '%' appended, one decimal; `str` where `float` raises. */
  function FormatPercentage(v: Json): string
  {
    if v.JNull? then "unknown"
    else if v.JNaN? then "nan%"
    else
      var x := FloatOf(v);
      if x.None? then PyStr(v)
      else if 0.0 <= x.value <= 1.0 then FormatPercent(x.value, 1)
      else FormatFixed(x.value, 1) + "%"
  }

  /** The prompt before the 6000-character cut. */
  function PromptText(m: Dict, block: string): string
  {
    Flatten(PromptParts(m, block))
  }

  /** The pieces of the prompt, in order. */
  function PromptParts(m: Dict, block: string): seq<string>
  {
    [PromptIntro,
     "SKU: " + OrText(Get(m, "sku"), "Unknown") + "\n",
     "Mode: " + OrText(Get(m, "mode"), "inventory") + "\n",
     "Forecast horizon (days): " + OrText(Get(m, "horizon"), "unknown") + "\n",
     "Projected stockout date: " + OrText(Get(m, "stockout_date"), "none") + "\n",
     "Reorder point (units): " + SafeNumber(Get(m, "reorder_point")) + "\n",
     "Recommended reorder date: " + OrText(Get(m, "reorder_date"), "tbd") + "\n",
     "Recommended order quantity (units): " + SafeNumber(Get(m, "recommended_order_qty")) + "\n",
     "Safety stock (units): " + SafeNumber(Get(m, "safety_stock")) + "\n",
     "Service level target: " + FormatPercentage(Get(m, "service_level")) + "\n",
     "Key model insights:\n",
     block + "\n\n",
     PromptClosing]
  }

  /** `PromptBuilder.build`: the prompt text cut to 6000 characters; None where the
      insights are not iterable (`len` raises TypeError). */
  function Build(m: Dict): (r: Option<string>)
    ensures r.Some? ==> |r.value| <= MaxPrompt
    ensures r.None? <==> InsightValues(Get(m, "insights")).None?
  {
    var xs := InsightValues(Get(m, "insights"));
    if xs.None? then None else Some(Take(PromptText(m, InsightBlock(xs.value)), MaxPrompt))
  }

  /** A built prompt opens with the assistant's role, and it is the whole prompt text
      when that text fits in 6000 characters. */
  lemma BuildSpec(m: Dict)
    requires Build(m).Some?
    ensures StartsWith(Build(m).value, PromptIntro)
    ensures var block := InsightBlock(InsightValues(Get(m, "insights")).value);
      |PromptText(m, block)| <= MaxPrompt ==> Build(m).value == PromptText(m, block)
  {
    var block := InsightBlock(InsightValues(Get(m, "insights")).value);
    var parts := PromptParts(m, block);
    var text := PromptText(m, block);
    assert text == PromptIntro + Flatten(parts[1..]);
    assert |PromptIntro| <= MaxPrompt;
    assert text[..|PromptIntro|] == PromptIntro;
  }
}
