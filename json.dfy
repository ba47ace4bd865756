/**
 * The JSON values the language-model replies decode to, and the brace-span
 * extraction of AppointmentFlow._parse_json (crew.py). The JSON decoder itself
 * (json.loads) is a parameter: any partial function from text to an object.
 */
module Json {
  import opened Wrappers
  import opened Text

  /**
   * A value held in a decoded JSON object, as Python sees it after json.loads.
   * JOther stands for a list or a nested object and carries the text str()
   * gives it; numbers with a fraction or an exponent are not part of this model.
   */
  datatype JValue =
    | JString(s: string)
    | JInt(i: int)
    | JBool(b: bool)
    | JNull
    | JOther(text: string)

  /** A decoded JSON object: Python's dict with string keys. */
  type JObject = map<string, JValue>

  /** str() of a decoded value, which is what an f-string embeds. */
  function Str(v: JValue): (r: string)
    ensures v.JString? ==> r == v.s
    ensures v.JInt? ==> r == IntToDecimal(v.i)
    ensures v.JBool? ==> r == (if v.b then "True" else "False")
    ensures v.JNull? ==> r == "None"
  {
    match v
    case JString(s) => s
    case JInt(i) => IntToDecimal(i)
    case JBool(b) => if b then "True" else "False"
    case JNull => "None"
    case JOther(text) => text
  }

  /** dict.get(key, default). */
  function Get(o: JObject, key: string, default: JValue): (v: JValue)
    ensures key in o ==> v == o[key]
    ensures key !in o ==> v == default
  {
    if key in o then o[key] else default
  }

  /**
   * The span that re.search(r'\{.*\}', text, re.DOTALL) matches, as the
   * indices of its opening and closing brace: from the first '{' to the last
   * '}', when that '}' comes after that '{'.
   */
  function BraceSpan(text: string): (r: Option<(nat, nat)>)
    ensures r.Some? ==> r.value.0 < r.value.1 < |text|
    ensures r.Some? ==> text[r.value.0] == '{' && text[r.value.1] == '}'
    ensures r.Some? ==> forall k :: 0 <= k < r.value.0 ==> text[k] != '{'
    ensures r.Some? ==> forall k :: r.value.1 < k < |text| ==> text[k] != '}'
    ensures r.None? <==> !exists i, j :: 0 <= i < j < |text| && text[i] == '{' && text[j] == '}'
  {
    match (FirstIndexOf(text, '{'), LastIndexOf(text, '}'))
    case (Some(i), Some(j)) =>
      if i < j then Some((i, j)) else None
    case _ => None
  }

  /**
   * _parse_json: the decoded span between the first '{' and the last '}', or
   * the empty object when there is no such span or the decoder rejects it.
   */
  function ParseJson(text: string, loads: string -> Option<JObject>): (o: JObject)
    ensures BraceSpan(text).None? ==> o == map[]
    ensures BraceSpan(text).Some? && loads(text[BraceSpan(text).value.0..BraceSpan(text).value.1 + 1]).None? ==> o == map[]
  {
    match BraceSpan(text)
    case None => map[]
    case Some((i, j)) =>
      match loads(text[i..j + 1])
      case None => map[]
      case Some(obj) => obj
  }

  /**
   * A JSON object embedded in noise: when the text before it holds no '{' and
   * the text after it holds no '}', exactly the object's own text is decoded.
   */
  lemma NoisyReply(prefix: string, body: string, suffix: string, loads: string -> Option<JObject>)
    requires |body| >= 2 && body[0] == '{' && body[|body| - 1] == '}'
    requires forall k :: 0 <= k < |prefix| ==> prefix[k] != '{'
    requires forall k :: 0 <= k < |suffix| ==> suffix[k] != '}'
    ensures BraceSpan(prefix + body + suffix) == Some((|prefix|, |prefix| + |body| - 1))
    ensures ParseJson(prefix + body + suffix, loads) == (match loads(body) case None => map[] case Some(o) => o)
  {
    var text := prefix + body + suffix;
    var i, j := |prefix|, |prefix| + |body| - 1;
    assert text[i] == '{' && text[j] == '}';
    var span := BraceSpan(text);
    assert span.Some?;
    assert span.value.0 == i by {
      assert forall k :: 0 <= k < i ==> text[k] == prefix[k];
    }
    assert span.value.1 == j by {
      assert forall k :: j < k < |text| ==> text[k] == suffix[k - j - 1];
    }
    assert text[i..j + 1] == body;
  }
}
