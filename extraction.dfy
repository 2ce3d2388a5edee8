/** `extract_prompts_from_json`: strip an optional Markdown code fence from a
    model response, parse the rest as JSON and collect the "prompt" member of
    every record, raising one of three exceptions otherwise. */
module Extraction {
  import opened JsonValue

  /** The opening fence, seven characters. */
  const OpenFence: string := "```json"
  /** The closing fence, three characters. */
  const CloseFence: string := "```"
  /** The member read from every record. */
  const PromptKey: string := "prompt"

  /** The exceptions `extract_prompts_from_json` lets out. Each is the
      re-raise of one `except` clause of that function. */
  datatype ExtractError =
    | ValueError    // re-raised for `json.JSONDecodeError` only
    | KeyError      // re-raised for a record without a "prompt" member
    | RuntimeError  // re-raised for every other exception, e.g. a `TypeError`

  predicate StartsWith(s: string, p: string) {
    |p| <= |s| && s[..|p|] == p
  }

  predicate EndsWith(s: string, p: string) {
    |p| <= |s| && s[|s| - |p|..] == p
  }

  /** A body with the opening and/or the closing fence put around it. */
  function Wrap(body: string, open: bool, close: bool): string {
    (if open then OpenFence else "") + body + (if close then CloseFence else "")
  }

  /** Python's `s[7:]` when `s.startswith("```json")`, then `[:-3]` when the
      remainder `.endswith("```")`. The input is exactly the result with the
      opening fence put back if the input started with one and the closing fence
      put back if what followed the opening fence ended with one: each marker is
      removed at most once, and nothing else is. */
  function StripFences(s: string): (r: string)
    ensures var open := StartsWith(s, OpenFence);
            s == Wrap(r, open, EndsWith(if open then s[|OpenFence|..] else s, CloseFence))
    ensures !StartsWith(s, OpenFence) && !EndsWith(s, CloseFence) ==> r == s
  {
    var rest := if StartsWith(s, OpenFence) then s[|OpenFence|..] else s;
    if EndsWith(rest, CloseFence) then rest[..|rest| - |CloseFence|] else rest
  }

  /** Stripping undoes wrapping, as long as the wrapped text does not show a
      marker that was not put there. */
  lemma StripFencesInverse(body: string, open: bool, close: bool)
    requires !open ==> !StartsWith(Wrap(body, open, close), OpenFence)
    requires !close ==> !EndsWith(body, CloseFence)
    ensures StripFences(Wrap(body, open, close)) == body
  {
  }

  /** A parsed value that `item["prompt"]` accepts. */
  predicate HasPrompt(item: Json) {
    item.JObject? && PromptKey in item.fields
  }

  /** `item["prompt"]`: a record lacking the key raises `KeyError`; any other
      kind of value is not subscriptable by a string and raises `TypeError`. */
  function PromptOf(item: Json): (r: Result<Json, ExtractError>)
    ensures r.Ok? <==> HasPrompt(item)
    ensures r.Ok? ==> r.value == item.fields[PromptKey]
    ensures r.Err? ==> r.error == (if item.JObject? then KeyError else RuntimeError)
  {
    match item
    case JObject(fields) => if PromptKey in fields then Ok(fields[PromptKey]) else Err(KeyError)
    case _ => Err(RuntimeError)
  }

  /** Item `k` is the first item that `item["prompt"]` rejects. */
  predicate FirstRejected(items: seq<Json>, k: int) {
    0 <= k < |items| && !HasPrompt(items[k]) &&
    forall j :: 0 <= j < k ==> HasPrompt(items[j])
  }

  /** `[item["prompt"] for item in items]`, evaluated left to right: the whole
      list when every item has the member, otherwise the exception raised by
      the first item that has not, and never a partial list. */
  function CollectPrompts(items: seq<Json>): (r: Result<seq<Json>, ExtractError>)
    ensures r.Ok? <==> forall i :: 0 <= i < |items| ==> HasPrompt(items[i])
    ensures r.Ok? ==> |r.value| == |items|
    ensures r.Ok? ==> forall i :: 0 <= i < |items| ==> HasPrompt(items[i]) && r.value[i] == items[i].fields[PromptKey]
    ensures r.Err? ==> exists k :: FirstRejected(items, k) &&
                                   r.error == (if items[k].JObject? then KeyError else RuntimeError)
  {
    if items == [] then Ok([])
    else
      match PromptOf(items[0])
      case Err(e) =>
        assert FirstRejected(items, 0);
        Err(e)
      case Ok(p) =>
        match CollectPrompts(items[1..])
        case Err(e) =>
          var k :| FirstRejected(items[1..], k) &&
                   e == (if items[1..][k].JObject? then KeyError else RuntimeError);
          assert FirstRejected(items, k + 1) by {
            forall j | 0 <= j < k + 1 ensures HasPrompt(items[j]) {
              if j > 0 { assert items[j] == items[1..][j - 1]; }
            }
          }
          Err(e)
        case Ok(rest) => Ok([p] + rest)
  }

  /** The values Python's `for item in data` visits. A list yields its items;
      an object yields its keys and a string its characters, all of them
      strings, which `item["prompt"]` rejects with `TypeError`, so only an
      empty object or string gets through; a number, boolean or `null` is not
      iterable and raises `TypeError`. */
  function Elements(data: Json): (r: Result<seq<Json>, ExtractError>)
    ensures r.Ok? ==> r.value == (if data.JArray? then data.items else [])
    ensures r.Err? ==> r.error == RuntimeError
    ensures r.Ok? <==> data.JArray? || data == JObject(map[]) || data == JString("")
  {
    match data
    case JArray(items) => Ok(items)
    case JObject(fields) => if fields == map[] then Ok([]) else Err(RuntimeError)
    case JString(s) => if s == "" then Ok([]) else Err(RuntimeError)
    case _ => Err(RuntimeError)
  }

  /** `extract_prompts_from_json(text)`, with `json.loads` given as `parse`.
      It raises `ValueError` exactly when the parser raises `JSONDecodeError`;
      any other exception from the parser reaches the last handler and comes
      out as `RuntimeError`. */
  function Extract(parse: string -> Loaded, text: string): (r: Result<seq<Json>, ExtractError>)
    ensures r == Err(ValueError) <==> parse(StripFences(text)) == DecodeError
    ensures parse(StripFences(text)) == OtherLoadError ==> r == Err(RuntimeError)
  {
    match parse(StripFences(text))
    case DecodeError => Err(ValueError)
    case OtherLoadError => Err(RuntimeError)
    case Parsed(data) =>
      match Elements(data)
      case Err(e) => Err(e)
      case Ok(items) => CollectPrompts(items)
  }

  /** For a parsed list whose items all carry a "prompt" member, the result is
      the list of those members, same length and same order. */
  lemma ExtractRecords(parse: string -> Loaded, text: string, items: seq<Json>)
    requires parse(StripFences(text)) == Parsed(JArray(items))
    requires forall i :: 0 <= i < |items| ==> HasPrompt(items[i])
    ensures Extract(parse, text).Ok?
    ensures |Extract(parse, text).value| == |items|
    ensures forall i :: 0 <= i < |items| ==> Extract(parse, text).value[i] == items[i].fields[PromptKey]
  {
  }

  /** A list comes back only on full success, never a partial one: the parsed
      value was a list every item of which has the member (one prompt per
      item), or an empty object or string (no prompt). */
  lemma ExtractOnlyOnFullSuccess(parse: string -> Loaded, text: string)
    requires Extract(parse, text).Ok?
    ensures parse(StripFences(text)).Parsed?
    ensures var data := parse(StripFences(text)).value;
            (data.JArray? &&
             (forall i :: 0 <= i < |data.items| ==> HasPrompt(data.items[i])) &&
             |Extract(parse, text).value| == |data.items|) ||
            ((data == JObject(map[]) || data == JString("")) && Extract(parse, text).value == [])
  {
  }

  /** The three failures, each with its exact cause: `ValueError` when the
      parser raises `JSONDecodeError`, `KeyError` when the first rejected item
      of a parsed list is a record without the member, `RuntimeError` in every
      other case, a parser failure of another kind included. */
  lemma ExtractErrorCauses(parse: string -> Loaded, text: string)
    ensures Extract(parse, text) == Err(KeyError) <==>
            parse(StripFences(text)).Parsed? && parse(StripFences(text)).value.JArray? &&
            exists k :: FirstRejected(parse(StripFences(text)).value.items, k) &&
                        parse(StripFences(text)).value.items[k].JObject?
    ensures Extract(parse, text) == Err(RuntimeError) <==>
            parse(StripFences(text)) == OtherLoadError ||
            (parse(StripFences(text)).Parsed? &&
             var data := parse(StripFences(text)).value;
             (!data.JArray? && data != JObject(map[]) && data != JString("")) ||
             (data.JArray? && exists k :: FirstRejected(data.items, k) && !data.items[k].JObject?))
  {
  }

  /** A fenced list with one record: "```json\n[{\"prompt\":\"a\"}]\n```"
      gives ["a"] when the parser reads the unfenced text as that list. */
  lemma FencedExample(parse: string -> Loaded)
    requires parse("\n[{\"prompt\":\"a\"}]\n") == Parsed(JArray([JObject(map["prompt" := JString("a")])]))
    ensures Extract(parse, "```json\n[{\"prompt\":\"a\"}]\n```") == Ok([JString("a")])
  {
    var body := "\n[{\"prompt\":\"a\"}]\n";
    StripFencesInverse(body, true, true);
    assert Wrap(body, true, true) == "```json\n[{\"prompt\":\"a\"}]\n```";
    var r := CollectPrompts([JObject(map["prompt" := JString("a")])]);
    assert r.Ok? && |r.value| == 1 && r.value[0] == JString("a");
    assert r.value == [JString("a")];
  }

  /** '[{"notprompt":"x"}]' raises `KeyError`. */
  lemma MissingKeyExample(parse: string -> Loaded)
    requires parse("[{\"notprompt\":\"x\"}]") == Parsed(JArray([JObject(map["notprompt" := JString("x")])]))
    ensures Extract(parse, "[{\"notprompt\":\"x\"}]") == Err(KeyError)
  {
    var text := "[{\"notprompt\":\"x\"}]";
    assert text[..|OpenFence|][0] != OpenFence[0];
    assert text[|text| - |CloseFence|..][2] != CloseFence[2];
    assert StripFences(text) == text;
    assert FirstRejected([JObject(map["notprompt" := JString("x")])], 0);
  }
}
