/** What a model provider answers: receipts, token usage and JSON text; and what it is judged by. */
module Provider {
  import opened Basics
  import opened Routing
  import opened Texts

  datatype Usage = Usage(input: int, output: int, cacheRead: int, cacheCreation: int)

  const NO_USAGE := Usage(0, 0, 0, 0)

  function AddUsage(a: Usage, b: Usage): Usage {
    Usage(a.input + b.input, a.output + b.output, a.cacheRead + b.cacheRead, a.cacheCreation + b.cacheCreation)
  }

  function TokenTotal(u: Usage): int {
    u.input + u.output + u.cacheRead + u.cacheCreation
  }

  predicate UsageOk(u: Usage) {
    u.input >= 0 && u.output >= 0 && u.cacheRead >= 0 && u.cacheCreation >= 0
  }

  datatype Json =
    | JNull | JBool(flag: bool) | JNumber(number: real) | JText(text: string)
    | JList(items: seq<Json>) | JObject(fields: map<string, Json>)

  /** Response text, as far as the callers look at it. */
  datatype Text = EmptyText | Unparsable | Parsed(value: Json)

  datatype ModelUsage = ModelUsage(model: string, cost: real, usage: Usage)

  /** A number that is not finite, or not an integer where one is needed, counts as negative here. */
  datatype Completion = Completion(
    requested: ModelId, models: seq<string>, stopReason: Option<string>, refused: bool,
    cost: real, duration: real, usage: Usage, modelUsage: seq<ModelUsage>, text: Text)

  /** The promise of one call. */
  datatype Reply = Rejects | Answers(completion: Completion)

  /** The validators compare sums of costs up to rounding. */
  const TOLERANCE: real := 0.000000001

  function Abs(x: real): real { if x < 0.0 then -x else x }

  predicate IsFixture(model: string) { StartsWith(model, "fixture:") }

  predicate ModelsOk(models: seq<string>) {
    models != [] && forall i :: 0 <= i < |models| ==> models[i] != ""
  }

  // ---- Rubrics -----------------------------------------------------------------------------------

  datatype Criterion = Criterion(id: string, description: string, expected: string)
  datatype StructuredFailure = StructuredFailure(criterion: string, expected: string, observed: string)

  // ---- Reading JSON ------------------------------------------------------------------------------

  /** The fields of an object with exactly these keys. */
  function ExactFields(j: Json, keys: set<string>): Option<map<string, Json>> {
    if j.JObject? && j.fields.Keys == keys then Some(j.fields) else None
  }

  function ExactObject(t: Text, keys: set<string>): Option<map<string, Json>> {
    if t.Parsed? then ExactFields(t.value, keys) else None
  }

  /** A field that holds text which is not blank. */
  function RequiredText(fields: map<string, Json>, key: string): (r: Option<string>)
    ensures r.Some? ==> !Blank(r.value)
  {
    if key in fields && fields[key].JText? && !Blank(fields[key].text) then Some(fields[key].text) else None
  }

  /** Every item, or nothing if one of them does not read. */
  function ReadAll<T>(items: seq<Json>, read: Json -> Option<T>): (r: Option<seq<T>>)
    ensures r.Some? ==> |r.value| == |items| && forall i :: 0 <= i < |items| ==> read(items[i]) == Some(r.value[i])
  {
    if items == [] then Some([])
    else
      var first, rest := read(items[0]), ReadAll(items[1..], read);
      if first.Some? && rest.Some? then Some([first.value] + rest.value) else None
  }
}
