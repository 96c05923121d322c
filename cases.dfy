/** The in-memory case list of the provider area: a module-level array
    seeded with one mock case, to which POST /api/provider/cases appends
    whatever JSON value the request carries. */
module Cases {
  import opened Common

  /** A parsed JSON value. Object members keep their order. */
  datatype Json =
    | JNull
    | JBool(b: bool)
    | JNumber(n: real)
    | JString(s: string)
    | JArray(items: seq<Json>)
    | JObject(members: seq<(string, Json)>)

  /** The mock case the array starts with. */
  const SeedCase: Json := JObject([
    ("id", JString("c-12345")),
    ("patient", JObject([("name", JString("Sarah Johnson")), ("id", JString("P-48291"))])),
    ("scan", JObject([
      ("type", JString("Chest X-Ray")),
      ("date", JString("2025-08-18")),
      ("imageUrl", JString("https://placehold.co/600x600/e2e8f0/64748b?text=Chest+X-Ray"))])),
    ("aiAnalysis", JObject([
      ("diagnosis", JString("Pneumonia Detected")),
      ("confidence", JNumber(98.7)),
      ("findings", JArray([
        JString("Moderate consolidation in the right lower lobe."),
        JString("Air bronchograms are present."),
        JString("No evidence of pleural effusion.")]))]))
  ])

  /** The response: the echoed body with 201, or the error object with
      400. */
  datatype CaseResponse = CaseResponse(status: int, body: Json)

  const ParseError: Json := JObject([("error", JString("Failed to process case data"))])

  /** The shared `cases` array. */
  class CaseStore {
    var cases: seq<Json>

    /** The seeded case stays first, whatever is appended. */
    ghost predicate Valid()
      reads this
    {
      |cases| >= 1 && cases[0] == SeedCase
    }

    constructor()
      ensures Valid() && cases == [SeedCase]
    {
      cases := [SeedCase];
    }

    /** POST /api/provider/cases. `body` is None when the request body is
        not JSON: the parse throws before the push, so nothing is
        appended. Any parsed value is accepted. */
    method Post(body: Option<Json>) returns (resp: CaseResponse)
      requires Valid()
      modifies this
      ensures Valid()
      ensures body.None? ==> resp == CaseResponse(400, ParseError) && cases == old(cases)
      ensures body.Some? ==> resp == CaseResponse(201, body.value) && cases == old(cases) + [body.value]
    {
      if body.None? {
        return CaseResponse(400, ParseError);
      }
      cases := cases + [body.value];
      resp := CaseResponse(201, body.value);
    }
  }
}
