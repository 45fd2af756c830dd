/**
 * The toy AI endpoint of the Django back end: a GET on
 * `<ai_slug_name>/<operation>` calls a class method of the registered toy AI
 * with that slug, or answers 400 with a detail naming what was wrong.
 */
module ToyAIsView {
  import opened Wrappers
  import opened Dicts
  import opened Text
  import opened JsonValues

  const OK: nat := 200
  const BAD_REQUEST: nat := 400

  /** URL operation -> name of the class method it calls, in declaration order. */
  const OPERATIONS_MAPPING: Dict<string, string> := [("health-check", "health_check"), ("solve-case", "solve_case")]

  datatype Response = Response(status: nat, data: Json)

  /** How an f-string shows an optional URL argument. */
  function Shown(x: Option<string>): string {
    match x
    case Some(s) => s
    case None => "None"
  }

  predicate ValidOperation(operation: Option<string>) {
    operation.Some? && HasKey(OPERATIONS_MAPPING, operation.value)
  }

  /** `ai_slug and ai_slug in SLUGS_MAPPING`: present, non-empty and registered. */
  predicate ValidSlug(slug: Option<string>, slugs: seq<string>) {
    slug.Some? && slug.value != "" && slug.value in slugs
  }

  function Detail(message: string): Json {
    JObj([("detail", JStr(message))])
  }

  lemma OperationNames()
    ensures Keys(OPERATIONS_MAPPING) == ["health-check", "solve-case"]
    ensures Join(Keys(OPERATIONS_MAPPING), ", ") == "health-check, solve-case"
    ensures Get(OPERATIONS_MAPPING, "health-check") == Some("health_check")
    ensures Get(OPERATIONS_MAPPING, "solve-case") == Some("solve_case")
    ensures forall op :: HasKey(OPERATIONS_MAPPING, op) <==> op == "health-check" || op == "solve-case"
  {
    assert Keys(OPERATIONS_MAPPING) == ["health-check", "solve-case"];
    var parts := Keys(OPERATIONS_MAPPING);
    assert parts[1..] == ["solve-case"];
    assert "health-check" != "solve-case";
    assert OPERATIONS_MAPPING[1..] == [("solve-case", "solve_case")];
  }

  /**
   * `ToyAIsView.get`. `slugs` are the registered toy AIs' slug names in
   * registry order, and `call(slug, method)` is what that AI's class method
   * returns when called without arguments (or the exception it raises,
   * which the view lets through). `JsonResponse` refuses anything but a dict
   * with TypeError; the model answers 200 with whatever the call returns,
   * since every modelled toy AI returns a dict.
   */
  function ViewGet(operation: Option<string>, slug: Option<string>, slugs: seq<string>,
                   call: (string, string) -> Result<Json>): Result<Response>
  {
    if operation.Some? && HasKey(OPERATIONS_MAPPING, operation.value) then
      if slug.Some? && slug.value != "" && slug.value in slugs then
        var data :- call(slug.value, Get(OPERATIONS_MAPPING, operation.value).value);
        Ok(Response(OK, data))
      else
        Ok(Response(BAD_REQUEST, Detail("AI with slug name '" + Shown(slug) + "' is not implemented. Valid options are " +
                                        Join(slugs, ", "))))
    else
      Ok(Response(BAD_REQUEST, Detail("Operation '" + Shown(operation) + "' is invalid. Valid operations are " +
                                      Join(Keys(OPERATIONS_MAPPING), ", "))))
  }

  /** An unknown or missing operation answers 400 and lists the valid operations. */
  lemma ViewGetBadOperation(operation: Option<string>, slug: Option<string>, slugs: seq<string>,
                            call: (string, string) -> Result<Json>)
    requires !ValidOperation(operation)
    ensures ViewGet(operation, slug, slugs, call) ==
      Ok(Response(BAD_REQUEST, Detail("Operation '" + Shown(operation) +
                                      "' is invalid. Valid operations are " + "health-check, solve-case")))
  {
    OperationNames();
  }

  /** With a valid operation, a missing, empty or unregistered slug answers 400 and lists the registered slugs. */
  lemma ViewGetBadSlug(operation: Option<string>, slug: Option<string>, slugs: seq<string>,
                       call: (string, string) -> Result<Json>)
    requires ValidOperation(operation) && !ValidSlug(slug, slugs)
    ensures ViewGet(operation, slug, slugs, call) ==
      Ok(Response(BAD_REQUEST, Detail("AI with slug name '" + Shown(slug) +
                                      "' is not implemented. Valid options are " + Join(slugs, ", "))))
    ensures slug == Some("") ==> ViewGet(operation, slug, slugs, call).value.status == BAD_REQUEST
  {
  }

  /**
   * With a valid operation and slug, "health-check" and "solve-case" call the
   * AI's `health_check` and `solve_case`, answer 200 with the result, and let
   * an exception through.
   */
  lemma ViewGetCalls(operation: Option<string>, slug: Option<string>, slugs: seq<string>,
                     call: (string, string) -> Result<Json>)
    requires ValidOperation(operation) && ValidSlug(slug, slugs)
    ensures operation == Some("health-check") ==>
      ViewGet(operation, slug, slugs, call) == (var data :- call(slug.value, "health_check"); Ok(Response(OK, data)))
    ensures operation == Some("solve-case") ==>
      ViewGet(operation, slug, slugs, call) == (var data :- call(slug.value, "solve_case"); Ok(Response(OK, data)))
  {
    OperationNames();
  }

  /** Only a successful call of a valid operation on a registered AI answers 200. */
  lemma ViewGetStatus(operation: Option<string>, slug: Option<string>, slugs: seq<string>,
                      call: (string, string) -> Result<Json>)
    ensures var r := ViewGet(operation, slug, slugs, call);
      r.Ok? && r.value.status == OK <==> ValidOperation(operation) && ValidSlug(slug, slugs) && r.Ok?
  {
  }
}
