/**
 * A scraping recipe as both interpreters read it: an ordered list of
 * actions, each naming an element type, a locator for the selector resolver
 * and the optional flags the interpreters consult.
 */
module Recipe {
  import opened Wrappers
  import opened Selector

  /** One recipe step. Missing optional keys are `None` or `false`, as
      `action.get(...)` returns them; `noDebtText` and `extra` keep the
      string when present. */
  datatype Action = Action(
    elementType: string,
    locator: map<string, string>,
    size: Option<int>,
    query: bool,
    redirect: bool,
    form: bool,
    debt: bool,
    noDebtText: Option<string>,
    extra: Option<string>)

  /** The selector the step waits for; `None` when the locator keys are
      missing and the resolver would raise `KeyError`. */
  function ActionSelector(a: Action): (r: Option<string>)
    ensures r.Some? <==> HasLocator(a.locator)
  {
    if HasLocator(a.locator) then Some(GetSelector(a.locator)) else None
  }
}
