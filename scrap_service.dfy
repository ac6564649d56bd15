/**
 * The older recipe interpreter, `ScrapService.parser`: it walks the recipe
 * in order, waits for each step's selector, types slices of the client
 * number into inputs with a cursor that advances by each step's `size`, and
 * returns the links of the first text-like step that has `query` set.
 *
 * The browser page is an oracle indexed by step position.
 */
module ScrapService {
  import opened Wrappers
  import opened PyStr
  import opened JsonValues
  import opened Selector
  import opened Recipe

  /** What the page does for one step: whether the step's selector appears,
      whether the click, fill or second wait succeeds, the `href` attribute
      of each matched element, and the `link.href` values the page script
      returns for `extra == "map"`. */
  datatype LegacyStep = LegacyStep(
    found: bool,
    interactOk: bool,
    hrefs: seq<Option<string>>,
    mapped: seq<Option<string>>)

  /** How a call of `parser` ends: the links of step `at`, the end of the
      recipe (`None` in Python), or an exception escaping at step `at`. */
  datatype ParserOutcome = Returned(at: nat, urls: seq<Json>) | Finished | Raised(at: nat)

  /** The element types whose query returns links. */
  predicate IsLegacyTextType(t: string) {
    t in ["h1", "h2", "h3", "h4", "h5", "h6", "p", "div", "span", "table", "tbody", "td", "a"]
  }

  /** The links of a query step. With `extra == "map"` each value from the
      page script is used unchanged (a missing one is JSON `null`); otherwise
      each `href` is appended to the page's scheme-and-host prefix, and a
      missing `href` makes the concatenation raise `TypeError` (`None`). */
  function FormatLinks(extra: Option<string>, step: LegacyStep, baseUrl: string): (r: Option<seq<Json>>)
    ensures extra == Some("map") ==> r.Some? && |r.value| == |step.mapped|
    ensures extra != Some("map") ==>
              (r.Some? <==> forall k :: 0 <= k < |step.hrefs| ==> step.hrefs[k].Some?)
    ensures extra != Some("map") && r.Some? ==>
              && |r.value| == |step.hrefs|
              && forall k :: 0 <= k < |r.value| ==>
                   exists h :: step.hrefs[k] == Some(h) && r.value[k] == UrlBill(baseUrl + h)
  {
    if extra == Some("map") then
      Some(seq(|step.mapped|, k requires 0 <= k < |step.mapped| =>
        JObj([("url", if step.mapped[k].Some? then JStr(step.mapped[k].value) else JNull)])))
    else if forall k :: 0 <= k < |step.hrefs| ==> step.hrefs[k].Some? then
      Some(seq(|step.hrefs|, k requires 0 <= k < |step.hrefs| => UrlBill(baseUrl + step.hrefs[k].value)))
    else None
  }

  /** The value an `input` step types and the new cursor. Without a `size`
      key the whole number is typed and the cursor stays; a zero `size`
      leaves the previous value in place (`None` when there is none yet);
      otherwise the slice at the cursor is typed and the cursor advances. */
  function InputValue(size: Option<int>, client: string, cursor: int, previous: Option<string>): (r: (Option<string>, int))
    ensures size.None? ==> r == (Some(client), cursor)
    ensures size == Some(0) ==> r == (previous, cursor)
    ensures size.Some? && size.value != 0 ==>
              r.1 == cursor + size.value && r.0 == Some(Slice(client, cursor, r.1))
  {
    match size
    case None => (Some(client), cursor)
    case Some(n) => if n == 0 then (previous, cursor) else (Some(Slice(client, cursor, cursor + n)), cursor + n)
  }

  /** The effect of one step: the walk stops with an outcome, or goes on
      with a new cursor, last typed value and typed values. */
  datatype StepResult = Stop(outcome: ParserOutcome) | Next(cursor: int, value: Option<string>, fills: seq<string>)

  /** One pass of the loop body of `parser` for step `i`. */
  function Step(a: Action, step: LegacyStep, i: nat, client: string, baseUrl: string,
                cursor: int, value: Option<string>, fills: seq<string>): (r: StepResult)
    ensures !HasLocator(a.locator) || !step.found ==> r == Stop(Raised(i))
    ensures r.Stop? ==> r.outcome == Raised(i) || (r.outcome.Returned? && r.outcome.at == i && a.query)
    ensures r.Next? ==> fills <= r.fills && |r.fills| <= |fills| + 1
    ensures r.Next? && r.fills != fills ==>
              a.elementType == "input" && step.interactOk && r.value.Some? && r.fills == fills + [r.value.value]
  {
    if !HasLocator(a.locator) || !step.found then Stop(Raised(i))
    else if a.elementType == "modal" || a.elementType == "button" || a.elementType == "tabla" then
      if step.interactOk then Next(cursor, value, fills) else Stop(Raised(i))
    else if a.elementType == "input" then
      var (v, c) := InputValue(a.size, client, cursor, value);
      if v.Some? && step.interactOk then Next(c, v, fills + [v.value]) else Stop(Raised(i))
    else if IsLegacyTextType(a.elementType) then
      if a.query then
        match FormatLinks(a.extra, step, baseUrl)
        case Some(urls) => Stop(Returned(i, urls))
        case None => Stop(Raised(i))
      else if step.interactOk then Next(cursor, value, fills)
      else Stop(Raised(i))
    else Next(cursor, value, fills)
  }

  /** `parser` from step `i` on, with the cursor, the last typed value and
      the values typed so far. */
  function Run(recipe: seq<Action>, client: string, page: nat -> LegacyStep, baseUrl: string,
               i: nat, cursor: int, value: Option<string>, fills: seq<string>): (r: (ParserOutcome, seq<string>))
    requires i <= |recipe|
    ensures fills <= r.1 && |r.1| <= |fills| + |recipe| - i
    ensures !r.0.Finished? ==> i <= r.0.at < |recipe|
    decreases |recipe| - i
  {
    if i == |recipe| then (Finished, fills)
    else
      match Step(recipe[i], page(i), i, client, baseUrl, cursor, value, fills)
      case Stop(outcome) => (outcome, fills)
      case Next(c, v, f) => Run(recipe, client, page, baseUrl, i + 1, c, v, f)
  }

  /** `ScrapService.parser`: returns how the walk ended and the values typed
      into inputs, in order. */
  method Parser(recipe: seq<Action>, client: string, page: nat -> LegacyStep, baseUrl: string)
    returns (outcome: ParserOutcome, fills: seq<string>)
    ensures (outcome, fills) == Run(recipe, client, page, baseUrl, 0, 0, None, [])
  {
    var i := 0;
    var cursor := 0;
    var value: Option<string> := None;
    fills := [];
    while i < |recipe|
      invariant 0 <= i <= |recipe|
      invariant Run(recipe, client, page, baseUrl, 0, 0, None, []) == Run(recipe, client, page, baseUrl, i, cursor, value, fills)
    {
      var a, step := recipe[i], page(i);
      if !HasLocator(a.locator) || !step.found {
        return Raised(i), fills;
      }
      if a.elementType == "modal" || a.elementType == "button" || a.elementType == "tabla" {
        if !step.interactOk {
          return Raised(i), fills;
        }
      } else if a.elementType == "input" {
        if a.size.None? {
          value := Some(client);
        } else if a.size.value != 0 {
          value := Some(Slice(client, cursor, cursor + a.size.value));
          cursor := cursor + a.size.value;
        }
        if value.None? || !step.interactOk {
          return Raised(i), fills;
        }
        fills := fills + [value.value];
      } else if IsLegacyTextType(a.elementType) {
        if a.query {
          var links := FormatLinks(a.extra, step, baseUrl);
          if links.None? {
            return Raised(i), fills;
          }
          return Returned(i, links.value), fills;
        } else if !step.interactOk {
          return Raised(i), fills;
        }
      }
      i := i + 1;
    }
    outcome := Finished;
  }

  /** Concatenation of typed values. */
  function Concat(parts: seq<string>): string {
    if parts == [] then "" else parts[0] + Concat(parts[1..])
  }

  /** A step the page carries out without error. */
  predicate StepSucceeds(a: Action, step: LegacyStep) {
    HasLocator(a.locator) && step.found && step.interactOk
  }

  /** An `input` step with a positive `size`. */
  predicate SizedInput(a: Action) {
    a.elementType == "input" && a.size.Some? && a.size.value > 0
  }

  /** The size an input step advances the cursor by; zero for a step
      that is not a sized input. */
  function SizeOf(a: Action): (n: nat)
    ensures SizedInput(a) ==> n == a.size.value
  {
    if SizedInput(a) then a.size.value else 0
  }

  /** The sizes of the steps from `i` on. */
  function Sizes(recipe: seq<Action>, i: nat): (r: seq<nat>)
    requires i <= |recipe|
    ensures |r| == |recipe| - i
    decreases |recipe| - i
  {
    if i == |recipe| then [] else [SizeOf(recipe[i])] + Sizes(recipe, i + 1)
  }

  /** Every step from `i` on is a sized input that the page carries out. */
  predicate SizedSucceedFrom(recipe: seq<Action>, page: nat -> LegacyStep, i: nat)
    decreases |recipe| - i
  {
    i >= |recipe| || (SizedInput(recipe[i]) && StepSucceeds(recipe[i], page(i)) && SizedSucceedFrom(recipe, page, i + 1))
  }

  lemma {:induction false} SizedSucceedFromAll(recipe: seq<Action>, page: nat -> LegacyStep, i: nat)
    requires forall k :: i <= k < |recipe| ==> SizedInput(recipe[k]) && StepSucceeds(recipe[k], page(k))
    ensures SizedSucceedFrom(recipe, page, i)
    decreases |recipe| - i
  {
    if i < |recipe| {
      SizedSucceedFromAll(recipe, page, i + 1);
    }
  }

  /** Sum of a list of sizes. */
  function Total(sizes: seq<nat>): nat {
    if sizes == [] then 0 else sizes[0] + Total(sizes[1..])
  }

  /** The successive slices of `client` that `sizes` cut from `cursor` on:
      at `cursor`, `cursor + sizes[0]`, and so on. */
  function Cuts(client: string, sizes: seq<nat>, cursor: int): (r: seq<string>)
    ensures |r| == |sizes|
  {
    if sizes == [] then [] else [Slice(client, cursor, cursor + sizes[0])] + Cuts(client, sizes[1..], cursor + sizes[0])
  }

  lemma SizedStep(recipe: seq<Action>, client: string, page: nat -> LegacyStep, baseUrl: string,
                  i: nat, cursor: int, value: Option<string>, fills: seq<string>)
    requires i < |recipe| && SizedInput(recipe[i]) && StepSucceeds(recipe[i], page(i))
    ensures var n := recipe[i].size.value;
      Run(recipe, client, page, baseUrl, i, cursor, value, fills)
      == Run(recipe, client, page, baseUrl, i + 1, cursor + n, Some(Slice(client, cursor, cursor + n)),
             fills + [Slice(client, cursor, cursor + n)])
  {
  }

  /** The first cut of a recipe's sizes is the first step's slice. */
  lemma CutsCons(recipe: seq<Action>, client: string, i: nat, cursor: int)
    requires i < |recipe| && SizedInput(recipe[i])
    ensures var n := recipe[i].size.value;
      Cuts(client, Sizes(recipe, i), cursor)
      == [Slice(client, cursor, cursor + n)] + Cuts(client, Sizes(recipe, i + 1), cursor + n)
  {
    var sizes := Sizes(recipe, i);
    assert sizes[0] == recipe[i].size.value && sizes[1..] == Sizes(recipe, i + 1);
  }

  /** From step `i` on, a recipe of sized inputs that all succeed runs to
      its end and appends exactly the successive slices to the typed values. */
  lemma {:induction false} SizedRunFrom(recipe: seq<Action>, client: string, page: nat -> LegacyStep, baseUrl: string,
                                        i: nat, cursor: int, value: Option<string>, fills: seq<string>)
    requires i <= |recipe| && SizedSucceedFrom(recipe, page, i)
    ensures Run(recipe, client, page, baseUrl, i, cursor, value, fills)
         == (Finished, fills + Cuts(client, Sizes(recipe, i), cursor))
    decreases |recipe| - i
  {
    if i == |recipe| {
      assert fills + [] == fills;
    } else {
      var n := recipe[i].size.value;
      var piece := Slice(client, cursor, cursor + n);
      var rest := Cuts(client, Sizes(recipe, i + 1), cursor + n);
      CutsCons(recipe, client, i, cursor);
      assert (fills + [piece]) + rest == fills + Cuts(client, Sizes(recipe, i), cursor);
      SizedStep(recipe, client, page, baseUrl, i, cursor, value, fills);
      SizedRunFrom(recipe, client, page, baseUrl, i + 1, cursor + n, Some(piece), fills + [piece]);
      assert Run(recipe, client, page, baseUrl, i + 1, cursor + n, Some(piece), fills + [piece])
          == (Finished, (fills + [piece]) + rest);
    }
  }

  /** The successive slices, joined, are one slice as long as the sizes
      together. */
  lemma {:induction false} CutsConcat(client: string, sizes: seq<nat>, cursor: int, end: int)
    requires 0 <= cursor && end == cursor + Total(sizes)
    ensures Concat(Cuts(client, sizes, cursor)) == Slice(client, cursor, end)
  {
    if sizes == [] {
      assert Slice(client, cursor, end) == [];
    } else {
      var n := sizes[0];
      CutsConcat(client, sizes[1..], cursor + n, end);
      SliceAdjacent(client, cursor, cursor + n, end);
      var ps := Cuts(client, sizes, cursor);
      assert ps[0] == Slice(client, cursor, cursor + n) && ps[1..] == Cuts(client, sizes[1..], cursor + n);
    }
  }

  /** A recipe made only of sized inputs that all succeed runs to its end,
      and the values it types are consecutive pieces of the client number:
      together they are its first `Σ size` characters. */
  lemma SizedInputsConcatenate(recipe: seq<Action>, client: string, page: nat -> LegacyStep, baseUrl: string)
    requires forall k :: 0 <= k < |recipe| ==> SizedInput(recipe[k]) && StepSucceeds(recipe[k], page(k))
    ensures Run(recipe, client, page, baseUrl, 0, 0, None, []).0 == Finished
    ensures Concat(Run(recipe, client, page, baseUrl, 0, 0, None, []).1) == Slice(client, 0, Total(Sizes(recipe, 0)))
  {
    SizedSucceedFromAll(recipe, page, 0);
    SizedRunFrom(recipe, client, page, baseUrl, 0, 0, None, []);
    var cuts := Cuts(client, Sizes(recipe, 0), 0);
    assert [] + cuts == cuts;
    CutsConcat(client, Sizes(recipe, 0), 0, Total(Sizes(recipe, 0)));
  }

  /** An `input` step without `size` types the whole number and leaves the
      cursor where it was. */
  lemma UnsizedInputTypesWhole(recipe: seq<Action>, client: string, page: nat -> LegacyStep, baseUrl: string,
                               i: nat, cursor: int, value: Option<string>, fills: seq<string>)
    requires i < |recipe| && recipe[i].elementType == "input" && recipe[i].size.None?
    requires StepSucceeds(recipe[i], page(i))
    ensures Run(recipe, client, page, baseUrl, i, cursor, value, fills)
         == Run(recipe, client, page, baseUrl, i + 1, cursor, Some(client), fills + [client])
  {
  }

  /** A text step with `query`. */
  predicate IsQueryStep(a: Action) {
    IsLegacyTextType(a.elementType) && a.query
  }

  lemma {:induction false} ReturnedFrom(recipe: seq<Action>, client: string, page: nat -> LegacyStep, baseUrl: string,
                                        i: nat, cursor: int, value: Option<string>, fills: seq<string>)
    requires i <= |recipe|
    requires Run(recipe, client, page, baseUrl, i, cursor, value, fills).0.Returned?
    ensures var q := Run(recipe, client, page, baseUrl, i, cursor, value, fills).0.at;
      && i <= q < |recipe|
      && IsQueryStep(recipe[q])
      && (forall k :: i <= k < q ==> !IsQueryStep(recipe[k]))
      && Some(Run(recipe, client, page, baseUrl, i, cursor, value, fills).0.urls)
         == FormatLinks(recipe[q].extra, page(q), baseUrl)
    decreases |recipe| - i
  {
    var st := Step(recipe[i], page(i), i, client, baseUrl, cursor, value, fills);
    StepReturnsOnlyAtQuery(recipe[i], page(i), i, client, baseUrl, cursor, value, fills);
    if st.Next? {
      assert Run(recipe, client, page, baseUrl, i, cursor, value, fills)
          == Run(recipe, client, page, baseUrl, i + 1, st.cursor, st.value, st.fills);
      ReturnedFrom(recipe, client, page, baseUrl, i + 1, st.cursor, st.value, st.fills);
    }
  }

  /** Only a query step returns, at its own index and with its links, and a
      step that lets the walk go on is not a query step. */
  lemma StepReturnsOnlyAtQuery(a: Action, step: LegacyStep, i: nat, client: string, baseUrl: string,
                               cursor: int, value: Option<string>, fills: seq<string>)
    ensures var st := Step(a, step, i, client, baseUrl, cursor, value, fills);
      && (st.Next? ==> !IsQueryStep(a))
      && (st.Stop? && st.outcome.Returned? ==>
            && st.outcome.at == i && IsQueryStep(a)
            && Some(st.outcome.urls) == FormatLinks(a.extra, step, baseUrl))
  {
  }

  /** The walk returns at the first query step, with that step's links. */
  lemma ReturnsAtFirstQuery(recipe: seq<Action>, client: string, page: nat -> LegacyStep, baseUrl: string)
    requires Run(recipe, client, page, baseUrl, 0, 0, None, []).0.Returned?
    ensures var q := Run(recipe, client, page, baseUrl, 0, 0, None, []).0.at;
      && q < |recipe| && IsQueryStep(recipe[q])
      && (forall k :: 0 <= k < q ==> !IsQueryStep(recipe[k]))
      && Some(Run(recipe, client, page, baseUrl, 0, 0, None, []).0.urls)
         == FormatLinks(recipe[q].extra, page(q), baseUrl)
  {
    ReturnedFrom(recipe, client, page, baseUrl, 0, 0, None, []);
  }

  lemma {:induction false} LaterStepsUnusedFrom(recipe: seq<Action>, client: string, p1: nat -> LegacyStep, p2: nat -> LegacyStep,
                                                baseUrl: string, i: nat, cursor: int, value: Option<string>, fills: seq<string>)
    requires i <= |recipe|
    requires Run(recipe, client, p1, baseUrl, i, cursor, value, fills).0.Returned?
    requires forall k :: i <= k <= Run(recipe, client, p1, baseUrl, i, cursor, value, fills).0.at ==> p1(k) == p2(k)
    ensures Run(recipe, client, p2, baseUrl, i, cursor, value, fills) == Run(recipe, client, p1, baseUrl, i, cursor, value, fills)
    decreases |recipe| - i
  {
    ReturnedFrom(recipe, client, p1, baseUrl, i, cursor, value, fills);
    var a := recipe[i];
    assert p1(i) == p2(i);
    if a.elementType == "input" {
      var (v, c) := InputValue(a.size, client, cursor, value);
      if HasLocator(a.locator) && p1(i).found && v.Some? && p1(i).interactOk {
        LaterStepsUnusedFrom(recipe, client, p1, p2, baseUrl, i + 1, c, v, fills + [v.value]);
      }
    } else if HasLocator(a.locator) && p1(i).found && !IsQueryStep(a) {
      if i + 1 <= |recipe| && Run(recipe, client, p1, baseUrl, i + 1, cursor, value, fills).0.Returned? {
        LaterStepsUnusedFrom(recipe, client, p1, p2, baseUrl, i + 1, cursor, value, fills);
      }
    }
  }

  /** Once a query step returns, no later step is executed: what the page
      would do for the steps after it cannot change the result. */
  lemma LaterStepsUnused(recipe: seq<Action>, client: string, p1: nat -> LegacyStep, p2: nat -> LegacyStep, baseUrl: string)
    requires Run(recipe, client, p1, baseUrl, 0, 0, None, []).0.Returned?
    requires forall k :: 0 <= k <= Run(recipe, client, p1, baseUrl, 0, 0, None, []).0.at ==> p1(k) == p2(k)
    ensures Run(recipe, client, p2, baseUrl, 0, 0, None, []) == Run(recipe, client, p1, baseUrl, 0, 0, None, [])
  {
    LaterStepsUnusedFrom(recipe, client, p1, p2, baseUrl, 0, 0, None, []);
  }

  /** An input step that can always type something. */
  predicate InputHasValue(a: Action) {
    a.elementType == "input" ==> a.size != Some(0)
  }

  lemma {:induction false} NoQueryFinishesFrom(recipe: seq<Action>, client: string, page: nat -> LegacyStep, baseUrl: string,
                                               i: nat, cursor: int, value: Option<string>, fills: seq<string>)
    requires i <= |recipe|
    requires forall k :: i <= k < |recipe| ==>
               StepSucceeds(recipe[k], page(k)) && !IsQueryStep(recipe[k]) && InputHasValue(recipe[k])
    ensures Run(recipe, client, page, baseUrl, i, cursor, value, fills).0 == Finished
    decreases |recipe| - i
  {
    if i < |recipe| {
      var a := recipe[i];
      if a.elementType == "input" {
        var (v, c) := InputValue(a.size, client, cursor, value);
        NoQueryFinishesFrom(recipe, client, page, baseUrl, i + 1, c, v, fills + [v.value]);
      } else {
        NoQueryFinishesFrom(recipe, client, page, baseUrl, i + 1, cursor, value, fills);
      }
    }
  }

  /** Without a query step, and with every step carried out, the walk runs
      to the end of the recipe and returns `None`. */
  lemma NoQueryFinishes(recipe: seq<Action>, client: string, page: nat -> LegacyStep, baseUrl: string)
    requires forall k :: 0 <= k < |recipe| ==>
               StepSucceeds(recipe[k], page(k)) && !IsQueryStep(recipe[k]) && InputHasValue(recipe[k])
    ensures Run(recipe, client, page, baseUrl, 0, 0, None, []).0 == Finished
  {
    NoQueryFinishesFrom(recipe, client, page, baseUrl, 0, 0, None, []);
  }
}
