/**
 * The newer scraping interpreter, `WebScrapService`. It picks a browser,
 * passes the CAPTCHA, runs the recipe's actions in order and keeps the bills
 * it collects on the instance: URL bills from link queries and content bills
 * from downloaded PDFs. It gives up at the fourth failed action in a row,
 * and finally hands the bills to the bill service.
 *
 * The page is an oracle. For each recipe position it says whether the
 * selector appears, whether filling or clicking works, which elements a
 * query returns and what each download button yields. The bill service is
 * called through the main backend's oracle.
 */
module WebScrap {
  import opened Wrappers
  import opened PyStr
  import opened JsonValues
  import opened Regex
  import opened Selector
  import opened Recipe
  import opened MainClient
  import BillService

  // ---------------------------------------------------------------------
  // Browser and CAPTCHA
  // ---------------------------------------------------------------------

  /** The part of `scraping_config` the interpreter reads. Each CAPTCHA
      step is a dict of strings. */
  datatype ScrapingConfig = ScrapingConfig(
    url: string,
    captcha: bool,
    captchaSequence: seq<map<string, string>>,
    sequence: seq<Action>)

  datatype Browser = Firefox | Chrome

  /** How the CAPTCHA is passed: solved inline through the recorded steps,
      or by waiting for the browser service to solve it. */
  datatype CaptchaMode = Inline | External

  /** The browser `_initialize_browser` asks for. */
  function BrowserType(config: ScrapingConfig): (r: Browser)
    ensures !config.captcha ==> r == Chrome
    ensures config.captchaSequence == [] ==> r == Chrome
  {
    if config.captcha && config.captchaSequence != [] then Firefox else Chrome
  }

  /** `_handle_captcha` solves inline exactly when steps are recorded. */
  function CaptchaModeFor(config: ScrapingConfig): (r: CaptchaMode)
    ensures r == Inline <==> |config.captchaSequence| > 0
  {
    if config.captchaSequence != [] then Inline else External
  }

  /** With the CAPTCHA on, Firefox is chosen exactly when the CAPTCHA is
      solved inline. */
  lemma FirefoxIffInlineCaptcha(config: ScrapingConfig)
    requires config.captcha
    ensures BrowserType(config) == Firefox <==> CaptchaModeFor(config) == Inline
  {
  }

  /** What the page and the solver do during the CAPTCHA: whether every
      page interaction works, the solver's answer (`None` for the `0` it
      returns on failure) and whether the external wait succeeds. */
  datatype CaptchaPage = CaptchaPage(pageOk: bool, solution: Option<string>, waitOk: bool)

  datatype CaptchaOutcome = Solved | CaptchaError

  /** `_solve_captcha_with_sequence`: the customer number goes into the
      field of step 0, the site key comes from step 1's `content`, and the
      button of step 2's `captcha_button_content` is clicked once the
      solver answers. A missing step or key raises, as does a solver
      answer of 0. */
  function SolveWithSequence(steps: seq<map<string, string>>, cp: CaptchaPage): (r: CaptchaOutcome)
    ensures cp.solution.None? ==> r == CaptchaError
    ensures r == Solved ==> |steps| >= 3 && HasLocator(steps[0]) && cp.pageOk
  {
    if |steps| < 1 || !HasLocator(steps[0]) || !cp.pageOk then CaptchaError
    else if |steps| < 2 || "content" !in steps[1] then CaptchaError
    else if cp.solution.None? then CaptchaError
    else if |steps| < 3 || "captcha_button_content" !in steps[2] then CaptchaError
    else Solved
  }

  /** `_handle_captcha`. */
  function HandleCaptcha(config: ScrapingConfig, cp: CaptchaPage): (r: CaptchaOutcome)
    ensures CaptchaModeFor(config) == Inline ==> r == SolveWithSequence(config.captchaSequence, cp)
    ensures CaptchaModeFor(config) == External ==> (r == Solved <==> cp.waitOk)
  {
    if config.captchaSequence != [] then SolveWithSequence(config.captchaSequence, cp)
    else if cp.waitOk then Solved
    else CaptchaError
  }

  /** An inline solve whose solver answers 0 always fails. */
  lemma SolverZeroIsCaptchaError(config: ScrapingConfig, cp: CaptchaPage)
    requires |config.captchaSequence| > 0 && cp.solution.None?
    ensures HandleCaptcha(config, cp) == CaptchaError
  {
  }

  // ---------------------------------------------------------------------
  // The page oracle
  // ---------------------------------------------------------------------

  /** `element.get_attribute("href")`: missing, a value, or an exception. */
  datatype Attribute = Absent | Present(value: string) | Unreadable

  /** A matched element: its inner text (`None` when reading it raises), its
      `href` and whether it holds a `form`. */
  datatype Element = Element(text: Option<string>, href: Attribute, hasForm: bool)

  /** What one download button yields: a download with its suggested file
      name and the PDF's text (`None` when the PDF cannot be read), or
      nothing (the click, the download or its path failed). */
  datatype Download = Downloaded(filename: string, text: Option<string>) | NotDownloaded

  /** The page as one action sees it: whether its selector appears, whether
      fill, click and redirect work, the elements `query_selector_all`
      returns (`None` when it raises), the download buttons, the URL
      `urljoin` makes of an href against the page's base URL, and the
      downloads whose `download` event the listener set up by
      `_handle_scraping` handles while the action runs. */
  datatype PageStep = PageStep(
    found: bool,
    interacts: bool,
    elements: Option<seq<Element>>,
    buttons: Option<seq<Download>>,
    urlOf: string -> string,
    listened: seq<Download>)

  // ---------------------------------------------------------------------
  // The instance state, as a value
  // ---------------------------------------------------------------------

  /** One call `_handle_urls` makes to the bill service. */
  datatype SaveCall = SaveCall(bills: seq<Json>, debt: bool)

  /** The fields of the service, plus what it has sent out: the calls to
      the bill service and the values typed into input fields. */
  datatype ServiceState = ServiceState(
    debt: bool,
    bills: seq<Json>,
    saveBillsCalled: bool,
    downloadedFiles: set<string>,
    saveCalls: seq<SaveCall>,
    filled: seq<string>)

  /** The state of a new instance. */
  const Initial: ServiceState := ServiceState(false, [], false, {}, [], [])

  /** The guard on the bill service: at most one call, made exactly when
      the flag is set. */
  predicate SavedAtMostOnce(s: ServiceState) {
    (s.saveBillsCalled <==> s.saveCalls != []) && |s.saveCalls| <= 1
  }

  /** `_handle_download`: a file name already seen is skipped; otherwise it
      is recorded first, and then the PDF's text, when it can be read,
      becomes one content bill. */
  function AfterDownload(s: ServiceState, d: Download): (r: ServiceState)
  {
    match d
    case NotDownloaded => s
    case Downloaded(name, text) =>
      if name in s.downloadedFiles then s
      else
        var added := if text.Some? then [ContentBill(text.value)] else [];
        s.(downloadedFiles := s.downloadedFiles + {name}, bills := s.bills + added)
  }

  /** One download changes only the file names and the bills: its name is
      recorded, and at most one bill is added after the others. */
  lemma DownloadChangesNamesAndBills(s: ServiceState, d: Download)
    ensures var r := AfterDownload(s, d);
      && r == s.(downloadedFiles := r.downloadedFiles, bills := r.bills)
      && s.bills <= r.bills && |r.bills| <= |s.bills| + 1
      && r.downloadedFiles == s.downloadedFiles + (if d.Downloaded? then {d.filename} else {})
  {
  }

  /** The downloads of `_handle_buttons`, in button order. */
  function AfterDownloads(s: ServiceState, ds: seq<Download>): ServiceState {
    if ds == [] then s
    else AfterDownload(AfterDownloads(s, ds[..|ds| - 1]), ds[|ds| - 1])
  }

  /** The file names among the downloads. */
  function Names(ds: seq<Download>): set<string> {
    set k | 0 <= k < |ds| && ds[k].Downloaded? :: ds[k].filename
  }

  /** `_check_debt_status`: no element means debt; so does a first element
      whose text cannot be read (the error default) or does not match the
      no-debt pattern. */
  function DebtAfterCheck(elements: seq<Element>, noDebtText: Option<string>, re: Engine): (r: bool)
    ensures elements == [] ==> r
    ensures elements != [] && elements[0].text.None? ==> r
    ensures noDebtText.None? || noDebtText == Some("") ==> r
    ensures !r ==> Search(re, noDebtText.value, NoFlags, elements[0].text.value).Some?
    ensures (elements != [] && elements[0].text.Some? && noDebtText.Some? && noDebtText.value != ""
             && Search(re, noDebtText.value, NoFlags, elements[0].text.value).Some?) ==> !r
  {
    if elements == [] then true
    else if elements[0].text.None? then true
    else if noDebtText.Some? && noDebtText.value != ""
         && Search(re, noDebtText.value, NoFlags, elements[0].text.value).Some? then false
    else true
  }

  /** The hrefs of `_handle_urls` as bills: an element without `href` is
      dropped; an href that cannot be read raises, and the handler then
      returns nothing. */
  function UrlsFrom(elements: seq<Element>, urlOf: string -> string): (r: Option<seq<Json>>)
    ensures r.Some? ==> |r.value| <= |elements|
  {
    if elements == [] then Some([])
    else
      var last := elements[|elements| - 1];
      match UrlsFrom(elements[..|elements| - 1], urlOf)
      case None => None
      case Some(init) =>
        match last.href
        case Unreadable => None
        case Absent => Some(init)
        case Present(href) => Some(init + [UrlBill(urlOf(href))])
  }

  /** `_handle_urls` once the bills are formatted: they join the instance's
      bills, and the first non-empty batch goes to the bill service with
      the current debt flag. */
  function AfterUrls(s: ServiceState, formatted: seq<Json>): (r: ServiceState)
    ensures r.bills == s.bills + formatted
    ensures r.debt == s.debt && r.downloadedFiles == s.downloadedFiles
    ensures SavedAtMostOnce(s) ==> SavedAtMostOnce(r)
    ensures formatted != [] && !s.saveBillsCalled ==> r.saveCalls == s.saveCalls + [SaveCall(formatted, s.debt)]
  {
    if formatted == [] then s
    else if s.saveBillsCalled then s.(bills := s.bills + formatted)
    else s.(bills := s.bills + formatted,
            saveCalls := s.saveCalls + [SaveCall(formatted, s.debt)],
            saveBillsCalled := true)
  }

  // ---------------------------------------------------------------------
  // One action
  // ---------------------------------------------------------------------

  /** What `_execute_action` returns, or the `ScrapingError` it raises. */
  datatype ActionResult = Done(results: seq<Json>) | ActionFailed

  /** The element types `_handle_element` serves. */
  predicate IsElementType(t: string) {
    t in {"h1", "h2", "h3", "h4", "h5", "h6", "p", "div", "span", "table", "tbody", "td", "a", "ul", "name"}
  }

  /** `_execute_action`: the dispatch on the element type. */
  function ActionSpec(s: ServiceState, a: Action, step: PageStep, customer: string, re: Engine): (r: (ServiceState, ActionResult))
    ensures r.1.ActionFailed? ==> r.0 == s.(debt := r.0.debt)
  {
    if !HasLocator(a.locator) || !step.found then (s, ActionFailed)
    else if a.elementType == "input" then
      if !step.interacts then (s, ActionFailed)
      else
        var size := if a.size.Some? then a.size.value else |customer|;
        (s.(filled := s.filled + [Slice(customer, 0, size)]), Done([]))
    else if a.elementType == "button" then
      if !step.interacts then (s, ActionFailed) else (s, Done([]))
    else if a.elementType == "buttons" then
      if step.buttons.None? then (s, ActionFailed)
      else
        var s1 := AfterDownloads(s, step.buttons.value);
        (s1, Done(s1.bills))
    else if IsElementType(a.elementType) then
      if step.elements.None? then (s, ActionFailed)
      else
        var elements := step.elements.value;
        var s1 := if a.debt then s.(debt := DebtAfterCheck(elements, a.noDebtText, re)) else s;
        if !a.query then (s1, Done([]))
        else if a.redirect then
          if elements == [] || !step.interacts then (s1, ActionFailed) else (s1, Done([]))
        else if a.form then (s1, Done([]))
        else
          match UrlsFrom(elements, step.urlOf)
          case None => (s1, Done([]))
          case Some(formatted) => (AfterUrls(s1, formatted), Done(formatted))
    else (s, Done([]))
  }

  /** One action of the loop: `_execute_action`, then the downloads the
      listener handles meanwhile. A `buttons` action returns the list
      `self.bills` itself, so the loop sees it as the listener leaves it. */
  function ExecuteSpec(s: ServiceState, a: Action, step: PageStep, customer: string, re: Engine): (r: (ServiceState, ActionResult))
    ensures r.1.ActionFailed? <==> ActionSpec(s, a, step, customer, re).1.ActionFailed?
    ensures r.0 == AfterDownloads(ActionSpec(s, a, step, customer, re).0, step.listened)
  {
    var (s1, res) := ActionSpec(s, a, step, customer, re);
    var s2 := AfterDownloads(s1, step.listened);
    (s2, if res.Done? && a.elementType == "buttons" then Done(s2.bills) else res)
  }

  /** Whether an action raises depends on the recipe and the page only. */
  predicate ActionFails(a: Action, step: PageStep) {
    || !HasLocator(a.locator) || !step.found
    || ((a.elementType == "input" || a.elementType == "button") && !step.interacts)
    || (a.elementType == "buttons" && step.buttons.None?)
    || (IsElementType(a.elementType) && step.elements.None?)
    || (IsElementType(a.elementType) && step.elements.Some? && a.query && a.redirect
        && (step.elements.value == [] || !step.interacts))
  }

  lemma ExecuteFailsIff(s: ServiceState, a: Action, step: PageStep, customer: string, re: Engine)
    ensures ExecuteSpec(s, a, step, customer, re).1.ActionFailed? <==> ActionFails(a, step)
  {
    assert ActionSpec(s, a, step, customer, re).1.ActionFailed? <==> ActionFails(a, step);
  }

  /** The loop's use of a result: a non-empty one extends the bills. */
  function Collect(s: ServiceState, res: ActionResult): ServiceState {
    if res.Done? && res.results != [] then s.(bills := s.bills + res.results) else s
  }

  // ---------------------------------------------------------------------
  // The action loop
  // ---------------------------------------------------------------------

  /** How `_handle_scraping` ends: with the bills, or with a
      `ScrapingError` for the CAPTCHA or for four failures in a row ending
      at action `at`. */
  datatype ScrapeOutcome = Scraped(bills: seq<Json>) | CaptchaFailed | TooManyErrors(at: nat)

  /** The loop from action `i` on, with `errors` failures just before it. */
  function RunFrom(s: ServiceState, recipe: seq<Action>, page: nat -> PageStep, customer: string, re: Engine,
                   i: nat, errors: nat): (r: (ServiceState, ScrapeOutcome))
    requires i <= |recipe|
    ensures !r.1.CaptchaFailed?
    ensures r.1.TooManyErrors? ==> i <= r.1.at < |recipe|
    decreases |recipe| - i
  {
    if i == |recipe| then (s, Scraped(s.bills))
    else
      var (s1, res) := ExecuteSpec(s, recipe[i], page(i), customer, re);
      if res.Done? then RunFrom(Collect(s1, res), recipe, page, customer, re, i + 1, 0)
      else if errors + 1 >= 4 then (s1, TooManyErrors(i))
      else RunFrom(s1, recipe, page, customer, re, i + 1, errors + 1)
  }

  /** One action of the loop, given what it did. */
  lemma RunFromStep(s: ServiceState, recipe: seq<Action>, page: nat -> PageStep, customer: string, re: Engine,
                    i: nat, errors: nat, after: ServiceState, res: ActionResult)
    requires i < |recipe| && (after, res) == ExecuteSpec(s, recipe[i], page(i), customer, re)
    ensures RunFrom(s, recipe, page, customer, re, i, errors)
         == if res.Done? then RunFrom(Collect(after, res), recipe, page, customer, re, i + 1, 0)
            else if errors + 1 >= 4 then (after, TooManyErrors(i))
            else RunFrom(after, recipe, page, customer, re, i + 1, errors + 1)
  {
  }

  /** `_handle_scraping`: the CAPTCHA when the configuration asks for it,
      then the actions. */
  function ScrapeSpec(s: ServiceState, config: ScrapingConfig, cp: CaptchaPage, page: nat -> PageStep,
                      customer: string, re: Engine): (r: (ServiceState, ScrapeOutcome))
    ensures r.1.CaptchaFailed? <==> config.captcha && HandleCaptcha(config, cp) == CaptchaError
    ensures r.1.CaptchaFailed? ==> r.0 == s
    ensures r.1.TooManyErrors? ==> r.1.at < |config.sequence|
  {
    if config.captcha && HandleCaptcha(config, cp) == CaptchaError then (s, CaptchaFailed)
    else RunFrom(s, config.sequence, page, customer, re, 0, 0)
  }

  /** The number of failing actions right before position `i`. */
  function Streak(recipe: seq<Action>, page: nat -> PageStep, i: nat): (n: nat)
    requires i <= |recipe|
    ensures n <= i
  {
    if i == 0 then 0
    else if ActionFails(recipe[i - 1], page(i - 1)) then Streak(recipe, page, i - 1) + 1
    else 0
  }

  /** A streak of four failures ends at action `k`. */
  predicate FourFailuresAt(recipe: seq<Action>, page: nat -> PageStep, k: nat) {
    k < |recipe| && Streak(recipe, page, k + 1) >= 4
  }

  /** A streak of four ends at `k` exactly when actions `k-3` to `k` all
      fail. */
  lemma StreakOfFour(recipe: seq<Action>, page: nat -> PageStep, k: nat)
    requires k < |recipe|
    ensures FourFailuresAt(recipe, page, k) <==>
              k >= 3 && forall j :: k - 3 <= j <= k ==> ActionFails(recipe[j], page(j))
  {
    if k >= 3 {
      var f0, f1, f2, f3 := ActionFails(recipe[k], page(k)), ActionFails(recipe[k - 1], page(k - 1)),
                            ActionFails(recipe[k - 2], page(k - 2)), ActionFails(recipe[k - 3], page(k - 3));
      assert Streak(recipe, page, k + 1) >= 4 <==> f0 && f1 && f2 && f3 by {
        assert Streak(recipe, page, k + 1) == if f0 then Streak(recipe, page, k) + 1 else 0;
        assert Streak(recipe, page, k) == if f1 then Streak(recipe, page, k - 1) + 1 else 0;
        assert Streak(recipe, page, k - 1) == if f2 then Streak(recipe, page, k - 2) + 1 else 0;
        assert Streak(recipe, page, k - 2) == if f3 then Streak(recipe, page, k - 3) + 1 else 0;
      }
      if f0 && f1 && f2 && f3 {
        forall j | k - 3 <= j <= k
          ensures ActionFails(recipe[j], page(j))
        {
          assert j == k || j == k - 1 || j == k - 2 || j == k - 3;
        }
      }
    } else {
      assert Streak(recipe, page, k + 1) <= k + 1;
    }
  }

  /** The loop gives up at the first action that completes a streak of
      four failures, and otherwise runs to the end and returns the bills. */
  lemma {:induction false} RunFromEnds(s: ServiceState, recipe: seq<Action>, page: nat -> PageStep, customer: string,
                                       re: Engine, i: nat, errors: nat)
    requires i <= |recipe| && errors == Streak(recipe, page, i) && errors < 4
    ensures var (s', outcome) := RunFrom(s, recipe, page, customer, re, i, errors);
      && (outcome.TooManyErrors? <==> exists k :: i <= k && FourFailuresAt(recipe, page, k))
      && (outcome.TooManyErrors? ==>
            FourFailuresAt(recipe, page, outcome.at)
            && forall k :: i <= k < outcome.at ==> !FourFailuresAt(recipe, page, k))
      && (outcome.Scraped? ==> outcome.bills == s'.bills)
    decreases |recipe| - i
  {
    if i < |recipe| {
      var (s1, res) := ExecuteSpec(s, recipe[i], page(i), customer, re);
      ExecuteFailsIff(s, recipe[i], page(i), customer, re);
      if res.Done? {
        assert !FourFailuresAt(recipe, page, i);
        RunFromEnds(Collect(s1, res), recipe, page, customer, re, i + 1, 0);
      } else if errors + 1 < 4 {
        assert !FourFailuresAt(recipe, page, i);
        RunFromEnds(s1, recipe, page, customer, re, i + 1, errors + 1);
      } else {
        assert FourFailuresAt(recipe, page, i);
      }
    }
  }

  /** Some action among `k-3` to `k` does not fail. */
  predicate SucceedsAmongFour(recipe: seq<Action>, page: nat -> PageStep, k: nat)
    requires 3 <= k < |recipe|
  {
    exists j :: k - 3 <= j <= k && !ActionFails(recipe[j], page(j))
  }

  /** Fewer than four failures in a row anywhere: the loop completes and
      returns the instance's bills. */
  lemma CompletesWithoutFourFailures(s: ServiceState, config: ScrapingConfig, cp: CaptchaPage, page: nat -> PageStep,
                                     customer: string, re: Engine)
    requires !config.captcha
    requires forall k :: 3 <= k < |config.sequence| ==> SucceedsAmongFour(config.sequence, page, k)
    ensures var (s', outcome) := ScrapeSpec(s, config, cp, page, customer, re);
      outcome == Scraped(s'.bills)
  {
    forall k | 0 <= k < |config.sequence|
      ensures !FourFailuresAt(config.sequence, page, k)
    {
      StreakOfFour(config.sequence, page, k);
      if k >= 3 {
        assert SucceedsAmongFour(config.sequence, page, k);
      }
    }
    RunFromEnds(s, config.sequence, page, customer, re, 0, 0);
  }

  // ---------------------------------------------------------------------
  // Properties of single actions
  // ---------------------------------------------------------------------

  /** Every input gets a prefix of the customer number: the cursor starts
      at 0 on each call. */
  lemma InputFillsPrefix(s: ServiceState, a: Action, step: PageStep, customer: string, re: Engine)
    requires a.elementType == "input" && !ActionFails(a, step)
    ensures var (s', res) := ExecuteSpec(s, a, step, customer, re);
      && res == Done([])
      && |s'.filled| == |s.filled| + 1 && s'.filled[..|s.filled|] == s.filled
      && s'.filled[|s.filled|] <= customer
      && (a.size.None? ==> s'.filled[|s.filled|] == customer)
      && (a.size.Some? && 0 <= a.size.value <= |customer| ==> s'.filled[|s.filled|] == customer[..a.size.value])
      && s'.bills == AfterDownloads(s, step.listened).bills && s'.debt == s.debt
  {
    var size := if a.size.Some? then a.size.value else |customer|;
    SliceFromStartIsPrefix(customer, size);
    var s1 := ActionSpec(s, a, step, customer, re).0;
    DownloadsFrame(s1, step.listened);
    DownloadsSeeOnlyBillsAndNames(s1, s, step.listened);
  }

  lemma SliceFromStartIsPrefix(s: string, hi: int)
    ensures Slice(s, 0, hi) <= s
  {
  }

  /** The debt flag moves only in element actions that ask for the check. */
  lemma DebtCheckedOnlyWhenAsked(s: ServiceState, a: Action, step: PageStep, customer: string, re: Engine)
    requires !a.debt || !IsElementType(a.elementType)
    ensures ExecuteSpec(s, a, step, customer, re).0.debt == s.debt
  {
    if a.elementType == "buttons" && step.buttons.Some? {
      DownloadsFrame(s, step.buttons.value);
    }
    DownloadsFrame(ActionSpec(s, a, step, customer, re).0, step.listened);
  }

  /** A query follows the redirect when asked, else submits the forms, else
      collects the links; only the last returns bills. */
  lemma QueryPrecedence(s: ServiceState, a: Action, step: PageStep, customer: string, re: Engine)
    requires IsElementType(a.elementType) && a.query && !ActionFails(a, step)
    ensures var (s', res) := ExecuteSpec(s, a, step, customer, re);
      && (a.redirect || a.form ==>
            res == Done([]) && s'.bills == AfterDownloads(s, step.listened).bills && s'.saveCalls == s.saveCalls)
      && (!a.redirect && !a.form ==>
            res == Done(UrlsFrom(step.elements.value, step.urlOf).GetOr([])))
  {
    var s1 := ActionSpec(s, a, step, customer, re).0;
    DownloadsFrame(s1, step.listened);
    if a.redirect || a.form {
      DownloadsSeeOnlyBillsAndNames(s1, s, step.listened);
    }
  }

  /** Links become URL bills in element order, one for each element with
      an `href`. */
  lemma {:induction false} UrlsFromOrder(elements: seq<Element>, urlOf: string -> string)
    requires forall k :: 0 <= k < |elements| ==> elements[k].href.Present?
    ensures UrlsFrom(elements, urlOf).Some?
    ensures var r := UrlsFrom(elements, urlOf).value;
      |r| == |elements| && forall k :: 0 <= k < |r| ==> r[k] == UrlBill(urlOf(elements[k].href.value))
  {
    if elements != [] {
      UrlsFromOrder(elements[..|elements| - 1], urlOf);
    }
  }

  /** Elements without an `href` contribute nothing. */
  lemma {:induction false} UrlsFromDropsAbsent(elements: seq<Element>, urlOf: string -> string)
    requires forall k :: 0 <= k < |elements| ==> elements[k].href.Absent?
    ensures UrlsFrom(elements, urlOf) == Some([])
  {
    if elements != [] {
      UrlsFromDropsAbsent(elements[..|elements| - 1], urlOf);
    }
  }

  /** The links of two runs of elements are the links of each, in turn;
      an unreadable href in either raises. */
  lemma {:induction false} UrlsFromAppend(a: seq<Element>, b: seq<Element>, urlOf: string -> string)
    ensures UrlsFrom(a + b, urlOf)
         == if UrlsFrom(a, urlOf).None? || UrlsFrom(b, urlOf).None? then None
            else Some(UrlsFrom(a, urlOf).value + UrlsFrom(b, urlOf).value)
    decreases |b|
  {
    if b == [] {
      assert a + b == a;
      if UrlsFrom(a, urlOf).Some? {
        assert UrlsFrom(a, urlOf).value + [] == UrlsFrom(a, urlOf).value;
      }
    } else {
      var init, last := b[..|b| - 1], b[|b| - 1];
      assert (a + b)[..|a + b| - 1] == a + init;
      assert (a + b)[|a + b| - 1] == last;
      UrlsFromAppend(a, init, urlOf);
      var ra, ri := UrlsFrom(a, urlOf), UrlsFrom(init, urlOf);
      if ra.Some? && ri.Some? && last.href.Present? {
        assert ra.value + ri.value + [UrlBill(urlOf(last.href.value))]
            == ra.value + (ri.value + [UrlBill(urlOf(last.href.value))]);
      }
    }
  }

  /** `_handle_urls` gives up exactly when some href cannot be read. */
  lemma {:induction false} UrlsFromNone(elements: seq<Element>, urlOf: string -> string)
    ensures UrlsFrom(elements, urlOf).None? <==> exists k :: 0 <= k < |elements| && elements[k].href.Unreadable?
  {
    if elements != [] {
      var init := elements[..|elements| - 1];
      UrlsFromNone(init, urlOf);
      if exists k :: 0 <= k < |init| && init[k].href.Unreadable? {
        var k :| 0 <= k < |init| && init[k].href.Unreadable?;
        assert elements[k] == init[k];
      }
      if exists k :: 0 <= k < |elements| && elements[k].href.Unreadable? {
        var k :| 0 <= k < |elements| && elements[k].href.Unreadable?;
        if k < |init| {
          assert init[k] == elements[k];
        }
      }
    }
  }

  /** A link query's bills are added twice: once by `_handle_urls`, right
      after the bills held before, and once more by the loop, at the end. */
  lemma UrlBillsRecordedTwice(s: ServiceState, a: Action, step: PageStep, customer: string, re: Engine)
    requires IsElementType(a.elementType) && a.query && !a.redirect && !a.form && !ActionFails(a, step)
    requires UrlsFrom(step.elements.value, step.urlOf).Some?
    ensures var formatted := UrlsFrom(step.elements.value, step.urlOf).value;
      var (s', res) := ExecuteSpec(s, a, step, customer, re);
      && s.bills + formatted <= s'.bills
      && Collect(s', res).bills == s'.bills + formatted
  {
    DownloadsAddOnePerName(ActionSpec(s, a, step, customer, re).0, step.listened);
  }

  /** A download action returns the instance's own bills, so the loop
      doubles the whole list. */
  lemma ButtonsDoubleBills(s: ServiceState, a: Action, step: PageStep, customer: string, re: Engine)
    requires a.elementType == "buttons" && !ActionFails(a, step)
    ensures var downloaded := AfterDownloads(AfterDownloads(s, step.buttons.value), step.listened);
      var (s', res) := ExecuteSpec(s, a, step, customer, re);
      Collect(s', res).bills == downloaded.bills + downloaded.bills
  {
  }

  /** A file name already downloaded changes nothing. */
  lemma DuplicateDownloadSkipped(s: ServiceState, name: string, text: Option<string>)
    requires name in s.downloadedFiles
    ensures AfterDownload(s, Downloaded(name, text)) == s
  {
  }

  /** The name is recorded before the PDF is read: a download whose PDF
      cannot be read still blocks later downloads of that name. */
  lemma UnreadablePdfStillBlocks(s: ServiceState, name: string, later: Option<string>)
    requires name !in s.downloadedFiles
    ensures var once := AfterDownload(s, Downloaded(name, None));
      && once == s.(downloadedFiles := s.downloadedFiles + {name})
      && AfterDownload(once, Downloaded(name, later)) == once
  {
  }

  /** Downloads change only the bills and the file names. */
  lemma {:induction false} DownloadsFrame(s: ServiceState, ds: seq<Download>)
    ensures AfterDownloads(s, ds).(bills := s.bills, downloadedFiles := s.downloadedFiles) == s
  {
    if ds != [] {
      DownloadsFrame(s, ds[..|ds| - 1]);
    }
  }

  /** The names seen after the downloads are all the names offered. */
  lemma {:induction false} DownloadsRecordNames(s: ServiceState, ds: seq<Download>)
    ensures AfterDownloads(s, ds).downloadedFiles == s.downloadedFiles + Names(ds)
  {
    if ds != [] {
      var init := ds[..|ds| - 1];
      DownloadsRecordNames(s, init);
      assert forall k :: 0 <= k < |init| ==> ds[k] == init[k];
      assert Names(ds) == Names(init) + (if ds[|ds| - 1].Downloaded? then {ds[|ds| - 1].filename} else {});
    }
  }

  /** Downloads only add content bills, at most one per new file name. */
  lemma {:induction false} DownloadsAddOnePerName(s: ServiceState, ds: seq<Download>)
    ensures var r := AfterDownloads(s, ds);
      && s.downloadedFiles <= r.downloadedFiles
      && s.bills <= r.bills
      && |r.bills| - |s.bills| <= |r.downloadedFiles - s.downloadedFiles|
      && (forall k :: |s.bills| <= k < |r.bills| ==> HasKey(r.bills[k], "content"))
  {
    if ds != [] {
      var d := ds[|ds| - 1];
      DownloadsAddOnePerName(s, ds[..|ds| - 1]);
      var m := AfterDownloads(s, ds[..|ds| - 1]);
      if d.Downloaded? && d.filename !in m.downloadedFiles {
        var r := AfterDownload(m, d);
        assert r.downloadedFiles - s.downloadedFiles == (m.downloadedFiles - s.downloadedFiles) + {d.filename};
        assert d.filename !in m.downloadedFiles - s.downloadedFiles;
        if d.text.Some? {
          assert HasKey(ContentBill(d.text.value), "content");
        }
      }
    }
  }

  /** What downloads do depends only on the bills and the names seen. */
  lemma {:induction false} DownloadsSeeOnlyBillsAndNames(s: ServiceState, t: ServiceState, ds: seq<Download>)
    requires s.bills == t.bills && s.downloadedFiles == t.downloadedFiles
    ensures AfterDownloads(s, ds).bills == AfterDownloads(t, ds).bills
    ensures AfterDownloads(s, ds).downloadedFiles == AfterDownloads(t, ds).downloadedFiles
  {
    if ds != [] {
      DownloadsSeeOnlyBillsAndNames(s, t, ds[..|ds| - 1]);
    }
  }

  /** Downloads whose names were all seen before change nothing. */
  lemma {:induction false} SeenDownloadsSkipped(s: ServiceState, ds: seq<Download>)
    requires Names(ds) <= s.downloadedFiles
    ensures AfterDownloads(s, ds) == s
  {
    if ds != [] {
      var init := ds[..|ds| - 1];
      assert forall k :: 0 <= k < |init| ==> init[k] == ds[k];
      assert Names(init) <= Names(ds);
      SeenDownloadsSkipped(s, init);
      if ds[|ds| - 1].Downloaded? {
        assert ds[|ds| - 1].filename in Names(ds);
      }
    }
  }

  /** A download started by a plain button click reaches the bills through
      the listener alone: a new file name with a readable PDF adds one
      content bill. */
  lemma ClickDownloadBecomesBill(s: ServiceState, a: Action, step: PageStep, customer: string, re: Engine,
                                 name: string, text: string)
    requires a.elementType == "button" && !ActionFails(a, step)
    requires step.listened == [Downloaded(name, Some(text))] && name !in s.downloadedFiles
    ensures ExecuteSpec(s, a, step, customer, re)
         == (s.(downloadedFiles := s.downloadedFiles + {name}, bills := s.bills + [ContentBill(text)]), Done([]))
  {
    assert ActionSpec(s, a, step, customer, re) == (s, Done([]));
    assert step.listened[..0] == [];
    assert AfterDownloads(s, step.listened) == AfterDownload(s, Downloaded(name, Some(text)));
  }

  /** A `buttons` download is handled twice, by `_handle_buttons` and by
      the listener; the second time finds the name already recorded and
      adds nothing. */
  lemma ButtonDownloadsHandledOnce(s: ServiceState, a: Action, step: PageStep, customer: string, re: Engine)
    requires a.elementType == "buttons" && !ActionFails(a, step)
    requires step.listened == step.buttons.value
    ensures ExecuteSpec(s, a, step, customer, re).0 == AfterDownloads(s, step.buttons.value)
  {
    var once := AfterDownloads(s, step.buttons.value);
    DownloadsRecordNames(s, step.buttons.value);
    SeenDownloadsSkipped(once, step.listened);
  }

  // ---------------------------------------------------------------------
  // Invariant: the bill service is called at most once
  // ---------------------------------------------------------------------

  lemma ExecuteKeepsSaveGuard(s: ServiceState, a: Action, step: PageStep, customer: string, re: Engine)
    requires SavedAtMostOnce(s)
    ensures SavedAtMostOnce(ExecuteSpec(s, a, step, customer, re).0)
    ensures s.saveBillsCalled ==> ExecuteSpec(s, a, step, customer, re).0.saveCalls == s.saveCalls
  {
    if a.elementType == "buttons" && step.buttons.Some? {
      DownloadsFrame(s, step.buttons.value);
    }
    DownloadsFrame(ActionSpec(s, a, step, customer, re).0, step.listened);
  }

  /** However many link queries run, the bill service is called at most
      once, and never again once the flag is set. */
  lemma {:induction false} RunKeepsSaveGuard(s: ServiceState, recipe: seq<Action>, page: nat -> PageStep,
                                             customer: string, re: Engine, i: nat, errors: nat)
    requires i <= |recipe| && SavedAtMostOnce(s)
    ensures SavedAtMostOnce(RunFrom(s, recipe, page, customer, re, i, errors).0)
    ensures s.saveBillsCalled ==> RunFrom(s, recipe, page, customer, re, i, errors).0.saveCalls == s.saveCalls
    decreases |recipe| - i
  {
    if i < |recipe| {
      var (s1, res) := ExecuteSpec(s, recipe[i], page(i), customer, re);
      ExecuteKeepsSaveGuard(s, recipe[i], page(i), customer, re);
      if res.Done? {
        RunKeepsSaveGuard(Collect(s1, res), recipe, page, customer, re, i + 1, 0);
      } else if errors + 1 < 4 {
        RunKeepsSaveGuard(s1, recipe, page, customer, re, i + 1, errors + 1);
      }
    }
  }

  // ---------------------------------------------------------------------
  // Saving and the response
  // ---------------------------------------------------------------------

  /** The dict `search` returns. */
  datatype SearchResponse = SearchResponse(debt: bool, saveResult: BillService.SaveReport, shouldExtract: bool)

  /** `_prepare_response`: extraction is needed when new bills were saved,
      when saving failed, or when some bill is a URL bill. */
  function PrepareResponse(debt: bool, bills: seq<Json>, saveResult: BillService.SaveReport): (r: SearchResponse)
    ensures r.debt == debt && r.saveResult == saveResult
    ensures !saveResult.success ==> r.shouldExtract
    ensures saveResult.newBillsSaved ==> r.shouldExtract
    ensures (exists k :: 0 <= k < |bills| && HasKey(bills[k], "url")) ==> r.shouldExtract
    ensures r.shouldExtract && saveResult.success && !saveResult.newBillsSaved ==>
              exists k :: 0 <= k < |bills| && HasKey(bills[k], "url")
  {
    SearchResponse(debt, saveResult,
      saveResult.newBillsSaved || !saveResult.success || exists k :: 0 <= k < |bills| && HasKey(bills[k], "url"))
  }

  /** With only content bills and a save that added nothing, there is
      nothing to extract. */
  lemma ContentOnlyNeedsNoExtraction(debt: bool, texts: seq<string>, saveResult: BillService.SaveReport)
    requires saveResult.success && !saveResult.newBillsSaved
    ensures var bills := seq(|texts|, k requires 0 <= k < |texts| => ContentBill(texts[k]));
      !PrepareResponse(debt, bills, saveResult).shouldExtract
  {
    var bills := seq(|texts|, k requires 0 <= k < |texts| => ContentBill(texts[k]));
    forall k | 0 <= k < |bills|
      ensures !HasKey(bills[k], "url")
    {
      assert bills[k] == ContentBill(texts[k]);
    }
  }

  /** How `search` ends: the response, or the `ScrapingError` it raises. */
  datatype SearchOutcome = Responded(response: SearchResponse) | SearchFailed

  // ---------------------------------------------------------------------
  // The service object
  // ---------------------------------------------------------------------

  class WebScrapService {
    var debt: bool
    var bills: seq<Json>
    var saveBillsCalled: bool
    var downloadedFiles: set<string>
    /** The calls made to the bill service by `_handle_urls`. */
    var saveCalls: seq<SaveCall>
    /** The values typed into input fields, in order. */
    var filled: seq<string>

    function Snapshot(): ServiceState
      reads this
    {
      ServiceState(debt, bills, saveBillsCalled, downloadedFiles, saveCalls, filled)
    }

    predicate Valid()
      reads this
    {
      SavedAtMostOnce(Snapshot())
    }

    constructor()
      ensures Snapshot() == Initial && Valid()
    {
      debt := false;
      bills := [];
      saveBillsCalled := false;
      downloadedFiles := {};
      saveCalls := [];
      filled := [];
    }

    method HandleDownload(d: Download)
      modifies this
      ensures Snapshot() == AfterDownload(old(Snapshot()), d)
    {
      if d.NotDownloaded? {
        return;
      }
      if d.filename in downloadedFiles {
        return;
      }
      downloadedFiles := downloadedFiles + {d.filename};
      if d.text.Some? {
        bills := bills + [ContentBill(d.text.value)];
      }
    }

    /** Downloads handled one by one: the clicks of `_handle_buttons` once
        the buttons are found, where a failing button is skipped, and the
        events the `download` listener handles. */
    method HandleDownloads(ds: seq<Download>)
      modifies this
      ensures Snapshot() == AfterDownloads(old(Snapshot()), ds)
    {
      for k := 0 to |ds|
        invariant Snapshot() == AfterDownloads(old(Snapshot()), ds[..k])
      {
        assert ds[..k + 1][..k] == ds[..k];
        HandleDownload(ds[k]);
      }
      assert ds[..|ds|] == ds;
    }

    method CheckDebtStatus(elements: seq<Element>, noDebtText: Option<string>, re: Engine)
      modifies this
      ensures Snapshot() == old(Snapshot()).(debt := DebtAfterCheck(elements, noDebtText, re))
    {
      if elements != [] {
        var message := elements[0].text;
        if message.None? {
          debt := true;
        } else if noDebtText.Some? && noDebtText.value != "" && Regex.Search(re, noDebtText.value, NoFlags, message.value).Some? {
          debt := false;
        } else {
          debt := true;
        }
      } else {
        debt := true;
      }
    }

    /** `_handle_input_or_button`: the index it returns is discarded by its
        caller. */
    method HandleInputOrButton(a: Action, step: PageStep, customer: string) returns (ok: bool, index: int)
      requires a.elementType == "input" || a.elementType == "button"
      modifies this
      ensures ok == step.interacts
      ensures a.elementType == "input" && ok ==>
                var size := if a.size.Some? then a.size.value else |customer|;
                Snapshot() == old(Snapshot()).(filled := old(filled) + [Slice(customer, 0, size)]) && index == size
      ensures a.elementType == "button" || !ok ==> Snapshot() == old(Snapshot())
      ensures a.elementType == "button" && ok ==> index == 0
    {
      var cursor := 0;
      index := 0;
      if !step.interacts {
        return false, index;
      }
      if a.elementType == "input" {
        var size := if a.size.Some? then a.size.value else |customer|;
        filled := filled + [Slice(customer, cursor, cursor + size)];
        return true, cursor + size;
      }
      return true, cursor;
    }

    /** `_handle_form_submission`: elements 0, 2 and 4 are tried, failures
        are swallowed, and nothing is returned. */
    method HandleFormSubmission(elements: seq<Element>) returns (results: seq<Json>, submitted: seq<nat>)
      ensures results == []
      ensures forall j :: j in submitted <==> 0 <= j && (j == 0 || j == 2 || j == 4) && j < |elements| && elements[j].hasForm
    {
      submitted := [];
      var i := 0;
      while i < 6
        invariant 0 <= i <= 6 && i % 2 == 0
        invariant forall j :: j in submitted <==> 0 <= j < i && j % 2 == 0 && j < |elements| && elements[j].hasForm
      {
        if i < |elements| && elements[i].hasForm {
          submitted := submitted + [i];
        }
        i := i + 2;
      }
      results := [];
    }

    method HandleUrls(elements: seq<Element>, urlOf: string -> string) returns (formatted: seq<Json>)
      modifies this
      ensures formatted == UrlsFrom(elements, urlOf).GetOr([])
      ensures Snapshot() == AfterUrls(old(Snapshot()), formatted)
    {
      var urls := UrlsFrom(elements, urlOf);
      if urls.None? {
        return [];
      }
      formatted := urls.value;
      if formatted != [] {
        bills := bills + formatted;
        if !saveBillsCalled {
          saveCalls := saveCalls + [SaveCall(formatted, debt)];
          saveBillsCalled := true;
        }
      }
    }

    /** One action of `_handle_scraping`'s loop: `_execute_action`, then
        the listener's downloads. */
    method ExecuteAction(a: Action, step: PageStep, customer: string, re: Engine) returns (res: ActionResult)
      modifies this
      ensures (Snapshot(), res) == ExecuteSpec(old(Snapshot()), a, step, customer, re)
    {
      res := PerformAction(a, step, customer, re);
      HandleDownloads(step.listened);
      if res.Done? && a.elementType == "buttons" {
        res := Done(bills);
      }
    }

    /** `_execute_action`. */
    method PerformAction(a: Action, step: PageStep, customer: string, re: Engine) returns (res: ActionResult)
      modifies this
      ensures (Snapshot(), res) == ActionSpec(old(Snapshot()), a, step, customer, re)
    {
      if !HasLocator(a.locator) || !step.found {
        return ActionFailed;
      }
      if a.elementType == "input" || a.elementType == "button" {
        var ok, _ := HandleInputOrButton(a, step, customer);
        return if ok then Done([]) else ActionFailed;
      }
      if a.elementType == "buttons" {
        if step.buttons.None? {
          return ActionFailed;
        }
        HandleDownloads(step.buttons.value);
        return Done(bills);
      }
      if IsElementType(a.elementType) {
        if step.elements.None? {
          return ActionFailed;
        }
        var elements := step.elements.value;
        if a.debt {
          CheckDebtStatus(elements, a.noDebtText, re);
        }
        if !a.query {
          return Done([]);
        }
        if a.redirect {
          return if elements == [] || !step.interacts then ActionFailed else Done([]);
        }
        if a.form {
          var results, _ := HandleFormSubmission(elements);
          return Done(results);
        }
        var formatted := HandleUrls(elements, step.urlOf);
        return Done(formatted);
      }
      return Done([]);
    }

    /** One pass of `_handle_scraping`'s loop: the action, the bills it
        returns added to the instance's, and the new count of failures in
        a row. */
    method Advance(recipe: seq<Action>, page: nat -> PageStep, customer: string, re: Engine, i: nat, errors: nat)
      returns (streak: nat)
      requires i < |recipe|
      modifies this
      ensures streak == 0 || streak == errors + 1
      ensures RunFrom(old(Snapshot()), recipe, page, customer, re, i, errors)
           == if streak >= 4 then (Snapshot(), TooManyErrors(i))
              else RunFrom(Snapshot(), recipe, page, customer, re, i + 1, streak)
    {
      ghost var before := Snapshot();
      var res := ExecuteAction(recipe[i], page(i), customer, re);
      ghost var after := Snapshot();
      RunFromStep(before, recipe, page, customer, re, i, errors, after, res);
      if res.ActionFailed? {
        streak := errors + 1;
      } else {
        streak := 0;
        if res.results != [] {
          bills := bills + res.results;
        }
        assert Snapshot() == Collect(after, res);
      }
    }

    /** `_handle_scraping`. */
    method HandleScraping(config: ScrapingConfig, cp: CaptchaPage, page: nat -> PageStep, customer: string, re: Engine)
      returns (outcome: ScrapeOutcome)
      modifies this
      ensures (Snapshot(), outcome) == ScrapeSpec(old(Snapshot()), config, cp, page, customer, re)
    {
      if config.captcha && HandleCaptcha(config, cp) == CaptchaError {
        return CaptchaFailed;
      }
      var errors := 0;
      for i := 0 to |config.sequence|
        invariant errors < 4
        invariant RunFrom(Snapshot(), config.sequence, page, customer, re, i, errors)
               == RunFrom(old(Snapshot()), config.sequence, page, customer, re, 0, 0)
      {
        errors := Advance(config.sequence, page, customer, re, i, errors);
        if errors >= 4 {
          return TooManyErrors(i);
        }
      }
      return Scraped(bills);
    }

    /** `_process_and_save_results`: the bills go to the bill service with
        the current debt flag. That service turns its own errors into a
        failure report, so nothing escapes. */
    method ProcessAndSaveResults(server: Server, userServiceId: int, result: seq<Json>)
      returns (report: BillService.SaveReport)
      ensures report == BillService.SaveBillsSpec(server, userServiceId, result, debt).0
      ensures !report.success ==> !report.newBillsSaved
    {
      var calls;
      report, calls := BillService.SaveBills(server, userServiceId, result, debt);
    }

    /** `search` after the browser is up: scrape, save, respond. */
    method Search(config: ScrapingConfig, cp: CaptchaPage, page: nat -> PageStep, customer: string, re: Engine,
                  server: Server, userServiceId: int)
      returns (outcome: SearchOutcome)
      requires Valid()
      modifies this
      ensures Valid()
      ensures var (s, scraped) := ScrapeSpec(old(Snapshot()), config, cp, page, customer, re);
        && Snapshot() == s
        && (outcome.SearchFailed? <==> !scraped.Scraped?)
        && (outcome.Responded? ==>
              outcome.response == PrepareResponse(s.debt, s.bills,
                BillService.SaveBillsSpec(server, userServiceId, s.bills, s.debt).0))
    {
      var scraped := HandleScraping(config, cp, page, customer, re);
      if config.captcha && HandleCaptcha(config, cp) == CaptchaError {
        return SearchFailed;
      }
      RunKeepsSaveGuard(old(Snapshot()), config.sequence, page, customer, re, 0, 0);
      if !scraped.Scraped? {
        return SearchFailed;
      }
      RunFromEnds(old(Snapshot()), config.sequence, page, customer, re, 0, 0);
      var report := ProcessAndSaveResults(server, userServiceId, scraped.bills);
      return Responded(PrepareResponse(debt, bills, report));
    }
  }
}
