/**
 * The scraper's older backend helpers: `make_request`, which turns every
 * failure into `None` and re-issues a request on a 307 redirect, and
 * `save_bills`, which creates the scrapped-data record or appends the bills
 * it does not hold yet, comparing bills by their JSON serialisation.
 *
 * The network is an oracle from request to response. URLs are kept as the
 * endpoint they name.
 */
module ScrapBackend {
  import opened Wrappers
  import opened Dicts
  import opened JsonValues

  datatype Method = GET | POST | PATCH

  /** The backend resources the helpers address, and a redirect target. */
  datatype Endpoint =
    | UserService(userServiceId: int)
    | ScrappedDataOfUser(userServiceId: int)
    | ScrappedDataCollection
    | ScrappedDataRecord(recordId: Json)
    | Location(url: string)

  /** One HTTP exchange as the client library sees it. */
  datatype HttpRequest = HttpRequest(verb: Method, target: Endpoint, body: Option<Json>)

  /** A response: its status, its `location` header and its body decoded as
      JSON (`None` when `response.json()` raises); or an exception from the
      client (timeout, connection error, a missing URL). */
  datatype HttpResponse = Response(status: int, location: Option<string>, json: Option<Json>) | Failed

  type Web = HttpRequest -> HttpResponse

  /** `make_request(method, url, data)`. The body is sent only with POST and
      PATCH. `fuel` bounds the redirect recursion, as Python's recursion
      limit does; the `RecursionError` it raises is caught like any other
      exception. A 307 without a `location` header recurses on the URL
      `None`, which the client rejects and the inner call turns into `None`. */
  function MakeRequest(web: Web, m: Method, target: Endpoint, data: Option<Json>, fuel: nat): (r: Option<Json>)
    ensures fuel == 0 ==> r.None?
    ensures var resp := web(HttpRequest(m, target, if m == GET then None else data));
      resp.Failed? || (resp.status != 200 && resp.status != 201 && resp.status != 307) ==> r.None?
    ensures var resp := web(HttpRequest(m, target, if m == GET then None else data));
      r.Some? && resp.Response? && resp.status != 307 ==> r == resp.json
    ensures var resp := web(HttpRequest(m, target, if m == GET then None else data));
      resp.Response? && resp.status == 307 && resp.location.None? ==> r.None?
    decreases fuel
  {
    if fuel == 0 then None
    else
      match web(HttpRequest(m, target, if m == GET then None else data))
      case Failed => None
      case Response(status, location, json) =>
        if status == 404 then None
        else if status != 200 && status != 201 && status != 307 then None
        else if status == 307 then
          if location.None? then None else MakeRequest(web, m, Location(location.value), data, fuel - 1)
        else json
  }

  /** The status handling of `make_request`: 404 and any status outside
      200, 201 and 307 give `None`, as does a client exception; 307 repeats
      the same method and body at the `location`; 200 and 201 give the
      decoded body. */
  lemma MakeRequestStatus(web: Web, m: Method, target: Endpoint, data: Option<Json>, fuel: nat)
    requires fuel > 0
    ensures var resp := web(HttpRequest(m, target, if m == GET then None else data));
      && (resp.Failed? ==> MakeRequest(web, m, target, data, fuel) == None)
      && (resp.Response? && resp.status !in {200, 201, 307} ==> MakeRequest(web, m, target, data, fuel) == None)
      && (resp.Response? && resp.status in {200, 201} ==> MakeRequest(web, m, target, data, fuel) == resp.json)
      && (resp.Response? && resp.status == 307 && resp.location.None? ==> MakeRequest(web, m, target, data, fuel) == None)
      && (resp.Response? && resp.status == 307 && resp.location.Some? ==>
            MakeRequest(web, m, target, data, fuel) == MakeRequest(web, m, Location(resp.location.value), data, fuel - 1))
  {
  }

  /** The request to `t` is answered with a 307 redirect. */
  predicate RedirectsAt(web: Web, m: Method, t: Endpoint, data: Option<Json>) {
    var resp := web(HttpRequest(m, t, if m == GET then None else data));
    resp.Response? && resp.status == 307
  }

  /** A chain of redirects longer than the recursion limit gives `None`. */
  lemma {:induction false} EndlessRedirectGivesNone(web: Web, m: Method, target: Endpoint, data: Option<Json>, fuel: nat)
    requires forall t :: RedirectsAt(web, m, t, data)
    ensures MakeRequest(web, m, target, data, fuel) == None
    decreases fuel
  {
    if fuel > 0 {
      assert RedirectsAt(web, m, target, data);
      var resp := web(HttpRequest(m, target, if m == GET then None else data));
      if resp.location.Some? {
        EndlessRedirectGivesNone(web, m, Location(resp.location.value), data, fuel - 1);
      }
    }
  }

  // ---------------------------------------------------------------------
  // save_bills
  // ---------------------------------------------------------------------

  /** A call of `make_request` made by `save_bills`. */
  datatype Req = Req(verb: Method, target: Endpoint, data: Option<Json>)

  datatype Message =
    | UserServiceNotFound
    | FailedToCreate
    | CreatedWithBills
    | InvalidFormat
    | FailedToUpdate
    | NewBillsSaved
    | NoNewBills

  /** The dict `save_bills` returns, or the `KeyError` it lets escape when
      a record to update has no `id`. */
  datatype Outcome = Report(success: bool, message: Message, newBillsSaved: bool) | MissingId

  /** `bills_to_save`: the incoming bills, in order, whose serialisation is
      not among the stored ones. Serialisations are equal exactly when the
      values are, so the test is membership. */
  function ToSave(bills: seq<Json>, existing: seq<Json>): (r: seq<Json>)
    ensures |r| <= |bills|
  {
    if bills == [] then []
    else
      var rest := ToSave(bills[..|bills| - 1], existing);
      var b := bills[|bills| - 1];
      if b in existing then rest else rest + [b]
  }

  /** The loop that fills `bills_to_save`. */
  method CollectBillsToSave(bills: seq<Json>, existing: seq<Json>) returns (toSave: seq<Json>)
    ensures toSave == ToSave(bills, existing)
  {
    toSave := [];
    for i := 0 to |bills|
      invariant toSave == ToSave(bills[..i], existing)
    {
      assert bills[..i + 1][..i] == bills[..i];
      if bills[i] !in existing {
        toSave := toSave + [bills[i]];
      }
    }
    assert bills[..|bills|] == bills;
  }

  /** The stored list, with anything but a list reset to `[]`. */
  function StoredBills(record: Json): (r: seq<Json>)
    ensures Get(record, "bills_url").JArr? ==> r == Get(record, "bills_url").items
  {
    if Get(record, "bills_url").JArr? then Get(record, "bills_url").items else []
  }

  /** The record with its `bills_url` set, in place when the key exists. */
  function WithBills(record: Json, bills: seq<Json>): (r: Json)
    requires record.JObj?
    ensures r.JObj? && Get(r, "bills_url") == JArr(bills)
  {
    JObj(Put(record.fields, "bills_url", JArr(bills)))
  }

  /** The body that creates a record holding all the bills. */
  function NewRecord(userServiceId: int, bills: seq<Json>, debt: bool): (r: Json)
    ensures Get(r, "user_service_id") == JInt(userServiceId)
    ensures Get(r, "bills_url") == JArr(bills)
    ensures Get(r, "consumption_data") == JObj([])
    ensures Get(r, "debt") == JBool(debt)
  {
    var d := [
      ("user_service_id", JInt(userServiceId)),
      ("bills_url", JArr(bills)),
      ("consumption_data", JObj([])),
      ("debt", JBool(debt))];
    assert UniqueKeys(d);
    LookupAt(d, 0); LookupAt(d, 1); LookupAt(d, 2); LookupAt(d, 3);
    JObj(d)
  }

  /** The loop over a list of records, one turn at a time: the calls made
      so far, or how the function ended inside the loop. */
  datatype Progress = Going(reqs: seq<Req>) | Ended(reqs: seq<Req>, outcome: Outcome)

  function AddRecord(web: Web, fuel: nat, bills: seq<Json>, p: Progress, data: Json): (r: Progress)
    ensures p.reqs <= r.reqs && |r.reqs| <= |p.reqs| + 1
    ensures p.Ended? ==> r == p
    ensures p.Going? && r.Ended? ==> r.outcome == MissingId || r.outcome == Report(false, FailedToUpdate, false)
  {
    if p.Ended? || !data.JObj? then p
    else
      var existing := StoredBills(data);
      var toSave := ToSave(bills, existing);
      if toSave == [] then p
      else if !HasKey(data, "id") then Ended(p.reqs, MissingId)
      else
        var req := Req(PATCH, ScrappedDataRecord(Get(data, "id")), Some(JObj([("bills_url", JArr(existing + toSave))])));
        var response := MakeRequest(web, req.verb, req.target, req.data, fuel);
        if response.None? || !Truthy(response.value) then Ended(p.reqs + [req], Report(false, FailedToUpdate, false))
        else Going(p.reqs + [req])
  }

  function UpdateRecords(web: Web, fuel: nat, bills: seq<Json>, records: seq<Json>): (r: Progress)
    ensures |r.reqs| <= |records|
    ensures r.Ended? ==> r.outcome == MissingId || r.outcome == Report(false, FailedToUpdate, false)
  {
    if records == [] then Going([])
    else AddRecord(web, fuel, bills, UpdateRecords(web, fuel, bills, records[..|records| - 1]), records[|records| - 1])
  }

  lemma UpdateRecordsSnoc(web: Web, fuel: nat, bills: seq<Json>, records: seq<Json>, data: Json)
    ensures UpdateRecords(web, fuel, bills, records + [data])
         == AddRecord(web, fuel, bills, UpdateRecords(web, fuel, bills, records), data)
  {
    assert (records + [data])[..|records|] == records;
  }

  lemma {:induction false} EndedStays(web: Web, fuel: nat, bills: seq<Json>, records: seq<Json>, i: nat)
    requires i <= |records| && UpdateRecords(web, fuel, bills, records[..i]).Ended?
    ensures UpdateRecords(web, fuel, bills, records) == UpdateRecords(web, fuel, bills, records[..i])
    decreases |records| - i
  {
    if i < |records| {
      UpdateRecordsSnoc(web, fuel, bills, records[..i], records[i]);
      assert records[..i + 1] == records[..i] + [records[i]];
      EndedStays(web, fuel, bills, records, i + 1);
    } else {
      assert records[..i] == records;
    }
  }

  /** The single-record branch: append what is new and PATCH the whole
      record, or report that nothing is new. */
  function SaveToRecord(web: Web, fuel: nat, bills: seq<Json>, record: Json): (r: (Outcome, seq<Req>))
    requires record.JObj?
    ensures |r.1| <= 1
    ensures r.0 == Report(true, NewBillsSaved, true) ==> |r.1| == 1 && r.1[0].verb == PATCH
  {
    var existing := StoredBills(record);
    var toSave := ToSave(bills, existing);
    if toSave == [] then (Report(true, NoNewBills, false), [])
    else if !HasKey(record, "id") then (MissingId, [])
    else
      var req := Req(PATCH, ScrappedDataRecord(Get(record, "id")), Some(WithBills(record, existing + toSave)));
      var response := MakeRequest(web, req.verb, req.target, req.data, fuel);
      if response.None? || !Truthy(response.value) then (Report(false, FailedToUpdate, false), [req])
      else (Report(true, NewBillsSaved, true), [req])
  }

  /** `save_bills(user_service_id, bills, debt)`: the outcome and the calls
      of `make_request`, in order. */
  function SaveBillsSpec(web: Web, fuel: nat, userServiceId: int, bills: seq<Json>, debt: bool): (r: (Outcome, seq<Req>))
    ensures |r.1| >= 1 && r.1[0] == Req(GET, UserService(userServiceId), None)
  {
    var lookup := Req(GET, UserService(userServiceId), None);
    var userService := MakeRequest(web, GET, lookup.target, None, fuel);
    if userService.None? || !Truthy(userService.value) then (Report(false, UserServiceNotFound, false), [lookup])
    else
      var read := Req(GET, ScrappedDataOfUser(userServiceId), None);
      var scrapped := MakeRequest(web, GET, read.target, None, fuel);
      if scrapped.None? || !Truthy(scrapped.value) then
        var create := Req(POST, ScrappedDataCollection, Some(NewRecord(userServiceId, bills, debt)));
        var response := MakeRequest(web, POST, create.target, create.data, fuel);
        if response.None? || !Truthy(response.value) then (Report(false, FailedToCreate, false), [lookup, read, create])
        else (Report(true, CreatedWithBills, true), [lookup, read, create])
      else if scrapped.value.JArr? then
        match UpdateRecords(web, fuel, bills, scrapped.value.items)
        case Ended(reqs, outcome) => (outcome, [lookup, read] + reqs)
        case Going(reqs) => (Report(true, CreatedWithBills, true), [lookup, read] + reqs)
      else if !scrapped.value.JObj? then (Report(false, InvalidFormat, false), [lookup, read])
      else
        var (outcome, reqs) := SaveToRecord(web, fuel, bills, scrapped.value);
        (outcome, [lookup, read] + reqs)
  }

  /** `save_bills`, with its loops. */
  method SaveBills(web: Web, fuel: nat, userServiceId: int, bills: seq<Json>, debt: bool)
    returns (outcome: Outcome, reqs: seq<Req>)
    ensures (outcome, reqs) == SaveBillsSpec(web, fuel, userServiceId, bills, debt)
  {
    var lookup := Req(GET, UserService(userServiceId), None);
    reqs := [lookup];
    var userService := MakeRequest(web, GET, lookup.target, None, fuel);
    if userService.None? || !Truthy(userService.value) {
      return Report(false, UserServiceNotFound, false), reqs;
    }
    var read := Req(GET, ScrappedDataOfUser(userServiceId), None);
    reqs := reqs + [read];
    var scrapped := MakeRequest(web, GET, read.target, None, fuel);
    assert reqs == [lookup, read];
    if scrapped.None? || !Truthy(scrapped.value) {
      var create := Req(POST, ScrappedDataCollection, Some(NewRecord(userServiceId, bills, debt)));
      reqs := reqs + [create];
      var response := MakeRequest(web, POST, create.target, create.data, fuel);
      assert reqs == [lookup, read, create];
      if response.None? || !Truthy(response.value) {
        return Report(false, FailedToCreate, false), reqs;
      }
      return Report(true, CreatedWithBills, true), reqs;
    }
    if scrapped.value.JArr? {
      var p := UpdateEach(web, fuel, bills, scrapped.value.items);
      if p.Ended? {
        return p.outcome, reqs + p.reqs;
      }
      return Report(true, CreatedWithBills, true), reqs + p.reqs;
    }
    if !scrapped.value.JObj? {
      return Report(false, InvalidFormat, false), reqs;
    }
    var record := scrapped.value;
    var existing := StoredBills(record);
    var toSave := CollectBillsToSave(bills, existing);
    if toSave == [] {
      assert reqs == [lookup, read] + [];
      return Report(true, NoNewBills, false), reqs;
    }
    record := WithBills(record, existing + toSave);
    if !HasKey(scrapped.value, "id") {
      assert reqs == [lookup, read] + [];
      return MissingId, reqs;
    }
    var patch := Req(PATCH, ScrappedDataRecord(Get(scrapped.value, "id")), Some(record));
    reqs := reqs + [patch];
    var response := MakeRequest(web, PATCH, patch.target, patch.data, fuel);
    if response.None? || !Truthy(response.value) {
      return Report(false, FailedToUpdate, false), reqs;
    }
    return Report(true, NewBillsSaved, true), reqs;
  }

  /** The loop over a list of records: each dict record gets its new bills
      appended and only its `bills_url` patched; the first failed update
      ends the function. */
  method UpdateEach(web: Web, fuel: nat, bills: seq<Json>, records: seq<Json>) returns (p: Progress)
    ensures p == UpdateRecords(web, fuel, bills, records)
  {
    var reqs: seq<Req> := [];
    for i := 0 to |records|
      invariant UpdateRecords(web, fuel, bills, records[..i]) == Going(reqs)
    {
      UpdateRecordsSnoc(web, fuel, bills, records[..i], records[i]);
      assert records[..i + 1] == records[..i] + [records[i]];
      var data := records[i];
      if data.JObj? {
        var existing := StoredBills(data);
        var toSave := CollectBillsToSave(bills, existing);
        if toSave != [] {
          if !HasKey(data, "id") {
            EndedStays(web, fuel, bills, records, i + 1);
            return Ended(reqs, MissingId);
          }
          var req := Req(PATCH, ScrappedDataRecord(Get(data, "id")), Some(JObj([("bills_url", JArr(existing + toSave))])));
          reqs := reqs + [req];
          var response := MakeRequest(web, req.verb, req.target, req.data, fuel);
          if response.None? || !Truthy(response.value) {
            EndedStays(web, fuel, bills, records, i + 1);
            return Ended(reqs, Report(false, FailedToUpdate, false));
          }
        }
      }
    }
    assert records[..|records|] == records;
    return Going(reqs);
  }

  // ---------------------------------------------------------------------
  // Properties of the merge
  // ---------------------------------------------------------------------

  /** A bill is saved exactly when it comes in and is not stored. */
  lemma {:induction false} ToSaveMembers(bills: seq<Json>, existing: seq<Json>, b: Json)
    ensures b in ToSave(bills, existing) <==> b in bills && b !in existing
  {
    if bills != [] {
      var init := bills[..|bills| - 1];
      ToSaveMembers(init, existing, b);
      assert bills == init + [bills[|bills| - 1]];
    }
  }

  /** The filter works batch by batch, so the incoming order is kept. */
  lemma {:induction false} ToSaveAppend(a: seq<Json>, b: seq<Json>, existing: seq<Json>)
    ensures ToSave(a + b, existing) == ToSave(a, existing) + ToSave(b, existing)
  {
    if b == [] {
      assert a + b == a;
    } else {
      var init := b[..|b| - 1];
      ToSaveAppend(a, init, existing);
      assert (a + b)[..|a + b| - 1] == a + init;
    }
  }

  /** Against an empty store every incoming bill is saved, duplicates
      included. */
  lemma {:induction false} ToSaveNothingStored(bills: seq<Json>)
    ensures ToSave(bills, []) == bills
  {
    if bills != [] {
      ToSaveNothingStored(bills[..|bills| - 1]);
    }
  }

  /** Saving the same bills again over the merged list adds nothing. */
  lemma ToSaveIdempotent(bills: seq<Json>, existing: seq<Json>)
    ensures ToSave(bills, existing + ToSave(bills, existing)) == []
  {
    var merged := existing + ToSave(bills, existing);
    forall b | b in bills
      ensures b in merged
    {
      ToSaveMembers(bills, existing, b);
    }
    ToSaveAllStored(bills, merged);
  }

  lemma {:induction false} ToSaveAllStored(bills: seq<Json>, existing: seq<Json>)
    requires forall b :: b in bills ==> b in existing
    ensures ToSave(bills, existing) == []
  {
    if bills != [] {
      ToSaveAllStored(bills[..|bills| - 1], existing);
    }
  }

  /** A missing user service ends the call with no further request. */
  lemma SaveBillsUnknownUser(web: Web, fuel: nat, userServiceId: int, bills: seq<Json>, debt: bool)
    requires var u := MakeRequest(web, GET, UserService(userServiceId), None, fuel); u.None? || !Truthy(u.value)
    ensures SaveBillsSpec(web, fuel, userServiceId, bills, debt)
         == (Report(false, UserServiceNotFound, false), [Req(GET, UserService(userServiceId), None)])
  {
  }

  /** Without stored data all bills are POSTed, with empty consumption data
      and the given `debt`; the report follows the POST's answer. */
  lemma SaveBillsCreates(web: Web, fuel: nat, userServiceId: int, bills: seq<Json>, debt: bool)
    requires var u := MakeRequest(web, GET, UserService(userServiceId), None, fuel); u.Some? && Truthy(u.value)
    requires var d := MakeRequest(web, GET, ScrappedDataOfUser(userServiceId), None, fuel); d.None? || !Truthy(d.value)
    ensures var (outcome, reqs) := SaveBillsSpec(web, fuel, userServiceId, bills, debt);
      var created := MakeRequest(web, POST, ScrappedDataCollection, Some(NewRecord(userServiceId, bills, debt)), fuel);
      && |reqs| == 3 && reqs[2] == Req(POST, ScrappedDataCollection, Some(NewRecord(userServiceId, bills, debt)))
      && (created.Some? && Truthy(created.value) ==> outcome == Report(true, CreatedWithBills, true))
      && (created.None? || !Truthy(created.value) ==> outcome == Report(false, FailedToCreate, false))
  {
  }

  /** For a single stored record, the PATCH carries the whole record whose
      `bills_url` is the stored list followed by the new bills; with nothing
      new there is no PATCH and no new bill is reported. */
  lemma SaveToRecordAppends(web: Web, fuel: nat, bills: seq<Json>, record: Json)
    requires record.JObj?
    ensures var (outcome, reqs) := SaveToRecord(web, fuel, bills, record);
      var existing := StoredBills(record);
      && (ToSave(bills, existing) == [] <==> outcome == Report(true, NoNewBills, false))
      && (ToSave(bills, existing) == [] ==> reqs == [])
      && (reqs != [] ==>
            && reqs == [Req(PATCH, ScrappedDataRecord(Get(record, "id")), Some(WithBills(record, existing + ToSave(bills, existing))))]
            && existing <= StoredBills(reqs[0].data.value))
  {
    var existing := StoredBills(record);
    var merged := existing + ToSave(bills, existing);
    assert StoredBills(WithBills(record, merged)) == merged;
  }

  /** Once the merged record is what the backend holds, saving the same
      bills again sends nothing and reports no new bills. */
  lemma SecondSaveReportsNothingNew(web: Web, fuel: nat, bills: seq<Json>, record: Json)
    requires record.JObj?
    ensures var existing := StoredBills(record);
      var patched := WithBills(record, existing + ToSave(bills, existing));
      SaveToRecord(web, fuel, bills, patched) == (Report(true, NoNewBills, false), [])
  {
    var existing := StoredBills(record);
    var merged := existing + ToSave(bills, existing);
    assert StoredBills(WithBills(record, merged)) == merged;
    ToSaveIdempotent(bills, existing);
  }

  /** A list of records always reports new bills when no update failed,
      even when nothing was new and nothing was sent. */
  lemma SaveBillsListReportsNew(web: Web, fuel: nat, userServiceId: int, bills: seq<Json>, debt: bool, records: seq<Json>)
    requires var u := MakeRequest(web, GET, UserService(userServiceId), None, fuel); u.Some? && Truthy(u.value)
    requires MakeRequest(web, GET, ScrappedDataOfUser(userServiceId), None, fuel) == Some(JArr(records))
    requires records != []
    requires UpdateRecords(web, fuel, bills, records).Going?
    ensures SaveBillsSpec(web, fuel, userServiceId, bills, debt).0 == Report(true, CreatedWithBills, true)
  {
  }

  /** One turn of the list branch: a record that is not a dict, or holds
      nothing new, is passed over; without an `id` the loop ends with the
      `KeyError`; otherwise the stored list followed by the new bills is
      PATCHed as `bills_url` alone, and a missing or falsy answer ends the
      loop with the update failure. */
  lemma AddRecordSends(web: Web, fuel: nat, bills: seq<Json>, p: Progress, data: Json)
    requires p.Going?
    ensures var r := AddRecord(web, fuel, bills, p, data);
      && (!data.JObj? || ToSave(bills, StoredBills(data)) == [] ==> r == p)
      && (data.JObj? && ToSave(bills, StoredBills(data)) != [] && !HasKey(data, "id") ==> r == Ended(p.reqs, MissingId))
      && (data.JObj? && ToSave(bills, StoredBills(data)) != [] && HasKey(data, "id") ==>
            var stored := StoredBills(data);
            var req := Req(PATCH, ScrappedDataRecord(Get(data, "id")),
                           Some(JObj([("bills_url", JArr(stored + ToSave(bills, stored)))])));
            var answer := MakeRequest(web, PATCH, req.target, req.data, fuel);
            && r.reqs == p.reqs + [req]
            && (r.Ended? <==> answer.None? || !Truthy(answer.value))
            && (r.Ended? ==> r.outcome == Report(false, FailedToUpdate, false)))
  {
  }

  /** Stored data that is neither a list nor a dict is an invalid format,
      and nothing more is sent. */
  lemma SaveBillsInvalidFormat(web: Web, fuel: nat, userServiceId: int, bills: seq<Json>, debt: bool, stored: Json)
    requires var u := MakeRequest(web, GET, UserService(userServiceId), None, fuel); u.Some? && Truthy(u.value)
    requires MakeRequest(web, GET, ScrappedDataOfUser(userServiceId), None, fuel) == Some(stored)
    requires Truthy(stored) && !stored.JArr? && !stored.JObj?
    ensures SaveBillsSpec(web, fuel, userServiceId, bills, debt)
         == (Report(false, InvalidFormat, false),
             [Req(GET, UserService(userServiceId), None), Req(GET, ScrappedDataOfUser(userServiceId), None)])
  {
  }

  /** With nothing new in any record, the list branch sends no update. */
  lemma {:induction false} NothingNewNoUpdate(web: Web, fuel: nat, bills: seq<Json>, records: seq<Json>)
    requires forall k :: 0 <= k < |records| ==> ToSave(bills, StoredBills(records[k])) == []
    ensures UpdateRecords(web, fuel, bills, records) == Going([])
  {
    if records != [] {
      NothingNewNoUpdate(web, fuel, bills, records[..|records| - 1]);
    }
  }
}
