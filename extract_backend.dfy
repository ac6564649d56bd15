/**
 * The extractor's backend helpers: `make_request`, which turns any HTTP
 * error status or exception into `None`, the lookup of the scrapped-data
 * record of a user service, and `save_consumed_data`, which sends the
 * consumption data only when some entry is not stored yet.
 *
 * The network is the same oracle as the scraper's; URLs are kept as the
 * endpoint they name.
 */
module ExtractBackend {
  import opened Wrappers
  import opened Dicts
  import opened JsonValues
  import opened ScrapBackend

  /** `make_request(method, url, data)`: `raise_for_status` rejects every
      status outside 200..299, and a body that is not JSON raises too; both
      become `None`. The body is sent only with POST and PATCH. */
  function Request(web: Web, m: Method, target: Endpoint, data: Option<Json>): (r: Option<Json>)
    ensures var resp := web(HttpRequest(m, target, if m == GET then None else data));
      r.Some? <==> resp.Response? && 200 <= resp.status < 300 && resp.json.Some?
    ensures r.Some? ==> r == web(HttpRequest(m, target, if m == GET then None else data)).json
  {
    match web(HttpRequest(m, target, if m == GET then None else data))
    case Failed => None
    case Response(status, _, json) =>
      if status < 200 || 300 <= status then None else json
  }

  /** `get_user_service`: the user service, or `None` when the answer is
      missing or falsy. */
  function GetUserService(web: Web, userServiceId: int): (r: Option<Json>)
    ensures r.Some? ==> Truthy(r.value) && Request(web, GET, UserService(userServiceId), None) == r
    ensures r.None? ==> var u := Request(web, GET, UserService(userServiceId), None); u.None? || !Truthy(u.value)
  {
    var u := Request(web, GET, UserService(userServiceId), None);
    if u.None? || !Truthy(u.value) then None else u
  }

  /** `get_data_by_user_service_id`: `None` for a missing or falsy answer,
      the first element of a list, any other answer as it is. */
  function GetDataByUserServiceId(web: Web, userServiceId: int): (r: Option<Json>)
    ensures var d := Request(web, GET, ScrappedDataOfUser(userServiceId), None);
      r.None? <==> d.None? || !Truthy(d.value)
    ensures var d := Request(web, GET, ScrappedDataOfUser(userServiceId), None);
      r.Some? ==> d.value.JArr? || r == d
  {
    var d := Request(web, GET, ScrappedDataOfUser(userServiceId), None);
    if d.None? || !Truthy(d.value) then None
    else if d.value.JArr? then Some(d.value.items[0])
    else d
  }

  /** The normalisation of the scrapped-data answer. */
  lemma GetDataNormalises(web: Web, userServiceId: int)
    ensures var d := Request(web, GET, ScrappedDataOfUser(userServiceId), None);
      var r := GetDataByUserServiceId(web, userServiceId);
      && (d.None? || d == Some(JNull) || d == Some(JArr([])) || d == Some(JObj([])) ==> r.None?)
      && (d.Some? && d.value.JArr? && d.value.items != [] ==> r == Some(d.value.items[0]))
      && (d.Some? && d.value.JObj? && d.value.fields != [] ==> r == d)
      && (r.Some? ==> d.Some? && Truthy(d.value))
  {
  }

  /** What `for x in value` visits: the items of a list, the characters of
      a string and the keys of a dict; any other value raises `TypeError`. */
  function Elements(j: Json): (r: Option<seq<Json>>)
    ensures j.JArr? ==> r == Some(j.items)
    ensures r.None? <==> !(j.JArr? || j.JStr? || j.JObj?)
  {
    match j
    case JArr(items) => Some(items)
    case JStr(s) => Some(seq(|s|, i requires 0 <= i < |s| => JStr([s[i]])))
    case JObj(fields) => Some(seq(|fields|, i requires 0 <= i < |fields| => JStr(fields[i].0)))
    case _ => None
  }

  /** The strings `save_consumed_data` returns, and the `TypeError` it lets
      escape when the stored bills cannot be iterated. */
  datatype Outcome = DataSaved | NoNewDataToSave | FailedToSaveData | NotIterable

  /** The stored bills a record offers for comparison: its `bills_url`
      (`[]` when absent) when that is a list, the `bills` entry of it (`[]`
      when absent) when it is a dict, and `None` for any other value. */
  function StoredEntries(record: Json): (r: Option<Json>)
    requires record.JObj?
    ensures !HasKey(record, "bills_url") ==> r == Some(JArr([]))
    ensures Get(record, "bills_url").JArr? ==> r == Some(Get(record, "bills_url"))
    ensures r.None? <==> HasKey(record, "bills_url") && !Get(record, "bills_url").JArr? && !Get(record, "bills_url").JObj?
  {
    if !HasKey(record, "bills_url") then Some(JArr([]))
    else
      var billsUrl := Get(record, "bills_url");
      if billsUrl.JArr? then Some(billsUrl)
      else if billsUrl.JObj? then
        Some(if HasKey(billsUrl, "bills") then Get(billsUrl, "bills") else JArr([]))
      else None
  }

  /** The PATCH body: all of the consumption data, not only the new part. */
  function ConsumptionBody(consumed: seq<Json>): (r: Json)
    ensures Get(r, "consumption_data") == JArr(consumed)
  {
    var d := [("consumption_data", JArr(consumed))];
    LookupAt(d, 0);
    JObj(d)
  }

  /** `save_consumed_data(user_service_id, consumed_data)`: the result and
      the requests made, in order. */
  function SaveConsumedData(web: Web, userServiceId: int, consumed: seq<Json>): (r: (Outcome, seq<HttpRequest>))
    ensures 1 <= |r.1| <= 2 && r.1[0] == HttpRequest(GET, ScrappedDataOfUser(userServiceId), None)
    ensures r.0 == DataSaved ==> |r.1| == 2 && r.1[1].verb == PATCH && r.1[1].body == Some(ConsumptionBody(consumed))
    ensures r.0 == NoNewDataToSave || r.0 == NotIterable ==> |r.1| == 1
    ensures GetDataByUserServiceId(web, userServiceId).None? ==> r.0 == FailedToSaveData && |r.1| == 1
  {
    var read := HttpRequest(GET, ScrappedDataOfUser(userServiceId), None);
    var scrapped := GetDataByUserServiceId(web, userServiceId);
    if scrapped.None? || !scrapped.value.JObj? then (FailedToSaveData, [read])
    else
      var record := scrapped.value;
      var recordId := Get(record, "id");
      if !Truthy(recordId) then (FailedToSaveData, [read])
      else
        match StoredEntries(record)
        case None => (FailedToSaveData, [read])
        case Some(bills) =>
          match Elements(bills)
          case None => (NotIterable, [read])
          case Some(existing) =>
            if ToSave(consumed, existing) == [] then (NoNewDataToSave, [read])
            else
              var patch := HttpRequest(PATCH, ScrappedDataRecord(recordId), Some(ConsumptionBody(consumed)));
              var response := Request(web, PATCH, patch.target, patch.body);
              if response.None? || !Truthy(response.value) then (FailedToSaveData, [read, patch])
              else (DataSaved, [read, patch])
  }

  /** The stored bills `save_consumed_data` compares against, when the
      record is a dict with a truthy `id` and they can be iterated. */
  function ComparedBills(web: Web, userServiceId: int): (r: Option<seq<Json>>)
  {
    var scrapped := GetDataByUserServiceId(web, userServiceId);
    if scrapped.None? || !scrapped.value.JObj? || !Truthy(Get(scrapped.value, "id")) then None
    else if StoredEntries(scrapped.value).None? then None
    else Elements(StoredEntries(scrapped.value).value)
  }

  /** Without a dict record holding a truthy `id`, nothing is patched and
      the result is the failure message. */
  lemma SaveFailsWithoutRecord(web: Web, userServiceId: int, consumed: seq<Json>)
    requires var s := GetDataByUserServiceId(web, userServiceId);
      s.None? || !s.value.JObj? || !Truthy(Get(s.value, "id"))
    ensures SaveConsumedData(web, userServiceId, consumed)
         == (FailedToSaveData, [HttpRequest(GET, ScrappedDataOfUser(userServiceId), None)])
  {
  }

  /** A PATCH is sent exactly when the record is comparable and some
      consumed entry is not among the stored bills; it carries all of the
      consumption data, and the data is reported saved exactly when its
      answer is truthy. With nothing new, nothing is sent. */
  lemma SaveConsumedPatchesOnlyNew(web: Web, userServiceId: int, consumed: seq<Json>)
    ensures var (outcome, reqs) := SaveConsumedData(web, userServiceId, consumed);
      var stored := ComparedBills(web, userServiceId);
      && 1 <= |reqs| <= 2
      && reqs[0] == HttpRequest(GET, ScrappedDataOfUser(userServiceId), None)
      && (|reqs| == 2 <==> stored.Some? && exists c :: c in consumed && c !in stored.value)
      && (|reqs| == 2 ==>
            && reqs[1].verb == PATCH && reqs[1].body == Some(ConsumptionBody(consumed))
            && Get(reqs[1].body.value, "consumption_data") == JArr(consumed)
            && var answer := Request(web, PATCH, reqs[1].target, reqs[1].body);
               (outcome == DataSaved <==> answer.Some? && Truthy(answer.value)))
      && (outcome == NoNewDataToSave <==> stored.Some? && forall c :: c in consumed ==> c in stored.value)
  {
    var stored := ComparedBills(web, userServiceId);
    if stored.Some? {
      forall c
        ensures c in ToSave(consumed, stored.value) <==> c in consumed && c !in stored.value
      {
        ToSaveMembers(consumed, stored.value, c);
      }
      if ToSave(consumed, stored.value) != [] {
        var c := ToSave(consumed, stored.value)[0];
        assert c in consumed && c !in stored.value;
      }
    }
  }
}
