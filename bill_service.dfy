/**
 * `BillService`: merging scraped bills into the scrapped-data records of a
 * user service, deduplicated by URL, and the URL filter in front of the
 * PDF downloads. Every exception inside `save_bills` becomes a failure
 * report, so the operation always returns.
 */
module BillService {
  import opened Wrappers
  import opened JsonValues
  import opened MainClient

  /** Why `save_bills` failed: a client exception (its text), a missing key
      (`KeyError`), a reply that cannot be iterated, or `.get` on a value
      that is not a dict. */
  datatype Fault = ClientFault(text: string) | MissingKey(key: string) | NotIterable | NotADict

  datatype Message = UserServiceNotFound | CreatedWithBills | BillsProcessed | ErrorSavingBills(fault: Fault)

  /** The dict `save_bills` returns: `success`, `message`, `new_bills_saved`. */
  datatype SaveReport = SaveReport(success: bool, message: Message, newBillsSaved: bool)

  function Failure(f: Fault): (r: SaveReport)
    ensures !r.success && !r.newBillsSaved
  {
    SaveReport(false, ErrorSavingBills(f), false)
  }

  predicate AllDicts(bills: seq<Json>) {
    forall i :: 0 <= i < |bills| ==> bills[i].JObj?
  }

  /** A dict bill whose `url` is truthy. */
  predicate HasUrl(bill: Json) {
    bill.JObj? && Truthy(Get(bill, "url"))
  }

  /** `existing_urls`: the truthy URLs of the stored bills. */
  function Urls(bills: seq<Json>): set<Json> {
    set i | 0 <= i < |bills| && HasUrl(bills[i]) :: Get(bills[i], "url")
  }

  /** `new_bills`: the incoming bills, in order, whose URL is truthy and not
      among `existing`. */
  function NewBills(bills: seq<Json>, existing: set<Json>): (r: seq<Json>)
    ensures |r| <= |bills|
  {
    if bills == [] then []
    else
      var b := bills[0];
      (if HasUrl(b) && Get(b, "url") !in existing then [b] else []) + NewBills(bills[1..], existing)
  }

  /** `data.get("bills_url", [])`, with anything but a list read as `[]`. */
  function CurrentBills(data: Json): (r: seq<Json>)
    ensures Get(data, "bills_url").JArr? ==> r == Get(data, "bills_url").items
  {
    var stored := Get(data, "bills_url");
    if stored.JArr? then stored.items else []
  }

  /** The update sent for a record with new bills: the stored bills with
      the new ones appended, and the `debt` flag. */
  function UpdateFor(data: Json, added: seq<Json>, debt: bool): Call {
    UpdateScrappedData(Get(data, "id"), Some(CurrentBills(data) + added), None, Some(debt))
  }

  /** The loop state over the records: the calls made so far and the flag,
      or the fault that ended the loop. */
  datatype Progress = Going(calls: seq<Call>, saved: bool) | Stopped(calls: seq<Call>, fault: Fault)

  /** One turn of the loop over the records. */
  function AddRecord(server: Server, bills: seq<Json>, debt: bool, p: Progress, data: Json): (r: Progress)
    ensures p.calls <= r.calls
    ensures p.Stopped? ==> r == p
  {
    if p.Stopped? || !data.JObj? then p
    else if !AllDicts(CurrentBills(data)) || !AllDicts(bills) then Stopped(p.calls, NotADict)
    else
      var added := NewBills(bills, Urls(CurrentBills(data)));
      if added == [] then p
      else if !HasKey(data, "id") then Stopped(p.calls, MissingKey("id"))
      else
        var call := UpdateFor(data, added, debt);
        match server(call)
        case Raised(_, text) => Stopped(p.calls + [call], ClientFault(text))
        case Ok(body) => Going(p.calls + [call], p.saved || Truthy(body))
  }

  /** The loop over `records`, from the first to the last. */
  function ProcessRecords(server: Server, bills: seq<Json>, debt: bool, records: seq<Json>): Progress {
    if records == [] then Going([], false)
    else AddRecord(server, bills, debt, ProcessRecords(server, bills, debt, records[..|records| - 1]), records[|records| - 1])
  }

  lemma ProcessRecordsSnoc(server: Server, bills: seq<Json>, debt: bool, records: seq<Json>, data: Json)
    ensures ProcessRecords(server, bills, debt, records + [data])
         == AddRecord(server, bills, debt, ProcessRecords(server, bills, debt, records), data)
  {
    assert (records + [data])[..|records|] == records;
  }

  /** What the loop iterates: a dict reply is one record, a list its
      items, a string its characters; anything else raises `TypeError`. */
  function RecordsOf(reply: Json): (r: Option<seq<Json>>)
    ensures reply.JObj? ==> r == Some([reply])
    ensures reply.JArr? ==> r == Some(reply.items)
  {
    match reply
    case JObj(_) => Some([reply])
    case JArr(items) => Some(items)
    case JStr(s) => Some(seq(|s|, i requires 0 <= i < |s| => JStr([s[i]])))
    case _ => None
  }

  /** `save_bills(user_service_id, bills, debt)`: the report and the calls
      made, in order. */
  function SaveBillsSpec(server: Server, userServiceId: int, bills: seq<Json>, debt: bool): (r: (SaveReport, seq<Call>))
    ensures !r.0.success ==> !r.0.newBillsSaved
    ensures |r.1| >= 1 && r.1[0] == GetUserService(userServiceId)
  {
    var lookup := GetUserService(userServiceId);
    match server(lookup)
    case Raised(_, text) => (Failure(ClientFault(text)), [lookup])
    case Ok(userService) =>
      if !Truthy(userService) then (SaveReport(false, UserServiceNotFound, false), [lookup])
      else
        var read := GetScrappedData(userServiceId);
        match server(read)
        case Raised(status, text) =>
          if status == Some(404) then
            var create := CreateScrappedData(userServiceId, bills, JObj([]), debt);
            match server(create)
            case Raised(_, text') => (Failure(ClientFault(text')), [lookup, read, create])
            case Ok(_) => (SaveReport(true, CreatedWithBills, true), [lookup, read, create])
          else (Failure(ClientFault(text)), [lookup, read])
        case Ok(scrapped) =>
          match RecordsOf(scrapped)
          case None => (Failure(NotIterable), [lookup, read])
          case Some(records) =>
            match ProcessRecords(server, bills, debt, records)
            case Stopped(calls, fault) => (Failure(fault), [lookup, read] + calls)
            case Going(calls, saved) => (SaveReport(true, BillsProcessed, saved), [lookup, read] + calls)
  }

  /** `BillService.save_bills`, with the loop over the records. */
  method SaveBills(server: Server, userServiceId: int, bills: seq<Json>, debt: bool)
    returns (report: SaveReport, calls: seq<Call>)
    ensures (report, calls) == SaveBillsSpec(server, userServiceId, bills, debt)
  {
    var lookup := GetUserService(userServiceId);
    calls := [lookup];
    var reply := server(lookup);
    if reply.Raised? {
      return Failure(ClientFault(reply.text)), calls;
    }
    if !Truthy(reply.body) {
      return SaveReport(false, UserServiceNotFound, false), calls;
    }
    var read := GetScrappedData(userServiceId);
    calls := calls + [read];
    reply := server(read);
    if reply.Raised? {
      if reply.status == Some(404) {
        var create := CreateScrappedData(userServiceId, bills, JObj([]), debt);
        calls := calls + [create];
        var created := server(create);
        assert calls == [lookup, read, create];
        if created.Raised? {
          return Failure(ClientFault(created.text)), calls;
        }
        return SaveReport(true, CreatedWithBills, true), calls;
      }
      assert calls == [lookup, read];
      return Failure(ClientFault(reply.text)), calls;
    }
    var records := RecordsOf(reply.body);
    if records.None? {
      return Failure(NotIterable), calls;
    }
    var progress := UpdateRecords(server, bills, debt, records.value);
    if progress.Stopped? {
      return Failure(progress.fault), calls + progress.calls;
    }
    return SaveReport(true, BillsProcessed, progress.saved), calls + progress.calls;
  }

  /** The loop of `save_bills` over the stored records: each dict record
      gets the new bills appended and patched; the loop ends early when an
      exception is raised. */
  method UpdateRecords(server: Server, bills: seq<Json>, debt: bool, records: seq<Json>) returns (p: Progress)
    ensures p == ProcessRecords(server, bills, debt, records)
  {
    p := Going([], false);
    var i := 0;
    while i < |records| && p.Going?
      invariant 0 <= i <= |records|
      invariant ProcessRecords(server, bills, debt, records[..i]) == p
    {
      ProcessRecordsSnoc(server, bills, debt, records[..i], records[i]);
      assert records[..i + 1] == records[..i] + [records[i]];
      var data := records[i];
      i := i + 1;
      if !data.JObj? {
        continue;
      }
      var current := CurrentBills(data);
      if !AllDicts(current) || !AllDicts(bills) {
        p := Stopped(p.calls, NotADict);
        continue;
      }
      var added := NewBills(bills, Urls(current));
      if added == [] {
        continue;
      }
      if !HasKey(data, "id") {
        p := Stopped(p.calls, MissingKey("id"));
        continue;
      }
      var update := UpdateFor(data, added, debt);
      var result := server(update);
      if result.Raised? {
        p := Stopped(p.calls + [update], ClientFault(result.text));
      } else {
        p := Going(p.calls + [update], p.saved || Truthy(result.body));
      }
    }
    if i < |records| {
      StoppedStays(server, bills, debt, records, i);
    } else {
      assert records[..i] == records;
    }
  }

  /** Once the loop has stopped on a fault, later records change nothing. */
  lemma {:induction false} StoppedStays(server: Server, bills: seq<Json>, debt: bool, records: seq<Json>, i: nat)
    requires i <= |records| && ProcessRecords(server, bills, debt, records[..i]).Stopped?
    ensures ProcessRecords(server, bills, debt, records) == ProcessRecords(server, bills, debt, records[..i])
    decreases |records| - i
  {
    if i < |records| {
      ProcessRecordsSnoc(server, bills, debt, records[..i], records[i]);
      assert records[..i + 1] == records[..i] + [records[i]];
      StoppedStays(server, bills, debt, records, i + 1);
    } else {
      assert records[..i] == records;
    }
  }

  // ---------------------------------------------------------------------
  // Properties of the merge
  // ---------------------------------------------------------------------

  /** The new bills are the incoming dict bills with a truthy URL outside
      `existing`: a set difference on URLs. Bills without a URL, such as
      bills holding extracted text, are never added. */
  lemma {:induction false} NewBillsMembers(bills: seq<Json>, existing: set<Json>, b: Json)
    ensures b in NewBills(bills, existing) <==> b in bills && HasUrl(b) && Get(b, "url") !in existing
  {
    if bills != [] {
      NewBillsMembers(bills[1..], existing, b);
      assert b in bills <==> b == bills[0] || b in bills[1..];
    }
  }

  /** When every URL is already stored, nothing is new. */
  lemma {:induction false} NewBillsAllKnown(bills: seq<Json>, existing: set<Json>)
    requires forall i :: 0 <= i < |bills| && HasUrl(bills[i]) ==> Get(bills[i], "url") in existing
    ensures NewBills(bills, existing) == []
  {
    if bills != [] {
      NewBillsAllKnown(bills[1..], existing);
    }
  }

  lemma UrlsAppend(a: seq<Json>, b: seq<Json>)
    ensures Urls(a + b) == Urls(a) + Urls(b)
  {
    var ab := a + b;
    forall u | u in Urls(a + b)
      ensures u in Urls(a) + Urls(b)
    {
      var i :| 0 <= i < |ab| && HasUrl(ab[i]) && Get(ab[i], "url") == u;
      if i >= |a| {
        assert ab[i] == b[i - |a|];
      }
    }
    forall u | u in Urls(a)
      ensures u in Urls(a + b)
    {
      var i :| 0 <= i < |a| && HasUrl(a[i]) && Get(a[i], "url") == u;
      assert ab[i] == a[i];
    }
    forall u | u in Urls(b)
      ensures u in Urls(a + b)
    {
      var i :| 0 <= i < |b| && HasUrl(b[i]) && Get(b[i], "url") == u;
      assert ab[|a| + i] == b[i];
    }
  }

  /** Saving the same bills again over the merged list adds nothing. */
  lemma ResaveAddsNothing(bills: seq<Json>, current: seq<Json>)
    ensures var merged := current + NewBills(bills, Urls(current));
      NewBills(bills, Urls(merged)) == []
  {
    var added := NewBills(bills, Urls(current));
    UrlsAppend(current, added);
    forall i | 0 <= i < |bills| && HasUrl(bills[i])
      ensures Get(bills[i], "url") in Urls(current + added)
    {
      var b := bills[i];
      NewBillsMembers(bills, Urls(current), b);
      if Get(b, "url") !in Urls(current) {
        var k :| 0 <= k < |added| && added[k] == b;
        assert Get(b, "url") in Urls(added);
      }
    }
    NewBillsAllKnown(bills, Urls(current + added));
  }

  /** A record whose update goes out and comes back truthy. */
  predicate RecordSaves(server: Server, bills: seq<Json>, debt: bool, data: Json) {
    && data.JObj? && AllDicts(CurrentBills(data)) && AllDicts(bills)
    && var added := NewBills(bills, Urls(CurrentBills(data)));
    && added != [] && HasKey(data, "id")
    && var reply := server(UpdateFor(data, added, debt));
    && reply.Ok? && Truthy(reply.body)
  }

  /** A record adds at most one call: the update of that record, whose bill
      list is the stored list with the new bills appended, sent only when
      there are new bills. */
  lemma RecordUpdateAppends(server: Server, bills: seq<Json>, debt: bool, p: Progress, data: Json)
    requires p.Going?
    ensures var r := AddRecord(server, bills, debt, p, data);
      var added := NewBills(bills, Urls(CurrentBills(data)));
      && (r.calls == p.calls || r.calls == p.calls + [UpdateFor(data, added, debt)])
      && (r.calls != p.calls ==> added != [] && data.JObj? && HasKey(data, "id"))
  {
  }

  /** A turn that keeps the loop going sets `new_bills_saved` when that
      record saves, and otherwise keeps it. */
  lemma SavedStep(server: Server, bills: seq<Json>, debt: bool, p: Progress, data: Json)
    requires p.Going? && AddRecord(server, bills, debt, p, data).Going?
    ensures AddRecord(server, bills, debt, p, data).saved == (p.saved || RecordSaves(server, bills, debt, data))
  {
  }

  /** Over the whole loop, `new_bills_saved` is set exactly when some
      record's update was sent and answered truthily. */
  lemma {:induction false} SavedIffSomeRecordSaves(server: Server, bills: seq<Json>, debt: bool, records: seq<Json>)
    requires ProcessRecords(server, bills, debt, records).Going?
    ensures ProcessRecords(server, bills, debt, records).saved <==>
      exists k :: 0 <= k < |records| && RecordSaves(server, bills, debt, records[k])
  {
    if records != [] {
      var n := |records| - 1;
      var init := records[..n];
      var prev := ProcessRecords(server, bills, debt, init);
      assert ProcessRecords(server, bills, debt, records) == AddRecord(server, bills, debt, prev, records[n]);
      assert prev.Going?;
      SavedStep(server, bills, debt, prev, records[n]);
      SavedIffSomeRecordSaves(server, bills, debt, init);
      assert forall k :: 0 <= k < n ==> records[k] == init[k];
      if prev.saved {
        var k :| 0 <= k < n && RecordSaves(server, bills, debt, init[k]);
        assert RecordSaves(server, bills, debt, records[k]);
      }
    }
  }

  /** The report of `save_bills` when the stored records were read: success,
      and `new_bills_saved` exactly when some record's update was answered
      truthily; the calls after the two reads are that loop's updates. */
  lemma SaveBillsMerges(server: Server, userServiceId: int, bills: seq<Json>, debt: bool, scrapped: Json)
    requires server(GetUserService(userServiceId)).Ok? && Truthy(server(GetUserService(userServiceId)).body)
    requires server(GetScrappedData(userServiceId)) == Ok(scrapped)
    requires RecordsOf(scrapped).Some?
    requires ProcessRecords(server, bills, debt, RecordsOf(scrapped).value).Going?
    ensures var (report, calls) := SaveBillsSpec(server, userServiceId, bills, debt);
      var records := RecordsOf(scrapped).value;
      && report.success && report.message == BillsProcessed
      && (report.newBillsSaved <==> exists k :: 0 <= k < |records| && RecordSaves(server, bills, debt, records[k]))
      && calls == [GetUserService(userServiceId), GetScrappedData(userServiceId)] + ProcessRecords(server, bills, debt, records).calls
  {
    SavedIffSomeRecordSaves(server, bills, debt, RecordsOf(scrapped).value);
  }

  /** A missing record (404 on the read) is created with all the incoming
      bills, and the report claims new bills whatever the create call
      answered, as long as it did not raise. */
  lemma SaveBillsCreatesOn404(server: Server, userServiceId: int, bills: seq<Json>, debt: bool)
    requires server(GetUserService(userServiceId)).Ok? && Truthy(server(GetUserService(userServiceId)).body)
    requires server(GetScrappedData(userServiceId)).Raised? && server(GetScrappedData(userServiceId)).status == Some(404)
    ensures var (report, calls) := SaveBillsSpec(server, userServiceId, bills, debt);
      && |calls| == 3 && calls[2] == CreateScrappedData(userServiceId, bills, JObj([]), debt)
      && (report.success <==> server(calls[2]).Ok?)
      && (report.success ==> report == SaveReport(true, CreatedWithBills, true))
  {
  }

  /** A falsy user-service lookup stops at once. */
  lemma SaveBillsUnknownUserService(server: Server, userServiceId: int, bills: seq<Json>, debt: bool)
    requires server(GetUserService(userServiceId)).Ok? && !Truthy(server(GetUserService(userServiceId)).body)
    ensures SaveBillsSpec(server, userServiceId, bills, debt)
         == (SaveReport(false, UserServiceNotFound, false), [GetUserService(userServiceId)])
  {
  }

  // ---------------------------------------------------------------------
  // download_pdfs
  // ---------------------------------------------------------------------

  /** `valid_bills`: the bills with a truthy URL, in order. This is the URL
      filter of the merge with nothing stored yet. */
  function ValidBills(bills: seq<Json>): (r: seq<Json>)
    ensures forall b :: b in r <==> b in bills && HasUrl(b)
  {
    var r := NewBills(bills, {});
    assert forall b :: b in r <==> b in bills && HasUrl(b) by {
      forall b {
        NewBillsMembers(bills, {}, b);
      }
    }
    r
  }

  /** The paths of the downloads that succeeded, in order; `fetch(url, i)`
      downloads to `i.pdf` and yields the path, or `None` on any error. */
  function Downloaded(fetch: (Json, nat) -> Option<string>, valid: seq<Json>, index: nat): (r: seq<string>)
    ensures |r| <= |valid|
  {
    if valid == [] then []
    else
      var f := fetch(Get(valid[0], "url"), index);
      (if f.Some? then [f.value] else []) + Downloaded(fetch, valid[1..], index + 1)
  }

  /** `download_pdfs(bills)`: `[]` for anything but a list or when no bill
      has a URL; `None` when a bill is not a dict (`.get` raises). */
  function DownloadPdfs(fetch: (Json, nat) -> Option<string>, bills: Json): (r: Option<seq<string>>)
    ensures !bills.JArr? ==> r == Some([])
    ensures bills.JArr? ==> (r.Some? <==> AllDicts(bills.items))
  {
    if !bills.JArr? then Some([])
    else if !AllDicts(bills.items) then None
    else Some(Downloaded(fetch, ValidBills(bills.items), 1))
  }

  /** When every download succeeds, file `i` is the download of the `i`-th
      bill with a URL, numbered from one. */
  lemma {:induction false} DownloadedAll(fetch: (Json, nat) -> Option<string>, valid: seq<Json>, index: nat)
    requires forall i :: 0 <= i < |valid| ==> fetch(Get(valid[i], "url"), index + i).Some?
    ensures var r := Downloaded(fetch, valid, index);
      && |r| == |valid|
      && forall i :: 0 <= i < |valid| ==> r[i] == fetch(Get(valid[i], "url"), index + i).value
  {
    if valid != [] {
      var rest := valid[1..];
      forall i | 0 <= i < |rest|
        ensures fetch(Get(rest[i], "url"), index + 1 + i).Some?
      {
        assert rest[i] == valid[i + 1];
      }
      DownloadedAll(fetch, rest, index + 1);
      var f := fetch(Get(valid[0], "url"), index);
      var tail := Downloaded(fetch, rest, index + 1);
      assert Downloaded(fetch, valid, index) == [f.value] + tail;
      forall i | 0 <= i < |valid|
        ensures ([f.value] + tail)[i] == fetch(Get(valid[i], "url"), index + i).value
      {
        if i > 0 {
          assert valid[i] == rest[i - 1];
        }
      }
    }
  }
}
