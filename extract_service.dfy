/**
 * The extraction service, `ExtractDataService`. It reads the stored bills
 * of a user service, splits the nested bill entries into those to download
 * (a `url`) and those already holding text (a `content`), and turns each
 * into a parsed record. It then sends the records, keyed by their position,
 * as the record's consumption data.
 *
 * The backend is the main client's oracle; downloading a PDF and reading a
 * PDF are oracles too.
 */
module ExtractService {
  import opened Wrappers
  import opened Dicts
  import opened Decimals
  import opened JsonValues
  import opened Regex
  import opened MainClient
  import BillService
  import BillParser

  // ---------------------------------------------------------------------
  // Splitting the stored bills
  // ---------------------------------------------------------------------

  /** The bills to download and the bills with text, in the order met. */
  datatype Partition = Partition(urlBills: seq<Json>, contentBills: seq<Json>)

  const NoBills: Partition := Partition([], [])

  /** A nested entry with a truthy `url`. */
  predicate IsUrlEntry(e: Json) {
    Truthy(Get(e, "url"))
  }

  /** A nested entry without a truthy `url` but with a truthy `content`. */
  predicate IsContentEntry(e: Json) {
    !Truthy(Get(e, "url")) && Truthy(Get(e, "content"))
  }

  /** A stored bill that carries its own list of bill entries. */
  predicate HasNested(bill: Json) {
    bill.JObj? && HasKey(bill, "bills_url") && Get(bill, "bills_url").JArr?
  }

  /** One nested entry: `entry.get(...)` raises on anything but a dict. */
  function SortEntry(p: Partition, e: Json): (r: Option<Partition>)
    ensures r.None? <==> !e.JObj?
  {
    if !e.JObj? then None
    else if IsUrlEntry(e) then Some(p.(urlBills := p.urlBills + [e]))
    else if IsContentEntry(e) then Some(p.(contentBills := p.contentBills + [e]))
    else Some(p)
  }

  /** The inner loop over the entries of one stored bill. */
  function SortEntries(p: Partition, es: seq<Json>): Option<Partition>
    decreases |es|
  {
    if es == [] then Some(p)
    else
      match SortEntry(p, es[0])
      case None => None
      case Some(q) => SortEntries(q, es[1..])
  }

  /** The outer loop of `_process_all_bills` from `p` on; a stored bill that
      is not a dict or has no nested list is passed over. */
  function PartitionFrom(p: Partition, bills: seq<Json>): (r: Option<Partition>)
    ensures r.Some? ==> p.urlBills <= r.value.urlBills && p.contentBills <= r.value.contentBills
    decreases |bills|
  {
    if bills == [] then Some(p)
    else
      var next := if HasNested(bills[0]) then SortEntries(p, Get(bills[0], "bills_url").items) else Some(p);
      assert next.Some? ==> p.urlBills <= next.value.urlBills && p.contentBills <= next.value.contentBills by {
        if HasNested(bills[0]) {
          SortEntriesFilters(p, Get(bills[0], "bills_url").items);
        }
      }
      match next
      case None => None
      case Some(q) => PartitionFrom(q, bills[1..])
  }

  /** The nested entries of the stored bills, in order. */
  function NestedEntries(bills: seq<Json>): seq<Json> {
    if bills == [] then []
    else (if HasNested(bills[0]) then Get(bills[0], "bills_url").items else []) + NestedEntries(bills[1..])
  }

  function UrlEntries(es: seq<Json>): seq<Json> {
    if es == [] then []
    else (if IsUrlEntry(es[0]) then [es[0]] else []) + UrlEntries(es[1..])
  }

  function ContentEntries(es: seq<Json>): seq<Json> {
    if es == [] then []
    else (if IsContentEntry(es[0]) then [es[0]] else []) + ContentEntries(es[1..])
  }

  lemma {:induction false} SortEntriesFilters(p: Partition, es: seq<Json>)
    ensures SortEntries(p, es) ==
      if BillService.AllDicts(es) then Some(Partition(p.urlBills + UrlEntries(es), p.contentBills + ContentEntries(es)))
      else None
    decreases |es|
  {
    if es != [] {
      AllDictsAppend([es[0]], es[1..]);
      assert [es[0]] + es[1..] == es;
      var e := es[0];
      assert UrlEntries(es) == (if IsUrlEntry(e) then [e] else []) + UrlEntries(es[1..]);
      assert ContentEntries(es) == (if IsContentEntry(e) then [e] else []) + ContentEntries(es[1..]);
      if e.JObj? {
        var q := SortEntry(p, e).value;
        assert q.urlBills == p.urlBills + (if IsUrlEntry(e) then [e] else []);
        assert q.contentBills == p.contentBills + (if IsContentEntry(e) then [e] else []);
        SortEntriesFilters(q, es[1..]);
        assert q.urlBills + UrlEntries(es[1..]) == p.urlBills + UrlEntries(es);
        assert q.contentBills + ContentEntries(es[1..]) == p.contentBills + ContentEntries(es);
      } else {
        assert SortEntries(p, es) == None;
      }
    } else {
      assert p.urlBills + UrlEntries(es) == p.urlBills;
      assert p.contentBills + ContentEntries(es) == p.contentBills;
    }
  }

  /** Filtering two runs of entries one after the other is filtering them
      joined. */
  lemma FiltersJoin(p: Partition, head: seq<Json>, rest: seq<Json>)
    ensures var q := Partition(p.urlBills + UrlEntries(head), p.contentBills + ContentEntries(head));
      && q.urlBills + UrlEntries(rest) == p.urlBills + UrlEntries(head + rest)
      && q.contentBills + ContentEntries(rest) == p.contentBills + ContentEntries(head + rest)
  {
    UrlEntriesAppend(head, rest);
    ContentEntriesAppend(head, rest);
    assert (p.urlBills + UrlEntries(head)) + UrlEntries(rest) == p.urlBills + (UrlEntries(head) + UrlEntries(rest));
    assert (p.contentBills + ContentEntries(head)) + ContentEntries(rest)
        == p.contentBills + (ContentEntries(head) + ContentEntries(rest));
  }

  lemma {:induction false} PartitionFromFilters(p: Partition, bills: seq<Json>)
    ensures var es := NestedEntries(bills);
      PartitionFrom(p, bills) ==
        if BillService.AllDicts(es) then Some(Partition(p.urlBills + UrlEntries(es), p.contentBills + ContentEntries(es)))
        else None
    decreases |bills|
  {
    if bills != [] {
      var head := if HasNested(bills[0]) then Get(bills[0], "bills_url").items else [];
      var rest := NestedEntries(bills[1..]);
      assert NestedEntries(bills) == head + rest;
      assert PartitionFrom(p, bills) == match SortEntries(p, head) case None => None case Some(q) => PartitionFrom(q, bills[1..]);
      SortEntriesFilters(p, head);
      AllDictsAppend(head, rest);
      if BillService.AllDicts(head) {
        var q := Partition(p.urlBills + UrlEntries(head), p.contentBills + ContentEntries(head));
        PartitionFromFilters(q, bills[1..]);
        FiltersJoin(p, head, rest);
      }
    } else {
      assert p.urlBills + UrlEntries([]) == p.urlBills;
      assert p.contentBills + ContentEntries([]) == p.contentBills;
    }
  }

  lemma AllDictsAppend(a: seq<Json>, b: seq<Json>)
    ensures BillService.AllDicts(a + b) <==> BillService.AllDicts(a) && BillService.AllDicts(b)
  {
    assert forall i :: 0 <= i < |a| ==> (a + b)[i] == a[i];
    assert forall i :: 0 <= i < |b| ==> (a + b)[|a| + i] == b[i];
  }

  /** The URL entries are the nested entries with a truthy `url`. */
  lemma {:induction false} UrlEntriesMembers(es: seq<Json>, e: Json)
    ensures e in UrlEntries(es) <==> e in es && IsUrlEntry(e)
  {
    if es != [] {
      UrlEntriesMembers(es[1..], e);
      assert e in es <==> e == es[0] || e in es[1..];
    }
  }

  /** The content entries are the nested entries with a truthy `content`
      and no truthy `url`. */
  lemma {:induction false} ContentEntriesMembers(es: seq<Json>, e: Json)
    ensures e in ContentEntries(es) <==> e in es && IsContentEntry(e)
  {
    if es != [] {
      ContentEntriesMembers(es[1..], e);
      assert e in es <==> e == es[0] || e in es[1..];
    }
  }

  lemma {:induction false} UrlEntriesAppend(a: seq<Json>, b: seq<Json>)
    ensures UrlEntries(a + b) == UrlEntries(a) + UrlEntries(b)
  {
    if a != [] {
      assert (a + b)[0] == a[0];
      assert (a + b)[1..] == a[1..] + b;
      UrlEntriesAppend(a[1..], b);
      assert UrlEntries(a + b) == (if IsUrlEntry(a[0]) then [a[0]] else []) + UrlEntries(a[1..] + b);
    } else {
      assert a + b == b;
    }
  }

  lemma {:induction false} ContentEntriesAppend(a: seq<Json>, b: seq<Json>)
    ensures ContentEntries(a + b) == ContentEntries(a) + ContentEntries(b)
  {
    if a != [] {
      assert (a + b)[0] == a[0];
      assert (a + b)[1..] == a[1..] + b;
      ContentEntriesAppend(a[1..], b);
      assert ContentEntries(a + b) == (if IsContentEntry(a[0]) then [a[0]] else []) + ContentEntries(a[1..] + b);
    } else {
      assert a + b == b;
    }
  }

  /** The split of `_process_all_bills`: the nested entries with a URL and
      those with text only, each in order; `None` when a nested entry is
      not a dict. */
  lemma PartitionMeaning(bills: seq<Json>)
    ensures var es := NestedEntries(bills);
      PartitionFrom(NoBills, bills) ==
        if BillService.AllDicts(es) then Some(Partition(UrlEntries(es), ContentEntries(es))) else None
  {
    PartitionFromFilters(NoBills, bills);
    var es := NestedEntries(bills);
    assert NoBills.urlBills + UrlEntries(es) == UrlEntries(es);
    assert NoBills.contentBills + ContentEntries(es) == ContentEntries(es);
  }

  /** Flat bills, as `save_bills` stores them, contribute nothing: only
      entries nested in their own `bills_url` list are read. */
  lemma {:induction false} FlatBillsIgnored(bills: seq<Json>)
    requires forall i :: 0 <= i < |bills| ==> !HasNested(bills[i])
    ensures PartitionFrom(NoBills, bills) == Some(NoBills)
  {
    PartitionMeaning(bills);
    FlatNothingNested(bills);
  }

  lemma {:induction false} FlatNothingNested(bills: seq<Json>)
    requires forall i :: 0 <= i < |bills| ==> !HasNested(bills[i])
    ensures NestedEntries(bills) == []
  {
    if bills != [] {
      assert forall i :: 0 <= i < |bills[1..]| ==> bills[1..][i] == bills[i + 1];
      FlatNothingNested(bills[1..]);
    }
  }

  /** A URL bill or a content bill is never itself nested. */
  lemma UrlAndContentBillsAreFlat(url: string, text: string)
    ensures !HasNested(UrlBill(url)) && !HasNested(ContentBill(text))
  {
  }

  // ---------------------------------------------------------------------
  // The records made from the bills
  // ---------------------------------------------------------------------

  /** `process_utility_bill_pdf`: the text pdfplumber reads from the file
      (`None` when opening or reading it raises) parsed by a fresh
      `GenericBillParser`; `{}` wherever anything raises. */
  function PdfData(re: Engine, text: Option<string>): (r: Json)
    ensures r.JObj?
    ensures r == JObj([]) || (text.Some? && BillParser.ParseDefault(re, text.value) == Some(r))
    ensures text.Some? && BillParser.ParseDefault(re, text.value).Some? ==> r.fields != []
  {
    if text.None? then JObj([])
    else
      var d := BillParser.ParseDefault(re, text.value);
      if d.None? then JObj([]) else d.value
  }

  /** `_process_url_bills` per downloaded file: the PDF's data, when it was
      read and is truthy, after the JSON round trip that turns decimals
      into strings. `extract` is `_process_pdf`, `None` when it raises. */
  function UrlRecords(extract: string -> Option<Json>, paths: seq<string>): (r: seq<Json>)
    ensures |r| <= |paths|
    ensures forall k :: 0 <= k < |r| ==> NoDecimals(r[k])
  {
    if paths == [] then []
    else
      var d := extract(paths[0]);
      (if d.Some? && Truthy(d.value) then [ConvertDecimals(d.value)] else []) + UrlRecords(extract, paths[1..])
  }

  /** The text a content bill carries: its `content` when a string, or the
      `content` inside a dict `content`; `None` (skipped) otherwise. */
  function BillText(bill: Json): (r: Option<string>)
    ensures Get(bill, "content").JStr? ==> r == Some(Get(bill, "content").s)
  {
    var content := if HasKey(bill, "content") then Get(bill, "content") else JObj([]);
    var inner := if content.JObj? then (if HasKey(content, "content") then Get(content, "content") else JStr("")) else content;
    if inner.JStr? then Some(inner.s) else None
  }

  /** `convert_data_to_json` on a text: the parsed data with its decimals
      as strings, or `{}` when parsing fails. */
  function Converted(re: Engine, text: string): (r: Json)
    ensures NoDecimals(r)
  {
    match BillParser.ParseDefault(re, text)
    case None => JObj([])
    case Some(d) => ConvertDecimals(d)
  }

  /** One more downloaded file of the loop. */
  lemma UrlRecordsStep(extract: string -> Option<Json>, paths: seq<string>, k: nat)
    requires k < |paths|
    ensures var d := extract(paths[k]);
      UrlRecords(extract, paths[k..])
      == (if d.Some? && Truthy(d.value) then [ConvertDecimals(d.value)] else []) + UrlRecords(extract, paths[k + 1..])
  {
    assert paths[k..][0] == paths[k];
    assert paths[k..][1..] == paths[k + 1..];
  }

  /** With `_process_pdf` reading each file with the bill parser, a file
      adds one record exactly when its text was read and parses, and that
      record is the parsed data with its decimals as strings. */
  lemma PdfRecord(re: Engine, pdfText: string -> Option<string>, extract: string -> Option<Json>, path: string)
    requires forall f :: extract(f) == Some(PdfData(re, pdfText(f)))
    ensures var t := pdfText(path);
      UrlRecords(extract, [path])
      == if t.Some? && BillParser.ParseDefault(re, t.value).Some?
         then [ConvertDecimals(BillParser.ParseDefault(re, t.value).value)] else []
  {
    assert [path][1..] == [];
  }

  /** Every URL record is the converted data `_process_pdf` gave for one of
      the downloaded files, that data being truthy. */
  lemma {:induction false} UrlRecordsFromFiles(extract: string -> Option<Json>, paths: seq<string>)
    ensures forall k :: 0 <= k < |UrlRecords(extract, paths)| ==>
        exists j :: 0 <= j < |paths| && extract(paths[j]).Some? && Truthy(extract(paths[j]).value)
                    && UrlRecords(extract, paths)[k] == ConvertDecimals(extract(paths[j]).value)
  {
    if paths != [] {
      UrlRecordsFromFiles(extract, paths[1..]);
      var d := extract(paths[0]);
      var head := if d.Some? && Truthy(d.value) then [ConvertDecimals(d.value)] else [];
      var rest := UrlRecords(extract, paths[1..]);
      assert UrlRecords(extract, paths) == head + rest;
      forall k | 0 <= k < |UrlRecords(extract, paths)|
        ensures exists j :: 0 <= j < |paths| && extract(paths[j]).Some? && Truthy(extract(paths[j]).value)
                    && UrlRecords(extract, paths)[k] == ConvertDecimals(extract(paths[j]).value)
      {
        if k < |head| {
          assert d.Some? && Truthy(d.value) && (head + rest)[k] == ConvertDecimals(d.value);
          assert 0 < |paths| && extract(paths[0]) == d;
        } else {
          var i := k - |head|;
          assert 0 <= i < |rest| && (head + rest)[k] == rest[i];
          var tail := paths[1..];
          assert exists j :: 0 <= j < |tail| && extract(tail[j]).Some? && Truthy(extract(tail[j]).value)
                             && rest[i] == ConvertDecimals(extract(tail[j]).value);
          var j :| 0 <= j < |tail| && extract(tail[j]).Some? && Truthy(extract(tail[j]).value)
                   && rest[i] == ConvertDecimals(extract(tail[j]).value);
          assert tail[j] == paths[j + 1];
          assert 0 <= j + 1 < |paths| && UrlRecords(extract, paths)[k] == ConvertDecimals(extract(paths[j + 1]).value);
        }
      }
    } else {
      assert UrlRecords(extract, paths) == [];
    }
  }

  /** `_process_content_bills`: one record per bill with text, in order. */
  function ContentRecords(convert: string -> Json, bills: seq<Json>): (r: seq<Json>)
    ensures |r| <= |bills|
  {
    if bills == [] then []
    else
      var t := BillText(bills[0]);
      (if t.Some? then [convert(t.value)] else []) + ContentRecords(convert, bills[1..])
  }

  /** One more content bill of the loop. */
  lemma ContentRecordsStep(convert: string -> Json, bills: seq<Json>, k: nat)
    requires k < |bills|
    ensures var t := BillText(bills[k]);
      ContentRecords(convert, bills[k..])
      == (if t.Some? then [convert(t.value)] else []) + ContentRecords(convert, bills[k + 1..])
  {
    assert bills[k..][0] == bills[k];
    assert bills[k..][1..] == bills[k + 1..];
  }

  /** Every content bill whose text is a string yields exactly one record. */
  lemma {:induction false} ContentRecordsOnePerText(convert: string -> Json, bills: seq<Json>)
    requires forall k :: 0 <= k < |bills| ==> BillText(bills[k]).Some?
    ensures var r := ContentRecords(convert, bills);
      |r| == |bills| && forall k :: 0 <= k < |r| ==> r[k] == convert(BillText(bills[k]).value)
  {
    if bills != [] {
      assert forall k :: 0 <= k < |bills[1..]| ==> bills[1..][k] == bills[k + 1];
      ContentRecordsOnePerText(convert, bills[1..]);
    }
  }

  /** A content bill whose text is neither a string nor a dict is skipped. */
  lemma NonStringContentSkipped(convert: string -> Json, bill: Json)
    requires HasKey(bill, "content") && !Get(bill, "content").JStr? && !Get(bill, "content").JObj?
    ensures ContentRecords(convert, [bill]) == []
  {
  }

  // ---------------------------------------------------------------------
  // The shape of the saved data
  // ---------------------------------------------------------------------

  /** `{i: data for i, data in enumerate(processed_data)}` with its
      decimals converted; the integer keys travel as their decimal text. */
  function IndexKeyed(records: seq<Json>): (r: Json)
    ensures r.JObj? && |r.fields| == |records|
  {
    ConvertDecimals(JObj(seq(|records|, i requires 0 <= i < |records| => (NatDigits(i), records[i]))))
  }

  /** Record `i` is stored under key `i`, in list order, with its decimals
      as strings and nothing else changed. */
  lemma IndexKeyedShape(records: seq<Json>)
    ensures var r := IndexKeyed(records);
      && UniqueKeys(r.fields)
      && NoDecimals(r)
      && forall i :: 0 <= i < |records| ==>
           r.fields[i] == (NatDigits(i), ConvertDecimals(records[i]))
           && Get(r, NatDigits(i)) == ConvertDecimals(records[i])
  {
    var r := IndexKeyed(records);
    forall i, j | 0 <= i < j < |r.fields|
      ensures r.fields[i].0 != r.fields[j].0
    {
      assert DigitsValue(NatDigits(i)) != DigitsValue(NatDigits(j));
    }
    forall i | 0 <= i < |records|
      ensures Get(r, NatDigits(i)) == ConvertDecimals(records[i])
    {
      LookupAt(r.fields, i);
    }
  }

  /** Records free of decimals are stored exactly as they are. */
  lemma IndexKeyedKeepsClean(records: seq<Json>, i: nat)
    requires i < |records| && NoDecimals(records[i])
    ensures Get(IndexKeyed(records), NatDigits(i)) == records[i]
  {
    IndexKeyedShape(records);
    ConvertDecimalsKeepsClean(records[i]);
  }

  // ---------------------------------------------------------------------
  // Saving and the overall result
  // ---------------------------------------------------------------------

  /** How `_save_processed_data` ends: the status it returns (whether the
      update answered truthy), or the error it raises. */
  datatype SaveOutcome = Saved(ok: bool) | SaveRaised

  /** `_save_processed_data`: the calls made and the outcome. */
  function SaveSpec(server: Server, userServiceId: int, records: seq<Json>): (r: (SaveOutcome, seq<Call>))
    ensures var (outcome, calls) := r;
      && 1 <= |calls| <= 2 && calls[0] == GetScrappedData(userServiceId)
      && (outcome.Saved? ==> |calls| == 2)
      && (|calls| == 2 ==>
            && calls[1].UpdateScrappedData?
            && calls[1].setBills.None? && calls[1].setDebt.None?
            && calls[1].setConsumption == Some(IndexKeyed(records))
            && Truthy(calls[1].scrappedDataId))
  {
    var read := GetScrappedData(userServiceId);
    match server(read)
    case Raised(_, _) => (SaveRaised, [read])
    case Ok(body) =>
      if !Truthy(body) then (SaveRaised, [read])
      else
        var record := if body.JArr? then body.items[0] else body;
        if !record.JObj? || !Truthy(Get(record, "id")) then (SaveRaised, [read])
        else
          var update := UpdateScrappedData(Get(record, "id"), None, Some(IndexKeyed(records)), None);
          match server(update)
          case Raised(_, _) => (SaveRaised, [read, update])
          case Ok(answer) => (Saved(Truthy(answer)), [read, update])
  }

  /** The messages `process_bills` returns. */
  datatype Message = NoScrappedDataFound | BillsProcessedAndSaved | NoNewBillsToProcess | ErrorProcessingBills

  /** The dict `process_bills` returns: `success`, `message` and, on
      success, `data` (the save status, `None` when nothing was saved). */
  datatype ProcessResult = ProcessResult(success: bool, message: Message, data: Option<bool>)

  /** The stored bills `process_bills` hands on: a dict's `bills_url`
      (`[]` when absent), a list as it is. */
  function StoredBills(body: Json): Json {
    if body.JObj? then (if HasKey(body, "bills_url") then Get(body, "bills_url") else JArr([])) else body
  }

  /** The records one call adds: URL bills first, then content bills; `None`
      when splitting raises. A non-list leaves everything as it was. */
  function NewRecords(fetch: (Json, nat) -> Option<string>, extract: string -> Option<Json>, convert: string -> Json, bills: Json)
    : (r: Option<seq<Json>>)
    ensures !bills.JArr? ==> r == Some([])
    ensures r.None? <==> bills.JArr? && PartitionFrom(NoBills, bills.items).None?
    ensures r.Some? && bills.JArr? ==>
              var p := PartitionFrom(NoBills, bills.items).value;
              |r.value| <= |p.urlBills| + |p.contentBills|
  {
    if !bills.JArr? then Some([])
    else
      match PartitionFrom(NoBills, bills.items)
      case None => None
      case Some(p) =>
        var paths := BillService.DownloadPdfs(fetch, JArr(p.urlBills));
        Some((if paths.Some? then UrlRecords(extract, paths.value) else []) + ContentRecords(convert, p.contentBills))
  }

  /** `process_bills`: the result, the calls made and the records held
      afterwards (the instance keeps them across calls). */
  function ProcessSpec(server: Server, fetch: (Json, nat) -> Option<string>, extract: string -> Option<Json>, convert: string -> Json,
                       userServiceId: int, held: seq<Json>): (r: (ProcessResult, seq<Call>, seq<Json>))
    ensures var (result, calls, records) := r;
      && held <= records
      && (server(GetScrappedData(userServiceId)) == Ok(JNull) ==> result == ProcessResult(false, NoScrappedDataFound, None))
      && (result.message == NoNewBillsToProcess ==> result.success && records == [] && |calls| == 1)
      && (result.message == BillsProcessedAndSaved ==>
            result.success && |calls| == 3 && calls[2].UpdateScrappedData? && calls[2].setConsumption == Some(IndexKeyed(records)))
  {
    var read := GetScrappedData(userServiceId);
    match server(read)
    case Raised(_, _) => (ProcessResult(false, ErrorProcessingBills, None), [read], held)
    case Ok(body) =>
      if !Truthy(body) then (ProcessResult(false, NoScrappedDataFound, None), [read], held)
      else
        match NewRecords(fetch, extract, convert, StoredBills(body))
        case None => (ProcessResult(false, ErrorProcessingBills, None), [read], held)
        case Some(added) =>
          var records := held + added;
          if records == [] then (ProcessResult(true, NoNewBillsToProcess, None), [read], records)
          else
            var (saved, calls) := SaveSpec(server, userServiceId, records);
            match saved
            case SaveRaised => (ProcessResult(false, ErrorProcessingBills, None), [read] + calls, records)
            case Saved(ok) => (ProcessResult(true, BillsProcessedAndSaved, Some(ok)), [read] + calls, records)
  }

  /** A list answer is split as it is: with nothing held, the records made
      are those of its nested entries. */
  lemma ListAnswerUsedAsIs(server: Server, fetch: (Json, nat) -> Option<string>, extract: string -> Option<Json>,
                           convert: string -> Json, userServiceId: int, items: seq<Json>)
    requires server(GetScrappedData(userServiceId)) == Ok(JArr(items)) && items != []
    requires forall i :: 0 <= i < |items| ==> !HasNested(items[i])
    ensures var (result, calls, records) := ProcessSpec(server, fetch, extract, convert, userServiceId, []);
      result == ProcessResult(true, NoNewBillsToProcess, None) && records == []
  {
    FlatBillsIgnored(items);
    assert BillService.DownloadPdfs(fetch, JArr([])) == Some([]);
  }

  // ---------------------------------------------------------------------
  // The service object
  // ---------------------------------------------------------------------

  class ExtractDataService {
    var processedData: seq<Json>
    /** `convert_data_to_json` on the text of a content bill. */
    const convert: string -> Json
    /** `_process_pdf` on a downloaded file. */
    const extract: string -> Option<Json>

    /** A fresh service holds no records, converts texts with the bill
        parser driven by the regex engine `re`, and reads each downloaded
        file with `process_utility_bill_pdf`, where `pdfText` is the text
        pdfplumber extracts from a file. */
    constructor(re: Engine, pdfText: string -> Option<string>)
      ensures processedData == []
      ensures forall text :: convert(text) == Converted(re, text)
      ensures forall f :: extract(f) == Some(PdfData(re, pdfText(f)))
    {
      processedData := [];
      convert := text => Converted(re, text);
      extract := f => Some(PdfData(re, pdfText(f)));
    }

    /** The nested loops of `_process_all_bills` that split the entries. */
    method SplitBills(bills: seq<Json>) returns (r: Option<Partition>)
      ensures r == PartitionFrom(NoBills, bills)
    {
      var p := NoBills;
      for k := 0 to |bills|
        invariant PartitionFrom(p, bills[k..]) == PartitionFrom(NoBills, bills)
      {
        assert bills[k..][1..] == bills[k + 1..];
        if HasNested(bills[k]) {
          var es := Get(bills[k], "bills_url").items;
          var start := p;
          for m := 0 to |es|
            invariant SortEntries(p, es[m..]) == SortEntries(start, es)
          {
            assert es[m..][1..] == es[m + 1..];
            var next := SortEntry(p, es[m]);
            if next.None? {
              return None;
            }
            p := next.value;
          }
          assert es[|es|..] == [];
        }
      }
      assert bills[|bills|..] == [];
      return Some(p);
    }

    method ProcessUrlBills(fetch: (Json, nat) -> Option<string>, urlBills: seq<Json>)
      modifies this
      ensures var paths := BillService.DownloadPdfs(fetch, JArr(urlBills));
        processedData == old(processedData) + (if paths.Some? then UrlRecords(extract, paths.value) else [])
    {
      var paths := BillService.DownloadPdfs(fetch, JArr(urlBills));
      if paths.Some? {
        AppendUrlRecords(paths.value);
      }
    }

    /** The loop of `_process_url_bills` over the downloaded files. */
    method AppendUrlRecords(files: seq<string>)
      modifies this
      ensures processedData == old(processedData) + UrlRecords(extract, files)
    {
      for k := 0 to |files|
        invariant old(processedData) + UrlRecords(extract, files) == processedData + UrlRecords(extract, files[k..])
      {
        var d := extract(files[k]);
        var added := if d.Some? && Truthy(d.value) then [ConvertDecimals(d.value)] else [];
        var rest := UrlRecords(extract, files[k + 1..]);
        UrlRecordsStep(extract, files, k);
        assert processedData + UrlRecords(extract, files[k..]) == (processedData + added) + rest;
        processedData := processedData + added;
      }
      assert files[|files|..] == [];
    }

    /** `convert_data_to_json` on the text of one content bill. */
    static method ConvertText(re: Engine, text: string) returns (data: Json)
      ensures data == Converted(re, text)
    {
      data := BillParser.ConvertDataToJson(re, JStr(text));
    }

    method ProcessContentBills(contentBills: seq<Json>)
      modifies this
      ensures processedData == old(processedData) + ContentRecords(convert, contentBills)
    {
      for k := 0 to |contentBills|
        invariant old(processedData) + ContentRecords(convert, contentBills)
               == processedData + ContentRecords(convert, contentBills[k..])
      {
        var text := BillText(contentBills[k]);
        var rest := ContentRecords(convert, contentBills[k + 1..]);
        ContentRecordsStep(convert, contentBills, k);
        if text.Some? {
          var data := convert(text.value);
          assert ContentRecords(convert, contentBills[k..]) == [data] + rest;
          assert processedData + ([data] + rest) == (processedData + [data]) + rest;
          processedData := processedData + [data];
        } else {
          assert ContentRecords(convert, contentBills[k..]) == rest;
        }
      }
      assert contentBills[|contentBills|..] == [];
    }

    /** `_process_all_bills`; `raised` when splitting raises. */
    method ProcessAllBills(fetch: (Json, nat) -> Option<string>, bills: Json)
      returns (raised: bool)
      modifies this
      ensures var added := NewRecords(fetch, extract, convert, bills);
        && (raised <==> added.None?)
        && processedData == old(processedData) + added.GetOr([])
    {
      if !bills.JArr? {
        return false;
      }
      var p := SplitBills(bills.items);
      if p.None? {
        return true;
      }
      ProcessUrlBills(fetch, p.value.urlBills);
      ProcessContentBills(p.value.contentBills);
      return false;
    }

    method SaveProcessedData(server: Server, userServiceId: int) returns (outcome: SaveOutcome, calls: seq<Call>)
      ensures (outcome, calls) == SaveSpec(server, userServiceId, processedData)
    {
      var dataToSave := IndexKeyed(processedData);
      var read := GetScrappedData(userServiceId);
      calls := [read];
      var reply := server(read);
      if reply.Raised? {
        return SaveRaised, calls;
      }
      if !Truthy(reply.body) {
        return SaveRaised, calls;
      }
      var record := if reply.body.JArr? then reply.body.items[0] else reply.body;
      if !record.JObj? || !Truthy(Get(record, "id")) {
        assert calls == [read];
        return SaveRaised, calls;
      }
      var update := UpdateScrappedData(Get(record, "id"), None, Some(dataToSave), None);
      calls := calls + [update];
      assert calls == [read, update];
      var answer := server(update);
      if answer.Raised? {
        return SaveRaised, calls;
      }
      return Saved(Truthy(answer.body)), calls;
    }

    method ProcessBills(server: Server, fetch: (Json, nat) -> Option<string>, userServiceId: int)
      returns (result: ProcessResult, calls: seq<Call>)
      modifies this
      ensures (result, calls, processedData) == ProcessSpec(server, fetch, extract, convert, userServiceId, old(processedData))
    {
      var read := GetScrappedData(userServiceId);
      calls := [read];
      var reply := server(read);
      if reply.Raised? {
        return ProcessResult(false, ErrorProcessingBills, None), calls;
      }
      if !Truthy(reply.body) {
        return ProcessResult(false, NoScrappedDataFound, None), calls;
      }
      var raised := ProcessAllBills(fetch, StoredBills(reply.body));
      if raised {
        assert processedData == old(processedData);
        return ProcessResult(false, ErrorProcessingBills, None), calls;
      }
      if processedData == [] {
        return ProcessResult(true, NoNewBillsToProcess, None), calls;
      }
      var saved, saveCalls := SaveProcessedData(server, userServiceId);
      calls := calls + saveCalls;
      if saved.SaveRaised? {
        return ProcessResult(false, ErrorProcessingBills, None), calls;
      }
      return ProcessResult(true, BillsProcessedAndSaved, Some(saved.ok)), calls;
    }
  }
}
