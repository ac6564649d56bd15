/**
 * The older bill converter: the text is cleaned (line breaks and runs of
 * whitespace become one space, the ends are stripped, letters are
 * upper-cased), each kind of datum is searched with its own pattern list,
 * and the first capture of each kind becomes one of five fields. A raised
 * exception is `None`.
 */
module LegacyParser {
  import opened Wrappers
  import opened PyStr
  import opened Decimals
  import opened Regex
  import opened JsonValues
  import opened LegacyPatterns
  import BillParser

  // ---------------------------------------------------------------------
  // clean_text
  // ---------------------------------------------------------------------

  /** `re.sub(r"\s+", " ", s)`: every maximal run of whitespace becomes a
      single space. */
  function CollapseSpace(s: string): (r: string)
    decreases |s|
  {
    if s == [] then []
    else if IsSpace(s[0]) then " " + CollapseSpace(s[LeadingSpaces(s)..])
    else [s[0]] + CollapseSpace(s[1..])
  }

  /** Every whitespace character is a plain space. */
  predicate BlanksOnly(s: string) {
    forall i :: 0 <= i < |s| && IsSpace(s[i]) ==> s[i] == ' '
  }

  /** No two whitespace characters are next to each other. */
  predicate NoDoubleSpace(s: string) {
    forall i :: 0 < i < |s| && IsSpace(s[i]) ==> !IsSpace(s[i - 1])
  }

  predicate Stripped(s: string) {
    s == [] || (!IsSpace(s[0]) && !IsSpace(s[|s| - 1]))
  }

  /** What a whitespace collapse leaves behind. */
  predicate Collapsed(s: string) {
    BlanksOnly(s) && NoDoubleSpace(s)
  }

  /** `clean_text`: line breaks become spaces, whitespace runs collapse, the
      ends are stripped and the result is upper-cased. */
  function CleanText(text: string): (r: string)
    ensures '\n' !in r && '\r' !in r
    ensures BlanksOnly(r) && NoDoubleSpace(r) && Stripped(r)
    ensures Upper(r) == r
  {
    var t := Replace(Replace(text, '\n', " "), '\r', " ");
    var s := Strip(CollapseSpace(t));
    CollapsedAndStripped(t);
    UpperShape(s);
    assert forall i :: 0 <= i < |Upper(s)| ==> Upper(s)[i] != '\n' && Upper(s)[i] != '\r' by {
      assert BlanksOnly(Upper(s));
    }
    Upper(s)
  }

  /** The collapse keeps the first character's kind: it starts with a
      space exactly when the input starts with whitespace. */
  lemma CollapseHead(s: string)
    requires s != []
    ensures CollapseSpace(s) != []
    ensures IsSpace(CollapseSpace(s)[0]) == IsSpace(s[0])
  {
  }

  lemma {:induction false} CollapseIsCollapsed(s: string)
    ensures Collapsed(CollapseSpace(s))
    decreases |s|
  {
    if s != [] {
      var r := CollapseSpace(s);
      if IsSpace(s[0]) {
        var rest := s[LeadingSpaces(s)..];
        CollapseIsCollapsed(rest);
        if rest != [] {
          CollapseHead(rest);
        }
        assert r == " " + CollapseSpace(rest);
      } else {
        CollapseIsCollapsed(s[1..]);
        if s[1..] != [] {
          CollapseHead(s[1..]);
        }
        assert r == [s[0]] + CollapseSpace(s[1..]);
      }
    }
  }

  /** A collapsed string is its own collapse. */
  lemma {:induction false} CollapseFixed(s: string)
    requires Collapsed(s)
    ensures CollapseSpace(s) == s
    decreases |s|
  {
    if s != [] {
      assert Collapsed(s[1..]) by {
        assert forall i :: 0 <= i < |s[1..]| ==> s[1..][i] == s[i + 1];
      }
      CollapseFixed(s[1..]);
      if IsSpace(s[0]) {
        assert |s| > 1 ==> !IsSpace(s[1]);
        assert LeadingSpaces(s) == 1;
      }
    }
  }

  /** Any slice of a collapsed string is collapsed. */
  lemma CollapsedSlice(s: string, i: nat, j: nat)
    requires Collapsed(s) && i <= j <= |s|
    ensures Collapsed(s[i..j])
  {
    var t := s[i..j];
    assert forall k :: 0 <= k < |t| ==> t[k] == s[i + k];
  }

  lemma StripKeepsCollapsed(s: string)
    requires Collapsed(s)
    ensures Collapsed(Strip(s))
  {
    var a := LeadingSpaces(s);
    var t := s[a..];
    var b := TrailingSpaces(t);
    assert Strip(s) == t[..|t| - b] == s[a..|s| - b];
    CollapsedSlice(s, a, |s| - b);
  }

  /** Upper-casing keeps the kind of the first and the last character. */
  lemma {:induction false} UpperEnds(s: string)
    requires s != []
    ensures Upper(s) != []
    ensures IsSpace(Upper(s)[0]) == IsSpace(s[0])
    ensures IsSpace(Upper(s)[|Upper(s)| - 1]) == IsSpace(s[|s| - 1])
  {
    var u := UpperChar(s[0]);
    assert Upper(s) == u + Upper(s[1..]);
    assert u[0] in u;
    if |s| == 1 {
      assert Upper(s) == u;
      assert u[|u| - 1] in u;
    } else {
      UpperEnds(s[1..]);
    }
  }

  lemma {:induction false} UpperKeepsCollapsed(s: string)
    requires Collapsed(s)
    ensures Collapsed(Upper(s))
  {
    if s != [] {
      var u := UpperChar(s[0]);
      var rest := Upper(s[1..]);
      assert Collapsed(s[1..]) by {
        assert forall i :: 0 <= i < |s[1..]| ==> s[1..][i] == s[i + 1];
      }
      UpperKeepsCollapsed(s[1..]);
      var r := Upper(s);
      assert r == u + rest;
      if s[1..] != [] {
        UpperEnds(s[1..]);
        assert s[1..][0] == s[1];
      }
      forall i | 0 <= i < |r| && IsSpace(r[i])
        ensures r[i] == ' '
      {
        if i < |u| {
          assert r[i] in u;
        } else {
          assert r[i] == rest[i - |u|];
        }
      }
      forall i | 0 < i < |r| && IsSpace(r[i])
        ensures !IsSpace(r[i - 1])
      {
        if i < |u| {
          assert false;
        } else if i == |u| {
          assert r[i] == rest[0] && r[i - 1] == u[|u| - 1] && u[|u| - 1] in u;
        } else {
          assert r[i] == rest[i - |u|] && r[i - 1] == rest[i - 1 - |u|];
        }
      }
    }
  }

  /** Collapsing, then stripping, leaves a collapsed and stripped text. */
  lemma CollapsedAndStripped(t: string)
    ensures Collapsed(Strip(CollapseSpace(t))) && Stripped(Strip(CollapseSpace(t)))
  {
    CollapseIsCollapsed(t);
    StripKeepsCollapsed(CollapseSpace(t));
  }

  /** Upper-casing keeps a text collapsed and stripped, and a second
      upper-casing changes nothing. */
  lemma UpperShape(s: string)
    requires Collapsed(s) && Stripped(s)
    ensures Collapsed(Upper(s)) && Stripped(Upper(s)) && Upper(Upper(s)) == Upper(s)
  {
    UpperKeepsCollapsed(s);
    if s != [] {
      UpperEnds(s);
    }
    UpperIdempotent(s);
  }

  /** Cleaning a cleaned text changes nothing. */
  lemma CleanTextIdempotent(text: string)
    ensures CleanText(CleanText(text)) == CleanText(text)
  {
    var c := CleanText(text);
    assert Replace(Replace(c, '\n', " "), '\r', " ") == c;
    CollapseFixed(c);
    StripUnchanged(c);
  }

  // ---------------------------------------------------------------------
  // extract_data
  // ---------------------------------------------------------------------

  /** `regex_patterns.get(kind, [])`. */
  function PatternsFor(kind: string): (r: seq<string>)
    ensures kind !in RegexPatterns ==> r == []
  {
    if kind in RegexPatterns then RegexPatterns[kind] else []
  }

  /** The search of one pattern, compiled without flags. */
  function Hit(re: Engine, text: string, pattern: string): Option<Match> {
    Search(re, pattern, NoFlags, text)
  }

  /** The loop of `extract_data` over `patterns`: the first group of every
      pattern that matches, in list order; `None` when a match has no group
      (`match.group(1)` raises `IndexError`). */
  function Captures(re: Engine, text: string, patterns: seq<string>): (r: Option<seq<Option<string>>>)
    ensures r.Some? ==> |r.value| <= |patterns|
  {
    if patterns == [] then Some([])
    else
      var rest := Captures(re, text, patterns[1..]);
      match Hit(re, text, patterns[0])
      case None => rest
      case Some(m) =>
        if |m.groups| == 0 || rest.None? then None
        else Some([m.groups[0]] + rest.value)
  }

  /** `extract_data(text, kind)`. */
  function ExtractData(re: Engine, text: string, kind: string): (r: Option<seq<Option<string>>>)
    ensures r.Some? ==> |r.value| <= |PatternsFor(kind)|
  {
    Captures(re, text, PatternsFor(kind))
  }

  /** An unknown kind of datum has no patterns and yields no captures. */
  lemma ExtractDataUnknownKind(re: Engine, text: string, kind: string)
    requires kind !in RegexPatterns
    ensures ExtractData(re, text, kind) == Some([])
  {
  }

  /** The patterns of `patterns` that match, in list order. */
  function Matching(re: Engine, text: string, patterns: seq<string>): (r: seq<string>)
    ensures |r| <= |patterns|
    ensures forall p :: p in r ==> p in patterns && Hit(re, text, p).Some?
    ensures forall p :: p in patterns && Hit(re, text, p).Some? ==> p in r
  {
    if patterns == [] then []
    else
      var rest := Matching(re, text, patterns[1..]);
      assert forall p :: p in patterns ==> p == patterns[0] || p in patterns[1..];
      if Hit(re, text, patterns[0]).Some? then [patterns[0]] + rest else rest
  }

  /** `extract_data` raises exactly when some pattern matches without a
      capture group. */
  lemma {:induction false} CapturesRaise(re: Engine, text: string, patterns: seq<string>)
    ensures Captures(re, text, patterns).None? <==>
      exists p :: p in patterns && Hit(re, text, p).Some? && |Hit(re, text, p).value.groups| == 0
  {
    if patterns != [] {
      CapturesRaise(re, text, patterns[1..]);
      assert forall p :: p in patterns ==> p == patterns[0] || p in patterns[1..];
    }
  }

  /** One capture per matching pattern, in the order of the pattern list. */
  lemma {:induction false} CapturesOfMatching(re: Engine, text: string, patterns: seq<string>)
    requires Captures(re, text, patterns).Some?
    ensures var caps := Captures(re, text, patterns).value;
      var ms := Matching(re, text, patterns);
      && |caps| == |ms|
      && forall j :: 0 <= j < |ms| ==>
           |Hit(re, text, ms[j]).value.groups| > 0 && caps[j] == Hit(re, text, ms[j]).value.groups[0]
  {
    if patterns != [] {
      CapturesOfMatching(re, text, patterns[1..]);
    }
  }

  /** The first capture is the one of the first pattern that matches. */
  lemma {:induction false} CapturesFirst(re: Engine, text: string, patterns: seq<string>, k: nat)
    requires k < |patterns| && Hit(re, text, patterns[k]).Some?
    requires forall j :: 0 <= j < k ==> Hit(re, text, patterns[j]).None?
    requires Captures(re, text, patterns).Some?
    ensures |Hit(re, text, patterns[k]).value.groups| > 0
    ensures |Captures(re, text, patterns).value| > 0
    ensures Captures(re, text, patterns).value[0] == Hit(re, text, patterns[k]).value.groups[0]
  {
    if k > 0 {
      CapturesFirst(re, text, patterns[1..], k - 1);
    }
  }

  /** Without a matching pattern there is no capture. */
  lemma {:induction false} CapturesNone(re: Engine, text: string, patterns: seq<string>)
    requires forall j :: 0 <= j < |patterns| ==> Hit(re, text, patterns[j]).None?
    ensures Captures(re, text, patterns) == Some([])
  {
    if patterns != [] {
      CapturesNone(re, text, patterns[1..]);
    }
  }

  // ---------------------------------------------------------------------
  // validate_date
  // ---------------------------------------------------------------------

  /** `validate_date` as written: `datetime.strptime` is looked up on the
      `datetime` module, which has no such attribute, so every call raises
      `AttributeError`, which the `except ValueError` does not catch. */
  function ValidateDateAsWritten(dateText: string): (r: Option<bool>)
    ensures r.None?
  {
    None
  }

  /** Index of the first `c` in `s`, or `|s|`. */
  function IndexOf(s: string, c: char): (k: nat)
    ensures k <= |s| && c !in s[..k]
    ensures k < |s| ==> s[k] == c
  {
    if s == [] then 0
    else if s[0] == c then 0
    else
      var k := 1 + IndexOf(s[1..], c);
      assert s[..k] == [s[0]] + s[1..][..k - 1];
      k
  }

  lemma IndexOfIs(s: string, c: char, k: nat)
    requires k < |s| && s[k] == c && forall i :: 0 <= i < k ==> s[i] != c
    ensures IndexOf(s, c) == k
  {
  }

  /** A day as `%d` reads it: one or two digits from 1 to 31, or a space
      and a non-zero digit. */
  predicate DayToken(t: string) {
    || ((|t| == 1 || |t| == 2) && AllDigits(t) && 1 <= DigitsValue(t) <= 31)
    || (|t| == 2 && t[0] == ' ' && '1' <= t[1] <= '9')
  }

  function DayValue(t: string): nat
    requires DayToken(t)
  {
    if t[0] == ' ' then DigitValue(t[1]) else DigitsValue(t)
  }

  /** A month as `%m` reads it: one or two digits from 1 to 12. */
  predicate MonthToken(t: string) {
    (|t| == 1 || |t| == 2) && AllDigits(t) && 1 <= DigitsValue(t) <= 12
  }

  predicate LeapYear(y: nat) {
    y % 4 == 0 && (y % 100 != 0 || y % 400 == 0)
  }

  function DaysInMonth(m: nat, y: nat): nat
    requires 1 <= m <= 12
  {
    if m == 2 then (if LeapYear(y) then 29 else 28)
    else if m == 4 || m == 6 || m == 9 || m == 11 then 30
    else 31
  }

  /** A day that exists in the proleptic Gregorian calendar `datetime` uses. */
  predicate CalendarDate(d: nat, m: nat, y: nat) {
    1 <= y && 1 <= m <= 12 && 1 <= d <= DaysInMonth(m, y)
  }

  /** `validate_date` as evidently intended: `datetime.datetime.strptime`
      with the format "%d/%m/%Y" accepts the text, that is, a day, a slash,
      a month, a slash and four year digits naming a real date. */
  predicate ValidateDate(dateText: string)
    ensures ValidateDate(dateText) ==> 8 <= |dateText| <= 10 && '/' in dateText
  {
    var i := IndexOf(dateText, '/');
    var rest := if i < |dateText| then dateText[i + 1..] else "";
    var j := IndexOf(rest, '/');
    && i < |dateText| && j < |rest|
    && DayToken(dateText[..i]) && MonthToken(rest[..j])
    && |rest[j + 1..]| == 4 && AllDigits(rest[j + 1..])
    && CalendarDate(DayValue(dateText[..i]), DigitsValue(rest[..j]), DigitsValue(rest[j + 1..]))
  }

  /** A date written `dd/mm/yyyy` with ASCII digits, the shape the date
      patterns capture, is accepted exactly when it names a real day. */
  lemma ValidateDateDigits(dd: string, mm: string, yyyy: string)
    requires |dd| == 2 && |mm| == 2 && |yyyy| == 4
    requires AllDigits(dd) && AllDigits(mm) && AllDigits(yyyy)
    ensures ValidateDate(dd + "/" + mm + "/" + yyyy) <==>
      CalendarDate(DigitsValue(dd), DigitsValue(mm), DigitsValue(yyyy))
  {
    DateSlashes(dd, mm, yyyy);
    assert dd[0] != ' ';
  }

  /** The slashes of `dd/mm/yyyy` sit after the day and after the month. */
  lemma DateSlashes(dd: string, mm: string, yyyy: string)
    requires |dd| == 2 && |mm| == 2
    requires AllDigits(dd) && AllDigits(mm)
    ensures var s := dd + "/" + mm + "/" + yyyy;
      && IndexOf(s, '/') == 2 && s[..2] == dd && s[3..] == mm + "/" + yyyy
      && IndexOf(mm + "/" + yyyy, '/') == 2 && (mm + "/" + yyyy)[..2] == mm && (mm + "/" + yyyy)[3..] == yyyy
  {
    var s := dd + "/" + mm + "/" + yyyy;
    IndexOfIs(s, '/', 2);
    var rest := s[3..];
    assert rest == mm + "/" + yyyy;
    IndexOfIs(rest, '/', 2);
    assert s[..2] == dd && rest[..2] == mm && rest[3..] == yyyy;
  }

  /** Dates with a two-digit year, which several date patterns capture,
      are never accepted. */
  lemma TwoDigitYearRejected(dd: string, mm: string, yy: string)
    requires |dd| == 2 && |mm| == 2 && |yy| == 2
    requires AllDigits(dd) && AllDigits(mm) && AllDigits(yy)
    ensures !ValidateDate(dd + "/" + mm + "/" + yy)
  {
    var s := dd + "/" + mm + "/" + yy;
    IndexOfIs(s, '/', 2);
    var rest := s[3..];
    assert rest == mm + "/" + yy;
    IndexOfIs(rest, '/', 2);
    assert |rest[3..]| == 2;
  }

  /** The 29th of February exists only in leap years. */
  lemma LeapDay(y: nat)
    requires y >= 1
    ensures CalendarDate(29, 2, y) <==> LeapYear(y)
  {
  }

  // ---------------------------------------------------------------------
  // The input and the five extractions
  // ---------------------------------------------------------------------

  /** The input as text: a string is kept, any other value goes through
      `str()`, given here as `repr`. */
  function InputText(repr: Json -> string, data: Json): string {
    if data.JStr? then data.s else repr(data)
  }

  /** `xs[0] if xs else None`. */
  function FirstOrNull(caps: seq<Option<string>>): (r: Json)
    ensures r == JNull || r.JStr?
    ensures caps == [] ==> r == JNull
  {
    if caps == [] || caps[0].None? then JNull else JStr(caps[0].value)
  }

  const FieldKeys: seq<string> := ["date", "address", "consumption", "period", "cost"]

  /** The five extractions, in the order the converter runs them. */
  datatype Extracted = Extracted(
    date: seq<Option<string>>,
    address: seq<Option<string>>,
    consumption: seq<Option<string>>,
    period: seq<Option<string>>,
    cost: seq<Option<string>>)

  /** The five `extract_data` calls on a cleaned text; `None` when one
      raises. */
  function ExtractFrom(re: Engine, text: string): (r: Option<Extracted>)
    ensures r.Some? ==>
              && |r.value.date| <= |PatternsFor("date")| && |r.value.address| <= |PatternsFor("address")|
              && |r.value.consumption| <= |PatternsFor("consumption")| && |r.value.period| <= |PatternsFor("period")|
              && |r.value.cost| <= |PatternsFor("cost")|
  {
    var date := ExtractData(re, text, "date");
    var address := ExtractData(re, text, "address");
    var consumption := ExtractData(re, text, "consumption");
    var period := ExtractData(re, text, "period");
    var cost := ExtractData(re, text, "cost");
    if date.None? || address.None? || consumption.None? || period.None? || cost.None? then None
    else Some(Extracted(date.value, address.value, consumption.value, period.value, cost.value))
  }

  /** Cleaning and the five `extract_data` calls: they raise exactly when
      some pattern matches the cleaned text without a capture group. */
  function ExtractAll(re: Engine, repr: Json -> string, data: Json): (r: Option<Extracted>)
    ensures var text := CleanText(InputText(repr, data));
      r.None? <==> exists p :: p in AllKinds() && Hit(re, text, p).Some? && |Hit(re, text, p).value.groups| == 0
  {
    var text := CleanText(InputText(repr, data));
    ExtractFromRaises(re, text);
    ExtractFrom(re, text)
  }

  /** The five extractions raise exactly when some pattern of one of the
      five kinds matches the text without a capture group. */
  lemma ExtractFromRaises(re: Engine, text: string)
    ensures ExtractFrom(re, text).None? <==>
        exists p :: p in AllKinds() && Hit(re, text, p).Some? && |Hit(re, text, p).value.groups| == 0
  {
    var d, a, c, pe, co := PatternsFor("date"), PatternsFor("address"), PatternsFor("consumption"),
                           PatternsFor("period"), PatternsFor("cost");
    assert ExtractFrom(re, text).None? <==>
      Captures(re, text, d).None? || Captures(re, text, a).None? || Captures(re, text, c).None?
      || Captures(re, text, pe).None? || Captures(re, text, co).None?;
    CapturesRaise(re, text, d);
    CapturesRaise(re, text, a);
    CapturesRaise(re, text, c);
    CapturesRaise(re, text, pe);
    CapturesRaise(re, text, co);
    assert forall p :: p in AllKinds() <==> p in d || p in a || p in c || p in pe || p in co;
  }

  /** The patterns of the five kinds `convert_data_to_json` extracts. */
  function AllKinds(): seq<string> {
    PatternsFor("date") + PatternsFor("address") + PatternsFor("consumption") + PatternsFor("period") + PatternsFor("cost")
  }

  // ---------------------------------------------------------------------
  // The cost field
  // ---------------------------------------------------------------------

  /** `"{:.2f}".format(float(t))`: the number `t` denotes, rendered with two
      decimals, or `None` where `float` raises `ValueError`. Floating point
      is not part of this model, so the rendering is a parameter. */
  type TwoPlaces = string -> Option<string>

  /** The text handed to `float`, as written: when the capture holds a
      thousands dot its dots are dropped and its comma becomes the point;
      otherwise every comma is dropped. */
  function CostTextAsWritten(re: Engine, s: string): (r: string)
    ensures ',' !in r
    ensures Search(re, ThousandsDot, NoFlags, s).None? && ',' !in s ==> r == s
  {
    ReplaceChars(s, ',', "");
    ReplaceChars(Replace(s, '.', ""), ',', ".");
    if Search(re, ThousandsDot, NoFlags, s).Some? then Replace(Replace(s, '.', ""), ',', ".")
    else Replace(s, ',', "")
  }

  /** The text handed to `float`, as evidently intended: without a
      thousands dot the comma is the decimal point, as it is with one. */
  function CostText(re: Engine, s: string): (r: string)
    ensures ',' !in r
    ensures Search(re, ThousandsDot, NoFlags, s).Some? ==> r == CostTextAsWritten(re, s)
    ensures Search(re, ThousandsDot, NoFlags, s).None? && ',' !in s ==> r == CostTextAsWritten(re, s)
  {
    ReplaceChars(s, ',', ".");
    ReplaceChars(Replace(s, '.', ""), ',', ".");
    if Search(re, ThousandsDot, NoFlags, s).Some? then Replace(Replace(s, '.', ""), ',', ".")
    else Replace(s, ',', ".")
  }

  /** The `cost` field, given how a capture becomes the text handed to
      `float`: `None` (JSON null) without a capture; a capture that did not
      take part makes `re.search` raise `TypeError`, and so does a text
      `float` rejects. */
  function CostField(caps: seq<Option<string>>, toFloat: string -> string, fmt: TwoPlaces): (r: Option<Json>)
    ensures caps == [] ==> r == Some(JNull)
    ensures caps != [] && caps[0].None? ==> r.None?
    ensures r.Some? ==> r.value == JNull || r.value.JStr?
  {
    if caps == [] then Some(JNull)
    else if caps[0].None? then None
    else
      match fmt(toFloat(caps[0].value))
      case None => None
      case Some(f) => Some(JStr(f))
  }

  /** A lone decimal comma, as in "45,50", as written: the comma is
      dropped, so `float` reads the digits as a whole number, ten to the
      number of decimals times too large. */
  lemma {:induction false} CommaCostAsWritten(re: Engine, w: string, f: string)
    requires AllDigits(w) && AllDigits(f) && |w| > 0 && |f| > 0
    requires Search(re, ThousandsDot, NoFlags, w + "," + f).None?
    ensures CostTextAsWritten(re, w + "," + f) == w + f
    ensures ParseDecimal(CostTextAsWritten(re, w + "," + f)) == Some(Decimal(false, DigitsValue(w + f), 0))
  {
    BillParser.NotInNumber(w, "", "", ',');
    BillParser.NotInNumber(f, "", "", ',');
    assert w + "" + "" == w && f + "" + "" == f;
    assert w + "," + f == w + [','] + f;
    ReplaceOnce(w, f, ',', "");
    assert w + "" + f == w + f;
    assert AllDigits(w + f);
    ParseWithoutPoint("", w + f);
    assert "" + (w + f) == w + f;
  }

  /** A lone decimal comma, as intended: it reads as the decimal point. */
  lemma {:induction false} CommaCost(re: Engine, w: string, f: string)
    requires AllDigits(w) && AllDigits(f) && |w| > 0
    requires Search(re, ThousandsDot, NoFlags, w + "," + f).None?
    ensures CostText(re, w + "," + f) == w + "." + f
    ensures ParseDecimal(CostText(re, w + "," + f)) == Some(Decimal(false, DigitsValue(w + f), |f|))
  {
    BillParser.CommaToPoint(w, f);
    ParsePlainPoint(w, f);
  }

  /** With a thousands dot, as in "1.234,56", both readings agree: the dots
      go and the comma is the point. */
  lemma {:induction false} ThousandsCost(re: Engine, a: string, b: string, f: string)
    requires AllDigits(a) && AllDigits(b) && AllDigits(f) && |a| > 0
    requires Search(re, ThousandsDot, NoFlags, a + "." + b + "," + f).Some?
    ensures CostTextAsWritten(re, a + "." + b + "," + f) == CostText(re, a + "." + b + "," + f) == a + b + "." + f
    ensures ParseDecimal(CostText(re, a + "." + b + "," + f)) == Some(Decimal(false, DigitsValue(a + b + f), |f|))
  {
    BillParser.DropThousandsDot(a, b, f);
    assert AllDigits(a + b);
    BillParser.CommaToPoint(a + b, f);
    ParsePlainPoint(a + b, f);
    assert a + b + f == (a + b) + f;
  }

  // ---------------------------------------------------------------------
  // convert_data_to_json
  // ---------------------------------------------------------------------

  /** The returned dict, given the values of the `date` and `cost` fields. */
  function Fields(x: Extracted, date: Json, cost: Json): (r: Json)
    ensures r.JObj? && |r.fields| == 5
    ensures forall i :: 0 <= i < 5 ==> r.fields[i].0 == FieldKeys[i]
  {
    JObj([
      ("date", date),
      ("address", FirstOrNull(x.address)),
      ("consumption", FirstOrNull(x.consumption)),
      ("period", FirstOrNull(x.period)),
      ("cost", cost)])
  }

  /** The end of `convert_data_to_json` as written, after the extractions:
      a date capture is handed to `validate_date`, which raises, and a cost
      with a lone decimal comma loses the comma. */
  function FinishAsWritten(re: Engine, fmt: TwoPlaces, x: Extracted): (r: Option<Json>)
    ensures r.Some? ==> r.value.JObj? && |r.value.fields| == 5
  {
    var checked := if x.date == [] then Some(false) else ValidateDateAsWritten(x.date[0].GetOr(""));
    match checked
    case None => None
    case Some(ok) =>
      match CostField(x.cost, s => CostTextAsWritten(re, s), fmt)
      case None => None
      case Some(cost) => Some(Fields(x, if ok then FirstOrNull(x.date) else JNull, cost))
  }

  /** The end of `convert_data_to_json` with `validate_date` and the cost
      reading as intended. A date capture that did not take part (`None`)
      makes `strptime` raise `TypeError`. */
  function Finish(re: Engine, fmt: TwoPlaces, x: Extracted): (r: Option<Json>)
    ensures r.Some? ==> r.value.JObj? && |r.value.fields| == 5
  {
    if x.date != [] && x.date[0].None? then None
    else
      var date := if x.date != [] && ValidateDate(x.date[0].value) then JStr(x.date[0].value) else JNull;
      match CostField(x.cost, s => CostText(re, s), fmt)
      case None => None
      case Some(cost) => Some(Fields(x, date, cost))
  }

  /** `convert_data_to_json` as written. */
  function ConvertDataToJsonAsWritten(re: Engine, fmt: TwoPlaces, repr: Json -> string, data: Json): (r: Option<Json>)
    ensures ExtractAll(re, repr, data).None? ==> r.None?
  {
    var x := ExtractAll(re, repr, data);
    if x.None? then None else FinishAsWritten(re, fmt, x.value)
  }

  /** `convert_data_to_json` with `validate_date` and the cost reading as
      intended. */
  function ConvertDataToJson(re: Engine, fmt: TwoPlaces, repr: Json -> string, data: Json): (r: Option<Json>)
    ensures ExtractAll(re, repr, data).None? ==> r.None?
  {
    var x := ExtractAll(re, repr, data);
    if x.None? then None else Finish(re, fmt, x.value)
  }

  /** The written converter returns only when no date pattern matches and
      the cost can be read, and then its `date` field is `None`. */
  lemma AsWrittenRaisesOnDate(re: Engine, fmt: TwoPlaces, x: Extracted)
    ensures FinishAsWritten(re, fmt, x).Some? <==>
      x.date == [] && (x.cost == [] || (x.cost[0].Some? && fmt(CostTextAsWritten(re, x.cost[0].value)).Some?))
    ensures FinishAsWritten(re, fmt, x).Some? ==> FinishAsWritten(re, fmt, x).value.fields[0] == ("date", JNull)
  {
  }

  /** The intended converter returns the five keys in order: the date only
      when it names a real day, the cost as the two-decimal rendering of the
      number read from the first capture, each other field `None` or the
      first capture of its kind. It raises only on a date or cost capture
      that did not take part, or on a cost `float` rejects. */
  lemma FinishFields(re: Engine, fmt: TwoPlaces, x: Extracted)
    ensures Finish(re, fmt, x).None? <==>
      || (x.date != [] && x.date[0].None?)
      || (x.cost != [] && (x.cost[0].None? || fmt(CostText(re, x.cost[0].value)).None?))
    ensures Finish(re, fmt, x).Some? ==>
      var f := Finish(re, fmt, x).value.fields;
      && (forall i :: 0 <= i < 5 ==> f[i].0 == FieldKeys[i])
      && f[1].1 == FirstOrNull(x.address)
      && f[2].1 == FirstOrNull(x.consumption)
      && f[3].1 == FirstOrNull(x.period)
      && (f[4].1 == if x.cost == [] then JNull else JStr(fmt(CostText(re, x.cost[0].value)).value))
      && (f[0].1 != JNull <==> x.date != [] && ValidateDate(x.date[0].value))
      && (f[0].1 != JNull ==> f[0].1 == JStr(x.date[0].value))
  {
  }

  /** Where a date is captured and the cost can be read, the written
      converter raises while the intended one returns the five fields. */
  lemma DateCaptureDiverges(re: Engine, fmt: TwoPlaces, x: Extracted)
    requires x.date != [] && x.date[0].Some?
    requires x.cost == []
    ensures FinishAsWritten(re, fmt, x).None?
    ensures Finish(re, fmt, x).Some?
  {
  }

  /** The text "Periodo 01/02/23" cleans to "PERIODO 01/02/23", where the
      `PERIODO` date pattern captures "01/02/23": the written converter
      raises, the intended one returns with `date` set to `None`, since a
      two-digit year is not read by "%Y". */
  lemma PeriodoDateWitness(re: Engine, fmt: TwoPlaces, x: Extracted)
    requires x.date == [Some("01/02/23")] && x.cost == []
    ensures FinishAsWritten(re, fmt, x).None?
    ensures Finish(re, fmt, x).Some? && Finish(re, fmt, x).value.fields[0] == ("date", JNull)
  {
    PeriodoDateRejected();
    assert CostField(x.cost, s => CostText(re, s), fmt) == Some(JNull);
  }

  /** "01/02/23" is not a `%d/%m/%Y` date. */
  lemma PeriodoDateRejected()
    ensures !ValidateDate("01/02/23")
  {
    TwoDigitYearRejected("01", "02", "23");
    assert "01" + "/" + "02" + "/" + "23" == "01/02/23";
  }
}
