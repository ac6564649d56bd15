/**
 * The generic bill parser: named lists of regular expressions, tried in
 * order, pull fields, charges, installments, service details, the address
 * and the consumption figures out of a bill's text; amounts become exact
 * decimals and the result keeps only the fields that were found.
 */
module BillParser {
  import opened Wrappers
  import opened PyStr
  import opened Decimals
  import opened Dicts
  import opened JsonValues
  import opened Regex
  import opened BillPatterns

  /** The apartment pattern `extract_address` searches for on its own. */
  const ApartmentPattern: string := @"Dpto:(\d{2}-\d{2})"

  // ---------------------------------------------------------------------
  // extract_field

  /** What one pattern yields: its group 1, stripped, when the pattern
      matches and the group took part; `None` where `extract_field` moves on
      (no match, or an `AttributeError`/`IndexError` on the group). */
  function FieldCandidate(re: Engine, text: string, pattern: string): (r: Option<string>)
    ensures var m := Search(re, pattern, MultilineIgnoreCase, text);
      r.None? <==> m.None? || Group(m.value, 1).None?
  {
    match Search(re, pattern, MultilineIgnoreCase, text)
    case None => None
    case Some(m) =>
      match Group(m, 1)
      case None => None
      case Some(g) => Some(Strip(g))
  }

  /** `extract_field`: the candidate of the first pattern, in list order,
      that yields one; `default` when none does. */
  function ExtractField(re: Engine, text: string, patterns: seq<string>, default: Option<string>): (r: Option<string>)
    ensures patterns == [] ==> r == default
  {
    if patterns == [] then default
    else
      match FieldCandidate(re, text, patterns[0])
      case Some(v) => Some(v)
      case None => ExtractField(re, text, patterns[1..], default)
  }

  /** The first pattern that yields a candidate decides the field. */
  lemma {:induction false} ExtractFieldFirstMatch(re: Engine, text: string, patterns: seq<string>, k: nat, default: Option<string>)
    requires k < |patterns| && FieldCandidate(re, text, patterns[k]).Some?
    requires forall j :: 0 <= j < k ==> FieldCandidate(re, text, patterns[j]).None?
    ensures ExtractField(re, text, patterns, default) == FieldCandidate(re, text, patterns[k])
  {
    if k > 0 {
      assert FieldCandidate(re, text, patterns[0]).None?;
      forall j | 0 <= j < k - 1
        ensures FieldCandidate(re, text, patterns[1..][j]).None?
      {
        assert patterns[1..][j] == patterns[j + 1];
      }
      ExtractFieldFirstMatch(re, text, patterns[1..], k - 1, default);
    }
  }

  /** When no pattern yields a candidate the default is returned. */
  lemma {:induction false} ExtractFieldNoMatch(re: Engine, text: string, patterns: seq<string>, default: Option<string>)
    requires forall j :: 0 <= j < |patterns| ==> FieldCandidate(re, text, patterns[j]).None?
    ensures ExtractField(re, text, patterns, default) == default
  {
    if patterns != [] {
      assert FieldCandidate(re, text, patterns[0]).None?;
      forall j | 0 <= j < |patterns| - 1
        ensures FieldCandidate(re, text, patterns[1..][j]).None?
      {
        assert patterns[1..][j] == patterns[j + 1];
      }
      ExtractFieldNoMatch(re, text, patterns[1..], default);
    }
  }

  /** A pattern appended to a list is consulted only after every earlier
      pattern has failed: it can only replace the default. */
  lemma {:induction false} ExtractFieldAppend(re: Engine, text: string, patterns: seq<string>, p: string, default: Option<string>)
    ensures ExtractField(re, text, patterns + [p], default)
         == ExtractField(re, text, patterns, ExtractField(re, text, [p], default))
  {
    if patterns == [] {
      assert patterns + [p] == [p];
    } else {
      assert (patterns + [p])[0] == patterns[0];
      assert (patterns + [p])[1..] == patterns[1..] + [p];
      ExtractFieldAppend(re, text, patterns[1..], p, default);
    }
  }

  // ---------------------------------------------------------------------
  // safe_decimal_convert

  /** The locale normalisation: with both separators the dots are thousands
      separators and the comma is the decimal point; a lone comma is the
      decimal point; a lone dot is kept. */
  function NormaliseNumber(v: string): (r: string)
    ensures ',' !in r
    ensures ',' !in v ==> r == v
  {
    ReplaceChars(v, ',', ".");
    ReplaceChars(Replace(v, '.', ""), ',', ".");
    if ',' in v && '.' in v then Replace(Replace(v, '.', ""), ',', ".")
    else if ',' in v then Replace(v, ',', ".")
    else v
  }

  /** `safe_decimal_convert`: `None` for a missing or empty value and for a
      string the decimal grammar rejects; it never raises. */
  function SafeDecimalConvert(value: Option<string>): (r: Option<Decimal>)
    ensures value.None? || value == Some("") ==> r.None?
  {
    if value.None? || value.value == "" then None
    else ParseDecimal(NormaliseNumber(Strip(value.value)))
  }

  /** A value is converted exactly when its stripped, normalised text is a
      decimal literal. */
  lemma SafeDecimalAccepts(v: string)
    requires v != ""
    ensures SafeDecimalConvert(Some(v)).Some? <==> IsDecimalLiteral(NormaliseNumber(Strip(v)))
  {
    ParseDecimalAccepts(NormaliseNumber(Strip(v)));
  }

  /** A character that is neither a digit nor in `sep` does not occur in
      digits, `sep`, digits. */
  lemma {:induction false} NotInNumber(w: string, sep: string, f: string, c: char)
    requires AllDigits(w) && AllDigits(f) && !IsDigit(c) && c !in sep
    ensures c !in w + sep + f
  {
    var s := w + sep + f;
    forall i | 0 <= i < |s|
      ensures s[i] != c
    {
      if i < |w| {
        assert s[i] == w[i];
      } else if i < |w| + |sep| {
        assert s[i] == sep[i - |w|];
      } else {
        assert s[i] == f[i - |w| - |sep|];
      }
    }
  }

  /** Digits around a separator neither start nor end with whitespace. */
  lemma {:induction false} NumberIsStripped(w: string, sep: string, f: string)
    requires AllDigits(w) && AllDigits(f) && |w| > 0 && |f| > 0
    ensures Strip(w + sep + f) == w + sep + f
  {
    var s := w + sep + f;
    assert s[0] == w[0] && s[|s| - 1] == f[|f| - 1];
    StripUnchanged(s);
  }

  /** Once the number is known to be stripped, the conversion is the parse of
      its normalised form. */
  lemma {:induction false} SafeDecimalOfNormalised(s: string, n: string)
    requires s != "" && Strip(s) == s && NormaliseNumber(s) == n
    ensures SafeDecimalConvert(Some(s)) == ParseDecimal(n)
  {
  }

  /** Dropping the thousands dot of digits, dot, digits, comma, digits. */
  lemma {:induction false} DropThousandsDot(a: string, b: string, f: string)
    requires AllDigits(a) && AllDigits(b) && AllDigits(f)
    ensures Replace(a + "." + b + "," + f, '.', "") == a + b + "," + f
  {
    NotInNumber(a, "", "", '.');
    NotInNumber(b, ",", f, '.');
    assert a + "" + "" == a;
    assert a + "." + b + "," + f == a + ['.'] + (b + "," + f);
    ReplaceOnce(a, b + "," + f, '.', "");
  }

  /** Turning the decimal comma of digits, comma, digits into a point. */
  lemma {:induction false} CommaToPoint(w: string, f: string)
    requires AllDigits(w) && AllDigits(f)
    ensures Replace(w + "," + f, ',', ".") == w + "." + f
  {
    NotInNumber(w, "", "", ',');
    NotInNumber(f, "", "", ',');
    assert w + "" + "" == w && f + "" + "" == f;
    assert w + "," + f == w + [','] + f;
    ReplaceOnce(w, f, ',', ".");
  }

  /** "1.234,56" is stripped already and normalises to "1234.56". */
  lemma {:induction false} ThousandsNormalised(s: string, a: string, b: string, f: string)
    requires AllDigits(a) && AllDigits(b) && AllDigits(f) && |a| > 0 && |f| > 0
    requires s == a + "." + b + "," + f
    ensures Strip(s) == s && NormaliseNumber(s) == a + b + "." + f
  {
    assert s == a + ("." + b + ",") + f;
    NumberIsStripped(a, "." + b + ",", f);
    assert s[|a|] == '.' && s[|a| + 1 + |b|] == ',';
    DropThousandsDot(a, b, f);
    assert AllDigits(a + b);
    CommaToPoint(a + b, f);
  }

  /** A number with dots for thousands and a decimal comma, as in
      "1.234,56", reads as the digits with the comma as the point. */
  lemma {:induction false} SafeDecimalThousands(s: string, a: string, b: string, f: string)
    requires AllDigits(a) && AllDigits(b) && AllDigits(f) && |a| > 0 && |f| > 0
    requires s == a + "." + b + "," + f
    ensures SafeDecimalConvert(Some(s)) == Some(Decimal(false, DigitsValue(a + b + f), |f|))
  {
    ThousandsNormalised(s, a, b, f);
    SafeDecimalOfNormalised(s, a + b + "." + f);
    assert AllDigits(a + b);
    ParsePlainPoint(a + b, f);
    assert a + b + f == (a + b) + f;
  }

  /** A lone decimal comma, as in "45,00", reads as a decimal point. */
  lemma {:induction false} SafeDecimalComma(s: string, w: string, f: string)
    requires AllDigits(w) && AllDigits(f) && |w| > 0 && |f| > 0
    requires s == w + "," + f
    ensures SafeDecimalConvert(Some(s)) == Some(Decimal(false, DigitsValue(w + f), |f|))
  {
    NumberIsStripped(w, ",", f);
    assert s[|w|] == ',';
    NotInNumber(w, ",", f, '.');
    CommaToPoint(w, f);
    var n := w + "." + f;
    SafeDecimalOfNormalised(s, n);
    ParsePlainPoint(w, f);
  }

  /** A lone dot is left alone: "1.234" is one point two three four. */
  lemma {:induction false} SafeDecimalDot(s: string, w: string, f: string)
    requires AllDigits(w) && AllDigits(f) && |w| > 0 && |f| > 0
    requires s == w + "." + f
    ensures SafeDecimalConvert(Some(s)) == Some(Decimal(false, DigitsValue(w + f), |f|))
  {
    NumberIsStripped(w, ".", f);
    NotInNumber(w, ".", f, ',');
    assert NormaliseNumber(s) == s;
    ParsePlainPoint(w, f);
  }

  /** "N/A" is not in the decimal grammar. */
  lemma {:induction false} NotANumberRejected()
    ensures ParseDecimal("N/A") == None
  {
    var s := "N/A";
    ParseDecimalAccepts(s);
    assert Unsigned(s) == s && !IsDigit(s[0]) && s[0] != '.';
  }

  /** Text that is not a number gives `None` instead of raising. */
  lemma {:induction false} SafeDecimalNotANumber()
    ensures SafeDecimalConvert(Some("N/A")) == None
  {
    StripUnchanged("N/A");
    assert NormaliseNumber("N/A") == "N/A";
    SafeDecimalOfNormalised("N/A", "N/A");
    NotANumberRejected();
  }

  // ---------------------------------------------------------------------
  // Matches of a pattern list

  /** Every match of every pattern, pattern by pattern in list order and
      match by match within a pattern, as the nested `for` loops visit them. */
  function AllMatches(re: Engine, patterns: seq<string>, flags: Flags, text: string): (r: seq<Match>)
    ensures patterns == [] ==> r == []
  {
    if patterns == [] then []
    else AllMatches(re, patterns[..|patterns| - 1], flags, text) + re(patterns[|patterns| - 1], flags, text)
  }

  /** A group value as JSON: the text, or `null` for a group that did not
      take part. */
  function OptStr(g: Option<string>): (r: Json)
    ensures g.Some? <==> r.JStr?
  {
    if g.Some? then JStr(g.value) else JNull
  }

  // ---------------------------------------------------------------------
  // extract_charges

  /** The characters of `s` that are ASCII digits, '.' or '-', in order. */
  function KeepNumeric(s: string): (r: string)
    ensures |r| <= |s|
  {
    if s == [] then []
    else (if IsDigit(s[0]) || s[0] == '.' || s[0] == '-' then [s[0]] else []) + KeepNumeric(s[1..])
  }

  predicate NumericChars(s: string) {
    forall i :: 0 <= i < |s| ==> IsDigit(s[i]) || s[i] == '.' || s[i] == '-'
  }

  /** The filter keeps exactly the numeric characters: its result is made of
      them, a string made of them passes unchanged, and a single character
      is kept exactly when it is numeric; with `KeepNumericAppend`, every
      numeric character of `s` is kept, in order. */
  lemma {:induction false} KeepNumericFilters(s: string)
    ensures NumericChars(KeepNumeric(s))
    ensures NumericChars(s) ==> KeepNumeric(s) == s
    ensures |s| == 1 ==> (KeepNumeric(s) == s <==> NumericChars(s)) && (KeepNumeric(s) == [] <==> !NumericChars(s))
  {
    if |s| == 1 {
      assert KeepNumeric(s) == (if IsDigit(s[0]) || s[0] == '.' || s[0] == '-' then [s[0]] else []) + KeepNumeric([]);
      assert s == [s[0]];
    }

    if s != [] {
      KeepNumericFilters(s[1..]);
      var head := if IsDigit(s[0]) || s[0] == '.' || s[0] == '-' then [s[0]] else [];
      var r := head + KeepNumeric(s[1..]);
      forall i | 0 <= i < |r|
        ensures IsDigit(r[i]) || r[i] == '.' || r[i] == '-'
      {
        if i >= |head| {
          assert r[i] == KeepNumeric(s[1..])[i - |head|];
        }
      }
      if NumericChars(s) {
        assert NumericChars(s[1..]) by {
          forall i | 0 <= i < |s| - 1
            ensures IsDigit(s[1..][i]) || s[1..][i] == '.' || s[1..][i] == '-'
          {
            assert s[1..][i] == s[i + 1];
          }
        }
        assert s == [s[0]] + s[1..];
      }
    }
  }

  /** Filtering a concatenation is concatenating the filtered parts. */
  lemma {:induction false} KeepNumericAppend(a: string, b: string)
    ensures KeepNumeric(a + b) == KeepNumeric(a) + KeepNumeric(b)
    decreases |a|
  {
    if a != [] {
      assert (a + b)[0] == a[0];
      assert (a + b)[1..] == a[1..] + b;
      KeepNumericAppend(a[1..], b);
    } else {
      assert a + b == b;
    }
  }

  /** The amount text `extract_charges` hands to `Decimal`: commas become
      points, the result is stripped and filtered, and an empty amount reads
      as "0". */
  function ChargeAmountText(g: Option<string>): (r: string)
    ensures r != ""
  {
    var s := if g.Some? && g.value != "" then Strip(Replace(g.value, ',', ".")) else "0";
    var kept := KeepNumeric(s);
    if kept == "" then "0" else kept
  }

  /** One match of a charges pattern: its concept and amount, or `None` where
      the loop moves on (a missing group or an amount `Decimal` rejects). */
  function ChargeOf(m: Match): Option<(string, Decimal)> {
    if |m.groups| < 2 then None
    else
      var g1 := m.groups[0];
      var concept := if g1.Some? && g1.value != "" then Strip(g1.value) else "";
      match ParseDecimal(ChargeAmountText(m.groups[1]))
      case None => None
      case Some(a) => Some((concept, a))
  }

  /** The charges dict after the given matches: each accepted match assigns
      its amount to its concept. */
  function ChargesFrom(ms: seq<Match>): seq<(string, Decimal)> {
    if ms == [] then [] else AddCharge(ChargesFrom(ms[..|ms| - 1]), ms[|ms| - 1])
  }

  /** One pass of the inner loop: an accepted match assigns its amount. */
  function AddCharge(charges: seq<(string, Decimal)>, m: Match): seq<(string, Decimal)> {
    match ChargeOf(m)
    case None => charges
    case Some(c) => Put(charges, c.0, c.1)
  }

  lemma ChargesSnoc(ms: seq<Match>, m: Match)
    ensures ChargesFrom(ms + [m]) == AddCharge(ChargesFrom(ms), m)
  {
    assert (ms + [m])[..|ms|] == ms;
  }

  /** The inner loop of `extract_charges`: the matches of one pattern, in
      order, assign their amounts to the charges found before them. */
  method AddCharges(charges0: seq<(string, Decimal)>, before: seq<Match>, ms: seq<Match>)
    returns (charges: seq<(string, Decimal)>)
    requires charges0 == ChargesFrom(before)
    ensures charges == ChargesFrom(before + ms)
  {
    charges := charges0;
    ghost var seen := before;
    var j := 0;
    while j < |ms|
      invariant 0 <= j <= |ms|
      invariant seen == before + ms[..j]
      invariant charges == ChargesFrom(seen)
    {
      assert AddCharge(charges, ms[j]) == ChargesFrom(seen + [ms[j]]) by {
        ChargesSnoc(seen, ms[j]);
      }
      charges := AddCharge(charges, ms[j]);
      assert ms[..j + 1] == ms[..j] + [ms[j]];
      seen := seen + [ms[j]];
      j := j + 1;
    }
    assert ms[..j] == ms;
  }

  /** The amount of the last accepted match carrying `concept`. */
  function LastCharge(ms: seq<Match>, concept: string): Option<Decimal> {
    if ms == [] then None
    else
      var c := ChargeOf(ms[|ms| - 1]);
      if c.Some? && c.value.0 == concept then Some(c.value.1)
      else LastCharge(ms[..|ms| - 1], concept)
  }

  /** Later matches overwrite earlier ones: the amount stored under a concept
      is that of the last accepted match with that concept. */
  lemma {:induction false} ChargesLookup(ms: seq<Match>, concept: string)
    ensures Lookup(ChargesFrom(ms), concept) == LastCharge(ms, concept)
  {
    if ms != [] {
      ChargesLookup(ms[..|ms| - 1], concept);
      var c := ChargeOf(ms[|ms| - 1]);
      if c.Some? {
        assert AddCharge(ChargesFrom(ms[..|ms| - 1]), ms[|ms| - 1]) == Put(ChargesFrom(ms[..|ms| - 1]), c.value.0, c.value.1);
      }
    }
  }

  /** The labels of the charges dict are distinct, and there are no more
      of them than matches. */
  lemma {:induction false} ChargesUnique(ms: seq<Match>)
    ensures UniqueKeys(ChargesFrom(ms)) && |ChargesFrom(ms)| <= |ms|
  {
    if ms != [] {
      ChargesUnique(ms[..|ms| - 1]);
      var c := ChargeOf(ms[|ms| - 1]);
      if c.Some? {
        PutKeepsUnique(ChargesFrom(ms[..|ms| - 1]), c.value.0, c.value.1);
        PutKeys(ChargesFrom(ms[..|ms| - 1]), c.value.0, c.value.1);
      }
    }
  }

  lemma {:induction false} ThousandsCommaReplaced()
    ensures Replace("1.234,56", ',', ".") == "1.234.56"
  {
    var w, f := "1.234", "56";
    assert ',' !in w && ',' !in f;
    ReplaceOnce(w, f, ',', ".");
    assert w + [','] + f == "1.234,56";
    assert w + "." + f == "1.234.56";
  }

  lemma ThousandsNumeric()
    ensures NumericChars("1.234.56")
  {
  }

  /** When replacing the commas leaves only digits, points and minus signs,
      that replacement is the amount text. */
  lemma {:induction false} NumericAmountText(g: string, t: string)
    requires t == Replace(g, ',', ".") && t != "" && NumericChars(t)
    ensures ChargeAmountText(Some(g)) == t
  {
    assert g != "";
    assert !IsSpace(t[0]) && !IsSpace(t[|t| - 1]);
    StripUnchanged(t);
    KeepNumericFilters(t);
  }

  /** A second point makes the text invalid for `Decimal`. */
  lemma {:induction false} TwoPointsRejected()
    ensures ParseDecimal("1.234.56") == None
  {
    var t := "1.234.56";
    assert Unsigned(t) == t;
    FirstDotIs(t, 1);
    assert t[2..][3] == '.' && !AllDigits(t[2..]);
  }

  /** "1.234,56" becomes "1.234.56", which has two points: the charge is
      skipped. */
  lemma {:induction false} ChargeWithThousandsSkipped(concept: string)
    ensures ChargeOf(Match([Some(concept), Some("1.234,56")])) == None
  {
    ThousandsCommaReplaced();
    ThousandsNumeric();
    NumericAmountText("1.234,56", "1.234.56");
    TwoPointsRejected();
  }

  // ---------------------------------------------------------------------
  // extract_installments and extract_service_details

  /** The records built from the given matches, in order; `None` when
      building one raises, since neither loop catches anything. */
  function CollectFrom(ms: seq<Match>, build: Match -> Option<Json>): (r: Option<seq<Json>>)
    ensures r.Some? ==> |r.value| == |ms|
  {
    if ms == [] then Some([])
    else
      match CollectFrom(ms[..|ms| - 1], build)
      case None => None
      case Some(prev) =>
        match build(ms[|ms| - 1])
        case None => None
        case Some(x) => Some(prev + [x])
  }

  lemma CollectSnoc(ms: seq<Match>, m: Match, build: Match -> Option<Json>)
    ensures CollectFrom(ms + [m], build) ==
              match CollectFrom(ms, build)
              case None => None
              case Some(prev) => if build(m).None? then None else Some(prev + [build(m).value])
  {
    assert (ms + [m])[..|ms|] == ms;
  }

  /** One record per match, in match order, exactly when no match raises. */
  lemma {:induction false} CollectFromAll(ms: seq<Match>, build: Match -> Option<Json>)
    ensures CollectFrom(ms, build).Some? <==> forall i :: 0 <= i < |ms| ==> build(ms[i]).Some?
    ensures CollectFrom(ms, build).Some? ==>
              forall i :: 0 <= i < |ms| ==> CollectFrom(ms, build).value[i] == build(ms[i]).value
  {
    if ms != [] {
      var init := ms[..|ms| - 1];
      CollectFromAll(init, build);
      assert forall i :: 0 <= i < |init| ==> init[i] == ms[i];
    }
  }

  /** One match of the installments pattern: the due date (group 1) and the
      amount (group 2, commas as points); `None` where Python raises (a
      missing group, or an amount `Decimal` rejects). */
  function InstallmentOf(m: Match): (r: Option<Json>)
    ensures r.Some? ==> |m.groups| >= 2 && m.groups[1].Some?
  {
    if |m.groups| < 2 || m.groups[1].None? then None
    else
      match ParseDecimal(Strip(Replace(m.groups[1].value, ',', ".")))
      case None => None
      case Some(a) => Some(JObj([("due_date", OptStr(m.groups[0])), ("amount", JDec(a))]))
  }

  /** The group values of a match in which every group took part. */
  function GroupTexts(gs: seq<Option<string>>): (r: seq<string>)
    requires forall k :: 0 <= k < |gs| ==> gs[k].Some?
    ensures |r| == |gs| && forall k :: 0 <= k < |gs| ==> gs[k] == Some(r[k])
  {
    seq(|gs|, k requires 0 <= k < |gs| => gs[k].value)
  }

  /** One match of a service-details pattern. With two groups or more: the
      service (group 1) and the other groups joined by spaces, where a group
      that did not take part makes the join raise; with one group: just the
      description; with none, `match.group(1)` raises. */
  function DetailOf(m: Match): (r: Option<Json>)
    ensures |m.groups| == 1 ==> r == Some(JObj([("description", OptStr(m.groups[0]))]))
    ensures |m.groups| == 0 ==> r == None
    ensures |m.groups| >= 2 ==> (r.Some? <==> forall k :: 1 <= k < |m.groups| ==> m.groups[k].Some?)
  {
    var gs := m.groups;
    if |gs| >= 2 then
      if forall k :: 1 <= k < |gs| ==> gs[k].Some? then
        assert forall k :: 0 <= k < |gs[1..]| ==> gs[1..][k] == gs[k + 1];
        Some(JObj([("service", OptStr(gs[0])), ("description", JStr(Join(GroupTexts(gs[1..]), " ")))]))
      else None
    else if |gs| == 1 then Some(JObj([("description", OptStr(gs[0]))]))
    else None
  }

  // ---------------------------------------------------------------------
  // extract_address

  /** The `Address` dataclass; every field starts as `None`. */
  datatype Address = Address(
    street: Option<string>,
    number: Option<string>,
    floor: Option<string>,
    apartment: Option<string>,
    neighborhood: Option<string>,
    city: Option<string>,
    province: Option<string>,
    postalCode: Option<string>)

  const EmptyAddress: Address := Address(None, None, None, None, None, None, None, None)

  /** `address.__dict__`: the eight fields in declaration order. */
  function AddressToJson(a: Address): (r: Json)
    ensures r.JObj? && |r.fields| == 8
  {
    JObj([
      ("street", OptStr(a.street)),
      ("number", OptStr(a.number)),
      ("floor", OptStr(a.floor)),
      ("apartment", OptStr(a.apartment)),
      ("neighborhood", OptStr(a.neighborhood)),
      ("city", OptStr(a.city)),
      ("province", OptStr(a.province)),
      ("postal_code", OptStr(a.postalCode))])
  }

  /** A present, non-empty string: Python's truth test on `str | None`. */
  predicate Present(v: Option<string>) {
    v.Some? && v.value != ""
  }

  /** The street: all tokens but the last, joined by single spaces, when
      there are several tokens; otherwise the match itself. */
  function StreetOf(streetMatch: Option<string>): Option<string> {
    if !Present(streetMatch) then None
    else
      var parts := Split(streetMatch.value);
      if |parts| > 1 then Some(Join(parts[..|parts| - 1], " ")) else streetMatch
  }

  /** The number: the last token when there are several, otherwise none. */
  function NumberOf(streetMatch: Option<string>): Option<string> {
    if !Present(streetMatch) then None
    else
      var parts := Split(streetMatch.value);
      if |parts| > 1 then Some(parts[|parts| - 1]) else None
  }

  /** Splitting street and number loses no token: the street's own tokens
      followed by the number are the tokens of the match. */
  lemma {:induction false} StreetNumberSplit(streetMatch: Option<string>)
    requires Present(streetMatch) && |Split(streetMatch.value)| > 1
    ensures StreetOf(streetMatch).Some? && NumberOf(streetMatch).Some?
    ensures Split(StreetOf(streetMatch).value) + [NumberOf(streetMatch).value] == Split(streetMatch.value)
  {
    var parts := Split(streetMatch.value);
    RejoinAllButLast(parts);
  }

  /** Joining all words but the last and splitting again gives them back. */
  lemma {:induction false} RejoinAllButLast(parts: seq<string>)
    requires |parts| > 1 && forall k :: 0 <= k < |parts| ==> Word(parts[k])
    ensures Split(Join(parts[..|parts| - 1], " ")) + [parts[|parts| - 1]] == parts
  {
    var init, last := parts[..|parts| - 1], parts[|parts| - 1];
    assert init + [last] == parts;
    assert forall k :: 0 <= k < |init| ==> init[k] == parts[k];
    SplitJoin(init);
  }

  /** With a single token there is no number and the street is the match. */
  lemma StreetWithoutNumber(streetMatch: Option<string>)
    requires Present(streetMatch) && |Split(streetMatch.value)| <= 1
    ensures StreetOf(streetMatch) == streetMatch && NumberOf(streetMatch).None?
  {
  }

  const KnownCities: seq<string> := ["SAN RAFAEL", "MENDOZA", "MALARGUE", "BUENOS AIRES"]

  /** The first token that is one of the known cities. */
  function FirstCity(tokens: seq<string>): (r: Option<string>)
    ensures r.Some? ==> r.value in tokens && r.value in KnownCities
    ensures r.None? ==> forall k :: 0 <= k < |tokens| ==> tokens[k] !in KnownCities
  {
    if tokens == [] then None
    else if tokens[0] in KnownCities then Some(tokens[0])
    else FirstCity(tokens[1..])
  }

  /** The city found in the location match, if any. */
  function CityOf(locationMatch: Option<string>): Option<string> {
    if Present(locationMatch) then FirstCity(Split(locationMatch.value)) else None
  }

  /** San Rafael and Malargüe lie in Mendoza; any other city is its own
      province. */
  function ProvinceOf(city: Option<string>): Option<string> {
    if city.Some? && city.value != "" then
      Some(if city.value in ["SAN RAFAEL", "MALARGUE"] then "MENDOZA" else city.value)
    else None
  }

  /** Tokens never contain a space, so the two-word cities are never
      chosen: a city, when found, is MENDOZA or MALARGUE, and its province
      is MENDOZA. */
  lemma CityIsSingleToken(locationMatch: Option<string>)
    requires CityOf(locationMatch).Some?
    ensures CityOf(locationMatch).value in ["MENDOZA", "MALARGUE"]
    ensures ProvinceOf(CityOf(locationMatch)) == Some("MENDOZA")
  {
    var city := CityOf(locationMatch).value;
    var tokens := Split(locationMatch.value);
    var k :| 0 <= k < |tokens| && tokens[k] == city;
    assert Word(city);
    assert "SAN RAFAEL"[3] == ' ' && "BUENOS AIRES"[6] == ' ';
    assert city != "SAN RAFAEL" && city != "BUENOS AIRES";
  }

  /** The apartment: group 1 of the first `Dpto:` match (no flags); `None`
      outside the option when the match has no group 1 and Python
      raises. */
  function ApartmentOf(re: Engine, text: string): Option<Option<string>> {
    match Search(re, ApartmentPattern, NoFlags, text)
    case None => Some(None)
    case Some(m) => if |m.groups| >= 1 then Some(m.groups[0]) else None
  }

  // ---------------------------------------------------------------------
  // The pattern table

  /** The categories the parser reads are present, and the consumption list
      has the six positions `extract_consumption` reads. */
  predicate ValidPatterns(patterns: map<string, seq<string>>) {
    && "date" in patterns
    && "account_number" in patterns
    && "customer_name" in patterns
    && "due_date" in patterns
    && "total_amount" in patterns
    && "business_info" in patterns
    && "service_period" in patterns
    && "address" in patterns
    && "postal_code" in patterns
    && "location" in patterns
    && "charges" in patterns
    && "service_details" in patterns
    && "invoice_number" in patterns
    && "installments" in patterns
    && "consumption" in patterns
    && |patterns["consumption"]| >= 6
  }

  /** Every default category is present and still starts with its default
      patterns, as `add_pattern` only ever appends. */
  predicate KeepsDefaults(patterns: map<string, seq<string>>) {
    forall c :: c in DefaultPatterns ==> c in patterns && DefaultPatterns[c] <= patterns[c]
  }

  lemma DefaultPatternsKept()
    ensures KeepsDefaults(DefaultPatterns)
  {
  }

  /** Keeping the defaults is enough for every read the parser makes. */
  lemma KeepsDefaultsValid(patterns: map<string, seq<string>>)
    requires KeepsDefaults(patterns)
    ensures ValidPatterns(patterns)
  {
    assert "date" in DefaultPatterns;
    assert "account_number" in DefaultPatterns;
    assert "customer_name" in DefaultPatterns;
    assert "due_date" in DefaultPatterns;
    assert "total_amount" in DefaultPatterns;
    assert "business_info" in DefaultPatterns;
    assert "service_period" in DefaultPatterns;
    assert "address" in DefaultPatterns;
    assert "postal_code" in DefaultPatterns;
    assert "location" in DefaultPatterns;
    assert "charges" in DefaultPatterns;
    assert "service_details" in DefaultPatterns;
    assert "invoice_number" in DefaultPatterns;
    assert "installments" in DefaultPatterns;
    assert "consumption" in DefaultPatterns;
    assert |DefaultPatterns["consumption"]| == 6;
  }

  /** The six consumption patterns are always the defaults: appended
      patterns go after them. */
  lemma ConsumptionPatternsFixed(patterns: map<string, seq<string>>)
    requires KeepsDefaults(patterns)
    ensures "consumption" in patterns && |patterns["consumption"]| >= 6
    ensures patterns["consumption"][..6] == ConsumptionPatterns
  {
    assert "consumption" in DefaultPatterns;
  }

  // ---------------------------------------------------------------------
  // extract_business_info

  const BusinessInfoFields: seq<string> := ["CUIT", "INGRESOS BRUTOS", "IVA", "INICIO ACTIVIDAD", "ESTABLECIMIENTO"]

  /** The business-info dict: each of the five keys gets the same value,
      the field extracted with the whole `business_info` list; nothing when
      that value is missing or empty. */
  function BusinessInfoOf(value: Option<string>): (r: seq<(string, Json)>)
    ensures r == [] || (Present(value) && Keys(r) == BusinessInfoFields && forall i :: 0 <= i < |r| ==> r[i].1 == JStr(value.value))
    ensures r == [] <==> !Present(value)
  {
    if Present(value) then seq(|BusinessInfoFields|, i requires 0 <= i < |BusinessInfoFields| => (BusinessInfoFields[i], JStr(value.value)))
    else []
  }

  // ---------------------------------------------------------------------
  // extract_consumption

  function OptDec(d: Option<Decimal>): (r: Json)
    ensures d.Some? <==> r.JDec?
  {
    if d.Some? then JDec(d.value) else JNull
  }

  const ConsumptionKeys: seq<string> := ["measured_m3", "correction_factor", "calories_supplied", "billed_m3", "assigned_m3", "variable_charge"]

  /** A figure read with `extract_field` on one consumption pattern. */
  function ConsumptionField(re: Engine, text: string, pattern: string): Option<Decimal> {
    // `extract_field(...) or None` only turns "" into None, which the
    // conversion maps to None anyway.
    SafeDecimalConvert(ExtractField(re, text, [pattern], None))
  }

  /** `extract_consumption`: six figures, in this key order. The billed
      volume is group 4 of pattern 3 and the variable charge groups 1-3 of
      pattern 5, both searched without flags; `None` when such a match has
      fewer groups and `match.group` raises. */
  function ConsumptionOf(re: Engine, text: string, cons: seq<string>): (r: Option<Json>)
    requires |cons| >= 6
    ensures r.Some? ==> r.value.JObj? && |r.value.fields| == 6
  {
    var measured := ConsumptionField(re, text, cons[0]);
    var factor := ConsumptionField(re, text, cons[1]);
    var calories := ConsumptionField(re, text, cons[2]);
    var billedMatch := Search(re, cons[3], NoFlags, text);
    var assignedVolume := ConsumptionField(re, text, cons[4]);
    var chargeMatch := Search(re, cons[5], NoFlags, text);
    if billedMatch.Some? && |billedMatch.value.groups| < 4 then None
    else if chargeMatch.Some? && |chargeMatch.value.groups| < 3 then None
    else
      var billed := if billedMatch.Some? then SafeDecimalConvert(billedMatch.value.groups[3]) else None;
      var variable :=
        if chargeMatch.Some? then
          var g := chargeMatch.value.groups;
          [("kwh", OptDec(SafeDecimalConvert(g[0]))),
           ("rate", OptDec(SafeDecimalConvert(g[1]))),
           ("amount", OptDec(SafeDecimalConvert(g[2])))]
        else [("kwh", JNull), ("rate", JNull), ("amount", JNull)];
      Some(JObj([
        ("measured_m3", OptDec(measured)),
        ("correction_factor", OptDec(factor)),
        ("calories_supplied", OptDec(calories)),
        ("billed_m3", OptDec(billed)),
        ("assigned_m3", OptDec(assignedVolume)),
        ("variable_charge", JObj(variable))]))
  }

  /** The consumption dict always has the six keys, in order. */
  lemma ConsumptionKeysFixed(re: Engine, text: string, cons: seq<string>)
    requires |cons| >= 6 && ConsumptionOf(re, text, cons).Some?
    ensures Keys(ConsumptionOf(re, text, cons).value.fields) == ConsumptionKeys
  {
  }

  /** `extract_consumption` raises exactly when the billed-volume match has
      no group 4 or the variable-charge match no group 3. */
  lemma ConsumptionRaises(re: Engine, text: string, cons: seq<string>)
    requires |cons| >= 6
    ensures ConsumptionOf(re, text, cons).None? <==>
              || (Search(re, cons[3], NoFlags, text).Some? && |Search(re, cons[3], NoFlags, text).value.groups| < 4)
              || (Search(re, cons[5], NoFlags, text).Some? && |Search(re, cons[5], NoFlags, text).value.groups| < 3)
  {
  }

  // ---------------------------------------------------------------------
  // parse

  /** A value the final comprehension drops: `None`, `{}` or `""`. */
  predicate Dropped(v: Json) {
    v.JNull? || v == JObj([]) || v == JStr("")
  }

  /** `{k: v for k, v in data.items() if v is not None and v != {} and v != ""}`. */
  function FilterEmpty(d: seq<(string, Json)>): seq<(string, Json)> {
    if d == [] then []
    else (if Dropped(d[0].1) then [] else [d[0]]) + FilterEmpty(d[1..])
  }

  /** The filter keeps exactly the entries whose value is not dropped. */
  lemma {:induction false} FilterEmptyKeeps(d: seq<(string, Json)>)
    ensures forall x :: x in FilterEmpty(d) <==> x in d && !Dropped(x.1)
  {
    if d != [] {
      FilterEmptyKeeps(d[1..]);
      assert d == [d[0]] + d[1..];
    }
  }

  function ChargesJson(cs: seq<(string, Decimal)>): (r: seq<(string, Json)>)
    ensures Keys(r) == Keys(cs)
  {
    seq(|cs|, i requires 0 <= i < |cs| => (cs[i].0, JDec(cs[i].1)))
  }

  /** The field `extract_field` finds for a category, as JSON. */
  function TextField(re: Engine, text: string, patterns: map<string, seq<string>>, category: string): Json
    requires category in patterns
  {
    OptStr(ExtractField(re, text, patterns[category], None))
  }

  const ParseKeys: seq<string> := [
    "invoice_number", "invoice_date", "account_number", "customer_name", "due_date",
    "total_amount", "service_period", "address", "business_info", "charges",
    "service_details", "installments", "consumption"]

  /** The `data` dict of `parse`, before filtering, from the parts. */
  function ParseRecord(re: Engine, text: string, patterns: map<string, seq<string>>, address: Address,
                       info: seq<(string, Json)>, charges: seq<(string, Decimal)>,
                       details: seq<Json>, installments: seq<Json>, consumption: Json): (r: seq<(string, Json)>)
    requires ValidPatterns(patterns)
    ensures Keys(r) == ParseKeys
  {
    [("invoice_number", TextField(re, text, patterns, "invoice_number")),
     ("invoice_date", TextField(re, text, patterns, "date")),
     ("account_number", TextField(re, text, patterns, "account_number")),
     ("customer_name", TextField(re, text, patterns, "customer_name")),
     ("due_date", TextField(re, text, patterns, "due_date")),
     ("total_amount", TextField(re, text, patterns, "total_amount")),
     ("service_period", TextField(re, text, patterns, "service_period")),
     ("address", AddressToJson(address)),
     ("business_info", JObj(info)),
     ("charges", JObj(ChargesJson(charges))),
     ("service_details", JArr(details)),
     ("installments", JArr(installments)),
     ("consumption", consumption)]
  }

  /** The address `extract_address` builds; `None` when it raises. */
  function AddressOf(re: Engine, text: string, patterns: map<string, seq<string>>): (r: Option<Address>)
    requires ValidPatterns(patterns)
    ensures r.Some? <==> ApartmentOf(re, text).Some?
    ensures r.Some? ==> && r.value.apartment == ApartmentOf(re, text).value
                        && r.value.floor.None? && r.value.neighborhood.None?
                        && r.value.province == ProvinceOf(r.value.city)
  {
    match ApartmentOf(re, text)
    case None => None
    case Some(apartment) =>
      var streetMatch := ExtractField(re, text, patterns["address"], None);
      var city := CityOf(ExtractField(re, text, patterns["location"], None));
      Some(Address(StreetOf(streetMatch), NumberOf(streetMatch), None, apartment, None,
                   city, ProvinceOf(city), ExtractField(re, text, patterns["postal_code"], None)))
  }

  /** What `parse` returns; `None` when one of its extractors raises. */
  function ParseSpec(re: Engine, text: string, patterns: map<string, seq<string>>): (r: Option<Json>)
    requires ValidPatterns(patterns)
    ensures AddressOf(re, text, patterns).None? || ConsumptionOf(re, text, patterns["consumption"]).None? ==> r.None?
    ensures r.Some? ==> r.value.JObj?
  {
    var address := AddressOf(re, text, patterns);
    var details := CollectFrom(AllMatches(re, patterns["service_details"], IgnoreCase, text), DetailOf);
    var installments := CollectFrom(AllMatches(re, patterns["installments"], IgnoreCase, text), InstallmentOf);
    var consumption := ConsumptionOf(re, text, patterns["consumption"]);
    if address.None? || details.None? || installments.None? || consumption.None? then None
    else
      var info := BusinessInfoOf(ExtractField(re, text, patterns["business_info"], None));
      var charges := ChargesFrom(AllMatches(re, patterns["charges"], IgnoreCase, text));
      Some(JObj(FilterEmpty(ParseRecord(re, text, patterns, address.value, info, charges,
                                        details.value, installments.value, consumption.value))))
  }

  /** The address and consumption dicts are never empty and the lists are
      not `{}`, so these four keys always survive the filter; no surviving
      value is `None`, `{}` or `""`. */
  lemma {:induction false} FilteredRecordKeeps(re: Engine, text: string, patterns: map<string, seq<string>>, address: Address,
                                               info: seq<(string, Json)>, charges: seq<(string, Decimal)>,
                                               details: seq<Json>, installments: seq<Json>, consumption: Json)
    requires ValidPatterns(patterns) && consumption.JObj? && |consumption.fields| == 6
    ensures var r := FilterEmpty(ParseRecord(re, text, patterns, address, info, charges, details, installments, consumption));
      && (forall x :: x in r ==> !Dropped(x.1))
      && "address" in Keys(r) && "consumption" in Keys(r)
      && "service_details" in Keys(r) && "installments" in Keys(r)
  {
    var d := ParseRecord(re, text, patterns, address, info, charges, details, installments, consumption);
    assert d[7].0 == "address" && !Dropped(d[7].1);
    assert d[10].0 == "service_details" && !Dropped(d[10].1);
    assert d[11].0 == "installments" && !Dropped(d[11].1);
    assert d[12].0 == "consumption" && !Dropped(d[12].1);
    KeptKey(d, 7);
    KeptKey(d, 10);
    KeptKey(d, 11);
    KeptKey(d, 12);
    FilterEmptyKeeps(d);
  }

  lemma {:induction false} ParseKeepsStructure(re: Engine, text: string, patterns: map<string, seq<string>>)
    requires ValidPatterns(patterns) && ParseSpec(re, text, patterns).Some?
    ensures var r := ParseSpec(re, text, patterns).value;
      && r.JObj?
      && (forall x :: x in r.fields ==> !Dropped(x.1))
      && "address" in Keys(r.fields) && "consumption" in Keys(r.fields)
      && "service_details" in Keys(r.fields) && "installments" in Keys(r.fields)
  {
    var address := AddressOf(re, text, patterns).value;
    var details := CollectFrom(AllMatches(re, patterns["service_details"], IgnoreCase, text), DetailOf).value;
    var installments := CollectFrom(AllMatches(re, patterns["installments"], IgnoreCase, text), InstallmentOf).value;
    var consumption := ConsumptionOf(re, text, patterns["consumption"]).value;
    var info := BusinessInfoOf(ExtractField(re, text, patterns["business_info"], None));
    var charges := ChargesFrom(AllMatches(re, patterns["charges"], IgnoreCase, text));
    FilteredRecordKeeps(re, text, patterns, address, info, charges, details, installments, consumption);
  }

  /** An entry that is not dropped keeps its key in the filtered dict. */
  lemma {:induction false} KeptKey(d: seq<(string, Json)>, i: nat)
    requires i < |d| && !Dropped(d[i].1)
    ensures d[i].0 in Keys(FilterEmpty(d))
  {
    var r := FilterEmpty(d);
    FilterEmptyKeeps(d);
    assert d[i] in r;
    var k :| 0 <= k < |r| && r[k] == d[i];
    assert Keys(r)[k] == d[i].0;
  }

  /** Matches of a list of patterns split in two are the matches of each
      part in turn. */
  lemma {:induction false} AllMatchesAppend(re: Engine, ps: seq<string>, qs: seq<string>, flags: Flags, text: string)
    ensures AllMatches(re, ps + qs, flags, text) == AllMatches(re, ps, flags, text) + AllMatches(re, qs, flags, text)
  {
    if qs == [] {
      assert ps + qs == ps;
    } else {
      var init := qs[..|qs| - 1];
      assert (ps + qs)[..|ps + qs| - 1] == ps + init;
      AllMatchesAppend(re, ps, init, flags, text);
    }
  }

  /** Once a record fails to build, later matches do not matter. */
  lemma {:induction false} CollectNoneExtends(ms: seq<Match>, rest: seq<Match>, build: Match -> Option<Json>)
    requires CollectFrom(ms, build).None?
    ensures CollectFrom(ms + rest, build).None?
  {
    if rest == [] {
      assert ms + rest == ms;
    } else {
      var init := rest[..|rest| - 1];
      assert (ms + rest)[..|ms + rest| - 1] == ms + init;
      CollectNoneExtends(ms, init, build);
    }
  }

  // ---------------------------------------------------------------------
  // GenericBillParser

  class GenericBillParser {
    /** Category name to its patterns, in priority order. */
    var patterns: map<string, seq<string>>

    /** The invariant every operation keeps. */
    predicate Valid()
      reads this
    {
      KeepsDefaults(patterns)
    }

    constructor ()
      ensures patterns == DefaultPatterns && Valid()
    {
      patterns := DefaultPatterns;
      DefaultPatternsKept();
    }

    /** `add_pattern`: the pattern goes last in its category, which is
        created when new; no other category changes. */
    method AddPattern(category: string, pattern: string)
      requires Valid()
      modifies this
      ensures category in old(patterns) ==> patterns == old(patterns)[category := old(patterns)[category] + [pattern]]
      ensures category !in old(patterns) ==> patterns == old(patterns)[category := [pattern]]
      ensures Valid()
    {
      if category in patterns {
        patterns := patterns[category := patterns[category] + [pattern]];
      } else {
        patterns := patterns[category := [pattern]];
      }
    }

    /** `extract_charges`: every match of every charges pattern, in order,
        assigns its amount to its concept. */
    method ExtractCharges(re: Engine, text: string) returns (charges: seq<(string, Decimal)>)
      requires ValidPatterns(patterns)
      ensures charges == ChargesFrom(AllMatches(re, patterns["charges"], IgnoreCase, text))
    {
      var ps := patterns["charges"];
      charges := [];
      var i := 0;
      while i < |ps|
        invariant 0 <= i <= |ps|
        invariant charges == ChargesFrom(AllMatches(re, ps[..i], IgnoreCase, text))
      {
        charges := AddCharges(charges, AllMatches(re, ps[..i], IgnoreCase, text), re(ps[i], IgnoreCase, text));
        assert ps[..i + 1][..i] == ps[..i];
        i := i + 1;
      }
      assert ps[..i] == ps;
    }

    /** The records `build` makes from every match of every pattern of a
        category, in order; `None` as soon as one raises. */
    method CollectMatches(re: Engine, text: string, category: string, build: Match -> Option<Json>) returns (r: Option<seq<Json>>)
      requires category in patterns
      ensures r == CollectFrom(AllMatches(re, patterns[category], IgnoreCase, text), build)
    {
      var ps := patterns[category];
      var acc: seq<Json> := [];
      var i := 0;
      while i < |ps|
        invariant 0 <= i <= |ps|
        invariant CollectFrom(AllMatches(re, ps[..i], IgnoreCase, text), build) == Some(acc)
      {
        var ms := re(ps[i], IgnoreCase, text);
        var next := CollectMore(ms, build, AllMatches(re, ps[..i], IgnoreCase, text), acc);
        assert ps[..i + 1][..i] == ps[..i];
        if next.None? {
          RaisedAt(re, text, ps, i, build);
          return None;
        }
        acc := next.value;
        i := i + 1;
      }
      assert ps[..i] == ps;
      return Some(acc);
    }

    /** The inner loop of `CollectMatches`: the records of one pattern's
        matches, after those of the matches `before`. */
    static method CollectMore(ms: seq<Match>, build: Match -> Option<Json>, ghost before: seq<Match>, acc: seq<Json>)
      returns (r: Option<seq<Json>>)
      requires CollectFrom(before, build) == Some(acc)
      ensures r == CollectFrom(before + ms, build)
    {
      var out := acc;
      var j := 0;
      assert before + ms[..0] == before;
      while j < |ms|
        invariant 0 <= j <= |ms|
        invariant CollectFrom(before + ms[..j], build) == Some(out)
      {
        var x := build(ms[j]);
        var seen := before + ms[..j];
        CollectSnoc(seen, ms[j], build);
        assert ms[..j + 1] == ms[..j] + [ms[j]];
        assert before + ms[..j + 1] == seen + [ms[j]];
        if x.None? {
          CollectNoneExtends(before + ms[..j + 1], ms[j + 1..], build);
          assert (before + ms[..j + 1]) + ms[j + 1..] == before + ms;
          return None;
        }
        out := out + [x.value];
        j := j + 1;
      }
      assert ms[..j] == ms;
      return Some(out);
    }

    /** `extract_installments`. */
    method ExtractInstallments(re: Engine, text: string) returns (r: Option<seq<Json>>)
      requires ValidPatterns(patterns)
      ensures r == CollectFrom(AllMatches(re, patterns["installments"], IgnoreCase, text), InstallmentOf)
    {
      r := CollectMatches(re, text, "installments", InstallmentOf);
    }

    /** `extract_service_details`. */
    method ExtractServiceDetails(re: Engine, text: string) returns (r: Option<seq<Json>>)
      requires ValidPatterns(patterns)
      ensures r == CollectFrom(AllMatches(re, patterns["service_details"], IgnoreCase, text), DetailOf)
    {
      r := CollectMatches(re, text, "service_details", DetailOf);
    }

    /** `extract_business_info`: the loop over the five keys. */
    method ExtractBusinessInfo(re: Engine, text: string) returns (info: seq<(string, Json)>)
      requires ValidPatterns(patterns)
      ensures info == BusinessInfoOf(ExtractField(re, text, patterns["business_info"], None))
    {
      var shared := ExtractField(re, text, patterns["business_info"], None);
      var full := BusinessInfoOf(shared);
      info := [];
      var i := 0;
      while i < |BusinessInfoFields|
        invariant 0 <= i <= |BusinessInfoFields|
        invariant Present(shared) ==> |full| == |BusinessInfoFields| && info == full[..i]
        invariant !Present(shared) ==> info == []
      {
        var value := ExtractField(re, text, patterns["business_info"], None);
        if Present(value) {
          assert Put(info, BusinessInfoFields[i], JStr(value.value)) == full[..i + 1] by {
            assert Keys(info) == BusinessInfoFields[..i];
            assert BusinessInfoFields[i] !in BusinessInfoFields[..i];
            PutNew(info, BusinessInfoFields[i], JStr(value.value));
            assert full[..i + 1] == full[..i] + [full[i]];
          }
          info := Put(info, BusinessInfoFields[i], JStr(value.value));
        }
        i := i + 1;
      }
      assert Present(shared) ==> full[..i] == full;
    }

    /** `extract_address`: the fields are set one by one. */
    method ExtractAddress(re: Engine, text: string) returns (r: Option<Address>)
      requires ValidPatterns(patterns)
      ensures r == AddressOf(re, text, patterns)
    {
      var address := EmptyAddress;
      var streetMatch := ExtractField(re, text, patterns["address"], None);
      if Present(streetMatch) {
        var parts := Split(streetMatch.value);
        address := address.(street := if |parts| > 1 then Some(Join(parts[..|parts| - 1], " ")) else streetMatch);
        address := address.(number := if |parts| > 1 then Some(parts[|parts| - 1]) else None);
      }
      address := address.(postalCode := ExtractField(re, text, patterns["postal_code"], None));
      var locationMatch := ExtractField(re, text, patterns["location"], None);
      if Present(locationMatch) {
        address := address.(city := FirstCity(Split(locationMatch.value)));
        if address.city.Some? && address.city.value != "" {
          address := address.(province := Some(if address.city.value in ["SAN RAFAEL", "MALARGUE"] then "MENDOZA" else address.city.value));
        }
      }
      var aptMatch := Search(re, ApartmentPattern, NoFlags, text);
      if aptMatch.Some? {
        if |aptMatch.value.groups| < 1 {
          return None;
        }
        address := address.(apartment := aptMatch.value.groups[0]);
      }
      return Some(address);
    }

    /** `parse`: the thirteen entries, then the filter. */
    method Parse(re: Engine, text: string) returns (r: Option<Json>)
      requires ValidPatterns(patterns)
      ensures r == ParseSpec(re, text, patterns)
    {
      var address := ExtractAddress(re, text);
      if address.None? {
        return None;
      }
      var info := ExtractBusinessInfo(re, text);
      var charges := ExtractCharges(re, text);
      var details := ExtractServiceDetails(re, text);
      if details.None? {
        return None;
      }
      var installments := ExtractInstallments(re, text);
      if installments.None? {
        return None;
      }
      var consumption := ConsumptionOf(re, text, patterns["consumption"]);
      if consumption.None? {
        return None;
      }
      var data := ParseRecord(re, text, patterns, address.value, info, charges, details.value, installments.value, consumption.value);
      return Some(JObj(FilterEmpty(data)));
    }
  }

  /** A build that fails among the matches of the first `i + 1` patterns
      fails the whole category. */
  lemma RaisedAt(re: Engine, text: string, ps: seq<string>, i: nat, build: Match -> Option<Json>)
    requires i < |ps|
    requires CollectFrom(AllMatches(re, ps[..i + 1], IgnoreCase, text), build).None?
    ensures CollectFrom(AllMatches(re, ps, IgnoreCase, text), build).None?
  {
    AllMatchesAppend(re, ps[..i + 1], ps[i + 1..], IgnoreCase, text);
    assert ps[..i + 1] + ps[i + 1..] == ps;
    CollectNoneExtends(AllMatches(re, ps[..i + 1], IgnoreCase, text), AllMatches(re, ps[i + 1..], IgnoreCase, text), build);
  }

  /** `parse` with the parser's own default patterns: a non-empty dict
      when it returns. */
  function ParseDefault(re: Engine, text: string): (r: Option<Json>)
    ensures r.Some? ==> r.value.JObj? && r.value.fields != []
  {
    DefaultPatternsKept();
    KeepsDefaultsValid(DefaultPatterns);
    var r := ParseSpec(re, text, DefaultPatterns);
    if r.Some? then ParseKeepsStructure(re, text, DefaultPatterns); r else r
  }

  /** What `convert_data_to_json` parses: a string as is, or the `content`
      entry of a dict (`""` when absent); `None` for anything else, where
      it raises and the result is `{}`. */
  function ContentText(content: Json): Option<string> {
    var c := if content.JObj? then (if HasKey(content, "content") then Get(content, "content") else JStr("")) else content;
    if c.JStr? then Some(c.s) else None
  }

  /** `convert_data_to_json`: a fresh parser parses the text and every
      decimal becomes its string; `{}` where anything raises. */
  method ConvertDataToJson(re: Engine, content: Json) returns (r: Json)
    ensures NoDecimals(r)
    ensures ContentText(content).None? ==> r == JObj([])
    ensures ContentText(content).Some? ==>
              r == match ParseDefault(re, ContentText(content).value)
                   case None => JObj([])
                   case Some(d) => ConvertDecimals(d)
  {
    var text := ContentText(content);
    if text.None? {
      return JObj([]);
    }
    var parser := new GenericBillParser();
    KeepsDefaultsValid(parser.patterns);
    var data := parser.Parse(re, text.value);
    if data.None? {
      return JObj([]);
    }
    return ConvertDecimals(data.value);
  }
}
