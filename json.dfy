/**
 * The JSON-like values the services pass around: records read from and sent
 * to the backend, bills (`{"url": ...}` or `{"content": ...}`) and the parsed
 * bill data. Objects keep their keys in insertion order, as a Python `dict`
 * does, so two values are equal exactly when `json.dumps` prints them alike.
 */
module JsonValues {
  import opened Wrappers
  import opened Decimals
  import opened Dicts

  datatype Json =
    | JNull
    | JBool(b: bool)
    | JInt(i: int)
    | JStr(s: string)
    | JDec(d: Decimal)
    | JArr(items: seq<Json>)
    | JObj(fields: seq<(string, Json)>)

  /** Python truthiness: `None`, `False`, `0`, `""`, `Decimal(0)`, `[]` and
      `{}` are false. */
  predicate Truthy(j: Json) {
    match j
    case JNull => false
    case JBool(b) => b
    case JInt(i) => i != 0
    case JStr(s) => s != ""
    case JDec(d) => d.coefficient != 0
    case JArr(items) => items != []
    case JObj(fields) => fields != []
  }

  /** `key in d` for a dict; false for any other value. */
  predicate HasKey(j: Json, key: string) {
    j.JObj? && Lookup(j.fields, key).Some?
  }

  /** `d.get(key)` for a dict: `None` (here `JNull`) when the key is absent
      or the value is not a dict. */
  function Get(j: Json, key: string): (r: Json)
    ensures !HasKey(j, key) ==> r == JNull
  {
    if j.JObj? then Lookup(j.fields, key).GetOr(JNull) else JNull
  }

  /** A bill that points at a PDF to download. */
  function UrlBill(url: string): Json {
    JObj([("url", JStr(url))])
  }

  /** A bill whose text was extracted from a downloaded PDF. */
  function ContentBill(text: string): Json {
    JObj([("content", JStr(text))])
  }

  /** No `Decimal` anywhere inside the value. */
  predicate NoDecimals(j: Json) {
    match j
    case JDec(_) => false
    case JArr(items) => forall i :: 0 <= i < |items| ==> NoDecimals(items[i])
    case JObj(fields) => forall i :: 0 <= i < |fields| ==> NoDecimals(fields[i].1)
    case _ => true
  }

  /** The recursive `convert_decimal(s)` helpers: every `Decimal` becomes its
      `str()`, dicts and lists are rebuilt with the same keys in the same
      order, everything else is kept. */
  function ConvertDecimals(j: Json): (r: Json)
    ensures NoDecimals(r)
    ensures j.JObj? <==> r.JObj?
    ensures j.JObj? ==>
              && |r.fields| == |j.fields|
              && forall i :: 0 <= i < |j.fields| ==> r.fields[i].0 == j.fields[i].0
    ensures j.JArr? ==> r.JArr? && |r.items| == |j.items|
  {
    match j
    case JDec(d) => JStr(DecimalToString(d))
    case JArr(items) =>
      JArr(seq(|items|, i requires 0 <= i < |items| => ConvertDecimals(items[i])))
    case JObj(fields) =>
      JObj(seq(|fields|, i requires 0 <= i < |fields| => (fields[i].0, ConvertDecimals(fields[i].1))))
    case _ => j
  }

  /** A value without decimals is left exactly as it was, so the conversion
      is idempotent. */
  lemma {:induction false} ConvertDecimalsKeepsClean(j: Json)
    requires NoDecimals(j)
    ensures ConvertDecimals(j) == j
  {
    match j
    case JArr(items) =>
      forall i | 0 <= i < |items|
        ensures ConvertDecimals(items[i]) == items[i]
      {
        ConvertDecimalsKeepsClean(items[i]);
      }
      assert ConvertDecimals(j).items == items;
    case JObj(fields) =>
      forall i | 0 <= i < |fields|
        ensures ConvertDecimals(fields[i].1) == fields[i].1
      {
        ConvertDecimalsKeepsClean(fields[i].1);
      }
      assert ConvertDecimals(j).fields == fields;
    case _ =>
  }

  lemma ConvertDecimalsIdempotent(j: Json)
    ensures ConvertDecimals(ConvertDecimals(j)) == ConvertDecimals(j)
  {
    ConvertDecimalsKeepsClean(ConvertDecimals(j));
  }

  /** A decimal inside a converted value reads back as the same number. */
  lemma ConvertedDecimalReadsBack(d: Decimal)
    requires |NatDigits(d.coefficient)| - d.scale > -6
    ensures ConvertDecimals(JDec(d)).JStr?
    ensures ParseDecimal(ConvertDecimals(JDec(d)).s) == Some(d)
  {
    PlainRoundTrip(d);
  }
}
