/**
 * Decoding the rows a search returns (the closures of `top_n`, lib.rs lines
 * 220-235, and of `top_n_ids`, lines 273-286). A row is a `serde_json::Value`;
 * the conversion of a JSON number to `f64` (`Number::as_f64`) and the payload
 * deserialisation (`serde_json::from_value`) are passed in as functions and
 * are not interpreted.
 */
module Rows {
  import opened Wrappers
  import opened Floats
  import opened Errors

  /** serde_json's number representation: an unsigned, a negative or a floating value. */
  datatype JsonNumber = PosInt(u: nat) | NegInt(i: int) | Float(f: F64)

  /** `serde_json::Value`. */
  datatype Value =
    | Null
    | Bool(b: bool)
    | Number(n: JsonNumber)
    | Str(s: string)
    | Array(items: seq<Value>)
    | Object(fields: map<string, Value>)

  /** The score key `top_n` reads (line 224). */
  const DISTANCE_KEY: string := "_distance"
  /** The score key `top_n_ids` reads (line 276): a different key from `top_n`'s. */
  const IDS_DISTANCE_KEY: string := "distance"
  /** The prefix of the placeholder id `top_n` gives a row without a string id (line 230). */
  const UNKNOWN_ID_PREFIX: string := "unknown"

  /** `Value::get(key)`: the field of an object, and nothing for any other kind of value. */
  function Get(v: Value, key: string): (r: Option<Value>)
    ensures r.Some? <==> v.Object? && key in v.fields
    ensures r.Some? ==> r.value == v.fields[key]
  {
    match v
    case Object(fields) => if key in fields then Some(fields[key]) else None
    case _ => None
  }

  /** The score of a row: the number under `key` converted to `f64`, else `0.0`. */
  function ScoreAt(row: Value, key: string, asF64: JsonNumber -> Option<F64>): F64 {
    match Get(row, key)
    case Some(Number(x)) => asF64(x).GetOr(ZERO)
    case _ => ZERO
  }

  /** The id of a row: the string under `idField`, else `fallback`. */
  function IdAt(row: Value, idField: string, fallback: string): string {
    match Get(row, idField)
    case Some(Str(id)) => id
    case _ => fallback
  }

  function Digit(d: nat): (c: char)
    requires d < 10
    ensures '0' <= c <= '9' && c as int - '0' as int == d
  {
    ('0' as int + d) as char
  }

  /** `format!("{i}")` for an index: decimal digits, no sign, no leading zero. */
  function DecimalString(n: nat): (s: string)
    ensures |s| >= 1 && (|s| > 1 ==> s[0] != '0')
    ensures forall k | 0 <= k < |s| :: '0' <= s[k] <= '9'
    decreases n
  {
    if n < 10 then [Digit(n)] else DecimalString(n / 10) + [Digit(n % 10)]
  }

  /** The value of a string of decimal digits, most significant first. */
  function ParseDecimal(s: string): nat
    requires forall k | 0 <= k < |s| :: '0' <= s[k] <= '9'
    decreases |s|
  {
    if s == [] then 0 else 10 * ParseDecimal(s[..|s| - 1]) + (s[|s| - 1] as int - '0' as int)
  }

  /** Reading the decimal form of `n` gives back `n`. */
  lemma {:induction false} DecimalRoundTrip(n: nat)
    ensures ParseDecimal(DecimalString(n)) == n
    decreases n
  {
    var s := DecimalString(n);
    if n >= 10 {
      DecimalRoundTrip(n / 10);
      assert s[..|s| - 1] == DecimalString(n / 10);
    } else {
      assert s[..0] == [];
    }
  }

  /** The placeholder id `unknown{i}` of the row at position `i`. */
  function UnknownId(i: nat): string {
    UNKNOWN_ID_PREFIX + DecimalString(i)
  }

  /** Placeholder ids of different positions differ. */
  lemma {:induction false} UnknownIdsDistinct(i: nat, j: nat)
    ensures UnknownId(i) == UnknownId(j) <==> i == j
  {
    if UnknownId(i) == UnknownId(j) {
      var n := |UNKNOWN_ID_PREFIX|;
      assert UnknownId(i)[n..] == DecimalString(i);
      assert UnknownId(j)[n..] == DecimalString(j);
      DecimalRoundTrip(i);
      DecimalRoundTrip(j);
    }
  }

  /** Position `k` is the first whose element `f` fails on. */
  predicate FirstFailureAt<X>(rows: seq<Value>, f: (nat, Value) -> Result<X, VectorStoreError>, k: nat) {
    k < |rows| && f(k, rows[k]).Err? && forall j | 0 <= j < k :: f(j, rows[j]).Ok?
  }

  /**
   * `rows.into_iter().enumerate().map(f).collect::<Result<Vec<_>, _>>()`:
   * every row mapped in order, or the first failure and no partial vector.
   */
  function CollectMap<X>(rows: seq<Value>, f: (nat, Value) -> Result<X, VectorStoreError>): (r: Result<seq<X>, VectorStoreError>)
    ensures r.Ok? <==> forall i | 0 <= i < |rows| :: f(i, rows[i]).Ok?
    ensures r.Ok? ==> |r.value| == |rows| && forall i | 0 <= i < |rows| :: r.value[i] == f(i, rows[i]).value
    ensures r.Err? ==> exists k: nat :: FirstFailureAt(rows, f, k) && r.error == f(k, rows[k]).error
    decreases |rows|
  {
    if rows == [] then Ok([])
    else
      var last := |rows| - 1;
      var front := rows[..last];
      assert forall i | 0 <= i < last :: front[i] == rows[i];
      match CollectMap(front, f)
      case Err(e) =>
        assert exists k: nat :: FirstFailureAt(front, f, k) && e == f(k, front[k]).error;
        var k: nat :| FirstFailureAt(front, f, k) && e == f(k, front[k]).error;
        assert FirstFailureAt(rows, f, k);
        Err(e)
      case Ok(done) =>
        match f(last, rows[last])
        case Err(e) =>
          assert FirstFailureAt(rows, f, last);
          Err(e)
        case Ok(x) => Ok(done + [x])
  }

  /** The closure of `top_n` for the row at position `i`. */
  function TopNRow<T>(i: nat, row: Value, idField: string, asF64: JsonNumber -> Option<F64>,
                      fromValue: Value -> Result<T, SerdeJsonError>): Result<(F64, string, T), VectorStoreError>
  {
    match fromValue(row)
    case Ok(payload) => Ok((ScoreAt(row, DISTANCE_KEY, asF64), IdAt(row, idField, UnknownId(i)), payload))
    case Err(e) => Err(SerdeToIzzyError(e))
  }

  /**
   * Decoding for `top_n`: succeeds exactly when every payload decodes; then
   * one triple per row, in row order, scored from `"_distance"` (else 0.0),
   * identified by the string under `idField` (else `unknown{i}`). Otherwise
   * the JSON error of the first row whose payload does not decode.
   */
  function DecodeTopN<T>(rows: seq<Value>, idField: string, asF64: JsonNumber -> Option<F64>,
                         fromValue: Value -> Result<T, SerdeJsonError>): (r: Result<seq<(F64, string, T)>, VectorStoreError>)
    ensures r.Ok? <==> forall i | 0 <= i < |rows| :: fromValue(rows[i]).Ok?
    ensures r.Ok? ==> |r.value| == |rows| && forall i | 0 <= i < |rows| ::
      r.value[i] == (ScoreAt(rows[i], DISTANCE_KEY, asF64), IdAt(rows[i], idField, UnknownId(i)), fromValue(rows[i]).value)
    ensures r.Err? ==> exists k | 0 <= k < |rows| ::
      && fromValue(rows[k]).Err?
      && (forall j | 0 <= j < k :: fromValue(rows[j]).Ok?)
      && r.error == JsonError(fromValue(rows[k]).error)
  {
    var f := (i: nat, row: Value) => TopNRow(i, row, idField, asF64, fromValue);
    var r := CollectMap(rows, f);
    if r.Err? then
      var k: nat :| FirstFailureAt(rows, f, k) && r.error == f(k, rows[k]).error;
      assert fromValue(rows[k]).Err? && forall j | 0 <= j < k :: f(j, rows[j]).Ok?;
      r
    else
      r
  }

  /**
   * Decoding for `top_n_ids`: never fails; one pair per row, in row order,
   * scored from `"distance"` (else 0.0), identified by the string under
   * `idField` (else the empty string).
   */
  function DecodeTopNIds(rows: seq<Value>, idField: string, asF64: JsonNumber -> Option<F64>): (r: Result<seq<(F64, string)>, VectorStoreError>)
    ensures r.Ok? && |r.value| == |rows|
    ensures forall i | 0 <= i < |rows| :: r.value[i] == (ScoreAt(rows[i], IDS_DISTANCE_KEY, asF64), IdAt(rows[i], idField, ""))
  {
    CollectMap(rows, (_: nat, row: Value) => Ok((ScoreAt(row, IDS_DISTANCE_KEY, asF64), IdAt(row, idField, ""))))
  }

  /**
   * The two variants fall back differently: a row with no string id gets
   * `unknown{i}` from `top_n` and the empty string from `top_n_ids`, and a
   * row whose score key holds no number (or no value at all) scores 0.0.
   */
  lemma FallbacksPerVariant<T>(rows: seq<Value>, idField: string, asF64: JsonNumber -> Option<F64>,
                               fromValue: Value -> Result<T, SerdeJsonError>, i: nat)
    requires i < |rows| && DecodeTopN(rows, idField, asF64, fromValue).Ok?
    ensures !(Get(rows[i], idField).Some? && Get(rows[i], idField).value.Str?) ==>
      DecodeTopN(rows, idField, asF64, fromValue).value[i].1 == UnknownId(i)
      && DecodeTopNIds(rows, idField, asF64).value[i].1 == ""
    ensures !(Get(rows[i], DISTANCE_KEY).Some? && Get(rows[i], DISTANCE_KEY).value.Number?) ==>
      DecodeTopN(rows, idField, asF64, fromValue).value[i].0 == ZERO
    ensures !(Get(rows[i], IDS_DISTANCE_KEY).Some? && Get(rows[i], IDS_DISTANCE_KEY).value.Number?) ==>
      DecodeTopNIds(rows, idField, asF64).value[i].0 == ZERO
  {
  }

  /**
   * Worked cases: `{"_distance": 0.42, "id": "rec-1", "text": "hello"}` decodes
   * to `(0.42, "rec-1", payload)`; a row `{"_distance": 0.1}` at position 3
   * gets id `unknown3` from `top_n` and `""` from `top_n_ids`, and scores 0.0
   * there, since `top_n_ids` reads `"distance"`.
   */
  lemma WorkedRows<T>(asF64: JsonNumber -> Option<F64>, fromValue: Value -> Result<T, SerdeJsonError>, payload: T)
    requires forall x :: asF64(Float(x)) == Some(x)
    requires fromValue(Object(map["_distance" := Number(Float(F64(0x3FDA_E147_AE14_7AE1))), "id" := Str("rec-1"), "text" := Str("hello")])) == Ok(payload)
    ensures DecodeTopN([Object(map["_distance" := Number(Float(F64(0x3FDA_E147_AE14_7AE1))), "id" := Str("rec-1"), "text" := Str("hello")])], "id", asF64, fromValue)
      == Ok([(F64(0x3FDA_E147_AE14_7AE1), "rec-1", payload)])
    ensures var r := Object(map["_distance" := Number(Float(F64(0x3FB9_9999_9999_999A)))]);
      && (DecodeTopN([r, r, r, r], "id", asF64, fromValue).Ok? ==>
            DecodeTopN([r, r, r, r], "id", asF64, fromValue).value[3] == (F64(0x3FB9_9999_9999_999A), "unknown3", fromValue(r).value))
      && DecodeTopNIds([r, r, r, r], "id", asF64).value[3] == (ZERO, "")
  {
    var row := Object(map["_distance" := Number(Float(F64(0x3FDA_E147_AE14_7AE1))), "id" := Str("rec-1"), "text" := Str("hello")]);
    assert Get(row, DISTANCE_KEY) == Some(Number(Float(F64(0x3FDA_E147_AE14_7AE1))));
    assert Get(row, "id") == Some(Str("rec-1"));
    var one := DecodeTopN([row], "id", asF64, fromValue);
    assert one.Ok? && |one.value| == 1;
    assert one.value[0] == (F64(0x3FDA_E147_AE14_7AE1), "rec-1", payload);
    assert one.value == [(F64(0x3FDA_E147_AE14_7AE1), "rec-1", payload)];
    var r := Object(map["_distance" := Number(Float(F64(0x3FB9_9999_9999_999A)))]);
    assert Get(r, DISTANCE_KEY) == Some(Number(Float(F64(0x3FB9_9999_9999_999A))));
    assert Get(r, "id") == None && Get(r, IDS_DISTANCE_KEY) == None;
    assert UnknownId(3) == "unknown3";
  }
}
