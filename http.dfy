/**
 * The part of `net/http` the handlers rely on, and the JSON-array framing loop the
 * three list handlers share: write `[`, then each scanned row with a comma before
 * every row but the first, then `]`.
 *
 * A `ResponseWriter` sends its status line with the first `WriteHeader` or the first
 * `Write` (which implies 200); a `WriteHeader` after that changes nothing. So a row
 * that fails to scan after `[` went out leaves a 200 response with a cut-off body.
 */
module Http {
  import opened Base
  import opened Text

  const StatusOK: int := 200
  const StatusBadRequest: int := 400
  const StatusMethodNotAllowed: int := 405
  const StatusInternalServerError: int := 500

  /** The decoded query string: every value given for each key, in order. */
  type Query = map<string, seq<string>>

  /** `url.Values.Has`. */
  predicate Has(q: Query, key: string)
  {
    key in q
  }

  /** `url.Values.Get`: the first value, or "" when there is none. */
  function Get(q: Query, key: string): string
  {
    if key in q && |q[key]| > 0 then q[key][0] else ""
  }

  /** What the client receives: the status and the body. */
  datatype Reply = Reply(status: int, body: string)

  /** One step of `rows.Next()`/`rows.Scan(&b)`: the row's JSON, or a scan error. */
  datatype Row = Row(json: string) | ScanFailed

  class Writer {
    /** The status sent, once the header has gone out. */
    var status: Option<int>
    var body: string

    constructor ()
      ensures status == None && body == ""
    {
      status := None;
      body := "";
    }

    /** What the client sees once the handler returns: a handler that wrote nothing
        sends 200 with an empty body. */
    function Sent(): Reply
      reads this
    {
      Reply(if status.Some? then status.value else StatusOK, body)
    }

    method WriteHeader(code: int)
      modifies this
      ensures status == if old(status).None? then Some(code) else old(status)
      ensures body == old(body)
    {
      if status.None? {
        status := Some(code);
      }
    }

    method Write(b: string)
      modifies this
      ensures status == if old(status).None? then Some(StatusOK) else old(status)
      ensures body == old(body) + b
    {
      if status.None? {
        status := Some(StatusOK);
      }
      body := body + b;
    }
  }

  /* ================================================================ framing */

  /** How many rows scan before the first that does not. */
  function Scanned(rows: seq<Row>): (n: nat)
    ensures n <= |rows|
    ensures forall k | 0 <= k < n :: rows[k].Row?
    ensures n < |rows| ==> rows[n].ScanFailed?
    decreases |rows|
  {
    if |rows| == 0 || rows[0].ScanFailed? then 0 else 1 + Scanned(rows[1..])
  }

  /** The JSON of the first `n` rows. */
  function Jsons(rows: seq<Row>, n: nat): (js: seq<string>)
    requires n <= |rows| && forall k | 0 <= k < n :: rows[k].Row?
    ensures |js| == n && forall k | 0 <= k < n :: js[k] == rows[k].json
  {
    seq(n, k requires 0 <= k < n => rows[k].json)
  }

  /** The body the framing loop writes: `[`, the rows scanned joined by commas, and
      `]` unless a scan failed. */
  function Framed(rows: seq<Row>): string
  {
    var n := Scanned(rows);
    "[" + Join(Jsons(rows, n), ",") + (if n == |rows| then "]" else "")
  }

  /** The framing loop: returns the number of rows written. */
  method WriteRows(w: Writer, rows: seq<Row>) returns (i: nat)
    modifies w
    ensures i == Scanned(rows)
    ensures w.body == old(w.body) + Framed(rows)
    ensures w.status == if old(w.status).None? then Some(StatusOK) else old(w.status)
  {
    w.Write("[");
    ghost var start := w.body;
    i := 0;
    while i < |rows|
      invariant i <= |rows| && forall k | 0 <= k < i :: rows[k].Row?
      invariant w.body == start + Join(Jsons(rows, i), ",")
      invariant w.status == if old(w.status).None? then Some(StatusOK) else old(w.status)
      decreases |rows| - i
    {
      if rows[i].ScanFailed? {
        w.WriteHeader(StatusInternalServerError);
        ScannedAt(rows, i);
        return;
      }
      if i > 0 {
        w.Write(",");
      }
      w.Write(rows[i].json);
      JsonsSnoc(rows, i);
      i := i + 1;
    }
    ScannedAt(rows, i);
    w.Write("]");
  }

  lemma JsonsSnoc(rows: seq<Row>, i: nat)
    requires i < |rows| && forall k | 0 <= k <= i :: rows[k].Row?
    ensures Join(Jsons(rows, i + 1), ",")
            == if i == 0 then rows[i].json else Join(Jsons(rows, i), ",") + "," + rows[i].json
  {
    assert Jsons(rows, i + 1) == Jsons(rows, i) + [rows[i].json];
    JoinSnoc(Jsons(rows, i), rows[i].json, ",");
  }

  /** With the first `i` rows scanned, the count of scanned rows is `i` when row `i`
      fails or when there is no row `i`. */
  lemma {:induction false} ScannedAt(rows: seq<Row>, i: nat)
    requires i <= |rows| && forall k | 0 <= k < i :: rows[k].Row?
    requires i < |rows| ==> rows[i].ScanFailed?
    ensures Scanned(rows) == i
    decreases i
  {
    if i > 0 {
      ScannedAt(rows[1..], i - 1);
    }
  }

  /** No rows give `[]`. */
  lemma FramedEmpty()
    ensures Framed([]) == "[]"
  {
  }

  /** A row that scans adds itself, after a comma unless it is the first. */
  lemma FramedSnoc(rows: seq<Row>, json: string)
    requires Scanned(rows) == |rows|
    ensures Scanned(rows + [Row(json)]) == |rows| + 1
    ensures Framed(rows + [Row(json)])
            == if rows == [] then "[" + json + "]"
               else Framed(rows)[..|Framed(rows)| - 1] + "," + json + "]"
  {
    var all := rows + [Row(json)];
    ScannedAt(all, |all|);
    assert Jsons(all, |all|) == Jsons(rows, |rows|) + [json];
    JoinSnoc(Jsons(rows, |rows|), json, ",");
  }

  /** A scan error cuts the body short: it is the complete body of the rows before the
      error, without the closing bracket; whatever follows the error is not written. */
  lemma FramedCut(rows: seq<Row>)
    requires Scanned(rows) < |rows|
    ensures Framed(rows) + "]" == Framed(rows[..Scanned(rows)])
  {
    var n := Scanned(rows);
    var head := rows[..n];
    ScannedAt(head, n);
    assert Jsons(head, n) == Jsons(rows, n);
  }
}
