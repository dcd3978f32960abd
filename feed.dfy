/**
 * The `/signs.json` handler of the API server: only GET; an optional `changed_at`
 * query value (layout `2006-01-02 15:04`) becomes the one condition
 * `updated_at > $1` with the parsed time as its parameter; the rows the query
 * returns are framed as one JSON array.
 *
 * `time.Parse` with that layout is the `parseTime` parameter, and the database query
 * is the `db` parameter: it receives the condition and the parameters and returns
 * the rows, or nothing when the query fails.
 */
module Feed {
  import opened Base
  import opened Text
  import opened Http

  type Timestamp = int

  const ChangedAt: string := "changed_at"
  const UpdatedAfter: string := "updated_at > $1"

  /** The conditions joined by " AND " into the WHERE clause, and their parameters. */
  datatype Filter = Filter(where: seq<string>, params: seq<Timestamp>)

  /** The filter the handler builds, or `None` when it answers 400. */
  function FilterOf(q: Query, parseTime: string -> Option<Timestamp>): Option<Filter>
  {
    if !Has(q, ChangedAt) then Some(Filter(["TRUE"], []))
    else match parseTime(Get(q, ChangedAt))
      case None => None
      case Some(t) => Some(Filter(["TRUE", UpdatedAfter], [t]))
  }

  /** The WHERE and parameter slices, appended to as the handler reads the query. */
  method BuildFilter(q: Query, parseTime: string -> Option<Timestamp>) returns (f: Option<Filter>)
    ensures f == FilterOf(q, parseTime)
  {
    var params: seq<Timestamp> := [];
    var where := ["TRUE"];
    if Has(q, ChangedAt) {
      var changedAt := parseTime(Get(q, ChangedAt));
      if changedAt.None? {
        return None;
      }
      params := params + [changedAt.value];
      where := where + [UpdatedAfter];
      assert where == ["TRUE", UpdatedAfter] && params == [changedAt.value];
    }
    return Some(Filter(where, params));
  }

  /** The WHERE list starts with TRUE and gains `updated_at > $1`, with the parsed
      time as its one parameter, exactly when `changed_at` is present and parses; a
      present value that does not parse (the empty one included) is a bad request. */
  lemma FilterCases(q: Query, parseTime: string -> Option<Timestamp>)
    ensures var f := FilterOf(q, parseTime);
      && (f.None? <==> Has(q, ChangedAt) && parseTime(Get(q, ChangedAt)).None?)
      && (f.Some? ==> |f.value.where| == |f.value.params| + 1 && f.value.where[0] == "TRUE")
      && (f.Some? && |f.value.params| == 1 <==> Has(q, ChangedAt) && parseTime(Get(q, ChangedAt)).Some?)
      && (f.Some? && |f.value.params| == 1 ==>
            f.value.params[0] == parseTime(Get(q, ChangedAt)).value
            && Join(f.value.where, " AND ") == "TRUE AND updated_at > $1")
      && (f.Some? && |f.value.params| == 0 ==> Join(f.value.where, " AND ") == "TRUE")
  {
    var f := FilterOf(q, parseTime);
    if f.Some? && |f.value.params| == 1 {
      assert f.value.where[1..] == [UpdatedAfter];
    }
  }

  /** What `/signs.json` answers for a request with method `verb` and query `q`. */
  function SignsReply(verb: string, q: Query, parseTime: string -> Option<Timestamp>,
                      db: (string, seq<Timestamp>) -> Option<seq<Row>>): Reply
  {
    if verb != "GET" then Reply(StatusMethodNotAllowed, "")
    else match FilterOf(q, parseTime)
      case None => Reply(StatusBadRequest, "")
      case Some(f) =>
        match db(Join(f.where, " AND "), f.params)
        case None => Reply(StatusInternalServerError, "")
        case Some(rows) => Reply(StatusOK, Framed(rows))
  }

  /** The handler, writing to a fresh response; returns the number of signs served. */
  method ServeSigns(w: Writer, verb: string, q: Query, parseTime: string -> Option<Timestamp>,
                    db: (string, seq<Timestamp>) -> Option<seq<Row>>) returns (served: nat)
    requires w.status.None? && w.body == ""
    modifies w
    ensures w.Sent() == SignsReply(verb, q, parseTime, db)
  {
    served := 0;
    if verb != "GET" {
      w.WriteHeader(StatusMethodNotAllowed);
      return;
    }
    var filter := BuildFilter(q, parseTime);
    if filter.None? {
      w.WriteHeader(StatusBadRequest);
      return;
    }
    var rows := db(Join(filter.value.where, " AND "), filter.value.params);
    if rows.None? {
      w.WriteHeader(StatusInternalServerError);
      return;
    }
    served := WriteRows(w, rows.value);
  }

  /** A GET whose filter is accepted and whose query runs is answered 200 with the
      framed rows, even when a row fails to scan: the status went out with `[`. */
  lemma SignsServed(q: Query, parseTime: string -> Option<Timestamp>,
                    db: (string, seq<Timestamp>) -> Option<seq<Row>>)
    requires FilterOf(q, parseTime).Some?
    requires db(Join(FilterOf(q, parseTime).value.where, " AND "), FilterOf(q, parseTime).value.params).Some?
    ensures var rows := db(Join(FilterOf(q, parseTime).value.where, " AND "), FilterOf(q, parseTime).value.params).value;
      var r := SignsReply("GET", q, parseTime, db);
      && r.status == StatusOK
      && (Scanned(rows) == |rows| ==> r.body[0] == '[' && r.body[|r.body| - 1] == ']')
      && (rows == [] ==> r.body == "[]")
  {
  }
}
