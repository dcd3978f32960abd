/**
 * The word search of the API (`WordIndex`) and the category list (`CategoryIndex`).
 *
 * `WordIndex` builds its SQL from the query string: an optional `category_id` adds a
 * containment test on the word's categories; an optional `q` is cut into words by a
 * regular expression, each word becomes a quoted tsquery term, and the search adds a
 * full-text match and orders by rank instead of by the lower-cased word. Each clause
 * names its parameter by position through the counter `pc`.
 *
 * The regular expression is the `matchesOf` parameter (the list of matches it finds
 * in `q`), and the database query is the `db` parameter.
 */
module Search {
  import opened Base
  import opened Text
  import opened Http

  /** The values passed to the query: `[]int{categoryID}`, or the tsquery text. */
  datatype SqlParam = CategoryIds(ids: seq<int>) | TsQuery(query: string)

  /** `fmt.Sprintf("$%d", n)`. */
  function Placeholder(n: nat): string
  {
    "$" + Itoa(n)
  }

  function CategoryClause(n: nat): string
  {
    "words_view.categories @> " + Placeholder(n)
  }

  function SearchClause(n: nat): string
  {
    "words_view.tsv @@ to_tsquery('swedish', " + Placeholder(n) + ")"
  }

  const WordOrder: string := "ORDER BY LOWER(word->>2) COLLATE \"se-SE-x-icu\""

  function RankOrder(n: nat): string
  {
    "ORDER BY ts_rank_cd(words_view.tsv, to_tsquery('swedish', " + Placeholder(n) + "), 8|1) DESC"
  }

  /** The clause that reads a parameter of this kind at position `n`. */
  function ClauseFor(p: SqlParam, n: nat): string
  {
    match p
    case CategoryIds(_) => CategoryClause(n)
    case TsQuery(_) => SearchClause(n)
  }

  /* ================================================================ search terms */

  /** A match as a quoted tsquery term, every single quote escaped. */
  function Quoted(m: string): string
  {
    "'" + EscapeQuotes(m) + "'"
  }

  /** The term for the prefix query: a match longer than one byte gets `:*`. */
  function PrefixTerm(m: string): string
  {
    if ByteLen(m) == 1 then Quoted(m) else Quoted(m) + ":*"
  }

  /** Every match quoted, in match order. */
  function Terms(ms: seq<string>): (ts: seq<string>)
    ensures |ts| == |ms| && forall k | 0 <= k < |ms| :: ts[k] == Quoted(ms[k])
  {
    seq(|ms|, k requires 0 <= k < |ms| => Quoted(ms[k]))
  }

  function PrefixTerms(ms: seq<string>): (ts: seq<string>)
    ensures |ts| == |ms| && forall k | 0 <= k < |ms| :: ts[k] == PrefixTerm(ms[k])
  {
    seq(|ms|, k requires 0 <= k < |ms| => PrefixTerm(ms[k]))
  }

  /** The phrase of all words, or every word as a prefix. */
  function TsQueryOf(ms: seq<string>): string
  {
    "(" + Join(Terms(ms), " <-> ") + ") | (" + Join(PrefixTerms(ms), " & ") + ")"
  }

  /** The loop over the matches, appending to `words` and `wordsPrefix`. */
  method BuildTerms(matches: seq<string>) returns (words: seq<string>, wordsPrefix: seq<string>)
    ensures words == Terms(matches) && wordsPrefix == PrefixTerms(matches)
  {
    words := [];
    wordsPrefix := [];
    for i := 0 to |matches|
      invariant words == Terms(matches[..i]) && wordsPrefix == PrefixTerms(matches[..i])
    {
      var match_ := matches[i];
      var w := "'" + EscapeQuotes(match_) + "'";
      if ByteLen(match_) == 1 {
        words := words + [w];
        wordsPrefix := wordsPrefix + [w];
        continue;
      }
      words := words + [w];
      wordsPrefix := wordsPrefix + [w + ":*"];
    }
    assert matches[..|matches|] == matches;
  }

  /** A term is the match between quotes: reading back its escapes gives the match. */
  lemma QuotedReadsBack(m: string)
    ensures var t := Quoted(m);
      |t| >= 2 && t[0] == '\'' && t[|t| - 1] == '\'' && UnescapeQuotes(t[1..|t| - 1]) == m
  {
    var t := Quoted(m);
    assert t[1..|t| - 1] == EscapeQuotes(m);
    UnescapeEscape(m);
  }

  /** Only a match longer than one byte is marked as a prefix; a one-byte match is a
      single ASCII character, so a single 'å' is marked. */
  lemma PrefixMarked(m: string)
    ensures PrefixTerm(m) == Quoted(m) <==> |m| == 1 && (m[0] as int) < 0x80
    ensures PrefixTerm(m) != Quoted(m) ==> PrefixTerm(m) == Quoted(m) + ":*"
  {
    ByteLenOne(m);
    if ByteLen(m) != 1 {
      assert |Quoted(m) + ":*"| != |Quoted(m)|;
    }
  }

  /** No matches give `() | ()`. */
  lemma TsQueryNoMatches()
    ensures TsQueryOf([]) == "() | ()"
  {
  }

  /* ================================================================ the query */

  datatype WordQuery = WordQuery(where: seq<string>, orderBy: string, params: seq<SqlParam>)

  const CategoryId: string := "category_id"
  const SearchKey: string := "q"

  /** Before any filter: `TRUE`, ordered by the lower-cased word, no parameter. */
  const Unfiltered: WordQuery := WordQuery(["TRUE"], WordOrder, [])

  /** Append a parameter and the clause that reads it at its position. */
  function AddClause(wq: WordQuery, p: SqlParam): WordQuery
  {
    WordQuery(wq.where + [ClauseFor(p, |wq.params| + 1)], wq.orderBy, wq.params + [p])
  }

  /** The query `WordIndex` sends, or `None` when it answers 400. */
  function WordQueryOf(q: Query, matchesOf: string -> seq<string>): Option<WordQuery>
  {
    var category := Get(q, CategoryId);
    var search := Get(q, SearchKey);
    if category != "" && Atoi(category).None? then None
    else
      var filtered := if category == "" then Unfiltered else AddClause(Unfiltered, CategoryIds([Atoi(category).value]));
      if search == "" then Some(filtered)
      else
        var pc := |filtered.params| + 1;
        Some(AddClause(filtered, TsQuery(TsQueryOf(matchesOf(search)))).(orderBy := RankOrder(pc)))
  }

  /** `WordIndex` up to the query: the slices `where` and `params` grow together while
      `pc` counts the next placeholder. */
  method BuildWordQuery(q: Query, matchesOf: string -> seq<string>) returns (r: Option<WordQuery>)
    ensures r == WordQueryOf(q, matchesOf)
  {
    var where := ["TRUE"];
    var orderBy := WordOrder;
    var params: seq<SqlParam> := [];
    var pc := 1;
    var category := Get(q, CategoryId);
    if category != "" {
      var categoryId := Atoi(category);
      if categoryId.None? {
        return None;
      }
      where := where + [CategoryClause(pc)];
      params := params + [CategoryIds([categoryId.value])];
      pc := pc + 1;
    }
    assert WordQuery(where, orderBy, params)
           == if category == "" then Unfiltered else AddClause(Unfiltered, CategoryIds([Atoi(category).value]));
    assert pc == |params| + 1;
    var search := Get(q, SearchKey);
    if search != "" {
      var words, wordsPrefix := BuildTerms(matchesOf(search));
      var query := "(" + Join(words, " <-> ") + ") | (" + Join(wordsPrefix, " & ") + ")";
      params := params + [TsQuery(query)];
      where := where + [SearchClause(pc)];
      orderBy := RankOrder(pc);
    }
    return Some(WordQuery(where, orderBy, params));
  }

  /** Every clause after TRUE reads the parameter at its own position. */
  ghost predicate PlaceholdersAgree(wq: WordQuery)
  {
    && |wq.where| == |wq.params| + 1
    && wq.where[0] == "TRUE"
    && forall k | 0 <= k < |wq.params| :: wq.where[k + 1] == ClauseFor(wq.params[k], k + 1)
  }

  /** Appending a clause with its parameter keeps the placeholders in step. */
  lemma AddClauseAgrees(wq: WordQuery, p: SqlParam)
    requires PlaceholdersAgree(wq)
    ensures PlaceholdersAgree(AddClause(wq, p))
  {
    var r := AddClause(wq, p);
    forall k | 0 <= k < |r.params|
      ensures r.where[k + 1] == ClauseFor(r.params[k], k + 1)
    {
      if k < |wq.params| {
        assert r.where[k + 1] == wq.where[k + 1];
      }
    }
  }

  /** A non-empty `category_id` that `strconv.Atoi` rejects is a bad request; every
      query built keeps its placeholders in step with its parameters, and a search
      orders by the rank of the same parameter its clause reads, the last one. */
  lemma WordQueryWellFormed(q: Query, matchesOf: string -> seq<string>)
    ensures WordQueryOf(q, matchesOf).None? <==> Get(q, CategoryId) != "" && Atoi(Get(q, CategoryId)).None?
    ensures WordQueryOf(q, matchesOf).Some? ==>
      var wq := WordQueryOf(q, matchesOf).value;
      && PlaceholdersAgree(wq)
      && (wq.orderBy == WordOrder
          || (|wq.params| > 0 && wq.params[|wq.params| - 1].TsQuery? && wq.orderBy == RankOrder(|wq.params|)))
  {
    var category := Get(q, CategoryId);
    if !(category != "" && Atoi(category).None?) {
      assert PlaceholdersAgree(Unfiltered);
      var filtered := if category == "" then Unfiltered else AddClause(Unfiltered, CategoryIds([Atoi(category).value]));
      if category != "" {
        AddClauseAgrees(Unfiltered, CategoryIds([Atoi(category).value]));
      }
      if Get(q, SearchKey) != "" {
        AddClauseAgrees(filtered, TsQuery(TsQueryOf(matchesOf(Get(q, SearchKey)))));
      }
    }
  }

  lemma RankOrderIsNotWordOrder(n: nat)
    ensures RankOrder(n) != WordOrder
  {
    assert |RankOrder(n)| > |WordOrder|;
  }

  lemma FirstPlaceholder()
    ensures CategoryClause(1) == "words_view.categories @> $1"
  {
    assert DigitChar(1) == '1';
    assert Itoa(1) == [DigitChar(1)];
  }

  /** The category filter, when present, is the first parameter, holding the parsed
      id, and the first clause after TRUE, reading `$1`. */
  lemma WordQueryCategory(q: Query, matchesOf: string -> seq<string>)
    requires WordQueryOf(q, matchesOf).Some?
    ensures var wq := WordQueryOf(q, matchesOf).value;
      var category := Get(q, CategoryId);
      category != "" ==>
        && |wq.params| >= 1
        && wq.params[0] == CategoryIds([Atoi(category).value])
        && wq.where[1] == "words_view.categories @> $1"
  {
    FirstPlaceholder();
  }

  /** The search parameter is there exactly when `q` is not empty, last, and holds the
      tsquery of its matches; the order is by rank exactly then. */
  lemma WordQuerySearch(q: Query, matchesOf: string -> seq<string>)
    requires WordQueryOf(q, matchesOf).Some?
    ensures var wq := WordQueryOf(q, matchesOf).value;
      var category := Get(q, CategoryId);
      var search := Get(q, SearchKey);
      && |wq.params| == (if category == "" then 0 else 1) + (if search == "" then 0 else 1)
      && (search == "" <==> wq.orderBy == WordOrder)
      && (search != "" ==> wq.params[|wq.params| - 1] == TsQuery(TsQueryOf(matchesOf(search))))
  {
    var category := Get(q, CategoryId);
    var filtered := if category == "" then Unfiltered else AddClause(Unfiltered, CategoryIds([Atoi(category).value]));
    if Get(q, SearchKey) != "" {
      RankOrderIsNotWordOrder(|filtered.params| + 1);
    }
  }

  /* ================================================================ the handlers */

  /** What `WordIndex` answers; `db` runs the WHERE conditions joined by " AND ", the
      order and the parameters. */
  function WordIndexReply(q: Query, matchesOf: string -> seq<string>,
                          db: (string, string, seq<SqlParam>) -> Option<seq<Row>>): Reply
  {
    match WordQueryOf(q, matchesOf)
    case None => Reply(StatusBadRequest, "")
    case Some(wq) =>
      match db(Join(wq.where, " AND "), wq.orderBy, wq.params)
      case None => Reply(StatusInternalServerError, "")
      case Some(rows) => Reply(StatusOK, Framed(rows))
  }

  method WordIndex(w: Writer, q: Query, matchesOf: string -> seq<string>,
                   db: (string, string, seq<SqlParam>) -> Option<seq<Row>>)
    requires w.status.None? && w.body == ""
    modifies w
    ensures w.Sent() == WordIndexReply(q, matchesOf, db)
  {
    var wq := BuildWordQuery(q, matchesOf);
    if wq.None? {
      w.WriteHeader(StatusBadRequest);
      return;
    }
    var rows := db(Join(wq.value.where, " AND "), wq.value.orderBy, wq.value.params);
    if rows.None? {
      w.WriteHeader(StatusInternalServerError);
      return;
    }
    var _ := WriteRows(w, rows.value);
  }

  /** What `CategoryIndex` answers for the result of its one fixed query. */
  function CategoryIndexReply(rows: Option<seq<Row>>): Reply
  {
    match rows
    case None => Reply(StatusInternalServerError, "")
    case Some(rs) => Reply(StatusOK, Framed(rs))
  }

  method CategoryIndex(w: Writer, rows: Option<seq<Row>>)
    requires w.status.None? && w.body == ""
    modifies w
    ensures w.Sent() == CategoryIndexReply(rows)
  {
    if rows.None? {
      w.WriteHeader(StatusInternalServerError);
      return;
    }
    var _ := WriteRows(w, rows.value);
  }
}
