/**
 * One record of the source, as `loadFromURL` handles it: how its id is read, the
 * statements it queues (the sign, its words, its categories or the fallback join,
 * its phrases), and what those statements do to the store when they are sent.
 */
module Records {
  import opened Base
  import opened Text
  import opened Stream
  import opened Catalog

  /* ================================================================ normalisation */

  /** The id of the sign row: one leading "0" removed, then read as a decimal. */
  function NormalizeId(raw: string): Option<int>
  {
    Atoi(TrimPrefix(raw, "0"))
  }

  /** A raw id whose "0" prefix hides a sign, as in "0-5". */
  predicate ZeroThenSign(raw: string)
  {
    |raw| >= 2 && raw[0] == '0' && (raw[1] == '-' || raw[1] == '+')
  }

  /** The sign row is keyed by the parsed id, while every dependent row passes the raw
      text id, which PostgreSQL reads as `int4`.  Both denote the same integer, except
      for a raw id such as "0-5" that only parses once its "0" is removed. */
  lemma SameSignId(raw: string, n: int)
    requires NormalizeId(raw) == Some(n) && MinInt4 <= n <= MaxInt4
    ensures PgInt(raw) == Some(n) <==> !ZeroThenSign(raw)
  {
    if |raw| >= 1 && raw[0] == '0' {
      var t := raw[1..];
      assert TrimPrefix(raw, "0") == t;
      assert raw == "0" + t;
      if t[0] == '-' || t[0] == '+' {
        assert !IsDigit(raw[1]);
      } else {
        LeadingZero(t);
      }
    } else {
      assert TrimPrefix(raw, "0") == raw;
    }
  }

  /** Worked examples: "004" is sign 4, "0" is rejected (nothing is left once the
      "0" is removed), and "0-5" is sign -5 although PostgreSQL cannot read it. */
  lemma NormalizeIdExamples()
    ensures NormalizeId("004") == Some(4)
    ensures NormalizeId("0").None?
    ensures NormalizeId("0-5") == Some(-5) && PgInt("0-5").None?
  {
    assert TrimPrefix("004", "0") == "04";
    assert DigitsValue("04") == 10 * DigitsValue("0") + 4 by { assert "04"[..1] == "0"; }
    assert TrimPrefix("0", "0") == "";
    assert TrimPrefix("0-5", "0") == "-5";
    assert "-5"[1..] == "5";
    assert !IsDigit("0-5"[1]);
  }

  /** How many pieces are not blank once trimmed. */
  function NonBlank(pieces: seq<string>): (n: nat)
    ensures n <= |pieces|
    decreases |pieces|
  {
    if |pieces| == 0 then 0
    else NonBlank(pieces[..|pieces| - 1]) + (if TrimSpace(pieces[|pieces| - 1]) == "" then 0 else 1)
  }

  /** The word inserts of one record: for each piece of `also_means`, in order, its
      trimmed text unless that is empty. */
  function WordStmts(raw: string, pieces: seq<string>): seq<Stmt>
    decreases |pieces|
  {
    if |pieces| == 0 then []
    else
      var w := TrimSpace(pieces[|pieces| - 1]);
      WordStmts(raw, pieces[..|pieces| - 1]) + (if w == "" then [] else [InsertWord(raw, w)])
  }

  /** The category statements of one record: for each category, in order, the insert
      of the category if its slug is absent, then the join of the sign to it. */
  function CategoryStmts(raw: string, cats: seq<CategoryRef>): seq<Stmt>
    decreases |cats|
  {
    if |cats| == 0 then []
    else
      var c := cats[|cats| - 1];
      CategoryStmts(raw, cats[..|cats| - 1]) + [InsertCategory(c.name, c.slug), JoinCategory(raw, c.slug)]
  }

  /** The join to the fallback category, queued only for a record without categories. */
  function FallbackStmts(raw: string, cats: seq<CategoryRef>): seq<Stmt>
  {
    if |cats| == 0 then [JoinFallback(raw)] else []
  }

  /** The phrase inserts of one record, each with its absolute media URL. */
  function PhraseStmts(raw: string, base: string, phrases: seq<PhraseRef>): seq<Stmt>
    decreases |phrases|
  {
    if |phrases| == 0 then []
    else
      var e := phrases[|phrases| - 1];
      PhraseStmts(raw, base, phrases[..|phrases| - 1]) + [InsertPhrase(raw, base + e.movie, e.phrase)]
  }

  /** The sign insert: parsed id and date, absolute media URL, and the hidden words
      split on ", " (neither trimmed nor filtered). */
  function SignStmt(base: string, s: NewSign, id: int, at: Timestamp): Stmt
  {
    InsertSign(SignParams(id, at, base + s.movie, s.description, s.frequency,
                          s.transcription, s.glosa, Split(s.hiddenAlsoMeans, ", ")))
  }

  /** Everything one record queues, in the order the statements are queued. */
  function RecordStmts(base: string, s: NewSign, id: int, at: Timestamp): seq<Stmt>
  {
    [SignStmt(base, s, id, at)] + DependentStmts(base, s)
  }

  /** What follows the sign insert: words, categories (or the fallback join), phrases. */
  function DependentStmts(base: string, s: NewSign): seq<Stmt>
  {
    WordStmts(s.id, Split(s.alsoMeans, ", "))
      + (CategoryStmts(s.id, s.categories)
      + (FallbackStmts(s.id, s.categories)
      + PhraseStmts(s.id, base, s.phrases)))
  }

  /** Why loading a page stops. */
  datatype LoadError = FetchError | DecodeError | BadId | BadDate | BatchError

  /** One decoded element: its statements, or why the page is aborted. */
  function NormalizeRecord(base: string, item: Item<NewSign>, parseDate: string -> Option<Timestamp>)
    : Result<seq<Stmt>, LoadError>
  {
    match item
    case Malformed => Err(DecodeError)
    case Decoded(s) =>
      match NormalizeId(s.id)
      case None => Err(BadId)
      case Some(id) =>
        match parseDate(s.lastUpdate)
        case None => Err(BadDate)
        case Some(at) => Ok(RecordStmts(base, s, id, at))
  }

  /* ================================================================ shape of a record's statements */

  /** The statements of category k sit at positions 2k and 2k+1: the insert of the
      category, then the join to its slug. */
  lemma {:induction false} CategoryStmtsShape(raw: string, cats: seq<CategoryRef>)
    ensures |CategoryStmts(raw, cats)| == 2 * |cats|
    ensures forall k | 0 <= k < |cats| ::
      CategoryStmts(raw, cats)[2 * k] == InsertCategory(cats[k].name, cats[k].slug)
      && CategoryStmts(raw, cats)[2 * k + 1] == JoinCategory(raw, cats[k].slug)
    decreases |cats|
  {
    if |cats| > 0 {
      CategoryStmtsShape(raw, cats[..|cats| - 1]);
    }
  }

  /** Phrase k is inserted at position k with the URL `base + movie`. */
  lemma {:induction false} PhraseStmtsShape(raw: string, base: string, phrases: seq<PhraseRef>)
    ensures |PhraseStmts(raw, base, phrases)| == |phrases|
    ensures forall k | 0 <= k < |phrases| ::
      PhraseStmts(raw, base, phrases)[k] == InsertPhrase(raw, base + phrases[k].movie, phrases[k].phrase)
    decreases |phrases|
  {
    if |phrases| > 0 {
      PhraseStmtsShape(raw, base, phrases[..|phrases| - 1]);
    }
  }

  /** The word inserts are word inserts only. */
  lemma {:induction false} WordStmtsAreInserts(raw: string, pieces: seq<string>)
    ensures forall k | 0 <= k < |WordStmts(raw, pieces)| :: WordStmts(raw, pieces)[k].InsertWord?
    decreases |pieces|
  {
    if |pieces| > 0 {
      WordStmtsAreInserts(raw, pieces[..|pieces| - 1]);
    }
  }

  /** Every category join of a record directly follows the insert of its category. */
  lemma RecordJoinsFollowInserts(base: string, s: NewSign, id: int, at: Timestamp)
    ensures JoinsFollowInserts({}, RecordStmts(base, s, id, at))
  {
    var words := WordStmts(s.id, Split(s.alsoMeans, ", "));
    var cats := CategoryStmts(s.id, s.categories);
    var phrases := PhraseStmts(s.id, base, s.phrases);
    WordStmtsAreInserts(s.id, Split(s.alsoMeans, ", "));
    CategoryStmtsShape(s.id, s.categories);
    PhraseStmtsShape(s.id, base, s.phrases);
    assert JoinsFollowInserts({}, cats) by {
      forall k | 0 <= k < |cats|
        ensures cats[k].JoinCategory? ==>
          k > 0 && cats[k - 1].InsertCategory? && cats[k - 1].slug == cats[k].slug
      {
        var c := k / 2;
        if k == 2 * c {
          assert cats[k] == InsertCategory(s.categories[c].name, s.categories[c].slug);
        } else {
          assert cats[k - 1] == InsertCategory(s.categories[c].name, s.categories[c].slug);
        }
      }
    }
    JoinsFollowInsertsAppend(FallbackStmts(s.id, s.categories), phrases);
    JoinsFollowInsertsAppend(cats, FallbackStmts(s.id, s.categories) + phrases);
    JoinsFollowInsertsAppend(words, cats + (FallbackStmts(s.id, s.categories) + phrases));
    JoinsFollowInsertsAppend([SignStmt(base, s, id, at)], DependentStmts(base, s));
  }

  /* ================================================================ effect on the store */

  /** The slugs of a record's categories. */
  function SlugsOf(cats: seq<CategoryRef>): (r: set<string>)
    ensures forall k | 0 <= k < |cats| :: cats[k].slug in r
    ensures forall slug | slug in r :: exists k :: 0 <= k < |cats| && cats[k].slug == slug
    decreases |cats|
  {
    if |cats| == 0 then {}
    else
      var init := SlugsOf(cats[..|cats| - 1]);
      assert forall k | 0 <= k < |cats| - 1 :: cats[..|cats| - 1][k] == cats[k];
      init + {cats[|cats| - 1].slug}
  }

  /** The word rows a record adds: one per piece that is not blank once trimmed, in
      order, carrying the trimmed piece. */
  function WordRows(id: int, pieces: seq<string>): (rows: seq<WordRow>)
    ensures |rows| == NonBlank(pieces)
    ensures forall k | 0 <= k < |rows| :: rows[k].signId == id
    decreases |pieces|
  {
    if |pieces| == 0 then []
    else
      var w := TrimSpace(pieces[|pieces| - 1]);
      WordRows(id, pieces[..|pieces| - 1]) + (if w == "" then [] else [WordRow(id, w)])
  }

  /** Every stored word is non-empty and neither starts nor ends with white space. */
  lemma {:induction false} WordRowsTrimmed(id: int, pieces: seq<string>)
    ensures forall k | 0 <= k < |WordRows(id, pieces)| ::
      var w := WordRows(id, pieces)[k].word; w != "" && !IsSpace(w[0]) && !IsSpace(w[|w| - 1])
    decreases |pieces|
  {
    if |pieces| > 0 {
      var init := WordRows(id, pieces[..|pieces| - 1]);
      WordRowsTrimmed(id, pieces[..|pieces| - 1]);
      TrimSpaceSpec(pieces[|pieces| - 1]);
      forall k | 0 <= k < |init|
        ensures WordRows(id, pieces)[k] == init[k]
      {
      }
    }
  }

  /** Each piece that is not blank becomes the row after those of the non-blank
      pieces before it, carrying the trimmed piece. */
  lemma {:induction false} WordRowsInOrder(id: int, pieces: seq<string>)
    ensures forall i | 0 <= i < |pieces| && TrimSpace(pieces[i]) != "" ::
      NonBlank(pieces[..i]) < |WordRows(id, pieces)|
      && WordRows(id, pieces)[NonBlank(pieces[..i])] == WordRow(id, TrimSpace(pieces[i]))
    decreases |pieces|
  {
    if |pieces| > 0 {
      var n := |pieces|;
      var init := pieces[..n - 1];
      var rows := WordRows(id, init);
      WordRowsInOrder(id, init);
      var w := TrimSpace(pieces[n - 1]);
      var all := WordRows(id, pieces);
      assert all == rows + (if w == "" then [] else [WordRow(id, w)]);
      forall i | 0 <= i < n && TrimSpace(pieces[i]) != ""
        ensures NonBlank(pieces[..i]) < |WordRows(id, pieces)|
        ensures WordRows(id, pieces)[NonBlank(pieces[..i])] == WordRow(id, TrimSpace(pieces[i]))
      {
        if i < n - 1 {
          assert pieces[..i] == init[..i] && pieces[i] == init[i];
          assert all[NonBlank(init[..i])] == rows[NonBlank(init[..i])];
        } else {
          assert pieces[..i] == init;
          assert all[|rows|] == WordRow(id, w);
        }
      }
    }
  }

  /** The phrase rows a record adds: phrase k with the URL `base + movie`. */
  function PhraseRows(id: int, base: string, phrases: seq<PhraseRef>): (rows: seq<PhraseRow>)
    ensures |rows| == |phrases|
    ensures forall k | 0 <= k < |phrases| :: rows[k] == PhraseRow(id, base + phrases[k].movie, phrases[k].phrase)
    decreases |phrases|
  {
    if |phrases| == 0 then []
    else
      var e := phrases[|phrases| - 1];
      PhraseRows(id, base, phrases[..|phrases| - 1]) + [PhraseRow(id, base + e.movie, e.phrase)]
  }

  /** The word inserts of a stored sign all succeed and append its word rows. */
  lemma {:induction false} ExecWords(st: Store, raw: string, id: int, pieces: seq<string>)
    requires SignRef(st, raw) == Some(id)
    ensures ExecAll(st, WordStmts(raw, pieces)) == Some(st.(words := st.words + WordRows(id, pieces)))
    decreases |pieces|
  {
    if |pieces| > 0 {
      var init := pieces[..|pieces| - 1];
      var w := TrimSpace(pieces[|pieces| - 1]);
      var last := if w == "" then [] else [InsertWord(raw, w)];
      var lastRows := if w == "" then [] else [WordRow(id, w)];
      ExecWords(st, raw, id, init);
      var mid := st.(words := st.words + WordRows(id, init));
      assert WordStmts(raw, pieces) == WordStmts(raw, init) + last;
      assert WordRows(id, pieces) == WordRows(id, init) + lastRows;
      ExecAllAppend(st, WordStmts(raw, init), last);
      if w == "" {
        assert ExecAll(mid, last) == Some(mid);
        assert mid.words + lastRows == mid.words;
      } else {
        assert Exec(mid, InsertWord(raw, w)) == Some(mid.(words := mid.words + lastRows));
        assert ExecAll(mid, last) == Some(mid.(words := mid.words + lastRows));
      }
      assert mid.words + lastRows == st.words + WordRows(id, pieces);
    } else {
      assert st.words + WordRows(id, pieces) == st.words;
    }
  }

  /** The phrase inserts of a stored sign all succeed and append its phrase rows. */
  lemma {:induction false} ExecPhrases(st: Store, raw: string, id: int, base: string, phrases: seq<PhraseRef>)
    requires SignRef(st, raw) == Some(id)
    ensures ExecAll(st, PhraseStmts(raw, base, phrases)) == Some(st.(phrases := st.phrases + PhraseRows(id, base, phrases)))
    decreases |phrases|
  {
    if |phrases| > 0 {
      var init := phrases[..|phrases| - 1];
      var e := phrases[|phrases| - 1];
      var row := PhraseRow(id, base + e.movie, e.phrase);
      ExecPhrases(st, raw, id, base, init);
      var mid := st.(phrases := st.phrases + PhraseRows(id, base, init));
      assert PhraseStmts(raw, base, phrases) == PhraseStmts(raw, base, init) + [InsertPhrase(raw, base + e.movie, e.phrase)];
      assert PhraseRows(id, base, phrases) == PhraseRows(id, base, init) + [row];
      ExecAllAppend(st, PhraseStmts(raw, base, init), [InsertPhrase(raw, base + e.movie, e.phrase)]);
      assert Exec(mid, InsertPhrase(raw, base + e.movie, e.phrase)) == Some(mid.(phrases := mid.phrases + [row]));
      assert ExecAll(mid, [InsertPhrase(raw, base + e.movie, e.phrase)]) == Some(mid.(phrases := mid.phrases + [row]));
      assert mid.phrases + [row] == st.phrases + PhraseRows(id, base, phrases);
    } else {
      assert st.phrases + PhraseRows(id, base, phrases) == st.phrases;
    }
  }

  /** The category statements of a stored sign all succeed: each slug becomes a
      category (a category already there keeps its name) and the sign is joined to
      exactly the slugs of its categories. */
  lemma {:induction false} ExecCategories(st: Store, raw: string, id: int, cats: seq<CategoryRef>)
    requires SignRef(st, raw) == Some(id)
    ensures ExecAll(st, CategoryStmts(raw, cats)).Some?
    ensures var r := ExecAll(st, CategoryStmts(raw, cats)).value;
      && r.signs == st.signs && r.words == st.words && r.phrases == st.phrases
      && KeepsCategories(st, r)
      && (forall slug :: slug in r.categories <==> slug in st.categories || slug in SlugsOf(cats))
      && (forall p :: p in r.signCategories <==> p in st.signCategories || (p.0 == id && p.1 in SlugsOf(cats)))
    decreases |cats|
  {
    if |cats| > 0 {
      var init := cats[..|cats| - 1];
      var c := cats[|cats| - 1];
      ExecCategories(st, raw, id, init);
      var mid := ExecAll(st, CategoryStmts(raw, init)).value;
      ExecAllAppend(st, CategoryStmts(raw, init), [InsertCategory(c.name, c.slug), JoinCategory(raw, c.slug)]);
      var ins := InsertCategory(c.name, c.slug);
      var join := JoinCategory(raw, c.slug);
      var m1 := if c.slug in mid.categories then mid else mid.(categories := mid.categories[c.slug := c.name]);
      assert Exec(mid, ins) == Some(m1);
      assert m1.signs == st.signs && c.slug in m1.categories;
      var m2 := m1.(signCategories := m1.signCategories + {(id, c.slug)});
      assert Exec(m1, join) == Some(m2);
      assert ExecAll(m2, []) == Some(m2);
      assert ExecAll(m1, [join]) == Some(m2) by { assert [join][1..] == []; }
      assert ExecAll(mid, [ins, join]) == Some(m2) by { assert [ins, join][1..] == [join]; }
      assert CategoryStmts(raw, cats) == CategoryStmts(raw, init) + [ins, join];
    }
  }

  /** The sign-category pairs of one sign. */
  function JoinedSlugs(st: Store, id: int): set<string>
  {
    set p | p in st.signCategories && p.0 == id :: p.1
  }

  lemma JoinedSlugsExactly(st: Store, id: int, slugs: set<string>)
    requires forall slug :: (id, slug) in st.signCategories <==> slug in slugs
    ensures JoinedSlugs(st, id) == slugs
  {
    forall slug | slug in slugs
      ensures slug in JoinedSlugs(st, id)
    {
      assert (id, slug) in st.signCategories;
    }
  }

  /** The sign insert of a new sign stores its row; the dependent statements then
      find it under the raw id. */
  lemma {:induction false} SignStage(st: Store, base: string, s: NewSign, id: int, at: Timestamp) returns (s1: Store)
    requires id !in st.signs
    requires NormalizeId(s.id) == Some(id) && MinInt4 <= id <= MaxInt4 && !ZeroThenSign(s.id)
    ensures s1 == st.(signs := st.signs[id := SignRowOf(SignStmt(base, s, id, at).sign)])
    ensures ExecAll(st, RecordStmts(base, s, id, at)) == ExecAll(s1, DependentStmts(base, s))
    ensures SignRef(s1, s.id) == Some(id)
  {
    SameSignId(s.id, id);
    var sign := SignStmt(base, s, id, at);
    s1 := st.(signs := st.signs[id := SignRowOf(sign.sign)]);
    ExecAllAppend(st, [sign], DependentStmts(base, s));
    assert ExecAll(st, [sign]) == Some(s1);
  }

  /** The category statements of a stored sign, followed by more statements. */
  lemma {:induction false} CategoryStage(s2: Store, raw: string, id: int, cats: seq<CategoryRef>, tail: seq<Stmt>) returns (s3: Store)
    requires SignRef(s2, raw) == Some(id)
    ensures ExecAll(s2, CategoryStmts(raw, cats) + tail) == ExecAll(s3, tail)
    ensures s3.signs == s2.signs && s3.words == s2.words && s3.phrases == s2.phrases && KeepsCategories(s2, s3)
    ensures forall slug :: slug in s3.categories <==> slug in s2.categories || slug in SlugsOf(cats)
    ensures forall p :: p in s3.signCategories <==> p in s2.signCategories || (p.0 == id && p.1 in SlugsOf(cats))
  {
    ExecCategories(s2, raw, id, cats);
    ExecAllAppend(s2, CategoryStmts(raw, cats), tail);
    s3 := ExecAll(s2, CategoryStmts(raw, cats)).value;
  }

  /** The fallback join of a stored sign without categories, which has no join yet. */
  lemma {:induction false} FallbackStage(s3: Store, raw: string, id: int, cats: seq<CategoryRef>, tail: seq<Stmt>) returns (s4: Store)
    requires SignRef(s3, raw) == Some(id) && FallbackSlug in s3.categories
    requires |cats| == 0 ==> (id, FallbackSlug) !in s3.signCategories
    ensures ExecAll(s3, FallbackStmts(raw, cats) + tail) == ExecAll(s4, tail)
    ensures s4 == if |cats| == 0 then s3.(signCategories := s3.signCategories + {(id, FallbackSlug)}) else s3
  {
    ExecAllAppend(s3, FallbackStmts(raw, cats), tail);
    if |cats| == 0 {
      s4 := s3.(signCategories := s3.signCategories + {(id, FallbackSlug)});
      assert Exec(s3, JoinFallback(raw)) == Some(s4);
      assert ExecAll(s3, [JoinFallback(raw)]) == Some(s4);
    } else {
      s4 := s3;
      assert FallbackStmts(raw, cats) == [];
    }
  }

  /** The stores one record's statements pass through: the sign insert, the word
      inserts, the category statements, the fallback join and the phrase inserts. */
  lemma {:induction false} RecordStages(st: Store, base: string, s: NewSign, id: int, at: Timestamp)
    returns (s3: Store, r: Store)
    requires Consistent(st) && FallbackSlug in st.categories && id !in st.signs
    requires NormalizeId(s.id) == Some(id) && MinInt4 <= id <= MaxInt4 && !ZeroThenSign(s.id)
    ensures ExecAll(st, RecordStmts(base, s, id, at)) == Some(r)
    ensures r.signs == st.signs[id := SignRowOf(SignStmt(base, s, id, at).sign)]
    ensures r.words == st.words + WordRows(id, Split(s.alsoMeans, ", "))
    ensures r.phrases == st.phrases + PhraseRows(id, base, s.phrases)
    ensures r.categories == s3.categories && KeepsCategories(st, s3)
    ensures forall slug :: slug in s3.categories <==> slug in st.categories || slug in SlugsOf(s.categories)
    ensures forall p :: p in s3.signCategories <==> p in st.signCategories || (p.0 == id && p.1 in SlugsOf(s.categories))
    ensures r.signCategories == if |s.categories| == 0 then s3.signCategories + {(id, FallbackSlug)} else s3.signCategories
  {
    var s1 := SignStage(st, base, s, id, at);
    var ws := WordStmts(s.id, Split(s.alsoMeans, ", "));
    var ps := PhraseStmts(s.id, base, s.phrases);
    var fps := FallbackStmts(s.id, s.categories) + ps;
    var cfps := CategoryStmts(s.id, s.categories) + fps;
    ExecWords(s1, s.id, id, Split(s.alsoMeans, ", "));
    ExecAllAppend(s1, ws, cfps);
    var s2 := s1.(words := s1.words + WordRows(id, Split(s.alsoMeans, ", ")));
    s3 := CategoryStage(s2, s.id, id, s.categories, fps);
    assert forall p | p in st.signCategories :: p.0 != id;
    var s4 := FallbackStage(s3, s.id, id, s.categories, ps);
    ExecPhrases(s4, s.id, id, base, s.phrases);
    r := s4.(phrases := s4.phrases + PhraseRows(id, base, s.phrases));
  }

  /** Loading one record into a consistent store that holds the fallback category
      and not yet the sign: every statement succeeds, the foreign keys still hold,
      existing categories keep their names, the sign row is stored under the parsed
      id, and the word and phrase rows of the record are appended. */
  lemma {:induction false} RecordStored(st: Store, base: string, s: NewSign, id: int, at: Timestamp)
    requires Consistent(st) && FallbackSlug in st.categories && id !in st.signs
    requires NormalizeId(s.id) == Some(id) && MinInt4 <= id <= MaxInt4 && !ZeroThenSign(s.id)
    ensures ExecAll(st, RecordStmts(base, s, id, at)).Some?
    ensures var r := ExecAll(st, RecordStmts(base, s, id, at)).value;
      && Consistent(r) && KeepsCategories(st, r)
      && r.signs == st.signs[id := SignRowOf(SignStmt(base, s, id, at).sign)]
      && r.words == st.words + WordRows(id, Split(s.alsoMeans, ", "))
      && r.phrases == st.phrases + PhraseRows(id, base, s.phrases)
  {
    var s3, r := RecordStages(st, base, s, id, at);
    ExecAllPreserves(st, RecordStmts(base, s, id, at));
  }

  /** The same load joins the sign to exactly the slugs of its categories, or to the
      fallback category alone when it has none. */
  lemma {:induction false} RecordJoins(st: Store, base: string, s: NewSign, id: int, at: Timestamp)
    requires Consistent(st) && FallbackSlug in st.categories && id !in st.signs
    requires NormalizeId(s.id) == Some(id) && MinInt4 <= id <= MaxInt4 && !ZeroThenSign(s.id)
    ensures ExecAll(st, RecordStmts(base, s, id, at)).Some?
    ensures JoinedSlugs(ExecAll(st, RecordStmts(base, s, id, at)).value, id)
      == if |s.categories| == 0 then {FallbackSlug} else SlugsOf(s.categories)
  {
    var s3, r := RecordStages(st, base, s, id, at);
    var wanted := if |s.categories| == 0 then {FallbackSlug} else SlugsOf(s.categories);
    forall slug
      ensures (id, slug) in r.signCategories <==> slug in wanted
    {
      assert (id, slug) in st.signCategories ==> id in st.signs;
    }
    JoinedSlugsExactly(r, id, wanted);
  }

  /** The same load leaves every other sign's joins as they were, and every category
      slug of the record exists afterwards. */
  lemma {:induction false} RecordKeepsOthers(st: Store, base: string, s: NewSign, id: int, at: Timestamp)
    requires Consistent(st) && FallbackSlug in st.categories && id !in st.signs
    requires NormalizeId(s.id) == Some(id) && MinInt4 <= id <= MaxInt4 && !ZeroThenSign(s.id)
    ensures ExecAll(st, RecordStmts(base, s, id, at)).Some?
    ensures var r := ExecAll(st, RecordStmts(base, s, id, at)).value;
      && (forall p: (int, string) | p.0 != id :: p in r.signCategories <==> p in st.signCategories)
      && (forall k | 0 <= k < |s.categories| :: s.categories[k].slug in r.categories)
  {
    var s3, r := RecordStages(st, base, s, id, at);
  }

  /* ================================================================ queueing a record */

  /** Queues one insert per piece of `also_means` that is not blank once trimmed. */
  method QueueWords(batch: seq<Stmt>, raw: string, words: seq<string>) returns (b: seq<Stmt>)
    ensures b == batch + WordStmts(raw, words)
  {
    b := batch;
    for k := 0 to |words|
      invariant b == batch + WordStmts(raw, words[..k])
    {
      assert words[..k + 1][..k] == words[..k];
      var w := TrimSpace(words[k]);
      if w == "" {
        continue;
      }
      b := b + [InsertWord(raw, w)];
    }
    assert words[..|words|] == words;
  }

  /** Queues, for every category, its insert and then the join of the sign to it. */
  method QueueCategories(batch: seq<Stmt>, raw: string, cats: seq<CategoryRef>) returns (b: seq<Stmt>)
    ensures b == batch + CategoryStmts(raw, cats)
  {
    b := batch;
    for k := 0 to |cats|
      invariant b == batch + CategoryStmts(raw, cats[..k])
    {
      assert cats[..k + 1][..k] == cats[..k];
      var t := cats[k];
      b := b + [InsertCategory(t.name, t.slug)];
      b := b + [JoinCategory(raw, t.slug)];
    }
    assert cats[..|cats|] == cats;
  }

  /** Queues one insert per phrase, with its absolute media URL. */
  method QueuePhrases(batch: seq<Stmt>, raw: string, base: string, phrases: seq<PhraseRef>) returns (b: seq<Stmt>)
    ensures b == batch + PhraseStmts(raw, base, phrases)
  {
    b := batch;
    for k := 0 to |phrases|
      invariant b == batch + PhraseStmts(raw, base, phrases[..k])
    {
      assert phrases[..k + 1][..k] == phrases[..k];
      var e := phrases[k];
      b := b + [InsertPhrase(raw, base + e.movie, e.phrase)];
    }
    assert phrases[..|phrases|] == phrases;
  }

  /** Queues the statements of one record after those already in `batch`, the way
      the loop body does. */
  method QueueRecord(batch: seq<Stmt>, base: string, s: NewSign, id: int, at: Timestamp) returns (b: seq<Stmt>)
    ensures b == batch + RecordStmts(base, s, id, at)
  {
    var sign := SignStmt(base, s, id, at);
    var ws := WordStmts(s.id, Split(s.alsoMeans, ", "));
    var cs := CategoryStmts(s.id, s.categories);
    var fs := FallbackStmts(s.id, s.categories);
    var ps := PhraseStmts(s.id, base, s.phrases);
    var b1 := batch + [sign];
    var b2 := QueueWords(b1, s.id, Split(s.alsoMeans, ", "));
    var b3 := QueueCategories(b2, s.id, s.categories);
    var b4 := b3;
    if |s.categories| == 0 {
      b4 := b3 + [JoinFallback(s.id)];
    }
    assert b4 == b3 + fs;
    b := QueuePhrases(b4, s.id, base, s.phrases);
    assert b == batch + RecordStmts(base, s, id, at) by {
      ConcatAssoc(batch, [sign], ws, cs, fs, ps);
    }
  }

  lemma ConcatAssoc<T>(a: seq<T>, b: seq<T>, c: seq<T>, d: seq<T>, e: seq<T>, f: seq<T>)
    ensures a + b + c + d + e + f == a + (b + (c + (d + (e + f))))
  {
  }
}
