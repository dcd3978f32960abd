/**
 * The relational store the synchroniser writes into, seen through the statements it
 * queues: the `NewSign` record it decodes, the statement kinds, and what each
 * statement does to the tables `signs`, `categories`, `signs_categories`, `words`
 * and `phrases`.  Row identifiers generated by the database are not modelled; a
 * category is known by its slug, the key its statements use.
 */
module Catalog {
  import opened Base
  import opened Text

  /** The value `time.ParseInLocation` yields; its representation is not modelled. */
  type Timestamp = int

  datatype PhraseRef = PhraseRef(phrase: string, movie: string)

  datatype CategoryRef = CategoryRef(slug: string, name: string)

  /** One record of the source's JSON array: the `NewSign` structure. */
  datatype NewSign = NewSign(
    id: string,
    word: string,
    description: string,
    lastUpdate: string,
    category: string,
    glosa: string,
    frequency: Option<string>,
    movie: string,
    transcription: string,
    alsoMeans: string,
    hiddenAlsoMeans: string,
    phrases: seq<PhraseRef>,
    categories: seq<CategoryRef>)

  /** The slug and name of the category a record without categories is joined to. */
  const FallbackSlug: string := "odefinierade"
  const FallbackName: string := "Odefinierade"

  /** The range of PostgreSQL's `int4`, the type of every `sign_id` column. */
  const MinInt4: int := -0x8000_0000
  const MaxInt4: int := 0x7FFF_FFFF

  /** The parameters of the sign insert, as the Go code passes them. */
  datatype SignParams = SignParams(
    id: int,
    updatedAt: Timestamp,
    videoUrl: string,
    description: string,
    frequency: Option<string>,
    transcription: string,
    glosa: string,
    hiddenWords: seq<string>)

  /** The statements the synchroniser queues.  Every statement that refers to a sign
      other than the sign insert itself passes the raw text id of the record. */
  datatype Stmt =
    | InsertSign(sign: SignParams)
    | InsertWord(signId: string, word: string)
    | InsertCategory(name: string, slug: string)
    | JoinCategory(signId: string, slug: string)
    | JoinFallback(signId: string)
    | InsertPhrase(signId: string, videoUrl: string, phrase: string)

  datatype SignRow = SignRow(
    updatedAt: Timestamp,
    videoUrl: string,
    description: string,
    unusual: bool,
    frequency: Option<string>,
    transcription: Option<string>,
    vocable: Option<string>,
    hiddenWords: Option<seq<string>>)

  datatype WordRow = WordRow(signId: int, word: string)

  datatype PhraseRow = PhraseRow(signId: int, videoUrl: string, phrase: string)

  datatype Store = Store(
    signs: map<int, SignRow>,
    categories: map<string, string>,
    signCategories: set<(int, string)>,
    words: seq<WordRow>,
    phrases: seq<PhraseRow>)

  /** What a round trip to the database carries: the truncate, or statements. */
  datatype DbOp = Truncate | Statements(stmts: seq<Stmt>)

  /** SQL's `NULLIF(s, '')`. */
  function NullIf(s: string): (r: Option<string>)
    ensures r.None? <==> s == ""
    ensures r.Some? ==> r.value == s
  {
    if s == "" then None else Some(s)
  }

  /** The row the sign insert stores: `unusual` is `NULLIF($5, '') IS NOT NULL`,
      frequency, transcription and vocable go through `NULLIF`, and the hidden words
      array is NULL when it is the one-element array `['']`. */
  function SignRowOf(p: SignParams): (r: SignRow)
    ensures r.unusual <==> p.frequency.Some? && p.frequency.value != ""
    ensures r.frequency == if r.unusual then p.frequency else None
    ensures r.transcription.None? <==> p.transcription == ""
    ensures r.vocable.None? <==> p.glosa == ""
    ensures r.hiddenWords.None? <==> p.hiddenWords == [""]
    ensures r.videoUrl == p.videoUrl && r.description == p.description && r.updatedAt == p.updatedAt
  {
    var freq := if p.frequency.Some? then NullIf(p.frequency.value) else None;
    SignRow(p.updatedAt, p.videoUrl, p.description, freq.Some?, freq,
            NullIf(p.transcription), NullIf(p.glosa),
            if p.hiddenWords == [""] then None else Some(p.hiddenWords))
  }

  /** PostgreSQL's reading of a text parameter as `int4`: an optional sign, then
      decimal digits (leading zeros allowed), within the `int4` range. */
  function PgInt(raw: string): (r: Option<int>)
    ensures r.Some? ==> MinInt4 <= r.value <= MaxInt4
  {
    var digits := if |raw| > 0 && (raw[0] == '-' || raw[0] == '+') then raw[1..] else raw;
    if |digits| == 0 || !AllDigits(digits) then None
    else
      var v: int := if raw[0] == '-' then -(DigitsValue(digits) as int) else DigitsValue(digits);
      if MinInt4 <= v <= MaxInt4 then Some(v) else None
  }

  /** The sign a dependent row refers to: its raw id read as `int4`, which must be
      the id of a stored sign (the foreign key). */
  function SignRef(st: Store, raw: string): (r: Option<int>)
    ensures r.Some? ==> PgInt(raw) == r && r.value in st.signs
    ensures r.None? ==> PgInt(raw).None? || PgInt(raw).value !in st.signs
  {
    match PgInt(raw)
    case None => None
    case Some(id) => if id in st.signs then Some(id) else None
  }

  /** One statement against the store: the new store, or None when the statement
      fails (duplicate key, foreign key, a text id that is not an integer). */
  function Exec(st: Store, stmt: Stmt): Option<Store>
  {
    match stmt
    case InsertSign(p) =>
      if p.id in st.signs || !(MinInt4 <= p.id <= MaxInt4) then None
      else Some(st.(signs := st.signs[p.id := SignRowOf(p)]))
    case InsertWord(raw, w) =>
      (match SignRef(st, raw)
       case None => None
       case Some(id) => Some(st.(words := st.words + [WordRow(id, w)])))
    case InsertCategory(name, slug) =>
      // ON CONFLICT (slug) DO NOTHING
      Some(if slug in st.categories then st else st.(categories := st.categories[slug := name]))
    case JoinCategory(raw, slug) =>
      // INSERT ... SELECT ... WHERE slug = $2 ON CONFLICT (sign_id, category_id) DO NOTHING
      (match PgInt(raw)
       case None => None
       case Some(id) =>
         if slug !in st.categories then Some(st)
         else if id !in st.signs then None
         else Some(st.(signCategories := st.signCategories + {(id, slug)})))
    case JoinFallback(raw) =>
      // INSERT ... SELECT ... WHERE slug = 'odefinierade', without ON CONFLICT
      (match PgInt(raw)
       case None => None
       case Some(id) =>
         if FallbackSlug !in st.categories then Some(st)
         else if id !in st.signs || (id, FallbackSlug) in st.signCategories then None
         else Some(st.(signCategories := st.signCategories + {(id, FallbackSlug)})))
    case InsertPhrase(raw, url, phrase) =>
      match SignRef(st, raw)
      case None => None
      case Some(id) => Some(st.(phrases := st.phrases + [PhraseRow(id, url, phrase)]))
  }

  /** A sequence of statements sent together: all of them take effect, or (when one
      fails) none does. */
  function ExecAll(st: Store, stmts: seq<Stmt>): Option<Store>
    decreases |stmts|
  {
    if |stmts| == 0 then Some(st)
    else match Exec(st, stmts[0])
      case None => None
      case Some(next) => ExecAll(next, stmts[1..])
  }

  /** `TRUNCATE TABLE signs ... CASCADE`: signs and every table that references them
      are emptied; categories do not reference signs and survive. */
  function Truncated(st: Store): (r: Store)
    ensures r.signs == map[] && r.signCategories == {} && r.words == [] && r.phrases == []
    ensures r.categories == st.categories
  {
    Store(map[], st.categories, {}, [], [])
  }

  function Apply(st: Store, op: DbOp): Option<Store>
  {
    match op
    case Truncate => Some(Truncated(st))
    case Statements(stmts) => ExecAll(st, stmts)
  }

  /** Sending `a + b` is sending `a`, then `b` against the store `a` left. */
  lemma {:induction false} ExecAllAppend(st: Store, a: seq<Stmt>, b: seq<Stmt>)
    ensures ExecAll(st, a + b) == match ExecAll(st, a) case None => None case Some(mid) => ExecAll(mid, b)
    decreases |a|
  {
    if |a| == 0 {
      assert a + b == b;
    } else {
      assert (a + b)[0] == a[0];
      assert (a + b)[1..] == a[1..] + b;
      match Exec(st, a[0])
      case None =>
      case Some(next) => ExecAllAppend(next, a[1..], b);
    }
  }

  /** Once `a` has succeeded, sending `a + b` is sending `b` on the store `a` left. */
  lemma ExecAllChain(st: Store, a: seq<Stmt>, b: seq<Stmt>, mid: Store)
    requires ExecAll(st, a) == Some(mid)
    ensures ExecAll(st, a + b) == ExecAll(mid, b)
  {
    ExecAllAppend(st, a, b);
  }

  /** Every row that refers to a sign refers to a stored one, and every join refers
      to a stored category: the foreign keys of the schema. */
  ghost predicate Consistent(st: Store)
  {
    && (forall p | p in st.signCategories :: p.0 in st.signs && p.1 in st.categories)
    && (forall k | 0 <= k < |st.words| :: st.words[k].signId in st.signs)
    && (forall k | 0 <= k < |st.phrases| :: st.phrases[k].signId in st.signs)
  }

  /** Categories are only ever added, and a stored category keeps its first name. */
  ghost predicate KeepsCategories(before: Store, after: Store)
  {
    forall slug | slug in before.categories ::
      slug in after.categories && after.categories[slug] == before.categories[slug]
  }

  /** One statement keeps the foreign keys and never drops or renames a category. */
  lemma ExecPreserves(st: Store, stmt: Stmt)
    requires Consistent(st) && Exec(st, stmt).Some?
    ensures Consistent(Exec(st, stmt).value) && KeepsCategories(st, Exec(st, stmt).value)
  {
  }

  /** A batch that succeeds keeps the foreign keys and never drops or renames a
      category. */
  lemma {:induction false} ExecAllPreserves(st: Store, stmts: seq<Stmt>)
    requires Consistent(st) && ExecAll(st, stmts).Some?
    ensures Consistent(ExecAll(st, stmts).value) && KeepsCategories(st, ExecAll(st, stmts).value)
    decreases |stmts|
  {
    if |stmts| > 0 {
      var next := Exec(st, stmts[0]).value;
      ExecPreserves(st, stmts[0]);
      ExecAllPreserves(next, stmts[1..]);
    }
  }

  /** Exec never drops or renames a category, whatever the store. */
  lemma ExecKeepsCategories(st: Store, stmt: Stmt)
    requires Exec(st, stmt).Some?
    ensures KeepsCategories(st, Exec(st, stmt).value)
  {
  }

  /** Nor does a batch. */
  lemma {:induction false} ExecAllKeepsCategories(st: Store, stmts: seq<Stmt>)
    requires ExecAll(st, stmts).Some?
    ensures KeepsCategories(st, ExecAll(st, stmts).value)
    decreases |stmts|
  {
    if |stmts| > 0 {
      var next := Exec(st, stmts[0]).value;
      ExecKeepsCategories(st, stmts[0]);
      ExecAllKeepsCategories(next, stmts[1..]);
    }
  }

  /** Every category join directly follows the insert of its category, except that
      the first statement may join a category whose slug is in `known`. */
  ghost predicate JoinsFollowInserts(known: set<string>, stmts: seq<Stmt>)
  {
    forall k {:trigger stmts[k]} | 0 <= k < |stmts| && stmts[k].JoinCategory? ::
      if k == 0 then stmts[k].slug in known
      else stmts[k - 1].InsertCategory? && stmts[k - 1].slug == stmts[k].slug
  }

  /** Joins that follow their inserts still do when more slugs are known. */
  lemma JoinsFollowInsertsWider(known: set<string>, wider: set<string>, stmts: seq<Stmt>)
    requires JoinsFollowInserts(known, stmts) && known <= wider
    ensures JoinsFollowInserts(wider, stmts)
  {
  }

  /** Batches whose joins follow their inserts can be sent one after the other. */
  lemma JoinsFollowInsertsAppend(a: seq<Stmt>, b: seq<Stmt>)
    requires JoinsFollowInserts({}, a) && JoinsFollowInserts({}, b)
    ensures JoinsFollowInserts({}, a + b)
  {
    forall k | 0 <= k < |a + b| && (a + b)[k].JoinCategory?
      ensures k > 0 && (a + b)[k - 1].InsertCategory? && (a + b)[k - 1].slug == (a + b)[k].slug
    {
      if k < |a| {
        assert (a + b)[k] == a[k] && (a + b)[k - 1] == a[k - 1];
      } else {
        assert (a + b)[k] == b[k - |a|];
        assert (a + b)[k - 1] == b[k - |a| - 1];
      }
    }
  }

  /** One statement has the same effect on a store whose categories are those of
      a later store: only its categories differ, and they keep differing the same
      way.  Only a category join could tell the two stores apart, and it cannot
      when its slug is already present. */
  lemma ExecReplay(st: Store, stmt: Stmt, cats: map<string, string>)
    requires Exec(st, stmt).Some?
    requires KeepsCategories(Exec(st, stmt).value, st.(categories := cats))
    requires stmt.JoinCategory? ==> stmt.slug in st.categories
    requires stmt.JoinFallback? ==> FallbackSlug in st.categories
    ensures Exec(st.(categories := cats), stmt) == Some(Exec(st, stmt).value.(categories := cats))
  {
  }

  /** A batch that succeeded succeeds again, with the same effect on every table
      but the categories, on a store that already holds the categories the batch
      ends with (and maybe more): the categories stay as they are. */
  lemma {:induction false} ExecAllReplay(st: Store, stmts: seq<Stmt>, cats: map<string, string>)
    requires ExecAll(st, stmts).Some?
    requires KeepsCategories(ExecAll(st, stmts).value, st.(categories := cats))
    requires JoinsFollowInserts(st.categories.Keys, stmts)
    requires FallbackSlug in st.categories
    ensures ExecAll(st.(categories := cats), stmts) == Some(ExecAll(st, stmts).value.(categories := cats))
    decreases |stmts|
  {
    if |stmts| > 0 {
      var next := Exec(st, stmts[0]).value;
      ExecKeepsCategories(st, stmts[0]);
      ExecAllKeepsCategories(next, stmts[1..]);
      assert stmts[0].JoinCategory? ==> stmts[0].slug in st.categories.Keys;
      ExecReplay(st, stmts[0], cats);
      assert next.(categories := cats) == Exec(st.(categories := cats), stmts[0]).value;
      assert JoinsFollowInserts(next.categories.Keys, stmts[1..]) by {
        forall k | 0 <= k < |stmts[1..]| && stmts[1..][k].JoinCategory?
          ensures if k == 0 then stmts[1..][k].slug in next.categories.Keys
            else stmts[1..][k - 1].InsertCategory? && stmts[1..][k - 1].slug == stmts[1..][k].slug
        {
          assert stmts[1..][k] == stmts[k + 1];
        }
      }
      ExecAllReplay(next, stmts[1..], cats);
    }
  }

  /** Truncating and applying statements keep the foreign keys and the categories. */
  lemma ApplyPreserves(st: Store, op: DbOp)
    requires Consistent(st) && Apply(st, op).Some?
    ensures Consistent(Apply(st, op).value) && KeepsCategories(st, Apply(st, op).value)
  {
    if op.Statements? {
      ExecAllPreserves(st, op.stmts);
    }
  }
}
