/**
 * The one-shot bulk loader `loadData`: fetch one JSON array of signs in the older
 * format, empty the store, and queue each record's statements (its sign, two per tag,
 * one per word, one per example) into a batch that is sent whenever it holds 1000
 * statements or more before the next record is queued, and once more at the end.
 *
 * The record type `loadData` decodes (with `RefID`, `VideoURL`, `Tags`, `Words`,
 * `Examples`) is not part of this model's sources; `LegacySign` holds the fields the
 * loader reads, with text ids as in the older format, which PostgreSQL reads as
 * `int4` (`Catalog.PgInt`).
 */
module Loader {
  import opened Base
  import opened Stream
  import Catalog
  import Sync

  /* ================================================================ records and statements */

  datatype LegacyTag = LegacyTag(id: string, tag: string)

  datatype LegacyWord = LegacyWord(id: string, word: string)

  datatype LegacyExample = LegacyExample(id: string, videoUrl: string, description: string)

  datatype LegacySign = LegacySign(
    id: string,
    refId: string,
    videoUrl: string,
    description: string,
    unusual: bool,
    frequency: string,
    deleted: bool,
    tags: seq<LegacyTag>,
    words: seq<LegacyWord>,
    examples: seq<LegacyExample>)

  datatype LegacySignRow = LegacySignRow(
    refId: string, videoUrl: string, description: string, unusual: bool, frequency: string, deleted: bool)

  /** The statements `loadData` queues; every id is passed as text. */
  datatype LegacyStmt =
    | InsertSign(id: string, row: LegacySignRow)
    | InsertTag(id: string, name: string)
    | JoinTag(signId: string, tagId: string)
    | InsertWord(id: string, signId: string, word: string)
    | InsertExample(id: string, signId: string, videoUrl: string, description: string)

  function RowOf(s: LegacySign): LegacySignRow
  {
    LegacySignRow(s.refId, s.videoUrl, s.description, s.unusual, s.frequency, s.deleted)
  }

  /** Per tag: insert the tag if its id is new, then join the sign to it. */
  function TagStmts(signId: string, tags: seq<LegacyTag>): seq<LegacyStmt>
    decreases |tags|
  {
    if |tags| == 0 then []
    else
      var t := tags[|tags| - 1];
      TagStmts(signId, tags[..|tags| - 1]) + [InsertTag(t.id, t.tag), JoinTag(signId, t.id)]
  }

  function WordStmts(signId: string, words: seq<LegacyWord>): seq<LegacyStmt>
    decreases |words|
  {
    if |words| == 0 then []
    else
      var w := words[|words| - 1];
      WordStmts(signId, words[..|words| - 1]) + [InsertWord(w.id, signId, w.word)]
  }

  function ExampleStmts(signId: string, examples: seq<LegacyExample>): seq<LegacyStmt>
    decreases |examples|
  {
    if |examples| == 0 then []
    else
      var e := examples[|examples| - 1];
      ExampleStmts(signId, examples[..|examples| - 1]) + [InsertExample(e.id, signId, e.videoUrl, e.description)]
  }

  /** The statements of one record, in the order the loop body queues them. */
  function RecordStmts(s: LegacySign): seq<LegacyStmt>
  {
    [InsertSign(s.id, RowOf(s))] + TagStmts(s.id, s.tags) + WordStmts(s.id, s.words) + ExampleStmts(s.id, s.examples)
  }

  /** Tag k queues its insert at position 2k and its join at 2k+1. */
  lemma {:induction false} TagStmtsShape(signId: string, tags: seq<LegacyTag>)
    ensures |TagStmts(signId, tags)| == 2 * |tags|
    ensures forall k | 0 <= k < |tags| ::
      TagStmts(signId, tags)[2 * k] == InsertTag(tags[k].id, tags[k].tag)
      && TagStmts(signId, tags)[2 * k + 1] == JoinTag(signId, tags[k].id)
    decreases |tags|
  {
    if |tags| > 0 {
      var init := tags[..|tags| - 1];
      TagStmtsShape(signId, init);
      assert forall k | 0 <= k < |init| :: init[k] == tags[k];
    }
  }

  /** Word k queues its insert at position k. */
  lemma {:induction false} WordStmtsShape(signId: string, words: seq<LegacyWord>)
    ensures |WordStmts(signId, words)| == |words|
    ensures forall k | 0 <= k < |words| ::
      WordStmts(signId, words)[k] == InsertWord(words[k].id, signId, words[k].word)
    decreases |words|
  {
    if |words| > 0 {
      WordStmtsShape(signId, words[..|words| - 1]);
    }
  }

  /** Example k queues its insert at position k. */
  lemma {:induction false} ExampleStmtsShape(signId: string, examples: seq<LegacyExample>)
    ensures |ExampleStmts(signId, examples)| == |examples|
    ensures forall k | 0 <= k < |examples| ::
      ExampleStmts(signId, examples)[k] == InsertExample(examples[k].id, signId, examples[k].videoUrl, examples[k].description)
    decreases |examples|
  {
    if |examples| > 0 {
      ExampleStmtsShape(signId, examples[..|examples| - 1]);
    }
  }

  /** A record queues its sign insert first, then the statements of its tags, then
      those of its words, then those of its examples (whose positions the three
      lemmas above give): one sign insert, two statements per tag, one per word and
      one per example. */
  lemma RecordStmtsShape(s: LegacySign)
    ensures |RecordStmts(s)| == 1 + 2 * |s.tags| + |s.words| + |s.examples|
    ensures RecordStmts(s)[0] == InsertSign(s.id, RowOf(s))
    ensures RecordStmts(s)[1..1 + 2 * |s.tags|] == TagStmts(s.id, s.tags)
    ensures RecordStmts(s)[1 + 2 * |s.tags|..1 + 2 * |s.tags| + |s.words|] == WordStmts(s.id, s.words)
    ensures RecordStmts(s)[1 + 2 * |s.tags| + |s.words|..] == ExampleStmts(s.id, s.examples)
  {
    var ts := TagStmts(s.id, s.tags);
    var ws := WordStmts(s.id, s.words);
    var es := ExampleStmts(s.id, s.examples);
    TagStmtsShape(s.id, s.tags);
    WordStmtsShape(s.id, s.words);
    ExampleStmtsShape(s.id, s.examples);
    var r := RecordStmts(s);
    var a := 1 + |ts|;
    var b := a + |ws|;
    assert r == [InsertSign(s.id, RowOf(s))] + ts + ws + es;
    assert r[1..a] == ts;
    assert r[a..b] == ws;
    assert r[b..] == es;
  }

  /* ================================================================ batching */

  /** A batch is sent before the next record is queued once it holds this many
      statements. */
  const FlushAt: nat := 1000

  /** The number of statements a record queues. */
  function Size(r: LegacySign): nat
  {
    1 + 2 * |r.tags| + |r.words| + |r.examples|
  }

  /** What several records queue, one record after another. */
  function Concat<T, S>(f: T -> seq<S>, rs: seq<T>): seq<S>
    decreases |rs|
  {
    if |rs| == 0 then [] else Concat(f, rs[..|rs| - 1]) + f(rs[|rs| - 1])
  }

  /** The statements of several records. */
  function Stmts(rs: seq<LegacySign>): seq<LegacyStmt>
  {
    Concat(RecordStmts, rs)
  }

  /** The sum of the sizes of several records. */
  function Load<T>(size: T -> nat, rs: seq<T>): nat
    decreases |rs|
  {
    if |rs| == 0 then 0 else Load(size, rs[..|rs| - 1]) + size(rs[|rs| - 1])
  }

  function Flatten<T>(gs: seq<seq<T>>): seq<T>
    decreases |gs|
  {
    if |gs| == 0 then [] else Flatten(gs[..|gs| - 1]) + gs[|gs| - 1]
  }

  /** What each group of records queues. */
  function Batches<T, S>(f: T -> seq<S>, gs: seq<seq<T>>): (bs: seq<seq<S>>)
    ensures |bs| == |gs|
    decreases |gs|
  {
    if |gs| == 0 then [] else Batches(f, gs[..|gs| - 1]) + [Concat(f, gs[|gs| - 1])]
  }

  /** A record queues `Size` statements, so records queue `Load(Size, _)`. */
  lemma {:induction false} StmtsLength(rs: seq<LegacySign>)
    ensures |Stmts(rs)| == Load(Size, rs)
    decreases |rs|
  {
    if |rs| > 0 {
      StmtsLength(rs[..|rs| - 1]);
      RecordStmtsShape(rs[|rs| - 1]);
    }
  }

  /** How the records seen so far are batched: the groups already sent, and the
      records whose statements are in the batch still being filled. */
  datatype Plan<T> = Plan(sent: seq<seq<T>>, pending: seq<T>)

  /** Before each record is queued, the pending batch is sent if it holds `FlushAt`
      statements or more. */
  function PlanOf<T>(size: T -> nat, rs: seq<T>): Plan<T>
    decreases |rs|
  {
    if |rs| == 0 then Plan([], [])
    else
      var p := PlanOf(size, rs[..|rs| - 1]);
      var r := rs[|rs| - 1];
      if Load(size, p.pending) >= FlushAt then Plan(p.sent + [p.pending], [r]) else Plan(p.sent, p.pending + [r])
  }

  lemma {:induction false} ConcatAppend<T, S>(f: T -> seq<S>, a: seq<T>, b: seq<T>)
    ensures Concat(f, a + b) == Concat(f, a) + Concat(f, b)
    decreases |b|
  {
    if |b| == 0 {
      assert a + b == a;
    } else {
      var init := b[..|b| - 1];
      assert (a + b)[..|a + b| - 1] == a + init;
      ConcatAppend(f, a, init);
    }
  }

  lemma {:induction false} FlattenBatches<T, S>(f: T -> seq<S>, gs: seq<seq<T>>)
    ensures Flatten(Batches(f, gs)) == Concat(f, Flatten(gs))
    decreases |gs|
  {
    if |gs| > 0 {
      var init := gs[..|gs| - 1];
      FlattenBatches(f, init);
      assert Batches(f, gs)[..|gs| - 1] == Batches(f, init);
      ConcatAppend(f, Flatten(init), gs[|gs| - 1]);
    }
  }

  /** Batching keeps every record whole and in order: the sent groups followed by the
      pending records are the records; the pending batch is empty only before the
      first record. */
  lemma {:induction false} PlanCovers<T>(size: T -> nat, rs: seq<T>)
    ensures Flatten(PlanOf(size, rs).sent) + PlanOf(size, rs).pending == rs
    ensures PlanOf(size, rs).pending == [] <==> rs == []
    decreases |rs|
  {
    if |rs| > 0 {
      var init := rs[..|rs| - 1];
      var r := rs[|rs| - 1];
      PlanCovers(size, init);
      var p := PlanOf(size, init);
      assert rs[..|rs| - 1] == init;
      if Load(size, p.pending) >= FlushAt {
        assert PlanOf(size, rs) == Plan(p.sent + [p.pending], [r]);
        FlattenSnoc(p.sent, p.pending);
        assert Flatten(p.sent + [p.pending]) + [r] == init + [r];
      } else {
        assert PlanOf(size, rs) == Plan(p.sent, p.pending + [r]);
        assert Flatten(p.sent) + (p.pending + [r]) == init + [r];
      }
      assert init + [r] == rs;
    }
  }

  lemma FlattenSnoc<T>(gs: seq<seq<T>>, g: seq<T>)
    ensures Flatten(gs + [g]) == Flatten(gs) + g
  {
    assert (gs + [g])[..|gs|] == gs;
  }

  /** Every statement queued is in exactly one batch, in queue order: the sent
      batches followed by the pending one are the statements of the records. */
  lemma PlanInOrder<T, S>(size: T -> nat, f: T -> seq<S>, rs: seq<T>)
    ensures Flatten(Batches(f, PlanOf(size, rs).sent)) + Concat(f, PlanOf(size, rs).pending) == Concat(f, rs)
  {
    PlanCovers(size, rs);
    FlattenBatches(f, PlanOf(size, rs).sent);
    ConcatAppend(f, Flatten(PlanOf(size, rs).sent), PlanOf(size, rs).pending);
  }

  /** A group is sent as soon as its size reaches `FlushAt`, and not before: each
      sent group has at least that size and had less before its last record; the
      pending group likewise had less before its last record. */
  lemma {:induction false} PlanFlushes<T>(size: T -> nat, rs: seq<T>)
    ensures var p := PlanOf(size, rs);
      && (forall k | 0 <= k < |p.sent| ::
            && p.sent[k] != []
            && FlushAt <= Load(size, p.sent[k])
            && Load(size, p.sent[k][..|p.sent[k]| - 1]) < FlushAt)
      && (p.pending != [] ==> Load(size, p.pending[..|p.pending| - 1]) < FlushAt)
    decreases |rs|
  {
    if |rs| > 0 {
      var init := rs[..|rs| - 1];
      PlanFlushes(size, init);
      PlanCovers(size, init);
      var p := PlanOf(size, init);
      var r := rs[|rs| - 1];
      if Load(size, p.pending) >= FlushAt {
        assert [r][..0] == [];
        assert p.pending != [];
      } else {
        assert (p.pending + [r])[..|p.pending + [r]| - 1] == p.pending;
      }
    }
  }

  /** Later records only add groups after the ones already sent. */
  lemma {:induction false} PlanPrefix<T>(size: T -> nat, rs: seq<T>, more: seq<T>)
    ensures PlanOf(size, rs).sent <= PlanOf(size, rs + more).sent
    decreases |more|
  {
    if |more| == 0 {
      assert rs + more == rs;
    } else {
      assert (rs + more)[..|rs + more| - 1] == rs + more[..|more| - 1];
      PlanPrefix(size, rs, more[..|more| - 1]);
    }
  }

  /* ================================================================ the store */

  /** The tables `loadData` writes, keyed by the `int4` their text ids stand for. */
  datatype LegacyStore = LegacyStore(
    signs: map<int, LegacySignRow>,
    tags: map<int, string>,
    signTags: set<(int, int)>,
    words: map<int, (int, string)>,
    examples: map<int, (int, string, string)>)

  datatype LegacyOp = TruncateSigns | SendBatch(stmts: seq<LegacyStmt>)

  /** One statement: the sign insert fails on a duplicate id; the other inserts are
      `ON CONFLICT DO NOTHING` on their key; a text id that is not an `int4` fails.
      No foreign key is checked.  The schema of these tables is not part of this
      model, and a record's tag, word and example rows always follow its own sign
      insert in the same batch, so a check on the sign would always pass. */
  function ExecLegacy(st: LegacyStore, stmt: LegacyStmt): Option<LegacyStore>
  {
    match stmt
    case InsertSign(raw, row) =>
      (match Catalog.PgInt(raw)
       case None => None
       case Some(id) => if id in st.signs then None else Some(st.(signs := st.signs[id := row])))
    case InsertTag(raw, name) =>
      (match Catalog.PgInt(raw)
       case None => None
       case Some(id) => Some(if id in st.tags then st else st.(tags := st.tags[id := name])))
    case JoinTag(rawSign, rawTag) =>
      (if Catalog.PgInt(rawSign).None? || Catalog.PgInt(rawTag).None? then None
       else Some(st.(signTags := st.signTags + {(Catalog.PgInt(rawSign).value, Catalog.PgInt(rawTag).value)})))
    case InsertWord(raw, rawSign, word) =>
      (if Catalog.PgInt(raw).None? || Catalog.PgInt(rawSign).None? then None
       else if Catalog.PgInt(raw).value in st.words then Some(st)
       else Some(st.(words := st.words[Catalog.PgInt(raw).value := (Catalog.PgInt(rawSign).value, word)])))
    case InsertExample(raw, rawSign, url, description) =>
      if Catalog.PgInt(raw).None? || Catalog.PgInt(rawSign).None? then None
      else if Catalog.PgInt(raw).value in st.examples then Some(st)
      else Some(st.(examples := st.examples[Catalog.PgInt(raw).value := (Catalog.PgInt(rawSign).value, url, description)]))
  }

  /** A batch: all of its statements take effect, or none does. */
  function ExecLegacyAll(st: LegacyStore, stmts: seq<LegacyStmt>): Option<LegacyStore>
    decreases |stmts|
  {
    if |stmts| == 0 then Some(st)
    else match ExecLegacy(st, stmts[0])
      case None => None
      case Some(next) => ExecLegacyAll(next, stmts[1..])
  }

  /** The name of the first tag insert for `id` in `stmts`, if any. */
  function FirstTagName(stmts: seq<LegacyStmt>, id: int): Option<string>
    decreases |stmts|
  {
    if |stmts| == 0 then None
    else if stmts[0].InsertTag? && Catalog.PgInt(stmts[0].id) == Some(id) then Some(stmts[0].name)
    else FirstTagName(stmts[1..], id)
  }

  /** The pair a join names, if it is one. */
  function JoinPair(stmt: LegacyStmt): set<(int, int)>
  {
    if stmt.JoinTag? && Catalog.PgInt(stmt.signId).Some? && Catalog.PgInt(stmt.tagId).Some?
    then {(Catalog.PgInt(stmt.signId).value, Catalog.PgInt(stmt.tagId).value)} else {}
  }

  /** The pairs the joins of `stmts` name. */
  function JoinPairs(stmts: seq<LegacyStmt>): set<(int, int)>
    decreases |stmts|
  {
    if |stmts| == 0 then {} else JoinPair(stmts[0]) + JoinPairs(stmts[1..])
  }

  /** What one statement that succeeds does to the tags and to the joins. */
  lemma ExecLegacyTags(st: LegacyStore, stmt: LegacyStmt)
    requires ExecLegacy(st, stmt).Some?
    ensures var next := ExecLegacy(st, stmt).value;
      && next.tags == (if stmt.InsertTag? && Catalog.PgInt(stmt.id).Some? && Catalog.PgInt(stmt.id).value !in st.tags
                       then st.tags[Catalog.PgInt(stmt.id).value := stmt.name] else st.tags)
      && next.signTags == st.signTags + JoinPair(stmt)
  {
  }

  /** In a batch that succeeds the first name given to a tag id wins, and a tag
      already stored keeps its name. */
  lemma {:induction false} FirstTagWins(st: LegacyStore, stmts: seq<LegacyStmt>)
    requires ExecLegacyAll(st, stmts).Some?
    ensures var r := ExecLegacyAll(st, stmts).value;
      && (forall id :: id in r.tags <==> id in st.tags || FirstTagName(stmts, id).Some?)
      && (forall id | id in r.tags ::
            r.tags[id] == if id in st.tags then st.tags[id] else FirstTagName(stmts, id).value)
    decreases |stmts|
  {
    if |stmts| > 0 {
      var next := ExecLegacy(st, stmts[0]).value;
      ExecLegacyTags(st, stmts[0]);
      FirstTagWins(next, stmts[1..]);
    }
  }

  /** In a batch that succeeds the joins add the pairs they name to those stored, as
      a set: a pair joined again, in the batch or before it, is stored once. */
  lemma {:induction false} JoinsDeduplicated(st: LegacyStore, stmts: seq<LegacyStmt>)
    requires ExecLegacyAll(st, stmts).Some?
    ensures ExecLegacyAll(st, stmts).value.signTags == st.signTags + JoinPairs(stmts)
    decreases |stmts|
  {
    if |stmts| > 0 {
      var next := ExecLegacy(st, stmts[0]).value;
      ExecLegacyTags(st, stmts[0]);
      JoinsDeduplicated(next, stmts[1..]);
    }
  }

  /** `TRUNCATE TABLE signs CASCADE`: the signs and the tables that refer to them are
      emptied; tags refer to no sign and are kept. */
  function TruncatedLegacy(st: LegacyStore): (r: LegacyStore)
    ensures r.signs == map[] && r.signTags == {} && r.words == map[] && r.examples == map[]
    ensures r.tags == st.tags
  {
    LegacyStore(map[], st.tags, {}, map[], map[])
  }

  function ApplyLegacy(st: LegacyStore, op: LegacyOp): Option<LegacyStore>
  {
    match op
    case TruncateSigns => Some(TruncatedLegacy(st))
    case SendBatch(stmts) => ExecLegacyAll(st, stmts)
  }

  /* ================================================================ the load */

  /** The store, the number of round trips made, and the batches committed so far. */
  datatype LegacyWorld = LegacyWorld(store: LegacyStore, trips: nat, log: seq<seq<LegacyStmt>>)

  /** One round trip; a committed batch is appended to the log. */
  function LegacyRoundTrip(w: LegacyWorld, faults: set<nat>, op: LegacyOp): (r: (bool, LegacyWorld))
    ensures r.1.trips == w.trips + 1
    ensures r.0 <==> w.trips !in faults && ApplyLegacy(w.store, op).Some?
    ensures r.1.store == if r.0 then ApplyLegacy(w.store, op).value else w.store
    ensures r.1.log == if r.0 && op.SendBatch? then w.log + [op.stmts] else w.log
  {
    var next := w.(trips := w.trips + 1);
    if w.trips in faults then (false, next)
    else match ApplyLegacy(w.store, op)
      case None => (false, next)
      case Some(st) => (true, next.(store := st, log := if op.SendBatch? then w.log + [op.stmts] else w.log))
  }

  /** Send batches one after another until one fails. */
  function SendAll(w: LegacyWorld, faults: set<nat>, bs: seq<seq<LegacyStmt>>): (bool, LegacyWorld)
    decreases |bs|
  {
    if |bs| == 0 then (true, w)
    else
      var prev := SendAll(w, faults, bs[..|bs| - 1]);
      if !prev.0 then prev else LegacyRoundTrip(prev.1, faults, SendBatch(bs[|bs| - 1]))
  }

  lemma {:induction false} SendAllPrefix(w: LegacyWorld, faults: set<nat>, bs: seq<seq<LegacyStmt>>, more: seq<seq<LegacyStmt>>)
    requires !SendAll(w, faults, bs).0
    ensures SendAll(w, faults, bs + more) == SendAll(w, faults, bs)
    decreases |more|
  {
    if |more| == 0 {
      assert bs + more == bs;
    } else {
      assert (bs + more)[..|bs + more| - 1] == bs + more[..|more| - 1];
      SendAllPrefix(w, faults, bs, more[..|more| - 1]);
    }
  }

  /** The position of the first element the decoder rejects, or the length. */
  function FirstMalformed<T>(items: seq<Item<T>>): (n: nat)
    ensures n <= |items|
    decreases |items|
  {
    if |items| == 0 || items[0].Malformed? then 0 else 1 + FirstMalformed(items[1..])
  }

  /** The decoded records among `items`, in order. */
  function Records<T>(items: seq<Item<T>>): seq<T>
    decreases |items|
  {
    if |items| == 0 then []
    else Records(items[..|items| - 1]) + (match items[|items| - 1] case Decoded(v) => [v] case Malformed => [])
  }

  datatype LoadError = BadUrl | GetFailed | TruncateFailed | NoArray | DecodeFailed | BatchFailed

  datatype LoadResult = Loaded | LoadFailed(error: LoadError)

  /** `loadData`: parse the URL, GET it (a failure ends the process), truncate, read
      the opening of the array, then queue the records, sending the groups `PlanOf`
      describes as the records that trigger them are decoded, and the last batch at
      the end; a record the decoder rejects stops the load after the flushes the
      records before it triggered. */
  function LoadDataSpec(w: LegacyWorld, faults: set<nat>, source: Sync.Url -> Response<LegacySign>,
                        dataUrl: Option<Sync.Url>): (LoadResult, LegacyWorld)
  {
    match dataUrl
    case None => (LoadFailed(BadUrl), w)
    case Some(u) =>
      match source(u)
      case FetchFailed => (LoadFailed(GetFailed), w)
      case Fetched(body) =>
        var truncate := LegacyRoundTrip(w, faults, TruncateSigns);
        if !truncate.0 then (LoadFailed(TruncateFailed), truncate.1)
        else match body
          case Unreadable => (LoadFailed(NoArray), truncate.1)
          case Array(items) => LoadItems(truncate.1, faults, items)
  }

  /** The statements of `rs` as the loader sends them: one batch per flush, then the
      final batch when it is not empty. */
  function Schedule(rs: seq<LegacySign>): seq<seq<LegacyStmt>>
  {
    var plan := PlanOf(Size, rs);
    Batches(RecordStmts, plan.sent) + if plan.pending == [] then [] else [Stmts(plan.pending)]
  }

  /** The outcome once every record is decoded and the batches are sent. */
  function Finished(sent: (bool, LegacyWorld)): (LoadResult, LegacyWorld)
  {
    (if sent.0 then Loaded else LoadFailed(BatchFailed), sent.1)
  }

  /** Decoding the array and sending its records, once the truncate went through: the
      batches flushed while decoding are sent even when a later record is malformed. */
  function LoadItems(w: LegacyWorld, faults: set<nat>, items: seq<Item<LegacySign>>): (LoadResult, LegacyWorld)
  {
    var k := FirstMalformed(items);
    var rs := Records(items[..k]);
    if k < |items| then
      var flushed := SendAll(w, faults, Batches(RecordStmts, PlanOf(Size, rs).sent));
      (LoadFailed(if flushed.0 then DecodeFailed else BatchFailed), flushed.1)
    else
      Finished(SendAll(w, faults, Schedule(rs)))
  }

  /* ================================================================ properties of the load */

  lemma {:induction false} RecordsAppend<T>(a: seq<Item<T>>, b: seq<Item<T>>)
    ensures Records(a + b) == Records(a) + Records(b)
    decreases |b|
  {
    if |b| == 0 {
      assert a + b == a;
    } else {
      assert (a + b)[..|a + b| - 1] == a + b[..|b| - 1];
      RecordsAppend(a, b[..|b| - 1]);
    }
  }

  /** With every element before `j` decoded, the first rejected one is not before
      `j`, and is `j` when that one is rejected. */
  lemma {:induction false} FirstMalformedAt<T>(items: seq<Item<T>>, j: nat)
    requires j <= |items|
    requires forall i | 0 <= i < j :: items[i].Decoded?
    ensures j <= FirstMalformed(items)
    ensures j < |items| && items[j].Malformed? ==> FirstMalformed(items) == j
    decreases j
  {
    if j > 0 {
      FirstMalformedAt(items[1..], j - 1);
    }
  }

  lemma BatchesSnoc<T, S>(f: T -> seq<S>, gs: seq<seq<T>>, g: seq<T>)
    ensures Batches(f, gs + [g]) == Batches(f, gs) + [Concat(f, g)]
  {
    assert (gs + [g])[..|gs|] == gs;
  }

  lemma {:induction false} BatchesPrefix<T, S>(f: T -> seq<S>, a: seq<seq<T>>, b: seq<seq<T>>)
    requires a <= b
    ensures Batches(f, a) <= Batches(f, b)
    decreases |b|
  {
    if |a| < |b| {
      assert a <= b[..|b| - 1];
      BatchesPrefix(f, a, b[..|b| - 1]);
    } else {
      assert a == b;
    }
  }

  /** A record queues at least its sign insert, so records queue nothing only when
      there are none. */
  lemma StmtsEmpty(rs: seq<LegacySign>)
    ensures Stmts(rs) == [] <==> rs == []
  {
    StmtsLength(rs);
  }

  /** Sending batches logs a prefix of them, all of them when no send fails. */
  lemma {:induction false} SendAllLog(w: LegacyWorld, faults: set<nat>, bs: seq<seq<LegacyStmt>>)
    ensures var r := SendAll(w, faults, bs);
      && w.log <= r.1.log
      && r.1.log[|w.log|..] <= bs
      && (r.0 ==> r.1.log == w.log + bs)
    decreases |bs|
  {
    if |bs| > 0 {
      var init := bs[..|bs| - 1];
      var b := bs[|bs| - 1];
      assert init + [b] == bs;
      SendAllLog(w, faults, init);
      var prev := SendAll(w, faults, init);
      if !prev.0 {
        assert SendAll(w, faults, bs) == prev;
        assert prev.1.log[|w.log|..] <= init <= bs;
      } else {
        var last := LegacyRoundTrip(prev.1, faults, SendBatch(b));
        assert SendAll(w, faults, bs) == last;
        if last.0 {
          assert last.1.log == w.log + init + [b];
        } else {
          assert last.1.log[|w.log|..] == init;
        }
      }
    }
  }

  /** The store after sending batches is the store the logged statements build. */
  lemma {:induction false} SendAllStore(w: LegacyWorld, faults: set<nat>, bs: seq<seq<LegacyStmt>>)
    ensures var r := SendAll(w, faults, bs);
      w.log <= r.1.log && ExecLegacyAll(w.store, Flatten(r.1.log[|w.log|..])) == Some(r.1.store)
    decreases |bs|
  {
    if |bs| == 0 {
      assert SendAll(w, faults, bs).1 == w;
      assert w.log[|w.log|..] == [];
    } else {
      var init := bs[..|bs| - 1];
      SendAllLog(w, faults, bs);
      SendAllStore(w, faults, init);
      var prev := SendAll(w, faults, init);
      var done := prev.1.log[|w.log|..];
      if prev.0 {
        var b := bs[|bs| - 1];
        var last := LegacyRoundTrip(prev.1, faults, SendBatch(b));
        assert SendAll(w, faults, bs) == last;
        if last.0 {
          assert last.1.log[|w.log|..] == done + [b];
          assert Flatten(done + [b]) == Flatten(done) + b by {
            assert (done + [b])[..|done|] == done;
          }
          ExecLegacyAllAppend(w.store, Flatten(done), b);
        }
      }
    }
  }

  /** Sending `a + b` is sending `a`, then `b` against the store `a` left. */
  lemma {:induction false} ExecLegacyAllAppend(st: LegacyStore, a: seq<LegacyStmt>, b: seq<LegacyStmt>)
    ensures ExecLegacyAll(st, a + b)
            == match ExecLegacyAll(st, a) case None => None case Some(mid) => ExecLegacyAll(mid, b)
    decreases |a|
  {
    if |a| == 0 {
      assert a + b == b;
    } else {
      assert (a + b)[0] == a[0];
      assert (a + b)[1..] == a[1..] + b;
      match ExecLegacy(st, a[0])
      case None =>
      case Some(next) => ExecLegacyAllAppend(next, a[1..], b);
    }
  }

  lemma {:induction false} FlattenPrefix<T>(a: seq<seq<T>>, b: seq<seq<T>>)
    requires a <= b
    ensures Flatten(a) <= Flatten(b)
    decreases |b|
  {
    if |a| < |b| {
      assert a <= b[..|b| - 1];
      FlattenPrefix(a, b[..|b| - 1]);
    } else {
      assert a == b;
    }
  }

  /** The schedule holds every statement the records queue, in order, in batches
      none of which is empty. */
  lemma ScheduleCovers(rs: seq<LegacySign>)
    ensures Flatten(Schedule(rs)) == Stmts(rs)
    ensures forall k | 0 <= k < |Schedule(rs)| :: Schedule(rs)[k] != []
  {
    var plan := PlanOf(Size, rs);
    var bs := Batches(RecordStmts, plan.sent);
    PlanInOrder(Size, RecordStmts, rs);
    PlanFlushes(Size, rs);
    NonEmptyBatches(plan.sent);
    StmtsEmpty(plan.pending);
    if plan.pending != [] {
      assert Schedule(rs) == bs + [Stmts(plan.pending)];
      assert (bs + [Stmts(plan.pending)])[..|bs|] == bs;
    } else {
      assert Schedule(rs) == bs;
    }
  }

  /** What sending the decoded records logs is a prefix of their schedule, applied to
      the store in order; all of it when the load succeeds. */
  lemma FlushedBeforeSchedule(rs: seq<LegacySign>)
    ensures Batches(RecordStmts, PlanOf(Size, rs).sent) <= Schedule(rs)
  {
  }

  lemma LoadItemsLog(w: LegacyWorld, faults: set<nat>, items: seq<Item<LegacySign>>)
    ensures var r := LoadItems(w, faults, items);
      && w.log <= r.1.log
      && r.1.log[|w.log|..] <= Schedule(Records(items[..FirstMalformed(items)]))
      && ExecLegacyAll(w.store, Flatten(r.1.log[|w.log|..])) == Some(r.1.store)
      && (r.0 == Loaded ==> FirstMalformed(items) == |items| && r.1.log[|w.log|..] == Schedule(Records(items)))
  {
    var k := FirstMalformed(items);
    var rs := Records(items[..k]);
    var bs := if k < |items| then Batches(RecordStmts, PlanOf(Size, rs).sent) else Schedule(rs);
    FlushedBeforeSchedule(rs);
    assert LoadItems(w, faults, items).1 == SendAll(w, faults, bs).1;
    SendAllLog(w, faults, bs);
    SendAllStore(w, faults, bs);
    if k == |items| {
      assert items[..k] == items;
    }
  }

  /** What the load logs is, flattened, a prefix of the statements of every decoded
      record, in batches none of which is empty; all of them when it succeeds. */
  lemma LoadItemsQueued(w: LegacyWorld, faults: set<nat>, items: seq<Item<LegacySign>>)
    ensures var r := LoadItems(w, faults, items);
      && w.log <= r.1.log
      && var added := r.1.log[|w.log|..];
      && Flatten(added) <= Stmts(Records(items))
      && (forall k | 0 <= k < |added| :: added[k] != [])
      && (r.0 == Loaded ==> Flatten(added) == Stmts(Records(items)))
  {
    LoadItemsLog(w, faults, items);
    var r := LoadItems(w, faults, items);
    ScheduledPrefix(r.1.log[|w.log|..], items);
    if r.0 == Loaded {
      ScheduleCovers(Records(items));
    }
  }

  /** A prefix of the schedule of the records before the first malformed one holds a
      prefix of the statements of all decoded records, in non-empty batches. */
  lemma ScheduledPrefix(added: seq<seq<LegacyStmt>>, items: seq<Item<LegacySign>>)
    requires added <= Schedule(Records(items[..FirstMalformed(items)]))
    ensures Flatten(added) <= Stmts(Records(items))
    ensures forall i | 0 <= i < |added| :: added[i] != []
  {
    var rs := Records(items[..FirstMalformed(items)]);
    ScheduleCovers(rs);
    CoveredPrefix(added, Schedule(rs));
    RecordsStmtsPrefix(items, FirstMalformed(items));
  }

  lemma CoveredPrefix<T>(a: seq<seq<T>>, b: seq<seq<T>>)
    requires a <= b && forall i | 0 <= i < |b| :: b[i] != []
    ensures Flatten(a) <= Flatten(b)
    ensures forall i | 0 <= i < |a| :: a[i] != []
  {
    FlattenPrefix(a, b);
    forall i | 0 <= i < |a|
      ensures a[i] != []
    {
      assert a[i] == b[i];
    }
  }

  lemma RecordsStmtsPrefix(items: seq<Item<LegacySign>>, k: nat)
    requires k <= |items|
    ensures Stmts(Records(items[..k])) <= Stmts(Records(items))
  {
    RecordsSplit(items, k, |items|);
    assert items[..|items|] == items;
    StmtsAppendRecords(Records(items[..k]), Records(items[k..]));
  }

  /** Once the truncate has gone through, every batch the load commits is applied to
      the emptied store in order; what it commits is a prefix of the statements the
      decoded records queue, batch by batch, none of them empty; a load that succeeds
      decoded every record and committed all their statements. */
  lemma LoadDataCommits(w: LegacyWorld, faults: set<nat>, source: Sync.Url -> Response<LegacySign>, u: Sync.Url)
    requires source(u).Fetched? && LegacyRoundTrip(w, faults, TruncateSigns).0
    ensures var r := LoadDataSpec(w, faults, source, Some(u));
      var items := if source(u).body.Array? then source(u).body.items else [];
      && w.log <= r.1.log
      && var added := r.1.log[|w.log|..];
      && ExecLegacyAll(TruncatedLegacy(w.store), Flatten(added)) == Some(r.1.store)
      && Flatten(added) <= Stmts(Records(items))
      && (forall k | 0 <= k < |added| :: added[k] != [])
      && (r.0 == Loaded ==> FirstMalformed(items) == |items| && Flatten(added) == Stmts(Records(items)))
  {
    var w0 := LegacyRoundTrip(w, faults, TruncateSigns).1;
    assert w0.log == w.log && w0.store == TruncatedLegacy(w.store);
    if source(u).body.Unreadable? {
      assert LoadDataSpec(w, faults, source, Some(u)).1 == w0;
      assert w0.log[|w.log|..] == [];
    } else {
      var items := source(u).body.items;
      assert LoadDataSpec(w, faults, source, Some(u)) == LoadItems(w0, faults, items);
      LoadItemsLog(w0, faults, items);
      LoadItemsQueued(w0, faults, items);
    }
  }

  lemma StmtsAppendRecords(a: seq<LegacySign>, b: seq<LegacySign>)
    ensures Stmts(a) <= Stmts(a + b)
  {
    ConcatAppend(RecordStmts, a, b);
  }

  /** Groups of at least `FlushAt` statements queue something. */
  lemma NonEmptyBatches(gs: seq<seq<LegacySign>>)
    requires forall k | 0 <= k < |gs| :: FlushAt <= Load(Size, gs[k])
    ensures forall k | 0 <= k < |Batches(RecordStmts, gs)| :: Batches(RecordStmts, gs)[k] != []
  {
    forall k | 0 <= k < |gs|
      ensures Batches(RecordStmts, gs)[k] != []
    {
      BatchesAt(RecordStmts, gs, k);
      StmtsLength(gs[k]);
    }
  }

  lemma {:induction false} BatchesAt<T, S>(f: T -> seq<S>, gs: seq<seq<T>>, k: nat)
    requires k < |gs|
    ensures Batches(f, gs)[k] == Concat(f, gs[k])
    decreases |gs|
  {
    if k < |gs| - 1 {
      BatchesAt(f, gs[..|gs| - 1], k);
    }
  }

  /* ================================================================ the loader */

  lemma StmtsSnoc(rs: seq<LegacySign>, r: LegacySign)
    ensures Stmts(rs + [r]) == Stmts(rs) + RecordStmts(r)
  {
    assert (rs + [r])[..|rs|] == rs;
  }

  lemma SendAllSnoc(w: LegacyWorld, faults: set<nat>, bs: seq<seq<LegacyStmt>>, b: seq<LegacyStmt>)
    ensures var prev := SendAll(w, faults, bs);
      SendAll(w, faults, bs + [b]) == if prev.0 then LegacyRoundTrip(prev.1, faults, SendBatch(b)) else prev
  {
    assert (bs + [b])[..|bs|] == bs;
  }

  /** Decoding record `j` extends the plan by it: after a flush of the pending group
      when that holds `FlushAt` statements or more, onto the pending group otherwise. */
  lemma PlanStep<T>(size: T -> nat, items: seq<Item<T>>, j: nat)
    requires j < |items| && items[j].Decoded?
    ensures var p := PlanOf(size, Records(items[..j]));
      PlanOf(size, Records(items[..j + 1]))
      == if Load(size, p.pending) >= FlushAt then Plan(p.sent + [p.pending], [items[j].value])
         else Plan(p.sent, p.pending + [items[j].value])
  {
    assert items[..j + 1][..j] == items[..j];
    assert Records(items[..j + 1]) == Records(items[..j]) + [items[j].value];
  }

  /** The final batch is sent after the flushes, and only when it is not empty. */
  lemma ScheduleSend(w: LegacyWorld, faults: set<nat>, rs: seq<LegacySign>)
    ensures var plan := PlanOf(Size, rs);
      var flushed := SendAll(w, faults, Batches(RecordStmts, plan.sent));
      SendAll(w, faults, Schedule(rs))
      == if plan.pending == [] || !flushed.0 then flushed
         else LegacyRoundTrip(flushed.1, faults, SendBatch(Stmts(plan.pending)))
  {
    var plan := PlanOf(Size, rs);
    if plan.pending != [] {
      SendAllSnoc(w, faults, Batches(RecordStmts, plan.sent), Stmts(plan.pending));
    } else {
      assert Schedule(rs) == Batches(RecordStmts, plan.sent);
    }
  }

  lemma SendAllFailedPrefix(w: LegacyWorld, faults: set<nat>, pre: seq<seq<LegacyStmt>>, bs: seq<seq<LegacyStmt>>)
    requires pre <= bs && !SendAll(w, faults, pre).0
    ensures SendAll(w, faults, bs) == SendAll(w, faults, pre)
  {
    assert bs == pre + bs[|pre|..];
    SendAllPrefix(w, faults, pre, bs[|pre|..]);
  }

  /** The group flushed before record `j` stays among the groups flushed before the
      first record that does not decode. */
  lemma FlushedGroup<T>(size: T -> nat, items: seq<Item<T>>, j: nat)
    requires j < |items| && forall i | 0 <= i <= j :: items[i].Decoded?
    requires Load(size, PlanOf(size, Records(items[..j])).pending) >= FlushAt
    ensures var p := PlanOf(size, Records(items[..j]));
      p.sent + [p.pending] <= PlanOf(size, Records(items[..FirstMalformed(items)])).sent
  {
    var k := FirstMalformed(items);
    FirstMalformedAt(items, j + 1);
    RecordsSplit(items, j + 1, k);
    PlanStep(size, items, j);
    PlanPrefix(size, Records(items[..j + 1]), Records(items[j + 1..k]));
  }

  lemma RecordsSplit<T>(items: seq<Item<T>>, a: nat, b: nat)
    requires a <= b <= |items|
    ensures Records(items[..b]) == Records(items[..a]) + Records(items[a..b])
  {
    assert items[..b] == items[..a] + items[a..b];
    RecordsAppend(items[..a], items[a..b]);
  }

  /** The batch flushed before record `j` is followed, in what the rest of the array
      sends, by the batches of the later records. */
  lemma FlushedFirst(items: seq<Item<LegacySign>>, j: nat)
    requires j < |items| && forall i | 0 <= i <= j :: items[i].Decoded?
    requires Load(Size, PlanOf(Size, Records(items[..j])).pending) >= FlushAt
    ensures var p := PlanOf(Size, Records(items[..j]));
      var rs := Records(items[..FirstMalformed(items)]);
      && Batches(RecordStmts, p.sent + [p.pending]) <= Batches(RecordStmts, PlanOf(Size, rs).sent)
      && Batches(RecordStmts, p.sent + [p.pending]) <= Schedule(rs)
  {
    var p := PlanOf(Size, Records(items[..j]));
    var rs := Records(items[..FirstMalformed(items)]);
    FlushedGroup(Size, items, j);
    BatchesPrefix(RecordStmts, p.sent + [p.pending], PlanOf(Size, rs).sent);
    FlushedBeforeSchedule(rs);
  }

  /** A flush that fails before record `j` is queued ends the load with that failure,
      whatever the rest of the array holds. */
  lemma FlushFails(w: LegacyWorld, faults: set<nat>, items: seq<Item<LegacySign>>, j: nat)
    requires j < |items| && forall i | 0 <= i <= j :: items[i].Decoded?
    requires var p := PlanOf(Size, Records(items[..j]));
      && Load(Size, p.pending) >= FlushAt
      && !SendAll(w, faults, Batches(RecordStmts, p.sent + [p.pending])).0
    ensures var p := PlanOf(Size, Records(items[..j]));
      LoadItems(w, faults, items) == (LoadFailed(BatchFailed), SendAll(w, faults, Batches(RecordStmts, p.sent + [p.pending])).1)
  {
    var p := PlanOf(Size, Records(items[..j]));
    var pre := Batches(RecordStmts, p.sent + [p.pending]);
    var rs := Records(items[..FirstMalformed(items)]);
    FlushedFirst(items, j);
    SendAllFailedPrefix(w, faults, pre, Batches(RecordStmts, PlanOf(Size, rs).sent));
    SendAllFailedPrefix(w, faults, pre, Schedule(rs));
  }

  /** The connection pool as the loader uses it: each `Exec` or `SendBatch` is one
      round trip, and a batch commits entirely or not at all. */
  class LegacyDb {
    var store: LegacyStore
    var trips: nat
    var log: seq<seq<LegacyStmt>>
    const faults: set<nat>

    constructor (store: LegacyStore, faults: set<nat>)
      ensures State() == LegacyWorld(store, 0, []) && this.faults == faults
    {
      this.store := store;
      this.trips := 0;
      this.log := [];
      this.faults := faults;
    }

    function State(): LegacyWorld
      reads this
    {
      LegacyWorld(store, trips, log)
    }

    method Send(op: LegacyOp) returns (ok: bool)
      modifies this
      ensures (ok, State()) == LegacyRoundTrip(old(State()), faults, op)
    {
      var applied := ApplyLegacy(store, op);
      ok := trips !in faults && applied.Some?;
      if ok {
        store := applied.value;
        if op.SendBatch? {
          log := log + [op.stmts];
        }
      }
      trips := trips + 1;
    }
  }

  method QueueTags(batch: seq<LegacyStmt>, signId: string, tags: seq<LegacyTag>) returns (b: seq<LegacyStmt>)
    ensures b == batch + TagStmts(signId, tags)
  {
    b := batch;
    for i := 0 to |tags|
      invariant b == batch + TagStmts(signId, tags[..i])
    {
      b := b + [InsertTag(tags[i].id, tags[i].tag), JoinTag(signId, tags[i].id)];
      assert tags[..i + 1][..i] == tags[..i];
    }
    assert tags[..|tags|] == tags;
  }

  method QueueWords(batch: seq<LegacyStmt>, signId: string, words: seq<LegacyWord>) returns (b: seq<LegacyStmt>)
    ensures b == batch + WordStmts(signId, words)
  {
    b := batch;
    for i := 0 to |words|
      invariant b == batch + WordStmts(signId, words[..i])
    {
      b := b + [InsertWord(words[i].id, signId, words[i].word)];
      assert words[..i + 1][..i] == words[..i];
    }
    assert words[..|words|] == words;
  }

  method QueueExamples(batch: seq<LegacyStmt>, signId: string, examples: seq<LegacyExample>) returns (b: seq<LegacyStmt>)
    ensures b == batch + ExampleStmts(signId, examples)
  {
    b := batch;
    for i := 0 to |examples|
      invariant b == batch + ExampleStmts(signId, examples[..i])
    {
      var e := examples[i];
      b := b + [InsertExample(e.id, signId, e.videoUrl, e.description)];
      assert examples[..i + 1][..i] == examples[..i];
    }
    assert examples[..|examples|] == examples;
  }

  /** The loop body of `loadData` for one record: its sign, then two statements per
      tag, then one per word, then one per example. */
  method QueueLegacyRecord(batch: seq<LegacyStmt>, s: LegacySign) returns (b: seq<LegacyStmt>)
    ensures b == batch + RecordStmts(s)
  {
    b := batch + [InsertSign(s.id, RowOf(s))];
    b := QueueTags(b, s.id, s.tags);
    b := QueueWords(b, s.id, s.words);
    b := QueueExamples(b, s.id, s.examples);
  }

  /** After the first `j` records, all decoded: the batch holds the pending group's
      statements and every earlier group went out, in order, on top of `w0`. */
  ghost predicate Queued(w0: LegacyWorld, faults: set<nat>, items: seq<Item<LegacySign>>, j: nat,
                         batch: seq<LegacyStmt>, w: LegacyWorld)
    requires j <= |items|
  {
    var p := PlanOf(Size, Records(items[..j]));
    && batch == Stmts(p.pending)
    && SendAll(w0, faults, Batches(RecordStmts, p.sent)) == (true, w)
  }

  /** Queuing record `j` without a flush extends the pending group. */
  lemma QueuedNoFlush(w0: LegacyWorld, faults: set<nat>, items: seq<Item<LegacySign>>, j: nat,
                      batch: seq<LegacyStmt>, w: LegacyWorld)
    requires j < |items| && items[j].Decoded?
    requires Queued(w0, faults, items, j, batch, w)
    requires Load(Size, PlanOf(Size, Records(items[..j])).pending) < FlushAt
    ensures Queued(w0, faults, items, j + 1, batch + RecordStmts(items[j].value), w)
  {
    PlanStep(Size, items, j);
    StmtsSnoc(PlanOf(Size, Records(items[..j])).pending, items[j].value);
  }

  /** Flushing the pending group before record `j` either sends it, leaving the
      record alone in the new batch, or ends the load with the failure. */
  lemma QueuedFlush(w0: LegacyWorld, faults: set<nat>, items: seq<Item<LegacySign>>, j: nat,
                    batch: seq<LegacyStmt>, w: LegacyWorld, ok: bool, w1: LegacyWorld)
    requires j < |items| && forall i | 0 <= i <= j :: items[i].Decoded?
    requires Queued(w0, faults, items, j, batch, w)
    requires Load(Size, PlanOf(Size, Records(items[..j])).pending) >= FlushAt
    requires (ok, w1) == LegacyRoundTrip(w, faults, SendBatch(batch))
    ensures ok ==> Queued(w0, faults, items, j + 1, RecordStmts(items[j].value), w1)
    ensures !ok ==> LoadItems(w0, faults, items) == (LoadFailed(BatchFailed), w1)
  {
    var p := PlanOf(Size, Records(items[..j]));
    PlanStep(Size, items, j);
    BatchesSnoc(RecordStmts, p.sent, p.pending);
    SendAllSnoc(w0, faults, Batches(RecordStmts, p.sent), batch);
    if ok {
      StmtsSnoc([], items[j].value);
      assert [] + [items[j].value] == [items[j].value];
    } else {
      FlushFails(w0, faults, items, j);
    }
  }

  /** One turn of the decode loop for the decoded record `j`: flush the batch first
      when it holds `FlushAt` statements or more, then queue the record. */
  method LoadRecord(db: LegacyDb, ghost w0: LegacyWorld, items: seq<Item<LegacySign>>, j: nat, batch: seq<LegacyStmt>)
    returns (b: seq<LegacyStmt>, ok: bool)
    requires j < |items| && forall i | 0 <= i <= j :: items[i].Decoded?
    requires Queued(w0, db.faults, items, j, batch, db.State())
    modifies db
    ensures ok ==> Queued(w0, db.faults, items, j + 1, b, db.State())
    ensures !ok ==> LoadItems(w0, db.faults, items) == (LoadFailed(BatchFailed), db.State())
  {
    var s := items[j].value;
    StmtsLength(PlanOf(Size, Records(items[..j])).pending);
    b := batch;
    ok := true;
    if |b| >= FlushAt {
      ghost var w := db.State();
      ok := db.Send(SendBatch(b));
      QueuedFlush(w0, db.faults, items, j, batch, w, ok, db.State());
      if !ok {
        return;
      }
      b := [];
    } else {
      QueuedNoFlush(w0, db.faults, items, j, batch, db.State());
    }
    b := QueueLegacyRecord(b, s);
  }

  /** Once every record is queued, the load ends with the last batch, if any. */
  lemma QueuedLast(w0: LegacyWorld, faults: set<nat>, items: seq<Item<LegacySign>>,
                   batch: seq<LegacyStmt>, w: LegacyWorld)
    requires forall i | 0 <= i < |items| :: items[i].Decoded?
    requires Queued(w0, faults, items, |items|, batch, w)
    ensures LoadItems(w0, faults, items)
            == Finished(if batch == [] then (true, w) else LegacyRoundTrip(w, faults, SendBatch(batch)))
  {
    LoadItemsComplete(w0, faults, items);
    assert items[..|items|] == items;
    var rs := Records(items);
    ScheduleSend(w0, faults, rs);
    StmtsEmpty(PlanOf(Size, rs).pending);
  }

  lemma LoadItemsComplete(w: LegacyWorld, faults: set<nat>, items: seq<Item<LegacySign>>)
    requires forall i | 0 <= i < |items| :: items[i].Decoded?
    ensures LoadItems(w, faults, items) == Finished(SendAll(w, faults, Schedule(Records(items))))
  {
    FirstMalformedAt(items, |items|);
    assert FirstMalformed(items) == |items|;
    assert items[..|items|] == items;
  }

  /** After the last record: send the batch if it is not empty. */
  method LoadLast(db: LegacyDb, ghost w0: LegacyWorld, items: seq<Item<LegacySign>>, batch: seq<LegacyStmt>)
    returns (res: LoadResult)
    requires forall i | 0 <= i < |items| :: items[i].Decoded?
    requires Queued(w0, db.faults, items, |items|, batch, db.State())
    modifies db
    ensures (res, db.State()) == LoadItems(w0, db.faults, items)
  {
    QueuedLast(w0, db.faults, items, batch, db.State());
    res := Loaded;
    if |batch| > 0 {
      var ok := db.Send(SendBatch(batch));
      if !ok {
        res := LoadFailed(BatchFailed);
      }
    }
  }

  /** Decode the array record by record, flushing the batch before a record when it
      holds `FlushAt` statements or more, then send the last batch if it is not empty. */
  method LoadItemsInto(db: LegacyDb, items: seq<Item<LegacySign>>) returns (res: LoadResult)
    modifies db
    ensures (res, db.State()) == LoadItems(old(db.State()), db.faults, items)
  {
    ghost var w0 := db.State();
    var batch: seq<LegacyStmt> := [];
    var j := 0;
    while j < |items|
      invariant j <= |items|
      invariant forall i | 0 <= i < j :: items[i].Decoded?
      invariant Queued(w0, db.faults, items, j, batch, db.State())
      decreases |items| - j
    {
      if items[j].Malformed? {
        FirstMalformedAt(items, j);
        return LoadFailed(DecodeFailed);
      }
      var ok;
      batch, ok := LoadRecord(db, w0, items, j, batch);
      if !ok {
        return LoadFailed(BatchFailed);
      }
      j := j + 1;
    }
    res := LoadLast(db, w0, items, batch);
  }

  /** `loadData`: fetch the array, empty the sign tables, then load the records. */
  method LoadData(db: LegacyDb, source: Sync.Url -> Response<LegacySign>, dataUrl: Option<Sync.Url>)
    returns (res: LoadResult)
    modifies db
    ensures (res, db.State()) == LoadDataSpec(old(db.State()), db.faults, source, dataUrl)
  {
    if dataUrl.None? {
      return LoadFailed(BadUrl);
    }
    var response := source(dataUrl.value);
    if response.FetchFailed? {
      return LoadFailed(GetFailed);
    }
    var ok := db.Send(TruncateSigns);
    if !ok {
      return LoadFailed(TruncateFailed);
    }
    if response.body.Unreadable? {
      return LoadFailed(NoArray);
    }
    res := LoadItemsInto(db, response.body.items);
  }
}
