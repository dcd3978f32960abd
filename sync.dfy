/**
 * The paginated synchroniser: `Sync` empties the store, makes sure the fallback
 * category exists, then loads pages 1, 2, 3, ... of the source until a page holds
 * no record or page 999 has been loaded; `loadFromURL` turns each record of a page
 * into queued statements and sends the page's statements as one batch.
 */
module Sync {
  import opened Base
  import opened Text
  import opened Stream
  import opened Catalog
  import opened Records

  /* ================================================================ one page */

  /** A parsed data URL; the query maps each key to its values. */
  datatype Url = Url(scheme: string, host: string, path: string, query: map<string, seq<string>>)

  /** The URL of one page: `q.Set("page", strconv.Itoa(page))` on the query, every
      other part and every other key unchanged. */
  function WithPage(u: Url, page: nat): Url
  {
    u.(query := u.query["page" := [Itoa(page)]])
  }

  /** The page URL differs from the URL only in its `page` parameter, which holds
      one value that reads back as the page number. */
  lemma WithPageReadsBack(u: Url, page: nat)
    requires page <= MaxInt64
    ensures var r := WithPage(u, page);
      && r.scheme == u.scheme && r.host == u.host && r.path == u.path
      && (forall key | key in u.query && key != "page" :: key in r.query && r.query[key] == u.query[key])
      && (forall key | key in r.query :: key in u.query || key == "page")
      && "page" in r.query && |r.query["page"]| == 1 && Atoi(r.query["page"][0]) == Some(page)
  {
    AtoiItoa(page);
  }

  /** Setting the page replaces the previous one: the page URL does not depend on
      the page the URL carried before. */
  lemma WithPageTwice(u: Url, a: nat, b: nat)
    ensures WithPage(WithPage(u, a), b) == WithPage(u, b)
  {
    assert WithPage(WithPage(u, a), b).query == WithPage(u, b).query;
  }

  /** The media base of a page: scheme, "://", host and "/"; the path and the query
      are dropped. */
  function BaseUrl(u: Url): string
  {
    u.scheme + "://" + u.host + "/"
  }

  /** How far the records of a page got: how many were normalised, the batch they
      queued, and the error that stopped the page, if any. */
  datatype Scan = Scan(count: nat, batch: seq<Stmt>, error: Option<LoadError>)

  /** The normalisation of the records of one page. */
  function Normalizer(base: string, parseDate: string -> Option<Timestamp>): Item<NewSign> -> Result<seq<Stmt>, LoadError>
  {
    item => NormalizeRecord(base, item, parseDate)
  }

  /** The records of a page, one after another, until the first that fails. */
  function PageSpec<T>(norm: T -> Result<seq<Stmt>, LoadError>, items: seq<T>): Scan
    decreases |items|
  {
    if |items| == 0 then Scan(0, [], None)
    else
      var prev := PageSpec(norm, items[..|items| - 1]);
      if prev.error.Some? then prev
      else match norm(items[|items| - 1])
        case Err(e) => prev.(error := Some(e))
        case Ok(stmts) => Scan(prev.count + 1, prev.batch + stmts, None)
  }

  /** A record that normalises adds one to the count and its statements to the
      batch. */
  lemma PageSpecStep<T>(norm: T -> Result<seq<Stmt>, LoadError>, items: seq<T>,
                        j: nat, batch: seq<Stmt>, stmts: seq<Stmt>)
    requires j < |items|
    requires PageSpec(norm, items[..j]) == Scan(j, batch, None)
    requires norm(items[j]) == Ok(stmts)
    ensures PageSpec(norm, items[..j + 1]) == Scan(j + 1, batch + stmts, None)
  {
    assert items[..j + 1][..j] == items[..j];
  }

  /** Once a record fails, the rest of the page is not looked at: the count and the
      batch stay those of the records before it. */
  lemma {:induction false} PageSpecStops<T>(norm: T -> Result<seq<Stmt>, LoadError>, items: seq<T>,
                                             j: nat, batch: seq<Stmt>, e: LoadError, m: nat)
    requires j < m <= |items|
    requires PageSpec(norm, items[..j]) == Scan(j, batch, None)
    requires norm(items[j]) == Err(e)
    ensures PageSpec(norm, items[..m]) == Scan(j, batch, Some(e))
    decreases m
  {
    assert items[..m][..m - 1] == items[..m - 1];
    if m == j + 1 {
      assert items[..m][m - 1] == items[j];
    } else {
      PageSpecStops(norm, items, j, batch, e, m - 1);
    }
  }

  /** The outcome of a page: the count is the number of records before the first one
      that fails, all of which normalise; the error, if any, is that record's; and
      the batch is empty exactly when none of those records queued anything. */
  lemma {:induction false} PageSpecOutcome<T>(norm: T -> Result<seq<Stmt>, LoadError>, items: seq<T>)
    ensures var r := PageSpec(norm, items);
      && r.count <= |items|
      && (forall k | 0 <= k < r.count :: norm(items[k]).Ok?)
      && (r.error.None? ==> r.count == |items|)
      && (r.error.Some? ==> r.count < |items| && norm(items[r.count]) == Err(r.error.value))
      && (r.batch == [] <==> forall k | 0 <= k < r.count :: norm(items[k]) == Ok([]))
    decreases |items|
  {
    if |items| > 0 {
      var init := items[..|items| - 1];
      PageSpecOutcome(norm, init);
      var prev := PageSpec(norm, init);
      assert forall k | 0 <= k < |init| :: items[k] == init[k];
      if prev.error.None? && norm(items[|items| - 1]).Ok? {
        var stmts := norm(items[|items| - 1]).value;
        if prev.batch + stmts == [] {
          assert prev.batch == [] && stmts == [];
        }
      }
    }
  }

  /* ================================================================ the world around the client */

  /** The store, the number of database round trips made so far, and the page URLs
      requested so far. */
  datatype World = World(store: Store, trips: nat, requests: seq<Url>)

  /** What the client cannot see: which round trips fail in transport, what the
      source answers to each URL, and `time.ParseInLocation` for "2006-01-02". */
  datatype Env = Env(faults: set<nat>, source: Url -> Response<NewSign>, parseDate: string -> Option<Timestamp>)

  /** One round trip: a transport failure, or the truncate or the statements applied
      all together, or (when a statement fails) not at all. */
  function RoundTrip(w: World, faults: set<nat>, op: DbOp): (r: (bool, World))
    ensures r.1.requests == w.requests && r.1.trips == w.trips + 1
    ensures r.0 <==> w.trips !in faults && Apply(w.store, op).Some?
    ensures r.1.store == if r.0 then Apply(w.store, op).value else w.store
  {
    var next := w.(trips := w.trips + 1);
    if w.trips in faults then (false, next)
    else match Apply(w.store, op)
      case None => (false, next)
      case Some(st) => (true, next.(store := st))
  }

  datatype PageResult = PageLoaded(count: nat) | PageFailed(count: nat, cause: LoadError)

  /** `loadFromURL`: request the page, normalise its records, and send their
      statements as one batch when there are any. */
  function LoadPageSpec(w: World, env: Env, u: Url): (PageResult, World)
  {
    var w1 := w.(requests := w.requests + [u]);
    match env.source(u)
    case FetchFailed => (PageFailed(0, FetchError), w1)
    case Fetched(body) =>
      match body
      case Unreadable => (PageFailed(0, DecodeError), w1)
      case Array(items) =>
        var r := PageSpec(Normalizer(BaseUrl(u), env.parseDate), items);
        if r.error.Some? then (PageFailed(r.count, r.error.value), w1)
        else if |r.batch| == 0 then (PageLoaded(r.count), w1)
        else
          var (ok, w2) := RoundTrip(w1, env.faults, Statements(r.batch));
          if ok then (PageLoaded(r.count), w2) else (PageFailed(r.count, BatchError), w2)
  }

  /** A page that the source answers with an empty array. */
  predicate EmptyPage(env: Env, u: Url)
  {
    env.source(u) == Fetched(Array([]))
  }

  datatype SyncError = BadUrl | TruncateFailed | DefaultCategoryFailed | PageError(page: nat, cause: LoadError)

  datatype SyncResult = Synced | SyncFailed(error: SyncError)

  /** The highest page number plus one: the loop runs while `i < 1000`. */
  const PageLimit: nat := 1000

  /** What loading one page does, as the pagination loop sees it. */
  type PageLoader = (World, Url) -> (PageResult, World)

  function Loader(env: Env): PageLoader
  {
    (w, u) => LoadPageSpec(w, env, u)
  }

  /** The pagination loop from page `i` on: page `i` is `u` with its page parameter
      set to `i` (the source sets it on the URL it set for the previous page, which
      comes to the same, see `WithPageTwice`); stop after page 999, at the first empty
      page, or at the first error. */
  function Pages(load: PageLoader, w: World, u: Url, i: nat): (Option<SyncError>, World)
    decreases PageLimit - i
  {
    if i >= PageLimit then (None, w)
    else
      var v := WithPage(u, i);
      var (res, w1) := load(w, v);
      match res
      case PageFailed(_, cause) => (Some(PageError(i, cause)), w1)
      case PageLoaded(n) => if n == 0 then (None, w1) else Pages(load, w1, u, i + 1)
  }

  /** One page of the loop: it fails, ends the loop empty, or hands on to the next. */
  lemma PagesStep(load: PageLoader, w: World, u: Url, i: nat)
    requires i < PageLimit
    ensures var r := load(w, WithPage(u, i));
      Pages(load, w, u, i)
      == if r.0.PageFailed? then (Some(PageError(i, r.0.cause)), r.1)
         else if r.0.count == 0 then (None, r.1)
         else Pages(load, r.1, u, i + 1)
  {
  }

  /** `Sync` over any page loader: parse the URL, truncate, make sure the fallback
      category exists, then load the pages. */
  function SyncRun(load: PageLoader, faults: set<nat>, w: World, dataUrl: Option<Url>): (SyncResult, World)
  {
    match dataUrl
    case None => (SyncFailed(BadUrl), w)
    case Some(u) =>
      var truncate := RoundTrip(w, faults, Truncate);
      if !truncate.0 then (SyncFailed(TruncateFailed), truncate.1)
      else
        var insert := RoundTrip(truncate.1, faults, Statements([InsertCategory(FallbackName, FallbackSlug)]));
        if !insert.0 then (SyncFailed(DefaultCategoryFailed), insert.1)
        else
          var pages := Pages(load, insert.1, u, 1);
          (if pages.0.Some? then SyncFailed(pages.0.value) else Synced, pages.1)
  }

  /** `Sync` as the source runs it, every page loaded by `loadFromURL`. */
  function SyncSpec(w: World, env: Env, dataUrl: Option<Url>): (SyncResult, World)
  {
    SyncRun(Loader(env), env.faults, w, dataUrl)
  }

  /* ================================================================ properties of a page and of the loop */

  /** Every normalised record queues at least its sign insert. */
  lemma NormalizerNonEmpty(base: string, parseDate: string -> Option<Timestamp>, item: Item<NewSign>)
    ensures Normalizer(base, parseDate)(item).Ok? ==> |Normalizer(base, parseDate)(item).value| >= 1
  {
  }

  /** A page counts zero records exactly when the source answers it with an empty
      array; a non-empty page that loads counts every one of its records. */
  lemma LoadPageCount(w: World, env: Env, u: Url)
    ensures LoadPageSpec(w, env, u).0 == PageLoaded(0) <==> EmptyPage(env, u)
    ensures LoadPageSpec(w, env, u).0.PageLoaded? ==>
      env.source(u).Fetched? && env.source(u).body.Array?
      && LoadPageSpec(w, env, u).0.count == |env.source(u).body.items|
  {
    if env.source(u).Fetched? && env.source(u).body.Array? {
      var items := env.source(u).body.items;
      var norm := Normalizer(BaseUrl(u), env.parseDate);
      PageSpecOutcome(norm, items);
      var r := PageSpec(norm, items);
      if r.error.None? && r.count > 0 {
        NormalizerNonEmpty(BaseUrl(u), env.parseDate, items[0]);
        assert r.batch != [];
      }
    }
  }

  /** A page is loaded all or nothing: the page URL is recorded as requested; a page
      that fails leaves the store as it was; a page that loads applies its whole
      batch. */
  lemma LoadPageAtomic(w: World, env: Env, u: Url)
    ensures LoadPageSpec(w, env, u).1.requests == w.requests + [u]
    ensures LoadPageSpec(w, env, u).0.PageFailed? ==> LoadPageSpec(w, env, u).1.store == w.store
    ensures LoadPageSpec(w, env, u).0.PageLoaded? ==>
      var batch := PageSpec(Normalizer(BaseUrl(u), env.parseDate), env.source(u).body.items).batch;
      ExecAll(w.store, batch) == Some(LoadPageSpec(w, env, u).1.store)
  {
  }

  /** Loading a page keeps the foreign keys and never drops or renames a category. */
  lemma LoadPagePreserves(w: World, env: Env, u: Url)
    requires Consistent(w.store)
    ensures Consistent(LoadPageSpec(w, env, u).1.store) && KeepsCategories(w.store, LoadPageSpec(w, env, u).1.store)
  {
    LoadPageAtomic(w, env, u);
    var w1 := LoadPageSpec(w, env, u).1;
    if LoadPageSpec(w, env, u).0.PageLoaded? {
      var batch := PageSpec(Normalizer(BaseUrl(u), env.parseDate), env.source(u).body.items).batch;
      ExecAllPreserves(w.store, batch);
    }
  }

  /** The URLs of pages i, i+1, ..., i+k-1. */
  function PageUrls(u: Url, i: nat, k: nat): (r: seq<Url>)
    ensures |r| == k
    decreases k
  {
    if k == 0 then [] else [WithPage(u, i)] + PageUrls(u, i + 1, k - 1)
  }

  /** A loader that records each page URL it is given as requested. */
  ghost predicate RecordsRequests(load: PageLoader)
  {
    forall w: World, v: Url :: load(w, v).1.requests == w.requests + [v]
  }

  /** A loader that counts zero records exactly for the pages the source answers with
      an empty array. */
  ghost predicate CountsRecords(load: PageLoader, env: Env)
  {
    forall w: World, v: Url :: load(w, v).0 == PageLoaded(0) <==> EmptyPage(env, v)
  }

  /** A loader that keeps the foreign keys and the categories. */
  ghost predicate KeepsStore(load: PageLoader)
  {
    forall w: World, v: Url | Consistent(w.store) ::
      Consistent(load(w, v).1.store) && KeepsCategories(w.store, load(w, v).1.store)
  }

  /** `loadFromURL` is such a loader. */
  lemma LoaderFacts(env: Env)
    ensures RecordsRequests(Loader(env)) && CountsRecords(Loader(env), env) && KeepsStore(Loader(env))
  {
    forall w: World, v: Url
      ensures Loader(env)(w, v).1.requests == w.requests + [v]
      ensures Loader(env)(w, v).0 == PageLoaded(0) <==> EmptyPage(env, v)
      ensures Consistent(w.store) ==>
        Consistent(Loader(env)(w, v).1.store) && KeepsCategories(w.store, Loader(env)(w, v).1.store)
    {
      LoadPageAtomic(w, env, v);
      LoadPageCount(w, env, v);
      if Consistent(w.store) {
        LoadPagePreserves(w, env, v);
      }
    }
  }

  /** The loop from page `i` (the URL holding the previous page) requests pages
      i, i+1, ... in order, page i first, and never a page beyond 999. */
  lemma {:induction false} PagesRequested(load: PageLoader, w: World, u: Url, i: nat)
    requires RecordsRequests(load)
    requires 1 <= i <= PageLimit
    ensures var w1 := Pages(load, w, u, i).1;
      && |w.requests| <= |w1.requests| <= |w.requests| + (PageLimit - i)
      && (i < PageLimit ==> |w1.requests| > |w.requests|)
      && w1.requests == w.requests + PageUrls(u, i, |w1.requests| - |w.requests|)
    decreases PageLimit - i
  {
    if i < PageLimit {
      var v := WithPage(u, i);
      var (res, w1) := load(w, v);
      if res.PageLoaded? && res.count != 0 {
        assert Pages(load, w, u, i) == Pages(load, w1, u, i + 1);
        PagesRequested(load, w1, u, i + 1);
        var w2 := Pages(load, w1, u, i + 1).1;
        var k := |w2.requests| - |w1.requests|;
        assert w1.requests == w.requests + [v];
        assert PageUrls(u, i, k + 1) == [v] + PageUrls(u, i + 1, k);
        assert w2.requests == w.requests + PageUrls(u, i, k + 1) by {
          ConcatAssoc3(w.requests, [v], PageUrls(u, i + 1, k));
        }
      } else {
        assert Pages(load, w, u, i).1 == w1;
        assert w1.requests == w.requests + [v];
        assert PageUrls(u, i, 1) == [v];
      }
    } else {
      assert Pages(load, w, u, i).1 == w;
      assert w.requests + PageUrls(u, i, 0) == w.requests;
    }
  }

  /** The loop reports only page errors. */
  lemma {:induction false} PagesFailOnPage(load: PageLoader, w: World, u: Url, i: nat)
    ensures var err := Pages(load, w, u, i).0; err.Some? ==> err.value.PageError?
    decreases PageLimit - i
  {
    if i < PageLimit {
      var v := WithPage(u, i);
      var (res, w1) := load(w, v);
      if res.PageLoaded? && res.count != 0 {
        PagesFailOnPage(load, w1, u, i + 1);
      }
    }
  }

  lemma ConcatAssoc3<T>(a: seq<T>, b: seq<T>, c: seq<T>)
    ensures a + b + c == a + (b + c)
  {
  }

  /** A loop run from `w` at page `i` that ended as `r` stopped for the reasons the
      code gives: every page but the last one requested held records; without an
      error, the last page was empty or was page 999; an error comes from the last
      page requested. */
  ghost predicate Stopped(env: Env, w: World, r: (Option<SyncError>, World), u: Url, i: nat)
  {
    var last := i + |r.1.requests| - |w.requests| - 1;
    && (forall p | i <= p < last :: !EmptyPage(env, WithPage(u, p)))
    && (r.0.None? ==> last == PageLimit - 1 || (last >= i && EmptyPage(env, WithPage(u, last))))
    && (r.0.Some? ==> r.0.value.PageError? && r.0.value.page == last)
  }

  /** A page that held records, followed by a loop that stopped for those reasons,
      makes a loop that stopped for them too. */
  lemma StoppedCons(env: Env, w: World, w1: World, r: (Option<SyncError>, World), u: Url, i: nat)
    requires w1.requests == w.requests + [WithPage(u, i)]
    requires !EmptyPage(env, WithPage(u, i))
    requires Stopped(env, w1, r, u, i + 1)
    ensures Stopped(env, w, r, u, i)
  {
    var last := i + |r.1.requests| - |w.requests| - 1;
    assert last == (i + 1) + |r.1.requests| - |w1.requests| - 1;
    forall p | i <= p < last
      ensures !EmptyPage(env, WithPage(u, p))
    {
      if p > i {
        assert i + 1 <= p < last;
      }
    }
  }

  /** The loop from page `i` stops for the reasons the code gives. */
  lemma {:induction false} PagesStop(load: PageLoader, env: Env, w: World, u: Url, i: nat)
    requires RecordsRequests(load) && CountsRecords(load, env)
    requires 1 <= i < PageLimit
    ensures Stopped(env, w, Pages(load, w, u, i), u, i)
    decreases PageLimit - i
  {
    var step := load(w, WithPage(u, i));
    PagesStep(load, w, u, i);
    assert step.1.requests == w.requests + [WithPage(u, i)];
    if step.0.PageLoaded? && step.0.count != 0 {
      assert !EmptyPage(env, WithPage(u, i));
      if i + 1 < PageLimit {
        PagesStop(load, env, step.1, u, i + 1);
        StoppedCons(env, w, step.1, Pages(load, step.1, u, i + 1), u, i);
      } else {
        assert Pages(load, step.1, u, i + 1) == (None, step.1);
      }
    }
  }

  /** The loop keeps the foreign keys and never drops or renames a category. */
  lemma {:induction false} PagesPreserve(load: PageLoader, w: World, u: Url, i: nat)
    requires KeepsStore(load)
    requires Consistent(w.store)
    ensures Consistent(Pages(load, w, u, i).1.store) && KeepsCategories(w.store, Pages(load, w, u, i).1.store)
    decreases PageLimit - i
  {
    if i < PageLimit {
      var v := WithPage(u, i);
      var (res, w1) := load(w, v);
      if res.PageLoaded? && res.count != 0 {
        PagesPreserve(load, w1, u, i + 1);
      }
    }
  }

  /** A sync whose pages were reached leaves a consistent store holding the fallback
      category, under the name it already had or else "Odefinierade". */
  lemma SyncStore(load: PageLoader, faults: set<nat>, w: World, u: Url)
    requires KeepsStore(load)
    ensures var r := SyncRun(load, faults, w, Some(u));
      (r.0.Synced? || r.0.error.PageError?) ==>
        && Consistent(r.1.store) && FallbackSlug in r.1.store.categories
        && r.1.store.categories[FallbackSlug]
           == if FallbackSlug in w.store.categories then w.store.categories[FallbackSlug] else FallbackName
  {
    var truncate := RoundTrip(w, faults, Truncate);
    if truncate.0 {
      var ins := [InsertCategory(FallbackName, FallbackSlug)];
      var insert := RoundTrip(truncate.1, faults, Statements(ins));
      if insert.0 {
        assert ExecAll(truncate.1.store, ins) == Exec(truncate.1.store, ins[0]);
        PagesPreserve(load, insert.1, u, 1);
      }
    }
  }

  /** Sync requests pages 1, 2, ... in order, at most 999 of them, and none when the
      truncate or the fallback insert failed. */
  lemma SyncRequests(load: PageLoader, faults: set<nat>, w: World, u: Url)
    requires RecordsRequests(load)
    ensures var r := SyncRun(load, faults, w, Some(u));
      var k := |r.1.requests| - |w.requests|;
      && |w.requests| <= |r.1.requests|
      && r.1.requests == w.requests + PageUrls(u, 1, k)
      && k <= PageLimit - 1
      && (k == 0 <==> r.0 == SyncFailed(TruncateFailed) || r.0 == SyncFailed(DefaultCategoryFailed))
  {
    var truncate := RoundTrip(w, faults, Truncate);
    if truncate.0 {
      var insert := RoundTrip(truncate.1, faults, Statements([InsertCategory(FallbackName, FallbackSlug)]));
      if insert.0 {
        PagesRequested(load, insert.1, u, 1);
        PagesFailOnPage(load, insert.1, u, 1);
      } else {
        assert w.requests + PageUrls(u, 1, 0) == w.requests;
      }
    } else {
      assert w.requests + PageUrls(u, 1, 0) == w.requests;
    }
  }

  /** Every page Sync requested but the last held records; a sync that succeeds ended
      on an empty page or on page 999; a page error names the last page requested. */
  lemma SyncStops(load: PageLoader, env: Env, faults: set<nat>, w: World, u: Url)
    requires RecordsRequests(load) && CountsRecords(load, env)
    ensures var r := SyncRun(load, faults, w, Some(u));
      var k := |r.1.requests| - |w.requests|;
      && (forall p | 1 <= p < k :: !EmptyPage(env, WithPage(u, p)))
      && (r.0.Synced? ==> k >= 1 && (k == PageLimit - 1 || EmptyPage(env, WithPage(u, k))))
      && (r.0.SyncFailed? && r.0.error.PageError? ==> r.0.error.page == k)
  {
    var truncate := RoundTrip(w, faults, Truncate);
    if truncate.0 {
      var insert := RoundTrip(truncate.1, faults, Statements([InsertCategory(FallbackName, FallbackSlug)]));
      if insert.0 {
        PagesStop(load, env, insert.1, u, 1);
      }
    }
  }

  /** When pages 1..k hold records and page k+1 is empty, a sync that succeeds
      requests exactly those k+1 pages. */
  lemma ExactPages(w: World, env: Env, u: Url, k: nat)
    requires k + 1 < PageLimit
    requires forall p | 1 <= p <= k :: !EmptyPage(env, WithPage(u, p))
    requires EmptyPage(env, WithPage(u, k + 1))
    requires SyncSpec(w, env, Some(u)).0 == Synced
    ensures |SyncSpec(w, env, Some(u)).1.requests| == |w.requests| + k + 1
  {
    LoaderFacts(env);
    SyncStops(Loader(env), env, env.faults, w, u);
  }

  /* ================================================================ what a sync leaves in the store */

  /** The statements the page at `v` queues: those of its records, when the source
      answers it with an array. */
  function PageBatch(env: Env, v: Url): seq<Stmt>
  {
    match env.source(v)
    case Fetched(Array(items)) => PageSpec(Normalizer(BaseUrl(v), env.parseDate), items).batch
    case _ => []
  }

  /** The statements each page queues, as a function of its URL. */
  function PageBatches(env: Env): Url -> seq<Stmt>
  {
    v => PageBatch(env, v)
  }

  /** The statements of pages i, i+1, ..., i+k-1, one page after another. */
  function PagesBatch(batchOf: Url -> seq<Stmt>, u: Url, i: nat, k: nat): seq<Stmt>
    decreases k
  {
    if k == 0 then [] else batchOf(WithPage(u, i)) + PagesBatch(batchOf, u, i + 1, k - 1)
  }

  /** A loader that, for each page it loads, records the request and applies the
      page's statements. */
  ghost predicate AppliesBatches(load: PageLoader, batchOf: Url -> seq<Stmt>)
  {
    forall w: World, v: Url | load(w, v).0.PageLoaded? ::
      load(w, v).1.requests == w.requests + [v] && ExecAll(w.store, batchOf(v)) == Some(load(w, v).1.store)
  }

  /** `loadFromURL` is such a loader. */
  lemma LoaderAppliesBatches(env: Env)
    ensures AppliesBatches(Loader(env), PageBatches(env))
  {
    forall w: World, v: Url | Loader(env)(w, v).0.PageLoaded?
      ensures Loader(env)(w, v).1.requests == w.requests + [v]
      ensures ExecAll(w.store, PageBatches(env)(v)) == Some(Loader(env)(w, v).1.store)
    {
      LoadPageAtomic(w, env, v);
      LoadPageCount(w, env, v);
    }
  }

  /** A loop run from `w` at page `i` that ended as `r` without an error has applied
      the statements of every page it requested, in page order, to the store it
      started from. */
  ghost predicate PagesApplied(w: World, r: (Option<SyncError>, World), batchOf: Url -> seq<Stmt>, u: Url, i: nat)
  {
    var k := |r.1.requests| - |w.requests|;
    r.0.None? ==> k >= 0 && ExecAll(w.store, PagesBatch(batchOf, u, i, k)) == Some(r.1.store)
  }

  /** A page that applied its statements, followed by a loop that applied those of
      the pages after it, applied the statements of them all. */
  lemma PagesAppliedCons(w: World, w1: World, r: (Option<SyncError>, World), batchOf: Url -> seq<Stmt>, u: Url, i: nat)
    requires w1.requests == w.requests + [WithPage(u, i)]
    requires ExecAll(w.store, batchOf(WithPage(u, i))) == Some(w1.store)
    requires PagesApplied(w1, r, batchOf, u, i + 1)
    ensures PagesApplied(w, r, batchOf, u, i)
  {
    if r.0.None? {
      var k := |r.1.requests| - |w1.requests|;
      var head := batchOf(WithPage(u, i));
      var rest := PagesBatch(batchOf, u, i + 1, k);
      assert PagesBatch(batchOf, u, i, k + 1) == head + rest;
      ExecAllChain(w.store, head, rest, w1.store);
    }
  }

  /** A page that applied its statements and ended the loop applied the statements
      of every page requested. */
  lemma PagesAppliedLast(w: World, w1: World, batchOf: Url -> seq<Stmt>, u: Url, i: nat)
    requires w1.requests == w.requests + [WithPage(u, i)]
    requires ExecAll(w.store, batchOf(WithPage(u, i))) == Some(w1.store)
    ensures PagesApplied(w, (None, w1), batchOf, u, i)
  {
    assert PagesBatch(batchOf, u, i, 1) == batchOf(WithPage(u, i));
  }

  /** The pagination loop applies the statements of the pages it requested. */
  lemma {:induction false} PagesCommit(load: PageLoader, batchOf: Url -> seq<Stmt>, w: World, u: Url, i: nat)
    requires AppliesBatches(load, batchOf)
    ensures PagesApplied(w, Pages(load, w, u, i), batchOf, u, i)
    decreases PageLimit - i
  {
    if i < PageLimit {
      var step := load(w, WithPage(u, i));
      PagesStep(load, w, u, i);
      if step.0.PageLoaded? {
        if step.0.count == 0 {
          PagesAppliedLast(w, step.1, batchOf, u, i);
        } else {
          PagesCommit(load, batchOf, step.1, u, i + 1);
          PagesAppliedCons(w, step.1, Pages(load, step.1, u, i + 1), batchOf, u, i);
        }
      }
    } else {
      assert PagesBatch(batchOf, u, i, 0) == [];
    }
  }

  /** A sync from `w` that ended as `r` and succeeded requested k pages and left
      exactly what the fallback insert and the statements of pages 1..k build from
      the truncated store. */
  ghost predicate Replaced(w: World, r: (SyncResult, World), batchOf: Url -> seq<Stmt>, u: Url)
  {
    var k := |r.1.requests| - |w.requests|;
    r.0 == Synced ==>
      k >= 0 && ExecAll(Truncated(w.store), [InsertCategory(FallbackName, FallbackSlug)] + PagesBatch(batchOf, u, 1, k))
                == Some(r.1.store)
  }

  /** Every sync replaces the store: one that succeeds leaves exactly what the
      fallback insert and the statements of the k pages it requested build from the
      truncated store, which holds only the categories. */
  lemma SyncCommits(load: PageLoader, batchOf: Url -> seq<Stmt>, faults: set<nat>, w: World, u: Url)
    requires AppliesBatches(load, batchOf)
    ensures Replaced(w, SyncRun(load, faults, w, Some(u)), batchOf, u)
  {
    var ins := [InsertCategory(FallbackName, FallbackSlug)];
    var truncate := RoundTrip(w, faults, Truncate);
    if truncate.0 {
      var insert := RoundTrip(truncate.1, faults, Statements(ins));
      if insert.0 {
        var r := Pages(load, insert.1, u, 1);
        assert SyncRun(load, faults, w, Some(u)) == (if r.0.Some? then SyncFailed(r.0.value) else Synced, r.1);
        PagesCommit(load, batchOf, insert.1, u, 1);
        if r.0.None? {
          ExecAllChain(Truncated(w.store), ins, PagesBatch(batchOf, u, 1, |r.1.requests| - |insert.1.requests|), insert.1.store);
        }
      }
    }
  }

  /** `SyncCommits` for `Sync` as the source runs it: the statements of each page are
      those of its records. */
  lemma SyncSpecCommits(w: World, env: Env, u: Url)
    ensures Replaced(w, SyncSpec(w, env, Some(u)), PageBatches(env), u)
  {
    LoaderAppliesBatches(env);
    SyncCommits(Loader(env), PageBatches(env), env.faults, w, u);
  }

  /** The category joins of a page follow their inserts, record by record. */
  lemma {:induction false} PageJoinsFollowInserts(base: string, parseDate: string -> Option<Timestamp>, items: seq<Item<NewSign>>)
    ensures JoinsFollowInserts({}, PageSpec(Normalizer(base, parseDate), items).batch)
    decreases |items|
  {
    if |items| > 0 {
      var norm := Normalizer(base, parseDate);
      var init := items[..|items| - 1];
      PageJoinsFollowInserts(base, parseDate, init);
      var prev := PageSpec(norm, init);
      var last := items[|items| - 1];
      if prev.error.None? && last.Decoded? {
        var s := last.value;
        if NormalizeId(s.id).Some? && parseDate(s.lastUpdate).Some? {
          RecordJoinsFollowInserts(base, s, NormalizeId(s.id).value, parseDate(s.lastUpdate).value);
          JoinsFollowInsertsAppend(prev.batch, norm(last).value);
        }
      }
    }
  }

  /** A page that loaded loads again, with the same count, on a store that differs
      only by already holding the categories the first load ends with, when no round
      trip fails in transport. */
  lemma LoadPageReplay(env: Env, wa: World, wb: World, v: Url, cats: map<string, string>)
    requires env.faults == {}
    requires wb.store == wa.store.(categories := cats)
    requires FallbackSlug in wa.store.categories
    requires LoadPageSpec(wa, env, v).0.PageLoaded?
    requires KeepsCategories(LoadPageSpec(wa, env, v).1.store, wb.store)
    ensures LoadPageSpec(wb, env, v).0 == LoadPageSpec(wa, env, v).0
    ensures LoadPageSpec(wb, env, v).1.store == LoadPageSpec(wa, env, v).1.store.(categories := cats)
  {
    LoadPageCount(wa, env, v);
    var items := env.source(v).body.items;
    var batch := PageSpec(Normalizer(BaseUrl(v), env.parseDate), items).batch;
    if |batch| > 0 {
      PageJoinsFollowInserts(BaseUrl(v), env.parseDate, items);
      JoinsFollowInsertsWider({}, wa.store.categories.Keys, batch);
      ExecAllReplay(wa.store, batch, cats);
    }
  }

  /** The loop does the same on such a store: it ends without an error, and every
      table but the categories ends as in the first run. */
  lemma {:induction false} PagesReplay(env: Env, wa: World, wb: World, u: Url, i: nat, cats: map<string, string>)
    requires env.faults == {}
    requires Consistent(wa.store) && FallbackSlug in wa.store.categories
    requires wb.store == wa.store.(categories := cats)
    requires Pages(Loader(env), wa, u, i).0.None?
    requires KeepsCategories(Pages(Loader(env), wa, u, i).1.store, wb.store)
    ensures Pages(Loader(env), wb, u, i).0.None?
    ensures Pages(Loader(env), wb, u, i).1.store == Pages(Loader(env), wa, u, i).1.store.(categories := cats)
    decreases PageLimit - i
  {
    if i < PageLimit {
      var v := WithPage(u, i);
      var (resA, w1a) := LoadPageSpec(wa, env, v);
      PagesStep(Loader(env), wa, u, i);
      PagesStep(Loader(env), wb, u, i);
      LoadPagePreserves(wa, env, v);
      if resA.count != 0 {
        LoaderFacts(env);
        PagesPreserve(Loader(env), w1a, u, i + 1);
      }
      LoadPageReplay(env, wa, wb, v, cats);
      if resA.count != 0 {
        var w1b := LoadPageSpec(wb, env, v).1;
        PagesReplay(env, w1a, w1b, u, i + 1, cats);
      }
    }
  }

  /** Syncing twice from a source that answers the same, with no round trip failing
      in transport, leaves the store of the first sync: the second sync succeeds
      too. */
  lemma SyncIdempotent(w: World, env: Env, u: Url)
    requires env.faults == {}
    ensures var r1 := SyncSpec(w, env, Some(u));
      r1.0 == Synced ==>
        var r2 := SyncSpec(r1.1, env, Some(u));
        r2.0 == Synced && r2.1.store == r1.1.store
  {
    var r1 := SyncSpec(w, env, Some(u));
    if r1.0 == Synced {
      var ins := [InsertCategory(FallbackName, FallbackSlug)];
      var insert1 := RoundTrip(RoundTrip(w, env.faults, Truncate).1, env.faults, Statements(ins));
      assert ExecAll(Truncated(w.store), ins) == Exec(Truncated(w.store), ins[0]);
      ExecAllPreserves(Truncated(w.store), ins);
      LoaderFacts(env);
      PagesPreserve(Loader(env), insert1.1, u, 1);
      var s1 := r1.1.store;
      var insert2 := RoundTrip(RoundTrip(r1.1, env.faults, Truncate).1, env.faults, Statements(ins));
      assert ExecAll(Truncated(s1), ins) == Exec(Truncated(s1), ins[0]);
      assert insert2.1.store == insert1.1.store.(categories := s1.categories);
      PagesReplay(env, insert1.1, insert2.1, u, 1, s1.categories);
    }
  }

  /** The body of the record loop of `loadFromURL`: read the id and the date of one
      decoded record and queue its statements, or say why the page is aborted. */
  method QueueItem(batch: seq<Stmt>, base: string, parseDate: string -> Option<Timestamp>, item: Item<NewSign>)
    returns (b: seq<Stmt>, err: Option<LoadError>)
    ensures err.None? <==> NormalizeRecord(base, item, parseDate).Ok?
    ensures err.None? ==> b == batch + NormalizeRecord(base, item, parseDate).value
    ensures err.Some? ==> b == batch && NormalizeRecord(base, item, parseDate) == Err(err.value)
  {
    b := batch;
    match item
    case Malformed =>
      err := Some(DecodeError);
    case Decoded(s) =>
      var id := NormalizeId(s.id);
      if id.None? {
        return batch, Some(BadId);
      }
      var at := parseDate(s.lastUpdate);
      if at.None? {
        return batch, Some(BadDate);
      }
      b := QueueRecord(batch, base, s, id.value, at.value);
      err := None;
  }

  /** The record loop of `loadFromURL`: decode, normalise and queue the records of
      a page one after another, stopping at the first that fails. */
  method QueuePage(base: string, parseDate: string -> Option<Timestamp>, items: seq<Item<NewSign>>)
    returns (j: nat, batch: seq<Stmt>, err: Option<LoadError>)
    ensures Scan(j, batch, err) == PageSpec(Normalizer(base, parseDate), items)
  {
    ghost var norm := Normalizer(base, parseDate);
    j := 0;
    batch := [];
    while j < |items|
      invariant j <= |items|
      invariant PageSpec(norm, items[..j]) == Scan(j, batch, None)
      decreases |items| - j
    {
      assert norm(items[j]) == NormalizeRecord(base, items[j], parseDate);
      var b, e := QueueItem(batch, base, parseDate, items[j]);
      if e.Some? {
        PageSpecStops(norm, items, j, batch, e.value, |items|);
        assert items[..|items|] == items;
        return j, batch, e;
      }
      PageSpecStep(norm, items, j, batch, norm(items[j]).value);
      batch := b;
      j := j + 1;
    }
    assert items[..j] == items;
    err := None;
  }

  /* ================================================================ the client */

  /** The synchronisation client: the database it writes to and the HTTP client it
      fetches pages with, seen as the store, the count of database round trips and
      the list of page URLs requested; `env` is what neither of them lets it see. */
  class SyncClient {
    var store: Store
    var trips: nat
    var requests: seq<Url>
    const env: Env

    /** `NewSyncClient`: a client over a database holding `store`. */
    constructor (store: Store, env: Env)
      ensures State() == World(store, 0, []) && this.env == env
    {
      this.store := store;
      this.trips := 0;
      this.requests := [];
      this.env := env;
    }

    function State(): World
      reads this
    {
      World(store, trips, requests)
    }

    /** One round trip to the database: the truncate, or a batch of statements
        applied all together or not at all. */
    method Send(op: DbOp) returns (ok: bool)
      modifies this
      ensures (ok, State()) == RoundTrip(old(State()), env.faults, op)
    {
      var applied := Apply(store, op);
      ok := trips !in env.faults && applied.Some?;
      if ok {
        store := applied.value;
      }
      trips := trips + 1;
    }

    /** One GET request: the response is whatever the source answers for `u`. */
    method Fetch(u: Url) returns (res: Response<NewSign>)
      modifies this
      ensures res == env.source(u)
      ensures State() == old(State()).(requests := old(requests) + [u])
    {
      requests := requests + [u];
      res := env.source(u);
    }

    /** `loadFromURL`: fetch one page, queue the statements of its records one after
        another, and send them as one batch if there are any; the number of records
        queued comes back with the error, if any. */
    method LoadFromUrl(u: Url) returns (j: nat, err: Option<LoadError>)
      modifies this
      ensures (if err.Some? then PageFailed(j, err.value) else PageLoaded(j), State())
              == LoadPageSpec(old(State()), env, u)
    {
      j := 0;
      var res := Fetch(u);
      if res.FetchFailed? {
        return 0, Some(FetchError);
      }
      if res.body.Unreadable? {
        return 0, Some(DecodeError);
      }
      var items := res.body.items;
      var base := u.scheme + "://" + u.host + "/";
      var batch;
      j, batch, err := QueuePage(base, env.parseDate, items);
      if err.Some? {
        return;
      }
      if |batch| > 0 {
        var ok := Send(Statements(batch));
        if !ok {
          return j, Some(BatchError);
        }
      }
    }

    /** `Sync`: parse the URL, truncate, insert the fallback category, then load
        pages 1 to 999 until one holds no record or fails. */
    method Sync(dataUrl: Option<Url>) returns (res: SyncResult)
      modifies this
      ensures (res, State()) == SyncSpec(old(State()), env, dataUrl)
    {
      if dataUrl.None? {
        return SyncFailed(BadUrl);
      }
      var ok := Send(Truncate);
      if !ok {
        return SyncFailed(TruncateFailed);
      }
      ok := Send(Statements([InsertCategory(FallbackName, FallbackSlug)]));
      if !ok {
        return SyncFailed(DefaultCategoryFailed);
      }
      var err := LoadPages(dataUrl.value);
      res := if err.Some? then SyncFailed(err.value) else Synced;
    }

    /** The pagination loop of `Sync`. */
    method LoadPages(u0: Url) returns (err: Option<SyncError>)
      modifies this
      ensures (err, State()) == Pages(Loader(env), old(State()), u0, 1)
    {
      ghost var target := Pages(Loader(env), State(), u0, 1);
      var u := u0;
      var i := 1;
      while i < PageLimit
        invariant 1 <= i <= PageLimit
        invariant u == u0 || u == WithPage(u0, i - 1)
        invariant Pages(Loader(env), State(), u0, i) == target
        decreases PageLimit - i
      {
        if u != u0 {
          WithPageTwice(u0, i - 1, i);
        }
        u := WithPage(u, i);
        ghost var before := State();
        var n, e := LoadFromUrl(u);
        PagesStep(Loader(env), before, u0, i);
        if e.Some? {
          return Some(PageError(i, e.value));
        }
        if n == 0 {
          return None;
        }
        i := i + 1;
      }
      return None;
    }
  }
}
