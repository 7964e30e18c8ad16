/** `main`: the run controller. It walks the listing pages of the coupon site one page number
    at a time, and for every course on a page either skips it (its details address is already
    a key of the history ledger) or processes it and records the outcome under that key. */
module Scraper {

  import opened Text
  import opened Statuses
  import opened Resolution

  /** One card on a listing page: its trimmed title and its details address. */
  datatype Course = Course(title: string, detailsUrl: string)

  /** What calling `processCourse` for a course did: it returned a status computed from what
      the browser showed, or it raised past its own handlers (opening its tab, or appending to
      the report, failed), which ends the page's `for` loop. */
  datatype Attempt = Returns(obs: Observation) | Raises

  datatype Listing = Listing(course: Course, attempt: Attempt)

  /** Fetching one listing page: the courses it listed, or an exception while loading,
      scrolling or extracting (the page is then given up). */
  datatype PageFetch = Items(listings: seq<Listing>) | Error

  /** A history entry, without its timestamp. */
  datatype Record = Record(title: string, status: string)

  /** The ledger the run keeps: the history, keyed by details address, and the number of
      courses processed. */
  datatype Ledger = Ledger(history: map<string, Record>, processed: int)

  /** The settings the loop reads; `maxPages` of 0 (or less) means no ceiling. */
  datatype Config = Config(baseUrl: string, maxPages: int)

  datatype StopReason = PageLimit | EmptyPage | OutOfObservations

  /** Where a run ends: the final ledger and page cursor, why it stopped, and the listing
      addresses it fetched, in order. */
  datatype RunEnd = RunEnd(ledger: Ledger, page: int, reason: StopReason, fetched: seq<string>)

  /** The address of listing page `page`: the bare base address for page 1, otherwise the page
      number appended as a path segment. */
  function PageUrl(baseUrl: string, page: int): (url: string)
    ensures |url| >= |baseUrl| && url[..|baseUrl|] == baseUrl
    ensures page == 1 <==> url == baseUrl
  {
    if page == 1 then baseUrl else baseUrl + "/" + IntToDecimal(page)
  }

  /** Two page numbers give the same address exactly when they are equal. */
  lemma PageUrlInjective(baseUrl: string, m: int, n: int)
    ensures PageUrl(baseUrl, m) == PageUrl(baseUrl, n) <==> m == n
  {
    if m != 1 && n != 1 && PageUrl(baseUrl, m) == PageUrl(baseUrl, n) {
      var k := |baseUrl| + 1;
      assert IntToDecimal(m) == PageUrl(baseUrl, m)[k..] == PageUrl(baseUrl, n)[k..] == IntToDecimal(n);
      IntToDecimalInjective(m, n);
    }
  }

  /** `b` is `a` with new entries only: no key of `a` is overwritten or removed, every added
      record carries one of the seven status strings, and the counter went up by exactly the
      number of keys added. */
  predicate Extends(a: Ledger, b: Ledger)
  {
    && (forall k :: k in a.history ==> k in b.history && b.history[k] == a.history[k])
    && (forall k :: k in b.history && k !in a.history ==> b.history[k].status in StatusTexts)
    && |b.history| == |a.history| + (b.processed - a.processed)
  }

  lemma ExtendsTransitive(a: Ledger, b: Ledger, c: Ledger)
    requires Extends(a, b) && Extends(b, c)
    ensures Extends(a, c)
  {
  }

  /** With no key lost, the growth of the history is the set of keys added, so the counter
      counts exactly the keys the run added. */
  lemma ProcessedCountsAddedKeys(a: Ledger, b: Ledger)
    requires Extends(a, b)
    ensures |b.history.Keys - a.history.Keys| == b.processed - a.processed
  {
    assert a.history.Keys <= b.history.Keys;
    assert b.history.Keys == (b.history.Keys - a.history.Keys) + a.history.Keys;
    assert |b.history.Keys| == |b.history| && |a.history.Keys| == |a.history|;
  }

  /** The result of running the loop body over a prefix of a page. */
  datatype Step = Step(ledger: Ledger, raised: bool)

  /** One turn of the page's `for` loop. */
  function VisitListing(l: Ledger, x: Listing): (s: Step)
    ensures Extends(l, s.ledger)
    // a known key is skipped: nothing changes
    ensures x.course.detailsUrl in l.history ==> s == Step(l, false)
    // a new key is processed (unless processing raised) and becomes the one key added
    ensures x.course.detailsUrl !in l.history ==> (s.raised <==> x.attempt.Raises?)
    ensures s.raised ==> s.ledger == l
    ensures x.course.detailsUrl !in l.history && !s.raised ==>
              && s.ledger.history.Keys == l.history.Keys + {x.course.detailsUrl}
              && s.ledger.history[x.course.detailsUrl].title == x.course.title
              && s.ledger.processed == l.processed + 1
  {
    var url := x.course.detailsUrl;
    if url in l.history then Step(l, false)
    else
      match x.attempt
      case Raises => Step(l, true)
      case Returns(obs) =>
        var status := ProcessCourse(url, obs).status;
        Step(Ledger(l.history[url := Record(x.course.title, StatusText(status))], l.processed + 1), false)
  }

  /** The page's `for` loop over its listings, left to right, ending early if processing a
      course raised. */
  function ScrapeListings(l: Ledger, xs: seq<Listing>): (s: Step)
    ensures l.history.Keys <= s.ledger.history.Keys
    ensures s.raised ==> exists i :: 0 <= i < |xs| && xs[i].attempt.Raises?
    decreases |xs|
  {
    if xs == [] then Step(l, false)
    else
      var s0 := VisitListing(l, xs[0]);
      if s0.raised then s0 else ScrapeListings(s0.ledger, xs[1..])
  }

  /** A page never overwrites a record, and the counter tracks the keys it adds. */
  lemma {:induction false} ScrapeExtends(l: Ledger, xs: seq<Listing>)
    ensures Extends(l, ScrapeListings(l, xs).ledger)
    decreases |xs|
  {
    if xs != [] {
      var s0 := VisitListing(l, xs[0]);
      if !s0.raised {
        ScrapeExtends(s0.ledger, xs[1..]);
        ExtendsTransitive(l, s0.ledger, ScrapeListings(l, xs).ledger);
      }
    }
  }

  /** A page that runs to its end leaves every one of its details addresses in the history. */
  lemma {:induction false} ScrapeRecordsEveryListing(l: Ledger, xs: seq<Listing>)
    requires !ScrapeListings(l, xs).raised
    ensures forall i :: 0 <= i < |xs| ==> xs[i].course.detailsUrl in ScrapeListings(l, xs).ledger.history
    decreases |xs|
  {
    if xs != [] {
      var s0 := VisitListing(l, xs[0]);
      ScrapeRecordsEveryListing(s0.ledger, xs[1..]);
      ScrapeExtends(s0.ledger, xs[1..]);
      forall i | 0 <= i < |xs|
        ensures xs[i].course.detailsUrl in ScrapeListings(l, xs).ledger.history
      {
        if i > 0 {
          assert xs[i] == xs[1..][i - 1];
        }
      }
    }
  }

  /** Replaying a page that ran to its end is a no-op: every course on it is skipped. */
  lemma ReplayIsNoOp(l: Ledger, xs: seq<Listing>)
    requires !ScrapeListings(l, xs).raised
    ensures var done := ScrapeListings(l, xs).ledger;
      ScrapeListings(done, xs) == Step(done, false)
  {
    var done := ScrapeListings(l, xs).ledger;
    ScrapeRecordsEveryListing(l, xs);
    SkipsKnown(done, xs);
  }

  /** A page whose every details address is already known changes nothing. */
  lemma {:induction false} SkipsKnown(l: Ledger, xs: seq<Listing>)
    requires forall i :: 0 <= i < |xs| ==> xs[i].course.detailsUrl in l.history
    ensures ScrapeListings(l, xs) == Step(l, false)
    decreases |xs|
  {
    if xs != [] {
      SkipsKnown(l, xs[1..]);
    }
  }

  /** The record a finished page leaves under a new key is the one for that key's FIRST
      listing on the page: a later duplicate is skipped and overwrites nothing. */
  lemma {:induction false} FirstListingWins(l: Ledger, xs: seq<Listing>, i: nat)
    requires !ScrapeListings(l, xs).raised
    requires i < |xs| && xs[i].course.detailsUrl !in l.history
    requires forall j :: 0 <= j < i ==> xs[j].course.detailsUrl != xs[i].course.detailsUrl
    ensures xs[i].attempt.Returns?
    ensures xs[i].course.detailsUrl in ScrapeListings(l, xs).ledger.history
    ensures ScrapeListings(l, xs).ledger.history[xs[i].course.detailsUrl]
            == Record(xs[i].course.title,
                      StatusText(ProcessCourse(xs[i].course.detailsUrl, xs[i].attempt.obs).status))
    decreases |xs|
  {
    var s0 := VisitListing(l, xs[0]);
    if i == 0 {
      ScrapeExtends(s0.ledger, xs[1..]);
    } else {
      assert xs[0].course.detailsUrl != xs[i].course.detailsUrl;
      assert xs[i] == xs[1..][i - 1];
      FirstListingWins(s0.ledger, xs[1..], i - 1);
    }
  }

  /** The ledger after a fetched page: its listings scraped, or unchanged when the fetch raised. */
  function AfterPage(l: Ledger, f: PageFetch): (r: Ledger)
    ensures l.history.Keys <= r.history.Keys
    ensures f.Error? ==> r == l
  {
    match f
    case Items(xs) => ScrapeListings(l, xs).ledger
    case Error => l
  }

  /** The `while (true)` loop of `main`, from page cursor `page` with the fetch outcomes
      `pages` still to come: the ceiling is checked first, then the page is fetched; an empty
      page ends the run; a page whose fetch raised is skipped. */
  function RunPages(cfg: Config, l: Ledger, page: int, pages: seq<PageFetch>): (r: RunEnd)
    ensures |r.fetched| <= |pages|
    ensures l.history.Keys <= r.ledger.history.Keys
    decreases |pages|
  {
    if cfg.maxPages > 0 && page > cfg.maxPages then RunEnd(l, page, PageLimit, [])
    else if pages == [] then RunEnd(l, page, OutOfObservations, [])
    else
      var url := PageUrl(cfg.baseUrl, page);
      if pages[0] == Items([]) then RunEnd(l, page, EmptyPage, [url])
      else
        var rest := RunPages(cfg, AfterPage(l, pages[0]), page + 1, pages[1..]);
        rest.(fetched := [url] + rest.fetched)
  }

  /** One turn of the loop: a page that is neither beyond the ceiling nor empty is fetched,
      and the run goes on from the next page number with the ledger that page left. */
  lemma RunPagesStep(cfg: Config, l: Ledger, page: int, pages: seq<PageFetch>)
    requires !(cfg.maxPages > 0 && page > cfg.maxPages) && pages != [] && pages[0] != Items([])
    ensures var rest := RunPages(cfg, AfterPage(l, pages[0]), page + 1, pages[1..]);
      RunPages(cfg, l, page, pages) == rest.(fetched := [PageUrl(cfg.baseUrl, page)] + rest.fetched)
  {
  }

  /** A run ending in `r` from where the trace stands at `trace` ends as `r0` does from `trace0`. */
  predicate SameEnd(r0: RunEnd, r: RunEnd, trace0: seq<string>, trace: seq<string>)
  {
    r0.ledger == r.ledger && r0.page == r.page && r0.reason == r.reason
    && trace0 + r0.fetched == trace + r.fetched
  }

  lemma AppendAssociative(a: seq<string>, b: seq<string>, c: seq<string>)
    ensures a + (b + c) == (a + b) + c
  {
  }

  /** A run that ends as `r0` does from one page ends as `r0` does from the next, once that page
      has been fetched and scraped. */
  lemma SameEndAfterStep(cfg: Config, r0: RunEnd, trace0: seq<string>, l: Ledger, page: int,
                         trace: seq<string>, pages: seq<PageFetch>)
    requires !(cfg.maxPages > 0 && page > cfg.maxPages) && pages != [] && pages[0] != Items([])
    requires SameEnd(r0, RunPages(cfg, l, page, pages), trace0, trace)
    ensures SameEnd(r0, RunPages(cfg, AfterPage(l, pages[0]), page + 1, pages[1..]), trace0,
                    trace + [PageUrl(cfg.baseUrl, page)])
  {
    RunPagesStep(cfg, l, page, pages);
    var rest := RunPages(cfg, AfterPage(l, pages[0]), page + 1, pages[1..]);
    AppendAssociative(trace, [PageUrl(cfg.baseUrl, page)], rest.fetched);
  }

  /** The addresses of the `count` consecutive pages from `page` on. */
  function PageUrls(baseUrl: string, page: int, count: nat): (urls: seq<string>)
    ensures |urls| == count
    decreases count
  {
    if count == 0 then [] else [PageUrl(baseUrl, page)] + PageUrls(baseUrl, page + 1, count - 1)
  }

  /** The run fetches the addresses of consecutive page numbers, from the cursor on. */
  lemma {:induction false} RunFetchesInOrder(cfg: Config, l: Ledger, page: int, pages: seq<PageFetch>)
    ensures var r := RunPages(cfg, l, page, pages);
      r.fetched == PageUrls(cfg.baseUrl, page, |r.fetched|)
    decreases |pages|
  {
    if !(cfg.maxPages > 0 && page > cfg.maxPages) && pages != [] && pages[0] != Items([]) {
      RunFetchesInOrder(cfg, AfterPage(l, pages[0]), page + 1, pages[1..]);
      RunPagesStep(cfg, l, page, pages);
    }
  }

  /** The cursor ends one past the last fetched page, or on it when that page was empty. */
  lemma {:induction false} RunEndsAfterLastFetch(cfg: Config, l: Ledger, page: int, pages: seq<PageFetch>)
    ensures var r := RunPages(cfg, l, page, pages);
      && (r.reason == EmptyPage ==> |r.fetched| >= 1 && r.page == page + |r.fetched| - 1)
      && (r.reason != EmptyPage ==> r.page == page + |r.fetched|)
    decreases |pages|
  {
    if !(cfg.maxPages > 0 && page > cfg.maxPages) && pages != [] && pages[0] != Items([]) {
      RunEndsAfterLastFetch(cfg, AfterPage(l, pages[0]), page + 1, pages[1..]);
      RunPagesStep(cfg, l, page, pages);
    }
  }

  /** The ceiling stops the run only when one is set and the cursor has passed it, and no
      page above it is ever fetched. */
  lemma {:induction false} RunRespectsCeiling(cfg: Config, l: Ledger, page: int, pages: seq<PageFetch>)
    ensures var r := RunPages(cfg, l, page, pages);
      && (r.reason == PageLimit ==> cfg.maxPages > 0 && r.page > cfg.maxPages)
      && (cfg.maxPages > 0 && |r.fetched| > 0 ==> page + |r.fetched| - 1 <= cfg.maxPages)
    decreases |pages|
  {
    if !(cfg.maxPages > 0 && page > cfg.maxPages) && pages != [] && pages[0] != Items([]) {
      var l' := AfterPage(l, pages[0]);
      RunRespectsCeiling(cfg, l', page + 1, pages[1..]);
      RunPagesStep(cfg, l, page, pages);
    }
  }

  /** An empty page stops the run at that page: no page fetched before it was empty. The run
      stops for lack of observations only once every one was used. */
  lemma {:induction false} RunStopsAtFirstEmptyPage(cfg: Config, l: Ledger, page: int, pages: seq<PageFetch>)
    ensures var r := RunPages(cfg, l, page, pages);
      && |r.fetched| <= |pages|
      && (r.reason == EmptyPage ==> |r.fetched| >= 1 && pages[|r.fetched| - 1] == Items([]))
      && (forall j :: 0 <= j < |r.fetched| - 1 ==> pages[j] != Items([]))
      && (r.reason == OutOfObservations ==> |r.fetched| == |pages|)
    decreases |pages|
  {
    if !(cfg.maxPages > 0 && page > cfg.maxPages) && pages != [] && pages[0] != Items([]) {
      var l' := AfterPage(l, pages[0]);
      RunStopsAtFirstEmptyPage(cfg, l', page + 1, pages[1..]);
      RunPagesStep(cfg, l, page, pages);
      var r, rest := RunPages(cfg, l, page, pages), RunPages(cfg, l', page + 1, pages[1..]);
      assert |r.fetched| == 1 + |rest.fetched|;
      forall j | 1 <= j < |r.fetched| ensures pages[j] == pages[1..][j - 1] { }
    }
  }

  /** Without a positive `maxPages` the ceiling never stops the run. */
  lemma {:induction false} NoCeilingWithoutMaxPages(cfg: Config, l: Ledger, page: int, pages: seq<PageFetch>)
    requires cfg.maxPages <= 0
    ensures RunPages(cfg, l, page, pages).reason != PageLimit
    decreases |pages|
  {
    if pages != [] && pages[0] != Items([]) {
      NoCeilingWithoutMaxPages(cfg, AfterPage(l, pages[0]), page + 1, pages[1..]);
    }
  }

  /** An empty page ends the run: the next page's address is never fetched. */
  lemma EmptyPageIsLast(cfg: Config, l: Ledger, page: int, pages: seq<PageFetch>)
    requires RunPages(cfg, l, page, pages).reason == EmptyPage
    ensures var r := RunPages(cfg, l, page, pages);
      PageUrl(cfg.baseUrl, r.page + 1) !in r.fetched
  {
    var r := RunPages(cfg, l, page, pages);
    RunFetchesInOrder(cfg, l, page, pages);
    RunEndsAfterLastFetch(cfg, l, page, pages);
    PageUrlNotFetched(cfg.baseUrl, page, |r.fetched|, r.page + 1);
  }

  /** The addresses of consecutive pages do not include that of a page past their end. */
  lemma {:induction false} PageUrlNotFetched(baseUrl: string, page: int, count: nat, n: int)
    requires n >= page + count
    ensures PageUrl(baseUrl, n) !in PageUrls(baseUrl, page, count)
    decreases count
  {
    if count > 0 {
      var rest := PageUrls(baseUrl, page + 1, count - 1);
      PageUrlInjective(baseUrl, page, n);
      assert PageUrl(baseUrl, n) != PageUrl(baseUrl, page);
      PageUrlNotFetched(baseUrl, page + 1, count - 1, n);
      assert PageUrl(baseUrl, n) !in rest;
    }
  }

  /** The whole run never overwrites a history record, writes only the seven status strings,
      and its counter equals the number of keys it added. */
  lemma {:induction false} RunExtends(cfg: Config, l: Ledger, page: int, pages: seq<PageFetch>)
    ensures Extends(l, RunPages(cfg, l, page, pages).ledger)
    decreases |pages|
  {
    if !(cfg.maxPages > 0 && page > cfg.maxPages) && pages != [] && pages[0] != Items([]) {
      var l' := AfterPage(l, pages[0]);
      if pages[0].Items? {
        ScrapeExtends(l, pages[0].listings);
      }
      RunExtends(cfg, l', page + 1, pages[1..]);
      ExtendsTransitive(l, l', RunPages(cfg, l, page, pages).ledger);
    }
  }

  /** What `RunExtends` promises, spelled out on the history and the counter. */
  lemma RunOnlyAdds(cfg: Config, l: Ledger, page: int, pages: seq<PageFetch>)
    ensures var b := RunPages(cfg, l, page, pages).ledger;
      && (forall k :: k in l.history ==> k in b.history && b.history[k] == l.history[k])
      && (forall k :: k in b.history && k !in l.history ==> b.history[k].status in StatusTexts)
      && |b.history.Keys - l.history.Keys| == b.processed - l.processed
  {
    RunExtends(cfg, l, page, pages);
    ProcessedCountsAddedKeys(l, RunPages(cfg, l, page, pages).ledger);
  }

  /** The state `main` keeps while it runs: the in-memory history, the page cursor and the
      counter, with the listing addresses fetched so far kept as a ghost trace. */
  class Controller {
    const config: Config
    var history: map<string, Record>
    var currentPage: int
    var coursesProcessed: int
    ghost var fetched: seq<string>

    function CurrentLedger(): Ledger
      reads this`history, this`coursesProcessed
    {
      Ledger(history, coursesProcessed)
    }

    /** The state at the top of `main`: the history read from disk, the configured start page,
        and a zero counter. */
    constructor (config: Config, startPage: int, history: map<string, Record>)
      ensures this.config == config && this.history == history
      ensures currentPage == startPage && coursesProcessed == 0 && fetched == []
    {
      this.config := config;
      this.history := history;
      currentPage := startPage;
      coursesProcessed := 0;
      fetched := [];
    }

    /** The `for` loop over one page's listings. Returns whether processing a course raised,
        which abandons the rest of the page. */
    method ScrapePage(xs: seq<Listing>) returns (raised: bool)
      modifies this
      ensures Step(CurrentLedger(), raised) == ScrapeListings(old(CurrentLedger()), xs)
      ensures currentPage == old(currentPage) && fetched == old(fetched)
    {
      raised := false;
      var i := 0;
      while i < |xs|
        invariant 0 <= i <= |xs|
        invariant currentPage == old(currentPage) && fetched == old(fetched)
        invariant ScrapeListings(old(CurrentLedger()), xs) == ScrapeListings(CurrentLedger(), xs[i..])
      {
        assert xs[i..][1..] == xs[i + 1..];
        var course := xs[i].course;
        if course.detailsUrl !in history {
          match xs[i].attempt
          case Raises =>
            raised := true;
            return;
          case Returns(obs) =>
            var outcome := ProcessCourse(course.detailsUrl, obs);
            history := history[course.detailsUrl := Record(course.title, StatusText(outcome.status))];
            coursesProcessed := coursesProcessed + 1;
        }
        i := i + 1;
      }
    }

    /** `main`'s `while (true)` loop, fed the outcome of each listing-page fetch in turn.
        Ends in the state `RunPages` describes; besides, no record present before the run is
        changed, and the counter grows by the number of keys the run added. */
    method Run(pages: seq<PageFetch>) returns (reason: StopReason)
      modifies this
      ensures var r := RunPages(config, old(CurrentLedger()), old(currentPage), pages);
        && CurrentLedger() == r.ledger && currentPage == r.page && reason == r.reason
        && fetched == old(fetched) + r.fetched
      ensures forall k :: k in old(history) ==> k in history && history[k] == old(history)[k]
      ensures forall k :: k in history && k !in old(history) ==> history[k].status in StatusTexts
      ensures |history.Keys - old(history).Keys| == coursesProcessed - old(coursesProcessed)
    {
      ghost var start, page0 := CurrentLedger(), currentPage;
      ghost var r0 := RunPages(config, start, page0, pages);
      ghost var trace0 := fetched;
      var i := 0;
      while true
        invariant 0 <= i <= |pages|
        invariant SameEnd(r0, RunPages(config, CurrentLedger(), currentPage, pages[i..]), trace0, fetched)
        decreases |pages| - i
      {
        if config.maxPages > 0 && currentPage > config.maxPages {
          reason := PageLimit;
          RunOnlyAdds(config, start, page0, pages);
          return;
        }
        if i == |pages| {
          reason := OutOfObservations;
          RunOnlyAdds(config, start, page0, pages);
          return;
        }
        ghost var before, pageBefore, fetchedBefore := CurrentLedger(), currentPage, fetched;
        var empty := VisitPage(pages[i]);
        if empty {
          reason := EmptyPage;
          RunOnlyAdds(config, start, page0, pages);
          return;
        }
        SameEndAfterStep(config, r0, trace0, before, pageBefore, fetchedBefore, pages[i..]);
        assert pages[i..][1..] == pages[i + 1..];
        i := i + 1;
      }
    }

    /** One turn of `main`'s loop once the ceiling check has passed: build the page's address,
        fetch it, stop on an empty page, otherwise scrape its listings (a fetch that raised is
        skipped) and move the cursor on. */
    method VisitPage(f: PageFetch) returns (empty: bool)
      modifies this
      ensures fetched == old(fetched) + [PageUrl(config.baseUrl, old(currentPage))]
      ensures empty <==> f == Items([])
      ensures empty ==> CurrentLedger() == old(CurrentLedger()) && currentPage == old(currentPage)
      ensures !empty ==> CurrentLedger() == AfterPage(old(CurrentLedger()), f) && currentPage == old(currentPage) + 1
    {
      var url := PageUrl(config.baseUrl, currentPage);
      fetched := fetched + [url];
      empty := false;
      match f {
        case Items(xs) =>
          if |xs| == 0 {
            return true;
          }
          var _ := ScrapePage(xs);
        case Error =>
      }
      currentPage := currentPage + 1;
    }
  }
}
