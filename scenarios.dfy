/** Whole runs on small, concrete inputs: what the history holds afterwards, which pages were
    fetched and why the run stopped. */
module Scenarios {

  import opened Wrappers
  import opened Text
  import opened Statuses
  import opened Enrollment
  import opened Resolution
  import opened Scraper

  const Base: string := "https://coupons.example/all"

  /** A free course page: "100% off" in the price message, an "Enroll now" button, and a click
      that stays on the course's own path, off the checkout path. */
  const FreePage: Snapshot := Snapshot(
    loggedIn := true,
    priceMessage := Some("100% off"),
    priceSpans := [],
    callToAction := None,
    linksAndButtons := ["Enroll now"],
    buttons := ["Enroll now"],
    urlAfterClick := "/course/x/",
    checkoutButtons := [])

  const ResolvesToFreePage: Observation :=
    Observation(Found("https://coupons.example/go/x"), Found("https://udemy.example/course/x/"), Loaded(FreePage), Tabs(false, false, false))

  /** A run over one page holding one course, followed by an empty page. */
  function OneCourseRun(cfg: Config, l: Ledger, x: Listing): RunEnd
  {
    RunPages(cfg, l, 1, [Items([x]), Items([])])
  }

  /** How that run ends, given what visiting the one listing does to the ledger. */
  lemma OneCourseRunEnds(cfg: Config, l: Ledger, x: Listing)
    requires cfg.maxPages <= 0
    ensures OneCourseRun(cfg, l, x) == RunEnd(VisitListing(l, x).ledger, 2, EmptyPage, [cfg.baseUrl, cfg.baseUrl + "/2"])
  {
    var pages := [Items([x]), Items([])];
    var l' := VisitListing(l, x).ledger;
    assert [x][1..] == [];
    assert ScrapeListings(l, [x]).ledger == l';
    assert AfterPage(l, pages[0]) == l';
    RunPagesStep(cfg, l, 1, pages);
    assert pages[1..] == [Items([])];
    assert IntToDecimal(2) == "2";
    assert PageUrl(cfg.baseUrl, 2) == cfg.baseUrl + "/2";
    assert RunPages(cfg, l', 2, [Items([])]) == RunEnd(l', 2, EmptyPage, [cfg.baseUrl + "/2"]);
  }

  /** The free page is enrolled in with one click on its "Enroll now" button. */
  lemma FreePageIsEnrolled()
    ensures Classify(FreePage) == Decision(Enrolled, [EnrollClick(0)])
  {
    FreePageIsFree();
    FreePageShowsNoEnrollment();
    FreePageHasEnrollButton();
    LongerNeedleNotIncluded(FreePage.urlAfterClick, CheckoutPath);
  }

  lemma FreePageIsFree()
    ensures IsFree(FreePage)
  {
    IncludesItself("100% off");
    assert Includes(FreePage.priceMessage.value, FreeMarkers[1]);
  }

  lemma FreePageShowsNoEnrollment()
    ensures FirstMatch(FreePage.linksAndButtons, EnrolledMarkers) == None
  {
    LongerNeedleNotIncluded("Enroll now", "Go to course");
    LongerNeedleNotIncluded("Enroll now", "Start course");
    assert !MentionsAny(FreePage.linksAndButtons[0], EnrolledMarkers);
  }

  lemma FreePageHasEnrollButton()
    ensures FirstMatch(FreePage.buttons, EnrollLabels) == Some(0)
  {
    IncludesItself("Enroll now");
    assert Includes(FreePage.buttons[0], EnrollLabels[0]);
  }

  /** A course found on page 1, resolved through both hops to the free page, is enrolled in;
      the empty page 2 ends the run, and page 3 is never fetched. */
  lemma FreeCourseIsEnrolled()
    ensures OneCourseRun(Config(Base, 0), Ledger(map[], 0), Listing(Course("X", "u1"), Returns(ResolvesToFreePage)))
         == RunEnd(Ledger(map["u1" := Record("X", "enrolled")], 1), 2, EmptyPage, [Base, Base + "/2"])
  {
    FreePageIsEnrolled();
    assert ProcessCourse("u1", ResolvesToFreePage).status == Enrolled;
    OneCourseRunEnds(Config(Base, 0), Ledger(map[], 0), Listing(Course("X", "u1"), Returns(ResolvesToFreePage)));
  }

  /** A course whose details address is already in the history is skipped whatever its pages
      would have shown: the run leaves the history and the counter as they were. */
  lemma KnownCourseIsSkipped(obs: Observation)
    ensures var known := Ledger(map["u1" := Record("X", "failed")], 7);
      OneCourseRun(Config(Base, 0), known, Listing(Course("X", "u1"), Returns(obs))).ledger == known
  {
    var known := Ledger(map["u1" := Record("X", "failed")], 7);
    OneCourseRunEnds(Config(Base, 0), known, Listing(Course("X", "u1"), Returns(obs)));
  }

  /** A details page without the take-course anchor, whose tab then closes normally, is
      recorded as "error_no_button", whatever the later hops and tabs would have done. */
  lemma MissingAnchorIsRecorded(later: Hop, stage: EnrollStage, enrollTab: bool, closed: bool)
    ensures OneCourseRun(Config(Base, 0), Ledger(map[], 0),
                         Listing(Course("X", "u1"), Returns(Observation(SelectorAbsent, later, stage, Tabs(false, enrollTab, closed))))).ledger
         == Ledger(map["u1" := Record("X", "error_no_button")], 1)
  {
    OneCourseRunEnds(Config(Base, 0), Ledger(map[], 0),
                     Listing(Course("X", "u1"), Returns(Observation(SelectorAbsent, later, stage, Tabs(false, enrollTab, closed)))));
  }

  /** With a ceiling of one page, page 2 is never fetched, whatever page 1 held and however
      many pages the site has, as long as page 1 was not empty. */
  lemma CeilingOfOnePage(l: Ledger, pages: seq<PageFetch>)
    requires pages != [] && pages[0] != Items([])
    ensures var r := RunPages(Config(Base, 1), l, 1, pages);
      r.reason == PageLimit && r.page == 2 && r.fetched == [Base]
  {
    RunPagesStep(Config(Base, 1), l, 1, pages);
  }

  /** The texts of the buttons on a page that offers "Buy now" ahead of "Add to cart". */
  const BuyNowButtons: seq<string> := ["Buy now", "Add to cart"]

  /** A text shorter than "Go to course" and "Start course" mentions neither. */
  lemma ShortTextShowsNoEnrollment(t: string)
    requires |t| < 12
    ensures !MentionsAny(t, EnrolledMarkers)
  {
    LongerNeedleNotIncluded(t, EnrolledMarkers[0]);
    LongerNeedleNotIncluded(t, EnrolledMarkers[1]);
  }

  /** Neither of those buttons reads "Go to course" or "Start course". */
  lemma BuyNowButtonsShowNoEnrollment()
    ensures FirstMatch(BuyNowButtons, EnrolledMarkers) == None
  {
    ShortTextShowsNoEnrollment(BuyNowButtons[0]);
    ShortTextShowsNoEnrollment(BuyNowButtons[1]);
  }

  /** The first of those buttons that reads "Enroll now" or "Add to cart" is the second. */
  lemma BuyNowButtonsEnrollAtSecond()
    ensures FirstMatch(BuyNowButtons, EnrollLabels) == Some(1)
  {
    LongerNeedleNotIncluded("Buy now", "Enroll now");
    LongerNeedleNotIncluded("Buy now", "Add to cart");
    assert !MentionsAny(BuyNowButtons[0], EnrollLabels);
    IncludesItself("Add to cart");
    assert Includes(BuyNowButtons[1], EnrollLabels[1]);
  }

  /** No "Buy now" override: a page that shows a "Buy now" button next to a "Free" price
      fragment is still treated as free, and its "Add to cart" button is clicked. */
  lemma BuyNowIsNotConsulted()
    ensures var p := Snapshot(true, None, ["Free"], None, BuyNowButtons, BuyNowButtons, "", []);
      Classify(p) == Decision(Enrolled, [EnrollClick(1)])
  {
    var p := Snapshot(true, None, ["Free"], None, BuyNowButtons, BuyNowButtons, "", []);
    assert IsFree(p) by {
      IncludesItself("Free");
      assert MentionsAny(p.priceSpans[0], FreeMarkers) by {
        assert Includes(p.priceSpans[0], FreeMarkers[0]);
      }
    }
    BuyNowButtonsShowNoEnrollment();
    BuyNowButtonsEnrollAtSecond();
    assert CheckoutClicks(p) == [] by {
      LongerNeedleNotIncluded("", CheckoutPath);
    }
  }
}
