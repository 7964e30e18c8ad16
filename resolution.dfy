/** `processCourse`: the two-hop resolution from a coupon site's course page to the course's
    enrollment page, and the status each way of failing or succeeding maps to. */
module Resolution {

  import opened Statuses
  import opened Enrollment

  /** What one hop of the chain observed. On the details hop, `NavigationFailed` is the
      navigation or the reading of the take-course anchor's address raising, both outside the
      hop's own handler; on the intermediate hop it is only the navigation raising, since the
      green button's address is read inside that hop's handler and a failure there counts as
      `SelectorAbsent`. `Found` carries the anchor's address. */
  datatype Hop = NavigationFailed | SelectorAbsent | Found(url: string)

  /** The enrollment page: loading it or a query before any click raised; it loaded and a
      query raised after the first `made` clicks of the decision taken on `page`; or it
      loaded, showed `page`, and the decision ran to its end. */
  datatype EnrollStage = Threw | ThrewAfterClicks(page: Snapshot, made: nat) | Loaded(page: Snapshot)

  /** Whether the tab operations of `processCourse` raised: closing the details tab (in either
      hop's handler or before the enrollment tab is opened), opening the enrollment tab, and
      closing the enrollment tab once its work is done. Each is only consulted when the
      chain reaches it. */
  datatype Tabs = Tabs(detailsCloseRaised: bool, enrollOpenRaised: bool, enrollCloseRaised: bool)

  /** Everything the browser reported while one course was processed. The later fields are
      only consulted when the earlier hops succeeded. */
  datatype Observation = Observation(detail: Hop, intermediate: Hop, enrollment: EnrollStage, tabs: Tabs)

  /** The status returned, the addresses navigated to (in order), and the clicks made. */
  datatype Outcome = Outcome(status: Status, visits: seq<string>, clicks: seq<Click>)

  /** The first `n` clicks of `cs`, or all of them when there are fewer. */
  function Made(cs: seq<Click>, n: nat): (r: seq<Click>)
    ensures r <= cs && |r| == if n <= |cs| then n else |cs|
  {
    if n <= |cs| then cs[..n] else cs
  }

  /** The enrollment page's status and clicks, before the enrollment tab is closed. */
  function OnEnrollPage(stage: EnrollStage): (Status, seq<Click>)
  {
    match stage
    case Threw => (Failed, [])
    case ThrewAfterClicks(page, made) => (Failed, Made(Classify(page).clicks, made))
    case Loaded(page) => (Classify(page).status, Classify(page).clicks)
  }

  /** `processCourse` for the course whose details page is at `detailsUrl`. */
  function ProcessCourse(detailsUrl: string, obs: Observation): (r: Outcome)
    ensures 1 <= |r.visits| <= 3 && r.visits[0] == detailsUrl
    // a missing take-course anchor stops the chain on the details page, and only it gives
    // "error_no_button"
    ensures obs.detail.SelectorAbsent? ==> |r.visits| == 1
    ensures r.status == ErrorNoButton <==> obs.detail.SelectorAbsent? && !obs.tabs.detailsCloseRaised
    // a missing green button stops it on the intermediate page, and only it gives
    // "error_intermediate"
    ensures obs.detail.Found? && obs.intermediate.SelectorAbsent? ==> r.visits == [detailsUrl, obs.detail.url]
    ensures r.status == ErrorIntermediate
        <==> obs.detail.Found? && obs.intermediate.SelectorAbsent? && !obs.tabs.detailsCloseRaised
    // a navigation that raises before the enrollment page is opened
    ensures (obs.detail.NavigationFailed? || (obs.detail.Found? && obs.intermediate.NavigationFailed?)) ==>
              r.status == ErrorException && |r.visits| <= 2
    // a failure to close the details tab is caught by the outer handler
    ensures obs.tabs.detailsCloseRaised ==> r.status == ErrorException
    // the enrollment page is opened exactly when both anchors were found and the tabs were
    // swapped without raising
    ensures |r.visits| == 3
        <==> obs.detail.Found? && obs.intermediate.Found?
             && !obs.tabs.detailsCloseRaised && !obs.tabs.enrollOpenRaised
    ensures obs.detail.Found? && obs.intermediate.Found? && obs.tabs.enrollOpenRaised ==>
              r.status == ErrorException && r.visits == [detailsUrl, obs.detail.url]
    ensures |r.visits| == 3 ==> r.visits[1] == obs.detail.url && r.visits[2] == obs.intermediate.url
    // a failure to close the enrollment tab is caught by the outer handler too, whatever
    // the enrollment page led to
    ensures |r.visits| == 3 && obs.tabs.enrollCloseRaised ==> r.status == ErrorException
    // an exception on the enrollment page leaves the initial "failed", with the clicks made
    // before it
    ensures |r.visits| == 3 && obs.enrollment.Threw? ==> r.clicks == []
    ensures |r.visits| == 3 && !obs.enrollment.Loaded? && !obs.tabs.enrollCloseRaised ==> r.status == Failed
    ensures |r.visits| == 3 && obs.enrollment.ThrewAfterClicks? ==> r.clicks <= Classify(obs.enrollment.page).clicks
    // otherwise the status and the clicks are the classifier's
    ensures |r.visits| == 3 && obs.enrollment.Loaded? ==> r.clicks == Classify(obs.enrollment.page).clicks
    ensures |r.visits| == 3 && obs.enrollment.Loaded? && !obs.tabs.enrollCloseRaised ==>
              r.status == Classify(obs.enrollment.page).status
    ensures r.clicks != [] ==> |r.visits| == 3 && r.status in {Enrolled, Failed, ErrorException}
  {
    match obs.detail
    case NavigationFailed => Outcome(ErrorException, [detailsUrl], [])
    case SelectorAbsent =>
      Outcome(if obs.tabs.detailsCloseRaised then ErrorException else ErrorNoButton, [detailsUrl], [])
    case Found(intermediateUrl) =>
      match obs.intermediate
      case NavigationFailed => Outcome(ErrorException, [detailsUrl, intermediateUrl], [])
      case SelectorAbsent =>
        Outcome(if obs.tabs.detailsCloseRaised then ErrorException else ErrorIntermediate,
                [detailsUrl, intermediateUrl], [])
      case Found(enrollUrl) =>
        if obs.tabs.detailsCloseRaised || obs.tabs.enrollOpenRaised then
          Outcome(ErrorException, [detailsUrl, intermediateUrl], [])
        else
          var (status, clicks) := OnEnrollPage(obs.enrollment);
          Outcome(if obs.tabs.enrollCloseRaised then ErrorException else status,
                  [detailsUrl, intermediateUrl, enrollUrl], clicks)
  }

  /** The status is one of the three resolution errors exactly when the chain broke before
      the enrollment page, or when closing the enrollment tab raised; the four other
      statuses are only reached on that page. */
  lemma ResolutionErrorsIffChainBroken(detailsUrl: string, obs: Observation)
    ensures var r := ProcessCourse(detailsUrl, obs);
      r.status in {ErrorNoButton, ErrorIntermediate, ErrorException}
      <==> |r.visits| < 3 || obs.tabs.enrollCloseRaised
  {
  }

  /** Whatever raises along the way, a click is only ever made on an enrollment page that the
      classifier decides to enroll in, which is a page advertised as free. */
  lemma {:induction false} ClicksOnlyOnEnrollDecision(detailsUrl: string, obs: Observation)
    requires ProcessCourse(detailsUrl, obs).clicks != []
    ensures !obs.enrollment.Threw?
    ensures Classify(obs.enrollment.page).status == Enrolled && IsFree(obs.enrollment.page)
  {
    var r := ProcessCourse(detailsUrl, obs);
    var d := Classify(obs.enrollment.page);
    assert |r.visits| == 3;
    if obs.enrollment.ThrewAfterClicks? {
      assert r.clicks <= d.clicks;
      assert d.clicks != [];
    }
  }
}
