/** The decisions `processUdemyEnrollment` takes on the course's enrollment page, with every
    query of the rendered page replaced by what that query returned. */
module Enrollment {

  import opened Wrappers
  import opened Text
  import opened Statuses

  /** What the page showed, as seen by the queries the scraper runs on it. */
  datatype Snapshot = Snapshot(
    /** a user-profile menu or a "my courses" link was present */
    loggedIn: bool,
    /** text of the `price-text-message` element, if there is one */
    priceMessage: Option<string>,
    /** texts of the spans inside `course-price-text`, in document order */
    priceSpans: seq<string>,
    /** text of the `buy-this-course-button` element, if there is one */
    callToAction: Option<string>,
    /** texts of every `a` and `button` element, in document order */
    linksAndButtons: seq<string>,
    /** texts of every `button` element, in document order */
    buttons: seq<string>,
    /** the page address once the enroll button was clicked and the page settled */
    urlAfterClick: string,
    /** texts of every `button` element on the page reached by that click */
    checkoutButtons: seq<string>)

  /** A click the scraper performs, by position among the queried buttons. */
  datatype Click = EnrollClick(index: nat) | CheckoutClick(index: nat)

  /** What the enrollment page led to: the status, and the clicks made, in order. */
  datatype Decision = Decision(status: Status, clicks: seq<Click>)

  const FreeMarkers: seq<string> := ["Free", "100% off"]
  const EnrolledMarkers: seq<string> := ["Go to course", "Start course"]
  const EnrollLabels: seq<string> := ["Enroll now", "Add to cart"]
  const CheckoutLabels: seq<string> := ["Checkout"]
  const CheckoutPath: string := "/cart/checkout"

  /** `text` includes at least one of `needles`. */
  predicate MentionsAny(text: string, needles: seq<string>)
  {
    exists k :: 0 <= k < |needles| && Includes(text, needles[k])
  }

  /** `i` is the position of the first text that includes one of `needles`. */
  predicate IsFirstMatch(texts: seq<string>, needles: seq<string>, i: int)
  {
    0 <= i < |texts| && MentionsAny(texts[i], needles)
    && forall j :: 0 <= j < i ==> !MentionsAny(texts[j], needles)
  }

  /** `Array.prototype.find` over element texts: the first one including one of `needles`. */
  function FirstMatch(texts: seq<string>, needles: seq<string>): (r: Option<nat>)
    ensures r.Some? ==> IsFirstMatch(texts, needles, r.value)
    ensures r.None? <==> forall j :: 0 <= j < |texts| ==> !MentionsAny(texts[j], needles)
  {
    if texts == [] then None
    else if MentionsAny(texts[0], needles) then Some(0)
    else match FirstMatch(texts[1..], needles)
      case None => None
      case Some(i) => Some(i + 1)
  }

  /** The page advertises the course as free: the price message or some price span mentions
      "Free" or "100% off", or the call-to-action button says "Enroll now". */
  predicate IsFree(p: Snapshot)
  {
    (p.priceMessage.Some? && MentionsAny(p.priceMessage.value, FreeMarkers))
    || (exists j :: 0 <= j < |p.priceSpans| && MentionsAny(p.priceSpans[j], FreeMarkers))
    || (p.callToAction.Some? && Includes(p.callToAction.value, "Enroll now"))
  }

  /** The in-page `isFree` evaluation: three checks in order, returning on the first success,
      the middle one a loop over the price spans. */
  method EvaluateIsFree(p: Snapshot) returns (free: bool)
    ensures free <==> IsFree(p)
  {
    if p.priceMessage.Some? && MentionsAny(p.priceMessage.value, FreeMarkers) {
      return true;
    }
    var i := 0;
    while i < |p.priceSpans|
      invariant 0 <= i <= |p.priceSpans|
      invariant forall j :: 0 <= j < i ==> !MentionsAny(p.priceSpans[j], FreeMarkers)
    {
      if MentionsAny(p.priceSpans[i], FreeMarkers) {
        return true;
      }
      i := i + 1;
    }
    free := p.callToAction.Some? && Includes(p.callToAction.value, "Enroll now");
  }

  /** Some link or button reads "Go to course" or "Start course". */
  predicate ShowsEnrolled(p: Snapshot)
  {
    exists j :: 0 <= j < |p.linksAndButtons| && MentionsAny(p.linksAndButtons[j], EnrolledMarkers)
  }

  /** Some button reads "Enroll now" or "Add to cart". */
  predicate HasEnrollButton(p: Snapshot)
  {
    exists j :: 0 <= j < |p.buttons| && MentionsAny(p.buttons[j], EnrollLabels)
  }

  /** The clicks that follow a click on the enroll button: on a checkout address, a click on
      the first "Checkout" button when there is one. */
  function CheckoutClicks(p: Snapshot): (cs: seq<Click>)
    ensures |cs| <= 1
    ensures cs != [] ==>
              && Includes(p.urlAfterClick, CheckoutPath)
              && cs[0].CheckoutClick?
              && IsFirstMatch(p.checkoutButtons, CheckoutLabels, cs[0].index)
    ensures cs == [] ==>
              || !Includes(p.urlAfterClick, CheckoutPath)
              || forall j :: 0 <= j < |p.checkoutButtons| ==> !MentionsAny(p.checkoutButtons[j], CheckoutLabels)
  {
    if Includes(p.urlAfterClick, CheckoutPath) then
      match FirstMatch(p.checkoutButtons, CheckoutLabels)
      case Some(j) => [CheckoutClick(j)]
      case None => []
    else []
  }

  /** `processUdemyEnrollment` once the page has loaded: not free, then already enrolled,
      then the enroll button, each check short-circuiting the later ones. */
  function Classify(p: Snapshot): (d: Decision)
    ensures d.status in {SkippedNotFree, SkippedAlreadyEnrolled, Enrolled}
    ensures d.status == SkippedNotFree <==> !IsFree(p)
    ensures d.status == Enrolled <==> IsFree(p) && !ShowsEnrolled(p) && HasEnrollButton(p)
    ensures d.clicks != [] <==> d.status == Enrolled
    ensures d.clicks != [] ==> d.clicks[0].EnrollClick? && IsFirstMatch(p.buttons, EnrollLabels, d.clicks[0].index)
    ensures d.clicks != [] ==> d.clicks[1..] == CheckoutClicks(p)
  {
    if !IsFree(p) then Decision(SkippedNotFree, [])
    else if FirstMatch(p.linksAndButtons, EnrolledMarkers).Some? then Decision(SkippedAlreadyEnrolled, [])
    else match FirstMatch(p.buttons, EnrollLabels)
      case Some(i) => Decision(Enrolled, [EnrollClick(i)] + CheckoutClicks(p))
      case None => Decision(SkippedAlreadyEnrolled, [])
  }

  /** Being logged out only prints a warning: the decision is the same either way. */
  lemma LoginDoesNotMatter(p: Snapshot, loggedIn: bool)
    ensures Classify(p.(loggedIn := loggedIn)) == Classify(p)
  {
  }

  /** Fail closed: a page that is not advertised as free is never clicked on. */
  lemma NotFreeMeansNoClick(p: Snapshot)
    requires !IsFree(p)
    ensures Classify(p) == Decision(SkippedNotFree, [])
  {
  }

  /** Only an address that includes "/cart/checkout" leads to a click on a checkout button. */
  lemma CheckoutOnlyOnCheckoutPage(p: Snapshot, k: nat)
    requires k < |Classify(p).clicks| && Classify(p).clicks[k].CheckoutClick?
    ensures k == 1 && Includes(p.urlAfterClick, CheckoutPath)
  {
    var d := Classify(p);
    assert d.clicks[1..] == CheckoutClicks(p);
    if k > 0 {
      assert d.clicks[1..][k - 1] == d.clicks[k];
    }
  }

  /** Every `button` element is also an `a, button` element: each button text occurs among
      the texts of the links and buttons. */
  predicate ButtonsAreListed(p: Snapshot)
  {
    forall j :: 0 <= j < |p.buttons| ==> p.buttons[j] in p.linksAndButtons
  }

  /** On a page whose buttons are listed among its links and buttons, a button reading
      "Go to course" or "Start course" rules out the enroll click, even when it also reads
      "Enroll now". */
  lemma {:induction false} EnrolledButtonBlocksEnrollClick(p: Snapshot, j: nat)
    requires ButtonsAreListed(p)
    requires j < |p.buttons| && MentionsAny(p.buttons[j], EnrolledMarkers)
    ensures Classify(p).status != Enrolled && Classify(p).clicks == []
  {
    var i :| 0 <= i < |p.linksAndButtons| && p.linksAndButtons[i] == p.buttons[j];
    assert MentionsAny(p.linksAndButtons[i], EnrolledMarkers);
  }
}
