# Udemy auto course enroller — a verified model of its decision logic

The enroller crawls the listing pages of a coupon site. For each course card, it follows the
course's details page to a "take course" anchor, then to an intermediate page and its green
button, and so reaches the course's enrollment page. There it decides whether the course is
free and not yet owned, and if so clicks the enroll button (and a checkout button when the
click lands on a checkout address). Each course's outcome is written once into a history
ledger keyed by its details address. A course already in the ledger is skipped.

This project models that logic with every browser query replaced by what the query
returned. It proves what the run controller, the resolution chain and the enrollment
classifier decide.

- `text.dfy` (`Text`): JavaScript's `includes` as a left-to-right scan, proved equal to the
  declarative substring definition. Also the decimal rendering of an integer in a template
  literal, with its round trip and injectivity.
- `status.dfy` (`Statuses`): the seven status strings the code can produce.
- `enrollment.dfy` (`Enrollment`): `processUdemyEnrollment` once the page has loaded. The
  page is a `Snapshot` record: optional price-message text, price-span texts, optional
  call-to-action text, texts of all `a`/`button` elements, texts of all `button` elements,
  the address after the click, and the buttons on the page that click reached.
- `resolution.dfy` (`Resolution`): `processCourse`. Each hop's outcome is a `Hop` value
  (navigation raised, anchor absent, anchor found with its address). The enrollment page's
  outcome is an `EnrollStage` (raised before any click, raised after some clicks, or ran
  to its end). `Tabs` says which tab operations raised: closing the details tab, opening the
  enrollment tab, closing the enrollment tab. The result carries the status, the addresses
  navigated to, and the clicks made.
- `scraper.dfy` (`Scraper`): `main`. The spec functions `VisitListing`, `ScrapeListings`
  and `RunPages` describe the run, and lemmas state its properties. The class `Controller`
  holds `history`, `currentPage` and `coursesProcessed`, and updates them in place with
  loops proved against those functions. Listing pages arrive as a sequence of fetch
  outcomes (`Items(listings)` or `Error`).
- `scenarios.dfy` (`Scenarios`): small whole runs worked out to their final ledger.

Facts about the code that the model keeps:

- The free check has no "Buy now" override (get_courses.js:179-192). `Scenarios.BuyNowIsNotConsulted`
  shows a page with a "Buy now" button and a "Free" price span being enrolled in.
- Being logged out only prints a warning (get_courses.js:177), so it changes neither the run
  nor the decision.
- The statuses are the seven strings at get_courses.js:114-240; no other status is written.
- No setting turns off the "Add to cart" fallback or the checkout step. The checkout button
  is clicked whenever the address after the enroll click includes "/cart/checkout" and such
  a button exists (get_courses.js:213-236).
- The loop of `main` stops at the page ceiling or on an empty page (get_courses.js:44-47,
  73-77). An exception from opening or closing a listing tab (lines 55, 75, 102) is left out.

## Model

| member | source | states |
|---|---|---|
| `Text.IncludesIffOccurs` | get_courses.js:181-189 | the `includes` scan holds exactly when the needle occurs at some offset of the text (both directions) |
| `Text.LongerNeedleNotIncluded` | get_courses.js:225 | a needle longer than the text is never included |
| `Text.NatToDecimal` | get_courses.js:51 | the rendering of a page number is a non-empty string of decimal digits, starting with 0 only for the number 0 (no leading zeros) |
| `Text.IntToDecimal` | get_courses.js:51 | a rendered integer starts with '-' exactly when it is negative |
| `Text.DecimalRoundTrip` | get_courses.js:51 | reading a rendered natural number back gives the number |
| `Text.IntToDecimalInjective` | get_courses.js:51 | distinct page numbers are rendered as distinct strings |
| `Statuses.StatusText` | get_courses.js:114-240 | every status the code returns is one of the seven status strings |
| `Statuses.StatusRoundTrip` | get_courses.js:114-240 | the seven statuses are written as pairwise distinct strings: reading a written status back with its inverse (a helper the program does not have) gives the status |
| `Enrollment.FirstMatch` | get_courses.js:199-217 | `find` returns the first element whose text includes one of the needles, or nothing exactly when none does |
| `Enrollment.IsFree` | get_courses.js:179-192 | the reference definition of "advertised as free": the price message or some price span mentions "Free"/"100% off", or the call to action includes "Enroll now"; `EvaluateIsFree` is proved equal to it and `Classify` skips exactly the pages it rejects |
| `Enrollment.EvaluateIsFree` | get_courses.js:179-192 | the in-page check (message, then each span in a loop, then the call to action) returns true iff the price message or some span mentions "Free"/"100% off" or the call to action includes "Enroll now" |
| `Enrollment.CheckoutClicks` | get_courses.js:225-236 | a checkout click happens only on an address including "/cart/checkout", and it is on the first "Checkout" button; there is no click exactly when the address is off that path or no such button exists |
| `Enrollment.Classify` | get_courses.js:194-241 | the result is one of three statuses. It is "skipped_not_free" iff the page is not free. It is "enrolled" iff the page is free, shows no "Go to course"/"Start course" element, and has an "Enroll now"/"Add to cart" button. Clicks happen iff the result is "enrolled"; the first click is on the first such button, and the rest are the checkout clicks |
| `Enrollment.LoginDoesNotMatter` | get_courses.js:171-177 | the logged-in check does not change the decision |
| `Enrollment.EnrolledButtonBlocksEnrollClick` | get_courses.js:199-218 | when every button text also appears among the `a, button` texts, a button reading "Go to course"/"Start course" rules out the enroll click, even if it also reads "Enroll now" |
| `Enrollment.NotFreeMeansNoClick` | get_courses.js:194-197 | a page that is not free is skipped with no click |
| `Enrollment.CheckoutOnlyOnCheckoutPage` | get_courses.js:220-236 | any checkout click comes second, after the enroll click, and only on a "/cart/checkout" address |
| `Resolution.ProcessCourse` | get_courses.js:113-164 | a missing take-course anchor stops on the details page, and "error_no_button" is given exactly then, unless closing the tab raised. A missing green button stops on the intermediate page, and "error_intermediate" is given exactly then, under the same proviso. A navigation that raises before the enrollment page, and any tab close or open that raises, gives "error_exception". The enrollment page is opened iff both anchors were found and the tabs were swapped without raising. An exception on that page leaves "failed", with only the clicks made before it, a prefix of the classifier's. Otherwise the status and the clicks are the classifier's |
| `Resolution.ResolutionErrorsIffChainBroken` | get_courses.js:113-160 | the status is one of the three resolution errors iff the chain broke before the enrollment page or closing the enrollment tab raised |
| `Resolution.ClicksOnlyOnEnrollDecision` | get_courses.js:145-153 | whatever raises along the way, a click is only made on an enrollment page that the classifier decides to enroll in, hence one advertised as free |
| `Scraper.PageUrl` | get_courses.js:49-51 | every page address extends the base address, and it is the bare base exactly for page 1 |
| `Scraper.PageUrlInjective` | get_courses.js:49-51 | two page numbers give the same address iff they are equal |
| `Scraper.ExtendsTransitive` | get_courses.js:89-95 | adding records in two steps only ever adds records |
| `Scraper.ProcessedCountsAddedKeys` | get_courses.js:89-95 | when no key is lost, the counter's growth equals the number of keys added |
| `Scraper.VisitListing` | get_courses.js:82-95 | a known key leaves everything unchanged. A new key is processed unless processing raises, and it is then the one key added, with the course's title, and the counter goes up by one. No record is overwritten |
| `Scraper.ScrapeListings` | get_courses.js:79-96 | the page's `for` loop only adds keys, and it stops early only when processing some listing raised; its further properties are `ScrapeExtends`, `ScrapeRecordsEveryListing`, `SkipsKnown`, `ReplayIsNoOp` and `FirstListingWins` |
| `Scraper.ScrapeExtends` | get_courses.js:79-96 | a page never overwrites a record, writes only the seven status strings, and the counter tracks the keys it adds |
| `Scraper.ScrapeRecordsEveryListing` | get_courses.js:79-96 | a page that runs to its end leaves every one of its details addresses in the history |
| `Scraper.SkipsKnown` | get_courses.js:82-85 | a page whose addresses are all known changes nothing |
| `Scraper.ReplayIsNoOp` | get_courses.js:82-85 | replaying a finished page is a no-op |
| `Scraper.FirstListingWins` | get_courses.js:82-95 | the record under a new key is that of its first listing on the page; a later duplicate overwrites nothing |
| `Scraper.AfterPage` | get_courses.js:79-103 | a fetched page only adds keys, and a page whose fetch raised leaves the ledger as it was, the error being caught and the loop going on (a course that raises mid-page keeps the records written before it) |
| `Scraper.RunPages` | get_courses.js:43-104 | the `while (true)` loop of `main` fetches at most one page per fetch outcome and only adds keys; its further properties are `RunExtends`, `RunRespectsCeiling`, `RunStopsAtFirstEmptyPage`, `RunFetchesInOrder`, `RunEndsAfterLastFetch` and `EmptyPageIsLast` |
| `Scraper.RunPagesStep` | get_courses.js:98-103 | the loop's step equation: a page below the ceiling that is not empty is fetched, including one whose scraping raised, and the loop goes on from the next page number with the ledger that page left |
| `Scraper.PageUrls` | get_courses.js:49-51 | the addresses of `count` consecutive pages number `count` |
| `Scraper.RunFetchesInOrder` | get_courses.js:49-58 | the run fetches the addresses of consecutive page numbers from the start page |
| `Scraper.RunEndsAfterLastFetch` | get_courses.js:73-77 | the cursor ends one past the last fetched page, or on it when that page was empty |
| `Scraper.RunRespectsCeiling` | get_courses.js:44-47 | the ceiling stops the run only when `maxPages > 0` and the cursor is past it, and no page above it is fetched |
| `Scraper.RunStopsAtFirstEmptyPage` | get_courses.js:73-77 | an empty page is the last fetched, and no earlier fetched page was empty |
| `Scraper.NoCeilingWithoutMaxPages` | get_courses.js:44 | `maxPages` of 0 never stops the run |
| `Scraper.EmptyPageIsLast` | get_courses.js:73-77 | after an empty page n, the address of page n+1 is never fetched |
| `Scraper.PageUrlNotFetched` | get_courses.js:49-51 | consecutive page addresses do not include that of a later page |
| `Scraper.RunExtends` | get_courses.js:79-103 | the whole run never overwrites a record, writes only the seven status strings, and its counter equals the number of keys it added |
| `Scraper.Controller.constructor` | get_courses.js:8-40 | the run starts from the loaded history, the configured start page and a zero counter |
| `Scraper.Controller.ScrapePage` | get_courses.js:79-100 | the `for` loop over a page ends in the state `ScrapeListings` gives, and stops early when processing raises |
| `Scraper.Controller.VisitPage` | get_courses.js:49-103 | one turn of the loop fetches the page's address. It stops on an empty page, and otherwise scrapes the listings and advances the cursor |
| `Scraper.Controller.Run` | get_courses.js:39-104 | the loop ends in the state `RunPages` gives. No earlier record changes, only the seven status strings are added, and the counter grows by the number of keys added |
| `Scenarios.OneCourseRunEnds` | get_courses.js:43-103 | a run over one one-course page and an empty page fetches pages 1 and 2 and ends on page 2 |
| `Scenarios.FreePageIsEnrolled` | get_courses.js:179-237 | a page with "100% off" and an "Enroll now" button is enrolled in with one click |
| `Scenarios.FreeCourseIsEnrolled` | get_courses.js:43-163 | a course resolved to a free page is recorded as "enrolled", and the empty next page ends the run |
| `Scenarios.KnownCourseIsSkipped` | get_courses.js:82-85 | a course already in the history leaves the ledger as it was, whatever its pages would show |
| `Scenarios.MissingAnchorIsRecorded` | get_courses.js:120-126 | a details page without the anchor is recorded as "error_no_button" |
| `Scenarios.CeilingOfOnePage` | get_courses.js:44-47 | with `maxPages` 1, from any ledger, a run whose page 1 is not empty (it lists courses or its fetch raised) fetches only page 1 and stops at the ceiling on page 2 |
| `Scenarios.BuyNowIsNotConsulted` | get_courses.js:179-222 | a "Buy now" button does not override a "Free" price span: on a page whose buttons "Buy now" and "Add to cart" are also its only links and buttons, the "Add to cart" button is clicked |

## Left out

- Browser mechanics are replaced by observation inputs. This covers the browser launch, the
  stealth plugin, opening and closing tabs, `goto`, `waitForSelector`, `evaluate`, clicks,
  timeouts and the fixed waits. Inside `processCourse`, whether each tab operation and query
  raised is modelled. For the listing tabs of `main`, only whether the page's scraping raised
  is modelled (see the two lines on listing tabs below).
- `autoScroll` is left out: it is a timer inside the page driven by live page heights.
- Reading the history file at start-up and `saveHistory` are left out: they are file I/O,
  and the history is an in-memory map. A failure of `saveHistory` is not modelled. In the
  code it would end the page after the record is written but before the counter is bumped.
- A history loaded from disk may hold a falsy value under a key (null, 0, "", false). The
  code treats such a key as absent and overwrites it. The model's history only holds
  records, so this case is not covered.
- `addToReport` and the date of each record are left out: they depend on the clock and on
  file output. Three exceptions escape `processCourse` and are modelled only as a course whose
  processing raises (`Attempt.Raises`): opening the details tab (get_courses.js:115), which
  is outside the handler; closing it again in the outer handler (get_courses.js:158); and the
  report append (get_courses.js:162).
- A `browser.close` failure at the end of the run is left out: that is browser resource
  bookkeeping.
- `Scraper.RunPages` ends the run on every empty listing page. In the code, a failed close
  of an empty listing page (get_courses.js:75) skips the `break`; the per-page handler
  swallows the error, and the loop goes on to page n+1. The model does not produce that
  path, so `Scraper.EmptyPageIsLast` and `Scraper.RunStopsAtFirstEmptyPage` hold only for
  runs where that close succeeds.
- Opening a listing tab (get_courses.js:55) or closing it after the page (get_courses.js:102)
  raising ends the whole run through the outer `finally`. The model does not produce that stop.
- `Scraper.Controller.Run` works on a finite sequence of fetch outcomes. When the sequence
  runs out, the run reports `OutOfObservations`. The code would go on fetching.
- `Text.IntToDecimal` renders every integer in plain decimal. JavaScript uses exponent
  notation from 10^21 on, which page numbers never reach.
- `Enrollment.Classify` takes the button texts and the link-and-button texts as two separate
  inputs; that every button also occurs among the links and buttons is the predicate
  `Enrollment.ButtonsAreListed`, which `Classify` does not require, because the scraper
  does not check it either.
- `login.js`, `config.js` (including the Chrome path probe) and `debug_path.js` are not
  part of this model: they are an interactive session, static settings and a diagnostic
  print.
