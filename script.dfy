/** The page controller of the estimator: the input fields, the twelve
    display slots, the spinner, the results panel and the about modal, with
    the handlers that change them. The fetch of a quote, the directions
    lookup and the PDF library are outside: a fetch comes in as its outcome,
    a route lookup is recorded as a query, and a PDF is the list of texts
    placed on it. */
module Script {
  import opened Text
  import opened Formatters

  /** The `details` object of a reply, as the page reads it. */
  datatype TripDetails = TripDetails(
    distanceMiles: JsNumber,
    durationMinutes: JsNumber,
    pickupDayOfWeek: JsNumber,
    pickupHour: JsNumber,
    pickupDate: Option<string>)

  /** A parsed reply body. A truthy JSON value that is not an object reads
      as a quote whose every field is absent. */
  datatype Quote = Quote(
    baseFare: JsNumber,
    totalAmount: JsNumber,
    extra: JsNumber,
    congestion: JsNumber,
    mta: JsNumber,
    improvement: JsNumber,
    details: Option<TripDetails>,
    error: bool,
    message: Option<string>)

  /** What `response.json()` gives: it throws on a body that is not JSON;
      `JsonFalsy` is `false`, `0` or `""`. */
  datatype Body = NotJson | JsonNull | JsonFalsy | Json(data: Quote)

  /** The outcome of the `/predict` fetch: it throws, or it answers. */
  datatype FetchOutcome = NetworkError | Response(ok: bool, body: Body)

  datatype FareRequest = FareRequest(pickup: string, dropoff: string, payment: string)

  datatype RouteQuery = RouteQuery(origin: string, destination: string)

  /** The twelve text slots of the results panel. */
  datatype Display = Display(
    fareAmount: string,
    totalAmount: string,
    baseFare: string,
    extra: string,
    congestion: string,
    mtaTax: string,
    improvement: string,
    distance: string,
    duration: string,
    pickupDay: string,
    pickupHour: string,
    pickupDate: string)

  /** How `calculateFare` reacts to a validated request's outcome: it shows
      the quote, alerts with the reply's message, or lands in its `catch`. */
  datatype Reaction = Render(data: Quote) | Refused(text: string) | Crashed

  /** The element a window click landed on. */
  datatype ClickTarget = Backdrop | ModalContent | Elsewhere

  datatype ModalEvent = AboutClicked | CloseClicked | WindowClicked(target: ClickTarget)

  /** A text drawn at a position of the PDF page. */
  datatype Placed = Placed(text: string, x: int, y: int)

  datatype Document = Document(texts: seq<Placed>, fileName: string)

  const MissingLocations: string := "Please enter both pickup and dropoff locations."
  const PredictionFailed: string := "Prediction failed. Please try again."
  const NetworkFailure: string := "Something went wrong! Please check your network or try again."
  const PdfFileName: string := "nyc-taxi-fare-estimate.pdf"
  const TableTop: int := 180
  const RowHeight: int := 10
  const LabelColumn: int := 20
  const AmountColumn: int := 120

  // ---------------------------------------------------------------------
  // Rendering a quote

  /** The panel after `updateResults(data)`: the seven amounts are always
      written (both the fare and the base-fare slot from `base_fare`); the
      five trip slots are written only when `details` is present. */
  function Rendered(before: Display, data: Quote): (after: Display)
    ensures after.fareAmount == after.baseFare
    ensures data.details.None? ==>
      && after.distance == before.distance && after.duration == before.duration
      && after.pickupDay == before.pickupDay && after.pickupHour == before.pickupHour
      && after.pickupDate == before.pickupDate
  {
    var d := data.details;
    Display(
      FormatCurrency(data.baseFare),
      FormatCurrency(data.totalAmount),
      FormatCurrency(data.baseFare),
      FormatCurrency(data.extra),
      FormatCurrency(data.congestion),
      FormatCurrency(data.mta),
      FormatCurrency(data.improvement),
      if d.Some? then DistanceText(d.value.distanceMiles) else before.distance,
      if d.Some? then DurationText(d.value.durationMinutes) else before.duration,
      if d.Some? then DayName(d.value.pickupDayOfWeek) else before.pickupDay,
      if d.Some? then HourLabel(d.value.pickupHour) else before.pickupHour,
      if d.Some? then DateText(d.value.pickupDate) else before.pickupDate)
  }

  /** An amount slot shows "$0.00" for a missing value and otherwise reads
      back as the amount it was given. */
  predicate ShowsAmount(slot: string, v: JsNumber)
  {
    if v.Number? then ParseAmount(slot) == v.n else slot == ZeroDollars
  }

  /** Every amount of a rendered quote can be read back from its slot. */
  lemma RenderedAmountsReadBack(before: Display, data: Quote)
    ensures var after := Rendered(before, data);
      && ShowsAmount(after.fareAmount, data.baseFare)
      && ShowsAmount(after.totalAmount, data.totalAmount)
      && ShowsAmount(after.extra, data.extra)
      && ShowsAmount(after.congestion, data.congestion)
      && ShowsAmount(after.mtaTax, data.mta)
      && ShowsAmount(after.improvement, data.improvement)
  {
    if data.baseFare.Number? { CurrencyRoundTrip(data.baseFare.n); }
    if data.totalAmount.Number? { CurrencyRoundTrip(data.totalAmount.n); }
    if data.extra.Number? { CurrencyRoundTrip(data.extra.n); }
    if data.congestion.Number? { CurrencyRoundTrip(data.congestion.n); }
    if data.mta.Number? { CurrencyRoundTrip(data.mta.n); }
    if data.improvement.Number? { CurrencyRoundTrip(data.improvement.n); }
  }

  /** With details present, a clock hour and a weekday index can be read
      back from their slots, and a distance from its slot's number. */
  lemma RenderedDetailsReadBack(before: Display, data: Quote)
    requires data.details.Some?
    ensures var after, d := Rendered(before, data), data.details.value;
      && (d.pickupHour.Number? && 0 <= d.pickupHour.n < 24 ==>
            ParseHourLabel(after.pickupHour) == Some(d.pickupHour.n))
      && (d.pickupDayOfWeek.Number? && 0 <= d.pickupDayOfWeek.n < 7 ==>
            IndexOf(Days, after.pickupDay) == Some(d.pickupDayOfWeek.n))
      && (d.distanceMiles.Number? ==>
            after.distance == FixedTwo(d.distanceMiles.n) + " miles"
            && ParseAmount(FixedTwo(d.distanceMiles.n)) == d.distanceMiles.n)
  {
    var d := data.details.value;
    if d.pickupHour.Number? && 0 <= d.pickupHour.n < 24 {
      HourLabelRoundTrip(d.pickupHour.n);
    }
    if d.pickupDayOfWeek.Number? && 0 <= d.pickupDayOfWeek.n < 7 {
      DayNameRoundTrip(d.pickupDayOfWeek.n);
    }
    if d.distanceMiles.Number? {
      FixedTwoRoundTrip(d.distanceMiles.n);
    }
  }

  /** Rendering the same quote twice shows what rendering it once does. */
  lemma RenderedIdempotent(before: Display, data: Quote)
    ensures Rendered(Rendered(before, data), data) == Rendered(before, data)
  {
  }

  // ---------------------------------------------------------------------
  // Reacting to the fetch

  /** The reply's message, or the fallback when it is absent or empty. */
  function MessageOr(message: Option<string>): (text: string)
    ensures message.Some? && message.value != "" ==> text == message.value
    ensures message.None? || message.value == "" ==> text == PredictionFailed
  {
    if message.Some? && message.value != "" then message.value else PredictionFailed
  }

  /** The quote is shown exactly when the answer is ok, parses as a JSON
      object and carries no error flag; a `null` body, an unparsable body and
      a failed fetch all end in the `catch` (reading `message` of `null`
      throws too). */
  function ReactionTo(outcome: FetchOutcome): (r: Reaction)
    ensures r.Render? <==> outcome.Response? && outcome.ok && outcome.body.Json? && !outcome.body.data.error
    ensures r.Render? ==> r.data == outcome.body.data
    ensures r.Crashed? <==> outcome.NetworkError? || outcome.body.NotJson? || outcome.body.JsonNull?
    ensures outcome.Response? && outcome.body.JsonFalsy? ==> r == Refused(PredictionFailed)
    ensures outcome.Response? && outcome.body.Json? && (!outcome.ok || outcome.body.data.error) ==>
      r == Refused(MessageOr(outcome.body.data.message))
  {
    match outcome
    case NetworkError => Crashed
    case Response(ok, body) =>
      match body
      case NotJson => Crashed
      case JsonNull => Crashed
      case JsonFalsy => Refused(PredictionFailed)
      case Json(data) => if !ok || data.error then Refused(MessageOr(data.message)) else Render(data)
  }

  /** The alert a reaction raises, if any. */
  function AlertOf(r: Reaction): (alert: seq<string>)
    ensures alert == [] <==> r.Render?
  {
    match r
    case Render(_) => []
    case Refused(text) => [text]
    case Crashed => [NetworkFailure]
  }

  // ---------------------------------------------------------------------
  // The modal

  /** Whether the modal is shown after one click. */
  function ModalAfter(visible: bool, e: ModalEvent): (shown: bool)
    ensures e == AboutClicked ==> shown
    ensures e == CloseClicked || e == WindowClicked(Backdrop) ==> !shown
    ensures e.WindowClicked? && e.target != Backdrop ==> shown == visible
  {
    match e
    case AboutClicked => true
    case CloseClicked => false
    case WindowClicked(target) => if target == Backdrop then false else visible
  }

  /** Whether the modal is shown after a run of clicks. */
  function ModalAfterAll(visible: bool, events: seq<ModalEvent>): bool
    decreases |events|
  {
    if events == [] then visible else ModalAfterAll(ModalAfter(visible, events[0]), events[1..])
  }

  /** An about, close or backdrop click decides the modal; other clicks do not. */
  predicate Decisive(e: ModalEvent)
  {
    !(e.WindowClicked? && e.target != Backdrop)
  }

  /** Clicks that decide nothing leave the modal as it was. */
  lemma {:induction false} ModalIgnoresOtherClicks(visible: bool, events: seq<ModalEvent>)
    requires forall i :: 0 <= i < |events| ==> !Decisive(events[i])
    ensures ModalAfterAll(visible, events) == visible
    decreases |events|
  {
    if events != [] {
      assert !Decisive(events[0]);
      ModalIgnoresOtherClicks(visible, events[1..]);
    }
  }

  /** After a run of clicks the modal is shown exactly when the last
      deciding click was on the about link. */
  lemma {:induction false} ModalFollowsLastDecisiveClick(visible: bool, events: seq<ModalEvent>, i: int)
    requires 0 <= i < |events| && Decisive(events[i])
    requires forall j :: i < j < |events| ==> !Decisive(events[j])
    ensures ModalAfterAll(visible, events) <==> events[i] == AboutClicked
    decreases |events|
  {
    var rest := events[1..];
    assert forall j :: 0 <= j < |rest| ==> rest[j] == events[j + 1];
    if i == 0 {
      ModalIgnoresOtherClicks(ModalAfter(visible, events[0]), rest);
    } else {
      ModalFollowsLastDecisiveClick(ModalAfter(visible, events[0]), rest, i - 1);
    }
  }

  // ---------------------------------------------------------------------
  // The PDF fare table

  /** Draws a table row by row from `top`, ten units apart: the first cell
      of each row in the label column, the second in the amount column. */
  method DrawTable(table: seq<(string, string)>, top: int) returns (placed: seq<Placed>, y: int)
    requires |table| >= 1
    ensures |placed| == 2 * |table|
    ensures forall i :: 0 <= i < |table| ==>
      placed[2 * i] == Placed(table[i].0, LabelColumn, top + RowHeight * i)
      && placed[2 * i + 1] == Placed(table[i].1, AmountColumn, top + RowHeight * i)
    ensures y == top + RowHeight * |table|
    ensures forall i, j :: 0 <= i < j < |table| ==> placed[2 * i].y + RowHeight <= placed[2 * j].y
  {
    y := top;
    placed := [Placed(table[0].0, LabelColumn, y), Placed(table[0].1, AmountColumn, y)];
    y := y + RowHeight;
    for i := 1 to |table|
      invariant |placed| == 2 * i
      invariant y == top + RowHeight * i
      invariant forall k :: 0 <= k < i ==>
        placed[2 * k] == Placed(table[k].0, LabelColumn, top + RowHeight * k)
        && placed[2 * k + 1] == Placed(table[k].1, AmountColumn, top + RowHeight * k)
    {
      placed := placed + [Placed(table[i].0, LabelColumn, y), Placed(table[i].1, AmountColumn, y)];
      y := y + RowHeight;
    }
  }

  // ---------------------------------------------------------------------
  // The page

  class Page {
    var pickup: string
    var dropoff: string
    var payment: string

    var fareAmount: string
    var totalAmount: string
    var baseFare: string
    var extra: string
    var congestion: string
    var mtaTax: string
    var improvement: string
    var distance: string
    var duration: string
    var pickupDay: string
    var pickupHour: string
    var pickupDate: string

    var spinnerVisible: bool
    var resultsVisible: bool
    var modalVisible: bool

    /** Every `showSpinner` call, in order. */
    var spinnerTrace: seq<bool>
    var alerts: seq<string>
    var requests: seq<FareRequest>
    var routeLookups: seq<RouteQuery>

    /** The twelve slots as one value. */
    function Shown(): Display
      reads this`fareAmount, this`totalAmount, this`baseFare, this`extra, this`congestion,
            this`mtaTax, this`improvement, this`distance, this`duration, this`pickupDay,
            this`pickupHour, this`pickupDate
    {
      Display(fareAmount, totalAmount, baseFare, extra, congestion, mtaTax, improvement,
              distance, duration, pickupDay, pickupHour, pickupDate)
    }

    /** A freshly loaded page: empty inputs and slots, nothing shown, nothing sent. */
    constructor ()
      ensures pickup == "" && dropoff == "" && payment == ""
      ensures Shown() == Display("", "", "", "", "", "", "", "", "", "", "", "")
      ensures !spinnerVisible && !resultsVisible && !modalVisible
      ensures spinnerTrace == [] && alerts == [] && requests == [] && routeLookups == []
    {
      pickup, dropoff, payment := "", "", "";
      fareAmount, totalAmount, baseFare, extra, congestion, mtaTax, improvement := "", "", "", "", "", "", "";
      distance, duration, pickupDay, pickupHour, pickupDate := "", "", "", "", "";
      spinnerVisible, resultsVisible, modalVisible := false, false, false;
      spinnerTrace, alerts, requests, routeLookups := [], [], [], [];
    }

    /** The user types into the three inputs. */
    method SetInputs(newPickup: string, newDropoff: string, newPayment: string)
      modifies this`pickup, this`dropoff, this`payment
      ensures pickup == newPickup && dropoff == newDropoff && payment == newPayment
    {
      pickup, dropoff, payment := newPickup, newDropoff, newPayment;
    }

    /** `updateRouteIfBothFilled`: a route lookup only when both inputs are non-empty. */
    method UpdateRouteIfBothFilled()
      modifies this`routeLookups
      ensures routeLookups == old(routeLookups) + (if pickup != "" && dropoff != "" then [RouteQuery(pickup, dropoff)] else [])
    {
      if pickup != "" && dropoff != "" {
        routeLookups := routeLookups + [RouteQuery(pickup, dropoff)];
      }
    }

    /** `updateResults`: the slots take `Rendered` of what they showed, and
        the results panel is shown. */
    method UpdateResults(data: Quote)
      modifies this`fareAmount, this`totalAmount, this`baseFare, this`extra, this`congestion,
               this`mtaTax, this`improvement, this`distance, this`duration, this`pickupDay,
               this`pickupHour, this`pickupDate, this`resultsVisible
      ensures Shown() == Rendered(old(Shown()), data)
      ensures resultsVisible
    {
      ShowAmounts(data);
      if data.details.Some? {
        ShowDetails(data.details.value);
      }
      resultsVisible := true;
    }

    /** The seven currency slots of `updateResults`. */
    method ShowAmounts(data: Quote)
      modifies this`fareAmount, this`totalAmount, this`baseFare, this`extra, this`congestion,
               this`mtaTax, this`improvement
      ensures fareAmount == FormatCurrency(data.baseFare) && totalAmount == FormatCurrency(data.totalAmount)
      ensures baseFare == FormatCurrency(data.baseFare) && extra == FormatCurrency(data.extra)
      ensures congestion == FormatCurrency(data.congestion) && mtaTax == FormatCurrency(data.mta)
      ensures improvement == FormatCurrency(data.improvement)
    {
      fareAmount := FormatCurrency(data.baseFare);
      totalAmount := FormatCurrency(data.totalAmount);
      baseFare := FormatCurrency(data.baseFare);
      extra := FormatCurrency(data.extra);
      congestion := FormatCurrency(data.congestion);
      mtaTax := FormatCurrency(data.mta);
      improvement := FormatCurrency(data.improvement);
    }

    /** The five trip slots of `updateResults`, written when `details` is present. */
    method ShowDetails(d: TripDetails)
      modifies this`distance, this`duration, this`pickupDay, this`pickupHour, this`pickupDate
      ensures distance == DistanceText(d.distanceMiles) && duration == DurationText(d.durationMinutes)
      ensures pickupDay == DayName(d.pickupDayOfWeek) && pickupHour == HourLabel(d.pickupHour)
      ensures pickupDate == DateText(d.pickupDate)
    {
      distance := DistanceText(d.distanceMiles);
      duration := DurationText(d.durationMinutes);
      pickupDay := DayName(d.pickupDayOfWeek);
      pickupHour := HourLabel(d.pickupHour);
      pickupDate := DateText(d.pickupDate);
    }

    method ShowSpinner(show: bool)
      modifies this`spinnerVisible, this`spinnerTrace
      ensures spinnerVisible == show && spinnerTrace == old(spinnerTrace) + [show]
    {
      spinnerVisible := show;
      spinnerTrace := spinnerTrace + [show];
    }

    /** `calculateFare` with the fetch's outcome given. An empty pickup or
        dropoff raises an alert before the spinner is shown or anything is
        sent. Otherwise the request is sent with the spinner shown, and the
        spinner is cleared on every path; a refused or crashed request
        raises its alert and leaves the panel and the map alone; a quote is
        rendered and its route looked up. */
    method CalculateFare(outcome: FetchOutcome)
      modifies this`fareAmount, this`totalAmount, this`baseFare, this`extra, this`congestion,
               this`mtaTax, this`improvement, this`distance, this`duration, this`pickupDay,
               this`pickupHour, this`pickupDate, this`resultsVisible,
               this`spinnerVisible, this`spinnerTrace, this`alerts, this`requests, this`routeLookups
      ensures pickup == "" || dropoff == "" ==>
        && alerts == old(alerts) + [MissingLocations]
        && requests == old(requests) && spinnerTrace == old(spinnerTrace)
        && spinnerVisible == old(spinnerVisible)
        && Shown() == old(Shown()) && resultsVisible == old(resultsVisible)
        && routeLookups == old(routeLookups)
      ensures pickup != "" && dropoff != "" ==>
        && requests == old(requests) + [FareRequest(pickup, dropoff, payment)]
        && spinnerTrace == old(spinnerTrace) + [true, false] && !spinnerVisible
        && alerts == old(alerts) + AlertOf(ReactionTo(outcome))
      ensures pickup != "" && dropoff != "" && ReactionTo(outcome).Render? ==>
        && Shown() == Rendered(old(Shown()), ReactionTo(outcome).data) && resultsVisible
        && routeLookups == old(routeLookups) + [RouteQuery(pickup, dropoff)]
      ensures pickup != "" && dropoff != "" && !ReactionTo(outcome).Render? ==>
        && Shown() == old(Shown()) && resultsVisible == old(resultsVisible)
        && routeLookups == old(routeLookups)
    {
      if pickup == "" || dropoff == "" {
        alerts := alerts + [MissingLocations];
        return;
      }
      var reaction := ReactionTo(outcome);
      ShowSpinner(true);
      requests := requests + [FareRequest(pickup, dropoff, payment)];
      ghost var sent := Shown();
      assert sent == old(Shown());
      Respond(reaction);
    }

    /** The part of `calculateFare` after the request is sent: the reaction
        to its outcome, ending with the spinner cleared on every path. */
    method Respond(reaction: Reaction)
      modifies this`fareAmount, this`totalAmount, this`baseFare, this`extra, this`congestion,
               this`mtaTax, this`improvement, this`distance, this`duration, this`pickupDay,
               this`pickupHour, this`pickupDate, this`resultsVisible,
               this`spinnerVisible, this`spinnerTrace, this`alerts, this`routeLookups
      ensures spinnerTrace == old(spinnerTrace) + [false] && !spinnerVisible
      ensures alerts == old(alerts) + AlertOf(reaction)
      ensures reaction.Render? ==>
        && Shown() == Rendered(old(Shown()), reaction.data) && resultsVisible
        && routeLookups == old(routeLookups) + [RouteQuery(pickup, dropoff)]
      ensures !reaction.Render? ==>
        && Shown() == old(Shown()) && resultsVisible == old(resultsVisible)
        && routeLookups == old(routeLookups)
    {
      match reaction {
        case Refused(text) =>
          alerts := alerts + [text];
          ShowSpinner(false);
          return;
        case Crashed =>
          alerts := alerts + [NetworkFailure];
        case Render(data) =>
          UpdateResults(data);
          routeLookups := routeLookups + [RouteQuery(pickup, dropoff)];
      }
      ShowSpinner(false);
    }

    /** One click on the about link, the close button or the window. */
    method Click(e: ModalEvent)
      modifies this`modalVisible
      ensures modalVisible == ModalAfter(old(modalVisible), e)
    {
      match e {
        case AboutClicked =>
          modalVisible := true;
        case CloseClicked =>
          modalVisible := false;
        case WindowClicked(target) =>
          if target == Backdrop {
            modalVisible := false;
          }
      }
    }

    /** `downloadPDF`: the title, the trip lines with the slots' text as
        shown, the fare table from row 180, the footer, saved under a fixed
        name. Nothing on the page changes. */
    method DownloadPdf() returns (doc: Document)
      ensures doc.fileName == PdfFileName
      ensures |doc.texts| == 18
      ensures doc.texts[..10] == [
        Placed("NYC Taxi Fare Estimate", 105, 20),
        Placed("Trip Details", 20, 55),
        Placed("Pickup: " + pickup, 20, 70),
        Placed("Dropoff: " + dropoff, 20, 80),
        Placed("Distance: " + distance, 20, 90),
        Placed("Duration: " + duration, 20, 100),
        Placed("Date: " + pickupDate, 20, 110),
        Placed("Day: " + pickupDay, 20, 120),
        Placed("Time: " + pickupHour, 20, 130),
        Placed("Fare Details", 20, 165)]
      ensures doc.texts[10..16] == [
        Placed("Charge", LabelColumn, 180), Placed("Amount", AmountColumn, 180),
        Placed("Base Fare", LabelColumn, 190), Placed(fareAmount, AmountColumn, 190),
        Placed("Total Fare (incl. surcharges)", LabelColumn, 200), Placed(totalAmount, AmountColumn, 200)]
      ensures doc.texts[16..] == [
        Placed("Built by Harsh Bajpai", 105, 280),
        Placed("This is an estimate only. Actual fare may vary.", 105, 285)]
    {
      var header := [
        Placed("NYC Taxi Fare Estimate", 105, 20),
        Placed("Trip Details", 20, 55),
        Placed("Pickup: " + pickup, 20, 70),
        Placed("Dropoff: " + dropoff, 20, 80),
        Placed("Distance: " + distance, 20, 90),
        Placed("Duration: " + duration, 20, 100),
        Placed("Date: " + pickupDate, 20, 110),
        Placed("Day: " + pickupDay, 20, 120),
        Placed("Time: " + pickupHour, 20, 130),
        Placed("Fare Details", 20, 165)];
      var table := [("Charge", "Amount"), ("Base Fare", fareAmount), ("Total Fare (incl. surcharges)", totalAmount)];
      var rows, _ := DrawTable(table, TableTop);
      var footer := [
        Placed("Built by Harsh Bajpai", 105, 280),
        Placed("This is an estimate only. Actual fare may vary.", 105, 285)];
      assert table[1].1 == fareAmount && table[2].1 == totalAmount;
      ghost var first, second, third := 0, 1, 2;
      assert rows[2 * first] == Placed("Charge", LabelColumn, 180) && rows[2 * first + 1] == Placed("Amount", AmountColumn, 180);
      assert rows[2 * second] == Placed("Base Fare", LabelColumn, 190) && rows[2 * second + 1] == Placed(fareAmount, AmountColumn, 190);
      assert rows[2 * third] == Placed("Total Fare (incl. surcharges)", LabelColumn, 200);
      assert rows[2 * third + 1] == Placed(totalAmount, AmountColumn, 200);
      assert rows == [rows[0], rows[1], rows[2], rows[3], rows[4], rows[5]];
      doc := Document(header + rows + footer, PdfFileName);
      assert (header + rows + footer)[..10] == header;
      assert (header + rows + footer)[10..16] == rows;
      assert (header + rows + footer)[16..] == footer;
    }
  }
}
