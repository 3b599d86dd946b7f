# NYC taxi fare estimator — verified model

This project models the rule logic of the NYC taxi fare estimator in Dafny
and proves properties of it. The estimator has three parts:

- **The fare predictor** (`fare_predictor.py`, module `FarePredictor` in `fare_predictor.dfy`):
  - the hour and weekday surcharge table;
  - the four fixed fees;
  - the JFK flat-rate mask around the learned base-fare model;
  - the total-amount assembly.
- **The backend request handler** (`app.py`, modules `Zones` in `zones.dfy` and `App` in `app.dfy`):
  - the per-borough zone lists built at start-up;
  - the JFK–Manhattan flat-rate test;
  - the airport keyword shortcuts;
  - reading the borough from a geocoding result's address components;
  - the nearest-centroid search;
  - the address-to-zone resolution;
  - the payment-type table, the weekend flag, the rate code and its label;
  - the fare breakdown, and the reply or error payload of `/predict`.
- **The page controller** (`static/js/script.js`, modules `Formatters` in `formatters.dfy` and `Script` in `script.dfy`):
  - the formatters for currency, distance, duration, weekday, 12-hour clock and date;
  - class `Page`, which holds the input fields, the twelve result slots, the spinner, the results panel, the about modal, and logs of the alerts, requests and route lookups. Its methods are the handlers `calculateFare`, `updateResults`, `updateRouteIfBothFilled`, the modal clicks and `downloadPDF`, including the row loop of the PDF fare table.

Module `Text` (`text.dfy`) holds the shared pieces:
- `Option` and `Result`;
- ASCII lower-casing;
- Python's substring test;
- decimal numerals.

Units:
- Money is held in integer cents, so 52.0 dollars is `5200`.
- On the page, distances and durations are integer hundredths.

Outside services are parameters:
- the learned model is a function from a feature row to a base fare, or `None` when it raises;
- the geocoder's and the directions service's answers are values;
- the distance to a zone centroid is a function of the zone id;
- `datetime.now()` is a `Clock` value;
- the result of the `/predict` fetch is a `FetchOutcome`.

Operations that change state step by step are methods with loops and invariants, each proved against a specification function:
- `PredictFare` fills an array by mask;
- `BuildBoroughZones`, `DetectBorough` and `FindNearestZone` are the loops of `app.py`;
- `DrawTable` is the PDF row loop;
- the `Page` methods update the page.

## Model

| member | source | states |
|---|---|---|
| FarePredictor.EstimateExtra | fare_predictor.py:51-64 | The surcharge is always 0, 0.50, 1.00 or 2.50 dollars, never 3.00. It is 0.50 exactly at hours 20-23 and 0-7. It is 1.00 exactly on weekdays at hours 16-19, so hour 20 falls to the night rate. It is 2.50 exactly on weekends at hours 18-19. |
| FarePredictor.FixedFees | fare_predictor.py:66-76 | Congestion 2.50, tolls 0, MTA tax 0.50 and improvement 0.30 add up to 3.30 dollars. |
| FarePredictor.PredictFare | fare_predictor.py:29-48 | A row is flat-rate (`IsFlatRate`, the mask of fare_predictor.py:36) when its rate code is 2.0. The call fails exactly when the model fails on some non-flat-rate row. Otherwise the series has one entry per row: 52.00 at every rate-code-2.0 row and the model's prediction at every other row. |
| FarePredictor.PredictTotalAmount | fare_predictor.py:79-95 | If any row is flat-rate, the result is the one-entry series [52.00] for a one-row frame and an error (index length mismatch) for a longer frame. If no row is flat-rate, the call fails exactly when the model fails on some row; otherwise each row's total is its model fare plus its surcharge plus 3.30. |
| Zones.TableIds | app.py:23 | One id per table row, in file order. |
| Zones.ZonesIn | app.py:24-27 | A zone id is in a borough's list exactly when some table row lists it under that borough. |
| Zones.BuildBoroughZones | app.py:24-27 | The start-up loop yields exactly the six borough keys, each mapped to the ids the table lists under it, in file order. |
| Zones.IsJfkFlatRate | app.py:94-97 | True exactly when one endpoint is zone 132 and the other is listed under Manhattan. |
| Zones.JfkFlatRateSymmetric | app.py:94-97 | Swapping pickup and dropoff does not change the flat-rate test. |
| Zones.AirportShortcut | app.py:61-67 | The answer is 132 exactly when the lower-cased address contains "jfk" or "john f kennedy". It is 138 exactly when it is not 132 and the address contains "laguardia" or "la guardia". It is 1 exactly when it is neither and the address contains both "newark" and "airport". Otherwise there is no answer. |
| Zones.ShortcutIgnoresCase | app.py:61-67 | An address and its lower-cased form get the same shortcut. |
| Zones.FirstBoroughIn | app.py:83-86 | Finds the first borough name, in key order, that occurs in the county name: every name before it does not occur. Reports none exactly when no name occurs. |
| Zones.BoroughScan | app.py:76-86 | The borough found is one of three: the starting value, one of the six borough names, or the long name of a sublocality component. |
| Zones.FirstSublocalityDecides | app.py:77-80 | The first sublocality component fixes the borough, whatever came before it. |
| Zones.CountyBoroughIsKnown | app.py:81-86 | With no sublocality component, a borough found is one of the six names. |
| Zones.DetectBorough | app.py:76-86 | The nested component loop, with both of its `break`s, computes `BoroughScan`. |
| Zones.ScanFindsFirstNearest | app.py:47-57 | With no measurable distance the search answers 161. Otherwise it answers a candidate whose distance is no larger than any other's and strictly smaller than every earlier candidate's, so the first one wins ties. |
| Zones.FindNearestZone | app.py:42-57 | The argmin loop returns what `Scan` specifies: 161 when nothing is measured, else the first nearest candidate. |
| Zones.KnownZones | app.py:46 | A restricted list is filtered to exactly the ids that are in the centroid table, and never grows. |
| Zones.BoroughZonesAreKnown | app.py:46 | Filtering a borough's own list drops nothing. |
| Zones.ScanPicksCandidate | app.py:47-57 | The search answers 161 or one of the candidates it was given. |
| Zones.CandidatesAreKnown | app.py:87-89 | About `SearchCandidates`, the choice of app.py:87-89. Every candidate searched is a table zone. When the scan found one of the six boroughs, the candidates are exactly that borough's zones. |
| Zones.LocationOf | app.py:59-91 | There is no zone exactly when no shortcut applies, geocoding found a place, and the place is outside the NYC box (`InNyc`, the bounds of app.py:73-74). A missing address, a failed geocode or an empty geocode gives 161. A shortcut's zone wins over geocoding. |
| Zones.ResolvedZoneIsKnown | app.py:59-91 | Every zone answered is 161, an airport zone or a table zone. When the scan found one of the six boroughs, the answer is 161 or one of that borough's zones. |
| Zones.GetLocationId | app.py:59-91 | The resolution as written (shortcuts, geocode, box test, borough loop, nearest search) computes `LocationOf`. |
| App.PaymentTypeCode | app.py:105-108 | The code is "2.0" exactly for "Cash". Anything else, including an absent field, gives "1.0". |
| App.IsWeekend | app.py:128 | The flag is 1 exactly when the weekday index is at least 5, and 0 otherwise. |
| App.RateCodeId | app.py:130 | The rate code is 2.0 exactly when one end is JFK and the other is in Manhattan; otherwise it is 1.0. |
| App.RateLabel | app.py:183-187 | The label is "JFK Flat Rate" exactly for rate code 2.0, and "Standard Rate" otherwise. |
| App.FareBreakdown | app.py:145-163 | The total is always the sum of the six components. A flat-rate trip is 52.00 with every surcharge 0. A standard trip is the model fare, the surcharge and the fixed fees (total = fare + surcharge + 3.30). A failed prediction makes all seven amounts 0. |
| App.Predict | app.py:99-204 | Every failure has status 400 or 500, as follows. No JSON object gives 500. An address outside NYC gives 400 before any fare is computed. A failed directions call gives 500. No route gives 400. A route with no leg gives 500. Otherwise the quote has the first leg's distance and duration, both zones, the clock's fields and the breakdown, and its label is "JFK Flat Rate" for a flat-rate trip and "Standard Rate" for any other. |
| Formatters.CurrencyShape | static/js/script.js:164-173 | About `FormatCurrency`, the model of `formatCurrency`. A missing or NaN value shows "$0.00". Every currency text ends in a point and two digits, and starts with "-$" for a negative amount and "$" otherwise. |
| Formatters.CurrencyRoundTrip | static/js/script.js:164-173 | Reading the digits and sign of a formatted amount, thousands separators included, gives back the cents. |
| Formatters.FixedTwo | static/js/script.js:190 | `toFixed(2)` on hundredths: the text has a point before its last two characters, and starts with "-" exactly for a negative value. |
| Formatters.FixedTwoRoundTrip | static/js/script.js:187-191 | Reading a two-decimal text back gives the hundredths it was made from. |
| Formatters.DistanceText | static/js/script.js:187-191 | The slot is "N/A" exactly when the distance is missing or NaN; otherwise it is the two-decimal number followed by " miles". |
| Formatters.RoundHalfUp | static/js/script.js:197 | The result is the nearest whole number, with halves going up. |
| Formatters.DurationText | static/js/script.js:194-198 | The slot is "N/A" exactly when the duration is missing or NaN; otherwise it is the rounded minutes followed by " mins". |
| Formatters.DayName | static/js/script.js:201-208 | The slot is "N/A" exactly when the value is not a number in 0..6; otherwise it is one of the seven day names. |
| Formatters.DayNameRoundTrip | static/js/script.js:201-208 | Each index 0..6 gets its own name, and that name stands at the same position in the Monday..Sunday list. |
| Formatters.HourLabel | static/js/script.js:210-220 | The slot is "N/A" exactly when the hour is missing or NaN. |
| Formatters.HourLabelShape | static/js/script.js:213-216 | For hours 0..23 the label is a number 1..12 followed by " AM" exactly before noon: 0 and 12 read 12, and other hours read h mod 12. |
| Formatters.HourLabelRoundTrip | static/js/script.js:210-220 | Reading a label of an hour 0..23 back gives the hour, so the 24 labels are distinct. |
| Formatters.DateText | static/js/script.js:223 | The slot is "N/A" exactly when the date is missing, empty or itself "N/A"; otherwise it is the date text. |
| Script.Rendered | static/js/script.js:160-228 | The fare slot and the base-fare slot always show the same text, both taken from `base_fare`. When `details` is absent, the five trip slots keep their previous text. |
| Script.RenderedAmountsReadBack | static/js/script.js:164-182 | Each currency slot shows "$0.00" for a missing amount. Otherwise the amount can be read back from its slot. |
| Script.RenderedDetailsReadBack | static/js/script.js:184-224 | When `details` is present, the hour slot reads back to its hour, the day slot to its index, and the distance slot to its hundredths. |
| Script.RenderedIdempotent | static/js/script.js:160-228 | Rendering a reply twice shows the same as rendering it once. |
| Script.MessageOr | static/js/script.js:145 | The alert is the reply's message when it is a non-empty string, else the fixed "Prediction failed" text. |
| Script.ReactionTo | static/js/script.js:131-155 | A reply is rendered exactly when the response is ok, its body is a JSON object and the error flag is not set. The catch path runs exactly when the fetch throws or the body is not JSON or is null. A refused reply alerts its message or the fallback. |
| Script.AlertOf | static/js/script.js:144-155 | An alert is raised exactly when the reply is not rendered. |
| Script.ModalAfter | static/js/script.js:337-362 | The about link opens the modal. The close button closes it. A window click closes it only when the click lands on the backdrop; other clicks change nothing. |
| Script.ModalIgnoresOtherClicks | static/js/script.js:357-362 | Clicks on anything but the about link, the close button and the backdrop leave the modal as it was. |
| Script.ModalFollowsLastDecisiveClick | static/js/script.js:337-362 | After any run of clicks, the modal is open exactly when the last deciding click was on the about link. |
| Script.DrawTable | static/js/script.js:307-324 | Row i is drawn at y = top + 10·i, with its label at x = 20 and its amount at x = 120. Two texts are placed per row, and any two rows are at least one row height apart. The final y is top + 10·rows. |
| Script.Page.UpdateRouteIfBothFilled | static/js/script.js:101-108 | A route lookup is recorded exactly when both inputs are non-empty. |
| Script.Page.ShowAmounts | static/js/script.js:175-182 | The seven currency slots get the formatted amounts, with both the fare and the base-fare slot taken from `base_fare`. |
| Script.Page.ShowDetails | static/js/script.js:184-223 | The five trip slots get their formatted values. |
| Script.Page.UpdateResults | static/js/script.js:160-228 | The slots become `Rendered` of what they showed, and the results panel is shown. Nothing else changes. |
| Script.Page.ShowSpinner | static/js/script.js:110-113 | Sets the spinner and records the call. |
| Script.Page.CalculateFare | static/js/script.js:119-158 | An empty pickup or dropoff raises the alert and returns before the spinner is shown or any request is sent. Otherwise one request is sent, the spinner is shown and then cleared on every path, and an alert is raised exactly when the reply is not rendered. A rendered reply updates the slots and the panel and looks up the route. Otherwise the slots, the panel and the map are left alone. |
| Script.Page.Respond | static/js/script.js:142-157 | Once the request has been sent: a refused reply alerts and clears the spinner early, a crash alerts the network message, and a good reply is rendered and its route looked up. The spinner ends cleared on every path. |
| Script.Page.Click | static/js/script.js:337-362 | Each click updates the modal as `ModalAfter` says. |
| Script.Page.DownloadPdf | static/js/script.js:244-335 | The document holds the title, the seven trip lines showing the slots' text as it is, the fare table from y 180 (header, base fare, total), and the two footer lines. It is saved as "nyc-taxi-fare-estimate.pdf". The page does not change. |

## Left out

- The learned random-forest model, its download and the pandas preprocessing. The model is a parameter.
- FarePredictor.PredictFare: the model is applied row by row rather than once to the whole non-flat frame. A batch that fails is modelled as a failure on some row.
- FarePredictor.PredictFare: the in-place conversion of the categorical columns to strings is not modelled. The flat-rate mask compares the rate code with 2.0, which the string "2.0" stands for.
- FarePredictor.PredictTotalAmount and App.FareBreakdown: float sums and `round(..., 2)` are not modelled, because amounts are exact integer cents.
- The Google Maps calls (geocoding, directions, autocomplete, map rendering) are left out. Their answers are parameters.
- The haversine distance is left out. The distance to a zone is an abstract function of the zone id, and `None` stands for a failed or NaN distance.
- Zones.KnownZones and Zones.TableIds: a table with a repeated LocationID keeps the repeat in both. The dict comprehension of the source keeps one key, but the nearest-zone answer is the same either way.
- Zones.LocationOf: a geocoding result without `geometry` or `address_components` raises in the source and gives 161. Places in the model always carry coordinates and components.
- Text.Lower: `str.lower()` is modelled for ASCII letters only.
- App.Predict: the payload's `round(..., 2)` of distance and duration is not modelled. The `details` text of the 500 payload and the debug print are left out.
- Flask routing, JSON encoding, reading the zone CSV and the zone-name mapping are left out.
- Formatters.FormatCurrency: amounts are integer cents, so `Intl.NumberFormat`'s float rounding is not modelled.
- Formatters.DurationText: durations are hundredths, so `Math.round` is modelled on hundredths rather than on floats.
- Formatters.DistanceText: distances are hundredths, so `toFixed` is modelled on hundredths rather than on floats.
- Formatters.HourLabel: hours and weekdays are whole numbers. A fractional or string-typed field is not modelled.
- The fetch itself, and the asynchronous ordering of replies and route lookups, are left out. A fetch is given as its outcome, and a route lookup is recorded as a query.
- `initMap`, the directions renderer and its status callback are left out.
- Script.Page.constructor: the slots start empty. The text the HTML page starts with is not part of this model.
- Script.Page.Click: the presence checks on the about link and the close button, and `preventDefault`, are not modelled.
- Script.Page.DownloadPdf: only the placement of texts is modelled. Fill colours, rectangles, fonts and alignment are not.
- When a reply has no `details`, the trip slots keep their previous text rather than showing "N/A". The model follows the code here (`Script.Rendered`).
