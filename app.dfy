/** The backend's `/predict` handler: reading the request, the payment-type
    table, the weekend flag and rate code, the fare breakdown, and the reply
    or error payload. Every outside service (geocoder, directions, clock,
    learned model) comes in through `Services`. */
module App {
  import opened Text
  import opened FarePredictor
  import opened Zones

  /** The posted JSON object; a field that is absent or null is `None`. */
  datatype RequestBody = RequestBody(
    pickupAddress: Option<string>,
    dropoffAddress: Option<string>,
    paymentType: Option<string>)

  datatype Leg = Leg(meters: int, seconds: int)

  datatype Route = Route(legs: seq<Leg>)

  /** What the driving-directions call returned, or that it raised. */
  datatype Directions = DirectionsFailed | DirectionsFound(routes: seq<Route>)

  /** The reading of `datetime.now()`: hour, weekday (Monday is 0), month and
      the date as "%Y-%m-%d". */
  datatype Clock = Clock(hour: int, weekday: int, month: int, date: string)

  datatype Services = Services(
    pickupGeocode: Geocode,
    dropoffGeocode: Geocode,
    directions: Directions,
    now: Clock,
    geography: Geography,
    model: FareModel)

  /** The seven amounts of the reply, in cents. */
  datatype Breakdown = Breakdown(
    baseFare: int,
    extra: int,
    congestion: int,
    tolls: int,
    mta: int,
    improvement: int,
    total: int)

  datatype Details = Details(
    distanceMiles: real,
    durationMinutes: real,
    pickupZoneId: int,
    dropoffZoneId: int,
    pickupDayOfWeek: int,
    pickupHour: int,
    pickupDate: string,
    rateCode: string)

  /** A JSON reply: a quote (status 200) or an error payload with its status. */
  datatype Reply = Quote(fare: Breakdown, details: Details) | Failure(status: int, message: string)

  const OutsideNyc: string := "Currently, only NYC areas are supported."
  const NoRoute: string := "Could not find a driving route between these locations."
  const Unexpected: string := "Unexpected error occurred."
  const FlatRateLabel: string := "JFK Flat Rate"
  const StandardRateLabel: string := "Standard Rate"
  const MetersPerMile: real := 1609.34
  const StandardRateCode: real := 1.0

  /** The payment-type table: "Cash" is "2.0"; "Credit Card", anything
      unknown and an absent field (which defaults to "Credit Card") are "1.0". */
  function PaymentTypeCode(payment: Option<string>): (code: string)
    ensures code == "2.0" <==> payment == Some("Cash")
    ensures code != "2.0" ==> code == "1.0"
  {
    var codes := map["Credit Card" := "1.0", "Cash" := "2.0"];
    var name := if payment.Some? then payment.value else "Credit Card";
    if name in codes then codes[name] else "1.0"
  }

  function IsWeekend(weekday: int): (flag: int)
    ensures flag == 0 || flag == 1
    ensures flag == 1 <==> weekday >= 5
  {
    if weekday >= 5 then 1 else 0
  }

  function RateCodeId(pu: int, dropoff: int, table: seq<ZoneRow>): (code: real)
    ensures code == FlatRateCode || code == StandardRateCode
    ensures code == FlatRateCode <==> ((pu == JfkZone && ListedIn(table, "Manhattan", dropoff))
                                     || (dropoff == JfkZone && ListedIn(table, "Manhattan", pu)))
  {
    if IsJfkFlatRate(pu, dropoff, table) then FlatRateCode else StandardRateCode
  }

  function RateLabel(code: real): (text: string)
    ensures text == FlatRateLabel <==> code == FlatRateCode
    ensures text != FlatRateLabel ==> text == StandardRateLabel
  {
    if code == FlatRateCode then FlatRateLabel else StandardRateLabel
  }

  /** The fare part of the handler. A flat-rate trip is 52.0 with no
      surcharges; a standard trip adds the predicted base fare, the surcharge
      and the four fixed fees; when prediction raises (`modelFare` is `None`)
      all seven amounts are zero. Whatever the case, the total is the sum of
      the six components. */
  function FareBreakdown(flat: bool, modelFare: Option<int>, extra: int): (b: Breakdown)
    ensures b.total == b.baseFare + b.extra + b.congestion + b.tolls + b.mta + b.improvement
    ensures flat ==> b.baseFare == 5200 && b.total == 5200
    ensures flat ==> b.extra == b.congestion == b.tolls == b.mta == b.improvement == 0
    ensures !flat && modelFare.Some? ==>
      && b.baseFare == modelFare.value && b.extra == extra
      && b.congestion == 250 && b.tolls == 0 && b.mta == 50 && b.improvement == 30
      && b.total == modelFare.value + extra + FixedFees()
    ensures !flat && modelFare.None? ==> b == Breakdown(0, 0, 0, 0, 0, 0, 0)
  {
    if flat then
      Breakdown(JfkFlatFare, 0, 0, 0, 0, 0, JfkFlatFare)
    else if modelFare.Some? then
      var base := modelFare.value;
      Breakdown(base, extra, CongestionSurcharge, TollsAmount, MtaTax, ImprovementSurcharge,
        base + extra + CongestionSurcharge + TollsAmount + MtaTax + ImprovementSurcharge)
    else
      Breakdown(0, 0, 0, 0, 0, 0, 0)
  }

  /** The one-row frame handed to the predictor. */
  function FeatureRow(leg: Leg, now: Clock, rateCode: real, payment: string, pu: int, dropoff: int): Row
  {
    Row(leg.meters as real / MetersPerMile, leg.seconds as real / 60.0, now.hour, now.weekday, now.month,
        IsWeekend(now.weekday), rateCode, payment, pu, dropoff)
  }

  ghost function PickupZone(body: RequestBody, svc: Services): Option<int>
  {
    LocationOf(body.pickupAddress, svc.pickupGeocode, svc.geography)
  }

  ghost function DropoffZone(body: RequestBody, svc: Services): Option<int>
  {
    LocationOf(body.dropoffAddress, svc.dropoffGeocode, svc.geography)
  }

  /** A quote agrees with the request, the services and the first leg of the
      first route. */
  ghost predicate QuoteFits(body: RequestBody, svc: Services, leg: Leg, reply: Reply)
    requires PickupZone(body, svc).Some? && DropoffZone(body, svc).Some?
  {
    var pu := PickupZone(body, svc).value;
    var dropoff := DropoffZone(body, svc).value;
    var flat := IsJfkFlatRate(pu, dropoff, svc.geography.table);
    var row := FeatureRow(leg, svc.now, StandardRateCode, PaymentTypeCode(body.paymentType), pu, dropoff);
    && reply.Quote?
    && reply.details == Details(leg.meters as real / MetersPerMile, leg.seconds as real / 60.0, pu, dropoff,
                                svc.now.weekday, svc.now.hour, svc.now.date,
                                if flat then FlatRateLabel else StandardRateLabel)
    && reply.fare == FareBreakdown(flat, svc.model(row), EstimateExtra(svc.now.hour, svc.now.weekday))
  }

  /** `predict`. The reply is an error payload when the body is not a JSON
      object (500), when either address lies outside the NYC box (400, and no
      fare is computed), when no route is found (400) or when the directions
      call raises or its route has no leg (500); otherwise a quote. */
  method Predict(body: Option<RequestBody>, svc: Services) returns (reply: Reply)
    ensures reply.Failure? ==> reply.status == 400 || reply.status == 500
    ensures body.None? ==> reply == Failure(500, Unexpected)
    ensures body.Some? && (PickupZone(body.value, svc).None? || DropoffZone(body.value, svc).None?) ==>
      reply == Failure(400, OutsideNyc)
    ensures body.Some? && PickupZone(body.value, svc).Some? && DropoffZone(body.value, svc).Some? ==>
      match svc.directions
      case DirectionsFailed => reply == Failure(500, Unexpected)
      case DirectionsFound(routes) =>
        if routes == [] then reply == Failure(400, NoRoute)
        else if routes[0].legs == [] then reply == Failure(500, Unexpected)
        else QuoteFits(body.value, svc, routes[0].legs[0], reply)
  {
    if body.None? {
      return Failure(500, Unexpected);
    }
    var data := body.value;
    var payment := PaymentTypeCode(data.paymentType);
    var pu := GetLocationId(data.pickupAddress, svc.pickupGeocode, svc.geography);
    var dropoff := GetLocationId(data.dropoffAddress, svc.dropoffGeocode, svc.geography);
    if pu.None? || dropoff.None? {
      return Failure(400, OutsideNyc);
    }
    if svc.directions.DirectionsFailed? {
      return Failure(500, Unexpected);
    }
    var routes := svc.directions.routes;
    if routes == [] {
      return Failure(400, NoRoute);
    }
    if routes[0].legs == [] {
      return Failure(500, Unexpected);
    }
    var leg := routes[0].legs[0];
    var now := svc.now;
    var rateCode := RateCodeId(pu.value, dropoff.value, svc.geography.table);
    var row := FeatureRow(leg, now, rateCode, payment, pu.value, dropoff.value);
    var fare;
    if rateCode == FlatRateCode {
      fare := FareBreakdown(true, None, 0);
    } else {
      var predicted := PredictFare([row], svc.model);
      var modelFare := if predicted.Some? then Some(predicted.value[0]) else None;
      fare := FareBreakdown(false, modelFare, EstimateExtra(row.pickupHour, row.pickupDayOfWeek));
    }
    var details := Details(leg.meters as real / MetersPerMile, leg.seconds as real / 60.0,
                           pu.value, dropoff.value, now.weekday, now.hour, now.date, RateLabel(rateCode));
    reply := Quote(fare, details);
  }
}
