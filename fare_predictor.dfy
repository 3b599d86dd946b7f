/** The rule-based part of the fare predictor: the hour/day surcharge table,
    the fixed fees, the JFK flat-rate masking around the learned base-fare
    model, and the total-amount assembly. Money is held in integer cents
    (52.0 dollars is 5200). The learned model is a parameter: it maps one
    feature row to a base fare in cents, or to `None` when prediction raises. */
module FarePredictor {
  import opened Text

  const JfkFlatFare: int := 5200
  const CongestionSurcharge: int := 250
  const TollsAmount: int := 0
  const MtaTax: int := 50
  const ImprovementSurcharge: int := 30

  /** The rate code the backend sends for the JFK <-> Manhattan flat rate. */
  const FlatRateCode: real := 2.0

  /** One feature row of the frame handed to the predictor. */
  datatype Row = Row(
    tripDistance: real,
    tripDuration: real,
    pickupHour: int,
    pickupDayOfWeek: int,
    pickupMonth: int,
    isWeekend: int,
    rateCodeId: real,
    paymentType: string,
    puLocationId: int,
    doLocationId: int)

  type FareModel = Row -> Option<int>

  /** The JFK mask: the rate code, once turned into text, reads "2.0". */
  predicate IsFlatRate(row: Row)
  {
    row.rateCodeId == FlatRateCode
  }

  /** The night/rush-hour surcharge in cents. The branches are tried in the
      source's order; the late-night Friday/Saturday branch (300) comes after
      the 20..23 night branch and can never be taken, and hour 20 of the
      weekday rush and hours 20..21 of the weekend evening are shadowed too. */
  function EstimateExtra(hour: int, dow: int): (r: int)
    ensures r in {0, 50, 100, 250}
    ensures r == 50 <==> (20 <= hour <= 23 || 0 <= hour < 8)
    ensures r == 100 <==> (dow < 5 && 16 <= hour <= 19)
    ensures r == 250 <==> (dow >= 5 && 18 <= hour <= 19)
  {
    if (20 <= hour <= 23) || (0 <= hour < 8) then 50
    else if dow < 5 && 16 <= hour <= 20 then 100
    else if dow >= 5 && 18 <= hour <= 21 then 250
    else if (dow == 4 || dow == 5) && 22 <= hour <= 23 then 300
    else 0
  }

  /** The four fixed fees together: congestion, tolls, MTA tax, improvement. */
  function FixedFees(): (r: int)
    ensures r == 330
  {
    CongestionSurcharge + TollsAmount + MtaTax + ImprovementSurcharge
  }

  /** The base fares of a frame whose every entry has been filled. */
  function Filled(series: seq<Option<int>>): (r: seq<int>)
    requires forall k :: 0 <= k < |series| ==> series[k].Some?
    ensures |r| == |series|
    ensures forall k :: 0 <= k < |series| ==> series[k] == Some(r[k])
  {
    seq(|series|, k requires 0 <= k < |series| => series[k].value)
  }

  /** `predict_fare`: a float series indexed like the rows, initially all NaN
      (`None`); the model's predictions are written at the non-JFK rows, then
      52.0 at the JFK rows. The whole call fails when the model raises. */
  method PredictFare(rows: seq<Row>, model: FareModel) returns (result: Option<seq<int>>)
    ensures result.None? <==> exists i :: 0 <= i < |rows| && !IsFlatRate(rows[i]) && model(rows[i]).None?
    ensures result.Some? ==> |result.value| == |rows|
    ensures result.Some? ==> forall i :: 0 <= i < |rows| ==>
      if IsFlatRate(rows[i]) then result.value[i] == JfkFlatFare else model(rows[i]) == Some(result.value[i])
  {
    var series := new Option<int>[|rows|](_ => None);
    // result[~jfk_mask] = rf_model.predict(non_jfk_df)
    var i := 0;
    while i < |rows|
      invariant 0 <= i <= |rows|
      invariant forall k :: 0 <= k < i ==> series[k] == (if IsFlatRate(rows[k]) then None else model(rows[k]))
      invariant forall k :: i <= k < |rows| ==> series[k] == None
      invariant forall k :: 0 <= k < i && !IsFlatRate(rows[k]) ==> model(rows[k]).Some?
    {
      if !IsFlatRate(rows[i]) {
        var fare := model(rows[i]);
        if fare.None? {
          return None;
        }
        series[i] := fare;
      }
      i := i + 1;
    }
    // result[jfk_mask] = 52.0
    i := 0;
    while i < |rows|
      invariant 0 <= i <= |rows|
      invariant forall k :: 0 <= k < i ==> series[k] == (if IsFlatRate(rows[k]) then Some(JfkFlatFare) else model(rows[k]))
      invariant forall k :: i <= k < |rows| ==> series[k] == (if IsFlatRate(rows[k]) then None else model(rows[k]))
      invariant forall k :: 0 <= k < |rows| && !IsFlatRate(rows[k]) ==> model(rows[k]).Some?
    {
      if IsFlatRate(rows[i]) {
        series[i] := Some(JfkFlatFare);
      }
      i := i + 1;
    }
    result := Some(Filled(series[..]));
  }

  /** `predict_total_amount`. When any row is flat-rate the answer is a
      one-element series of 52.0, which pandas only accepts for a one-row
      frame; otherwise every row's total is its predicted base fare plus its
      surcharge plus the fixed fees. */
  method PredictTotalAmount(rows: seq<Row>, model: FareModel) returns (totals: Result<seq<int>>)
    ensures (exists i :: 0 <= i < |rows| && IsFlatRate(rows[i])) ==>
      totals == (if |rows| == 1 then Ok([JfkFlatFare]) else Err("Length of values does not match length of index"))
    ensures (forall i :: 0 <= i < |rows| ==> !IsFlatRate(rows[i])) ==>
      (totals.Err? <==> exists i :: 0 <= i < |rows| && model(rows[i]).None?)
    ensures (forall i :: 0 <= i < |rows| ==> !IsFlatRate(rows[i])) && totals.Ok? ==>
      |totals.value| == |rows| &&
      forall i :: 0 <= i < |rows| ==>
        model(rows[i]) == Some(totals.value[i] - EstimateExtra(rows[i].pickupHour, rows[i].pickupDayOfWeek) - FixedFees())
  {
    if exists i :: 0 <= i < |rows| && IsFlatRate(rows[i]) {
      if |rows| == 1 {
        return Ok([JfkFlatFare]);
      }
      return Err("Length of values does not match length of index");
    }
    var baseFare := PredictFare(rows, model);
    if baseFare.None? {
      return Err("model prediction failed");
    }
    var fares := baseFare.value;
    totals := Ok(seq(|rows|, k requires 0 <= k < |rows| =>
      fares[k] + EstimateExtra(rows[k].pickupHour, rows[k].pickupDayOfWeek)
        + CongestionSurcharge + TollsAmount + MtaTax + ImprovementSurcharge));
  }
}
