/** The schedule and budget arithmetic of
    apps/web/src/app/modules/campaigns/create/components/wizard/StepPlanning.tsx: the campaign's
    length in days, the total budget, and the forecast card with its cost per thousand, daily reach
    and frequency. Dates are given as their millisecond timestamps; a missing or empty date is
    `None`. */
module StepPlanning {
  import opened Wrappers
  import opened Strings
  import opened JsNumber

  const DayMs: nat := 1000 * 60 * 60 * 24

  function Abs(x: int): nat { if x < 0 then -x else x }

  /** `calculateDuration`: 0 when a date is missing, else the whole number of days the interval
      covers, rounded up. */
  function CalculateDuration(startDate: Option<int>, endDate: Option<int>): nat {
    if startDate.None? || endDate.None? then 0
    else CeilDiv(Abs(endDate.value - startDate.value), DayMs)
  }

  /** The duration is the least whole number of days that covers the interval, whichever way round
      the dates are given; it is 0 exactly when a date is missing or the two are the same instant. */
  lemma {:induction false} DurationCoversInterval(start: int, end: int)
    ensures var d := CalculateDuration(Some(start), Some(end));
      && d * DayMs >= Abs(end - start)
      && (d > 0 ==> (d - 1) * DayMs < Abs(end - start))
      && (d == 0 <==> start == end)
      && d == CalculateDuration(Some(end), Some(start))
  {
    CeilDivIsCeiling(Abs(end - start), DayMs);
    assert Abs(end - start) == Abs(start - end);
  }

  lemma {:induction false} DurationExamples()
    ensures CalculateDuration(Some(0), Some(DayMs)) == 1
    ensures CalculateDuration(Some(0), Some(DayMs + 1)) == 2
    ensures CalculateDuration(None, Some(DayMs)) == 0
  {
  }

  /** `getTotalBudget`: a daily budget multiplied by the duration, when there is one. */
  function GetTotalBudget(budget: real, isDailyBudget: bool, startDate: Option<int>, endDate: Option<int>): (r: real)
    ensures !isDailyBudget ==> r == budget
    ensures isDailyBudget && CalculateDuration(startDate, endDate) > 0 ==> r == budget * CalculateDuration(startDate, endDate) as real
    ensures isDailyBudget && CalculateDuration(startDate, endDate) == 0 ==> r == budget
  {
    if !isDailyBudget then budget
    else
      var duration := CalculateDuration(startDate, endDate);
      if duration > 0 then budget * duration as real else budget
  }

  // ---------------------------------------------------------------- the forecast card

  datatype Metrics = Metrics(cpm: real, cpmText: string, dailyReach: int, frequency: string)

  /** The cost per thousand people reached, 0 unless both budget and reach are positive. */
  function Cpm(budget: real, reach: int): (r: real)
    ensures budget > 0.0 && reach > 0 ==> r * reach as real == 1000.0 * budget && r > 0.0
    ensures !(budget > 0.0 && reach > 0) ==> r == 0.0
  {
    if budget > 0.0 && reach > 0 then (budget / reach as real) * 1000.0 else 0.0
  }

  /** The reach per day, rounded, or the whole reach for a duration of 0. */
  function DailyReach(reach: int, duration: nat): (r: int)
    ensures duration > 0 ==> r as real - 0.5 <= reach as real / duration as real < r as real + 0.5
    ensures duration == 0 ==> r == reach
  {
    if duration > 0 then Round(reach as real / duration as real) else Round(reach as real)
  }

  /** `calculateMetrics`. */
  function CalculateMetrics(budget: real, reach: int, duration: nat): Metrics {
    Metrics(
      Cpm(budget, reach),
      ToFixed(Cpm(budget, reach), 2),
      DailyReach(reach, duration),
      if duration > 0 then ToFixed(duration as real * 1.2, 1) else "1.0")
  }

  /** A non-negative reach spread over one day or more gives no more per day than in total. */
  lemma {:induction false} DailyReachAtMostReach(reach: nat, duration: nat)
    requires duration > 0
    ensures 0 <= DailyReach(reach, duration) <= reach
  {
    var q := reach as real / duration as real;
    assert q * duration as real == reach as real;
    assert 0.0 <= q <= reach as real;
  }

  /** The card is drawn only for a positive duration and a non-zero budget. */
  predicate ShowsEstimation(duration: nat, budget: real) {
    !(duration == 0 || budget == 0.0)
  }

  /** `getCurrencySymbol` */
  function CurrencySymbol(currency: string): string {
    if currency == "EUR" then "€" else if currency == "USD" then "$" else if currency == "MGA" then "Ar" else "€"
  }

  /** Dollars and ariary have their own symbols; every other currency, euros included, is shown with
      the euro sign. */
  lemma {:induction false} CurrencySymbolDefault(currency: string)
    ensures CurrencySymbol(currency) == "€" <==> currency != "USD" && currency != "MGA"
    ensures CurrencySymbol("USD") == "$" && CurrencySymbol("MGA") == "Ar"
  {
  }

  /** Both texts of the card are non-negative decimals, the cost per thousand with two decimals and
      the frequency with one; a card that is drawn shows 1.2 times the duration as frequency, and a
      duration of 0 would show "1.0" and the whole reach per day. */
  lemma {:induction false} CalculateMetricsTexts(budget: real, reach: int, duration: nat)
    ensures var m := CalculateMetrics(budget, reach, duration);
      && |m.cpmText| >= 4 && m.cpmText[|m.cpmText| - 3] == '.' && m.cpmText[0] != '-'
      && |m.frequency| >= 3 && m.frequency[|m.frequency| - 2] == '.' && m.frequency[0] != '-'
      && (duration == 0 ==> m.frequency == "1.0" && m.dailyReach == reach)
      && (ShowsEstimation(duration, budget) ==> m.frequency == ToFixed(duration as real * 1.2, 1))
    ensures ShowsEstimation(duration, budget) <==> duration > 0 && budget != 0.0
  {
    assert Cpm(budget, reach) >= 0.0;
    if duration > 0 {
      assert duration as real * 1.2 >= 0.0;
    }
  }

  /** The recommendations the card lists, in order. */
  function Recommendations(budget: real, duration: nat): (r: seq<string>)
    ensures |r| <= 2
    ensures "• Augmentez votre budget pour améliorer la portée." in r <==> budget < 100.0
    ensures "• Une campagne longue permet un meilleur engagement." in r <==> duration > 30
    ensures "• Une durée plus longue améliore la mémorisation." in r <==> duration < 7
  {
    (if budget < 100.0 then ["• Augmentez votre budget pour améliorer la portée."] else [])
      + (if duration > 30 then ["• Une campagne longue permet un meilleur engagement."] else [])
      + (if duration < 7 then ["• Une durée plus longue améliore la mémorisation."] else [])
  }
}
