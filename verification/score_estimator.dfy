/** The credit score estimator: four slider values, the weighted score
    computed from them, the band label and colour of a score, and the list
    of advice shown beside it. */
module ScoreEstimator {
  import Lists

  /** The four factor values the component keeps as state. */
  datatype Factors = Factors(paymentHistory: int, creditUtilization: int, accountAge: int, creditMix: int)

  /** One row of the component's `factors` table: a range slider with its
      caption, bounds and unit. Every slider moves in steps of 1. */
  datatype Slider = Slider(caption: string, min: int, max: int, unit: string)

  const PaymentHistorySlider := Slider("Payment History (35%)", 50, 100, "%")
  const CreditUtilizationSlider := Slider("Credit Utilization (30%)", 0, 100, "%")
  const AccountAgeSlider := Slider("Account Age (15%)", 0, 20, " yrs")
  const CreditMixSlider := Slider("Credit Mix (10%)", 1, 5, " types")

  /** The values a slider can emit. */
  predicate InRange(s: Slider, v: int)
  {
    s.min <= v <= s.max
  }

  /** Every factor lies within its slider's bounds. */
  predicate InDomain(f: Factors)
  {
    && InRange(PaymentHistorySlider, f.paymentHistory)
    && InRange(CreditUtilizationSlider, f.creditUtilization)
    && InRange(AccountAgeSlider, f.accountAge)
    && InRange(CreditMixSlider, f.creditMix)
  }

  /** The initial state of the sliders. */
  const Defaults := Factors(95, 30, 7, 3)

  // ---------------------------------------------------------------------
  // The score

  function MinReal(x: real, y: real): real
  {
    if x <= y then x else y
  }

  function MinInt(x: int, y: int): int
  {
    if x <= y then x else y
  }

  /** `Math.round`: to the nearest integer, halves rounded up. */
  function RoundHalfUp(x: real): int
  {
    (x + 0.5).Floor
  }

  /** The weighted sum before rounding, in exact rational arithmetic. */
  function RawScore(f: Factors): real
  {
    var paymentWeight := (f.paymentHistory as real / 100.0) * 350.0;
    var utilizationWeight := ((100 - f.creditUtilization) as real / 100.0) * 300.0;
    var ageWeight := MinReal(f.accountAge as real / 15.0, 1.0) * 150.0;
    var mixWeight := (f.creditMix as real / 5.0) * 100.0;
    300.0 + paymentWeight + utilizationWeight + ageWeight + mixWeight
  }

  /** `calculateScore`: the rounded weighted sum. */
  function CalculateScore(f: Factors): int
  {
    RoundHalfUp(RawScore(f))
  }

  lemma HalfFloor(n: int)
    ensures ((n as real) / 2.0).Floor == n / 2
  {
    var q, r := n / 2, n % 2;
    assert n == 2 * q + r && 0 <= r < 2;
    assert (n as real) / 2.0 == q as real + (r as real) / 2.0;
  }

  /** Every weight is exact in rationals, and only the payment weight 3.5 * p
      can have a fractional part (one half), so the rounded score is an
      integer sum whose last term rounds 3.5 * p half up. */
  lemma {:induction false} ScoreClosedForm(f: Factors)
    ensures CalculateScore(f) ==
      300 + 3 * (100 - f.creditUtilization) + 10 * MinInt(f.accountAge, 15)
      + 20 * f.creditMix + (7 * f.paymentHistory + 1) / 2
  {
    var p, u, a, m := f.paymentHistory, f.creditUtilization, f.accountAge, f.creditMix;
    var k := 300 + 3 * (100 - u) + 10 * MinInt(a, 15) + 20 * m;
    assert MinReal(a as real / 15.0, 1.0) * 150.0 == (10 * MinInt(a, 15)) as real;
    assert RawScore(f) + 0.5 == k as real + ((7 * p + 1) as real) / 2.0;
    HalfFloor(7 * p + 1);
  }

  /** Raising payment history never lowers the score. */
  lemma ScoreMonotoneInPaymentHistory(f: Factors, p: int)
    requires f.paymentHistory <= p
    ensures CalculateScore(f) <= CalculateScore(f.(paymentHistory := p))
  {
    ScoreClosedForm(f);
    ScoreClosedForm(f.(paymentHistory := p));
  }

  /** Raising utilisation never raises the score. */
  lemma ScoreAntitoneInUtilization(f: Factors, u: int)
    requires f.creditUtilization <= u
    ensures CalculateScore(f.(creditUtilization := u)) <= CalculateScore(f)
  {
    ScoreClosedForm(f);
    ScoreClosedForm(f.(creditUtilization := u));
  }

  /** Raising the credit mix never lowers the score. */
  lemma ScoreMonotoneInCreditMix(f: Factors, m: int)
    requires f.creditMix <= m
    ensures CalculateScore(f) <= CalculateScore(f.(creditMix := m))
  {
    ScoreClosedForm(f);
    ScoreClosedForm(f.(creditMix := m));
  }

  /** Raising the account age never lowers the score. */
  lemma ScoreMonotoneInAccountAge(f: Factors, a: int)
    requires f.accountAge <= a
    ensures CalculateScore(f) <= CalculateScore(f.(accountAge := a))
  {
    ScoreClosedForm(f);
    ScoreClosedForm(f.(accountAge := a));
  }

  /** From 15 years on the account age adds nothing: it contributes exactly
      150 points, so any two ages of at least 15 give the same score. */
  lemma AccountAgeSaturates(f: Factors, a: int)
    requires f.accountAge >= 15 && a >= 15
    ensures CalculateScore(f.(accountAge := a)) == CalculateScore(f)
    ensures RawScore(f) - RawScore(f.(accountAge := 0)) == 150.0
  {
    ScoreClosedForm(f);
    ScoreClosedForm(f.(accountAge := a));
  }

  /** Over the slider domain the score lies in [495, 1200], and both ends
      are reached; this range is not the 300..850 drawn on the gauge. */
  lemma ScoreBounds(f: Factors)
    requires InDomain(f)
    ensures 495 <= CalculateScore(f) <= 1200
    ensures CalculateScore(Factors(50, 100, 0, 1)) == 495
    ensures CalculateScore(Factors(100, 0, 20, 5)) == 1200
  {
    ScoreClosedForm(f);
    ScoreClosedForm(Factors(50, 100, 0, 1));
    ScoreClosedForm(Factors(100, 0, 20, 5));
  }

  /** The gauge's fill, as a percentage of the track labelled 300..850. */
  function GaugeFillPercent(score: int): real
  {
    ((score - 300) as real / 550.0) * 100.0
  }

  /** The fill stays within its track exactly for scores up to 850. */
  lemma GaugeWithinTrack(score: int)
    ensures GaugeFillPercent(score) <= 100.0 <==> score <= 850
    ensures GaugeFillPercent(score) >= 0.0 <==> score >= 300
  {
  }

  /** The default sliders already give 973, past the gauge's 850. */
  lemma DefaultScore()
    ensures InDomain(Defaults)
    ensures CalculateScore(Defaults) == 973
    ensures GaugeFillPercent(CalculateScore(Defaults)) > 100.0
  {
    ScoreClosedForm(Defaults);
  }

  // ---------------------------------------------------------------------
  // Label and colour

  /** `getScoreLabel`. */
  function ScoreLabel(score: int): string
  {
    if score >= 750 then "Excellent"
    else if score >= 670 then "Good"
    else if score >= 580 then "Fair"
    else "Poor"
  }

  /** `getScoreColor`. */
  function ScoreColor(score: int): string
  {
    if score >= 750 then "text-emerald-600"
    else if score >= 670 then "text-emerald-500"
    else if score >= 580 then "text-yellow-500"
    else "text-red-500"
  }

  /** The position of a label in the order Poor < Fair < Good < Excellent. */
  function LabelRank(name: string): int
  {
    if name == "Excellent" then 3
    else if name == "Good" then 2
    else if name == "Fair" then 1
    else 0
  }

  /** Each score gets exactly one of four labels, by half-open bands. */
  lemma LabelBands(score: int)
    ensures ScoreLabel(score) in ["Excellent", "Good", "Fair", "Poor"]
    ensures ScoreLabel(score) == "Excellent" <==> score >= 750
    ensures ScoreLabel(score) == "Good" <==> 670 <= score < 750
    ensures ScoreLabel(score) == "Fair" <==> 580 <= score < 670
    ensures ScoreLabel(score) == "Poor" <==> score < 580
  {
  }

  /** A higher score never gets a lower label. */
  lemma LabelMonotone(s: int, t: int)
    requires s <= t
    ensures LabelRank(ScoreLabel(s)) <= LabelRank(ScoreLabel(t))
  {
  }

  /** Colour and label use the same thresholds: two scores share a colour
      exactly when they share a label. */
  lemma ColorMatchesLabel(s: int, t: int)
    ensures ScoreColor(s) == ScoreColor(t) <==> ScoreLabel(s) == ScoreLabel(t)
  {
  }

  /** The badge shows the check icon (score >= 670) exactly for the labels
      Good and Excellent. */
  lemma CheckIconForGoodScores(score: int)
    ensures score >= 670 <==> ScoreLabel(score) in ["Good", "Excellent"]
  {
  }

  // ---------------------------------------------------------------------
  // Advice

  /** The factors that can draw advice, in the order they are checked. */
  datatype Factor = PaymentHistory | CreditUtilization | AccountAge | CreditMix

  const FactorOrder: seq<Factor> := [PaymentHistory, CreditUtilization, AccountAge, CreditMix]

  /** The condition under which a factor draws advice. */
  predicate NeedsWork(k: Factor, f: Factors)
  {
    match k
    case PaymentHistory => f.paymentHistory < 95
    case CreditUtilization => f.creditUtilization > 30
    case AccountAge => f.accountAge < 5
    case CreditMix => f.creditMix < 3
  }

  function AdviceText(k: Factor): string
  {
    match k
    case PaymentHistory => "Improve payment consistency"
    case CreditUtilization => "Reduce credit utilization below 30%"
    case AccountAge => "Maintain older accounts"
    case CreditMix => "Diversify credit types"
  }

  const AllClear := "Great job! Maintain current habits"

  function Messages(ks: seq<Factor>): seq<string>
  {
    if ks == [] then [] else [AdviceText(ks[0])] + Messages(ks[1..])
  }

  /** The test handed to `filter` for the sliders `f`. */
  function Needs(f: Factors): Factor -> bool
  {
    k => NeedsWork(k, f)
  }

  /** The factors that draw advice, in factor order. */
  function Fired(f: Factors): seq<Factor>
  {
    Lists.Filter(FactorOrder, Needs(f))
  }

  /** One more factor adds its message at the end. */
  lemma {:induction false} MessagesSnoc(ks: seq<Factor>, k: Factor)
    ensures Messages(ks + [k]) == Messages(ks) + [AdviceText(k)]
  {
    if ks != [] {
      assert (ks + [k])[1..] == ks[1..] + [k];
      MessagesSnoc(ks[1..], k);
    }
  }

  /** The advice list as a rule table: the message of every factor that
      needs work, in factor order, or the single all-clear message. */
  function Advice(f: Factors): seq<string>
  {
    var fired := Fired(f);
    if fired == [] then [AllClear] else Messages(fired)
  }

  /** The fired factors, one test at a time, as `getScoreAdvice` pushes
      them. */
  lemma FiredStepwise(f: Factors)
    ensures Fired(f) ==
      (if f.paymentHistory < 95 then [PaymentHistory] else []) +
      (if f.creditUtilization > 30 then [CreditUtilization] else []) +
      (if f.accountAge < 5 then [AccountAge] else []) +
      (if f.creditMix < 3 then [CreditMix] else [])
  {
    var p := Needs(f);
    var s := FactorOrder;
    assert s[1..] == [CreditUtilization, AccountAge, CreditMix];
    assert s[1..][1..] == [AccountAge, CreditMix];
    assert s[1..][1..][1..] == [CreditMix];
    assert s[1..][1..][1..][1..] == [];
    var r3 := Lists.Filter([CreditMix], p);
    assert r3 == (if f.creditMix < 3 then [CreditMix] else []);
    var r2 := Lists.Filter([AccountAge, CreditMix], p);
    assert r2 == (if f.accountAge < 5 then [AccountAge] else []) + r3;
    var r1 := Lists.Filter([CreditUtilization, AccountAge, CreditMix], p);
    assert r1 == (if f.creditUtilization > 30 then [CreditUtilization] else []) + r2;
  }

  lemma {:induction false} MessagesSpec(ks: seq<Factor>)
    ensures |Messages(ks)| == |ks|
    ensures forall i :: 0 <= i < |ks| ==> Messages(ks)[i] == AdviceText(ks[i])
  {
    if ks != [] {
      MessagesSpec(ks[1..]);
    }
  }

  lemma {:induction false} MessagesOfSublist(a: seq<Factor>, b: seq<Factor>)
    requires Lists.IsSublist(a, b)
    ensures Lists.IsSublist(Messages(a), Messages(b))
    decreases |b|
  {
    MessagesSpec(a);
    MessagesSpec(b);
    if a != [] {
      if a[0] == b[0] {
        MessagesOfSublist(a[1..], b[1..]);
        assert Messages(a)[1..] == Messages(a[1..]);
      } else {
        MessagesOfSublist(a, b[1..]);
        Lists.SublistOfTail(Messages(a), Messages(b));
      }
    }
  }

  /** Which factors fire: exactly those needing work, taken in factor order. */
  lemma FiredSpec(f: Factors)
    ensures var fired := Fired(f);
      && Lists.IsSublist(fired, FactorOrder)
      && |fired| <= 4
      && (forall k :: k in fired <==> NeedsWork(k, f))
  {
    var fired := Fired(f);
    Lists.FilterSpec(FactorOrder, Needs(f));
    assert |FactorOrder| == 4;
    forall k
      ensures k in fired <==> NeedsWork(k, f)
    {
      match k
      case PaymentHistory => assert FactorOrder[0] == k;
      case CreditUtilization => assert FactorOrder[1] == k;
      case AccountAge => assert FactorOrder[2] == k;
      case CreditMix => assert FactorOrder[3] == k;
    }
  }

  /** The advice list is never empty, holds at most one message per factor,
      and repeats no message. */
  lemma AdviceShape(f: Factors)
    ensures 1 <= |Advice(f)| <= 4
    ensures Lists.NoDuplicates(Advice(f))
  {
    var fired := Fired(f);
    FiredSpec(f);
    if fired != [] {
      MessagesOfSublist(fired, FactorOrder);
      MessagesSpec(fired);
      MessagesSpec(FactorOrder);
      Lists.SublistOfDistinct(Messages(fired), Messages(FactorOrder));
    }
  }

  /** The all-clear message is the whole advice exactly when no factor needs
      work: p >= 95, u <= 30, a >= 5 and m >= 3. */
  lemma AdviceAllClearIff(f: Factors)
    ensures Advice(f) == [AllClear] <==>
      f.paymentHistory >= 95 && f.creditUtilization <= 30 && f.accountAge >= 5 && f.creditMix >= 3
  {
    var fired := Fired(f);
    FiredSpec(f);
    if fired != [] {
      MessagesSpec(fired);
      assert Messages(fired)[0] == AdviceText(fired[0]) != AllClear;
      assert NeedsWork(fired[0], f);
    } else {
      assert !NeedsWork(PaymentHistory, f) && !NeedsWork(CreditUtilization, f);
      assert !NeedsWork(AccountAge, f) && !NeedsWork(CreditMix, f);
    }
  }

  /** Different factors have different messages. */
  lemma {:induction false} MessagesMembership(ks: seq<Factor>, k: Factor)
    ensures AdviceText(k) in Messages(ks) <==> k in ks
  {
    if ks != [] {
      MessagesMembership(ks[1..], k);
      assert ks == [ks[0]] + ks[1..];
    }
  }

  /** A factor's message appears in the advice exactly when it needs work. */
  lemma AdviceMentions(f: Factors, k: Factor)
    ensures AdviceText(k) in Advice(f) <==> NeedsWork(k, f)
  {
    var fired := Fired(f);
    FiredSpec(f);
    MessagesMembership(fired, k);
  }

  /** Apart from the all-clear case, the advice keeps the factor order
      payment, utilisation, age, mix. */
  lemma AdviceInFactorOrder(f: Factors)
    ensures Advice(f) == [AllClear] || Lists.IsSublist(Advice(f), Messages(FactorOrder))
  {
    var fired := Fired(f);
    FiredSpec(f);
    if fired != [] {
      MessagesOfSublist(fired, FactorOrder);
    }
  }

  /** The worst sliders draw all four messages and the lowest score. */
  lemma WorstCase()
    ensures Advice(Factors(50, 100, 0, 1)) == Messages(FactorOrder)
    ensures ScoreLabel(CalculateScore(Factors(50, 100, 0, 1))) == "Poor"
  {
    var f := Factors(50, 100, 0, 1);
    ScoreClosedForm(f);
    Lists.FilterKeepsAll(FactorOrder, Needs(f));
  }

  // ---------------------------------------------------------------------
  // The component's state

  /** The estimator component: the four slider values it holds as state. */
  class Calculator {
    var paymentHistory: int
    var creditUtilization: int
    var accountAge: int
    var creditMix: int

    function Inputs(): Factors
      reads this
    {
      Factors(paymentHistory, creditUtilization, accountAge, creditMix)
    }

    /** Every slider value stays within its slider's bounds. */
    ghost predicate Valid()
      reads this
    {
      InDomain(Inputs())
    }

    constructor ()
      ensures Valid() && Inputs() == Defaults
    {
      paymentHistory, creditUtilization, accountAge, creditMix := 95, 30, 7, 3;
    }

    method SetPaymentHistory(v: int)
      requires Valid() && InRange(PaymentHistorySlider, v)
      modifies this
      ensures Valid() && Inputs() == old(Inputs()).(paymentHistory := v)
    {
      paymentHistory := v;
    }

    method SetCreditUtilization(v: int)
      requires Valid() && InRange(CreditUtilizationSlider, v)
      modifies this
      ensures Valid() && Inputs() == old(Inputs()).(creditUtilization := v)
    {
      creditUtilization := v;
    }

    method SetAccountAge(v: int)
      requires Valid() && InRange(AccountAgeSlider, v)
      modifies this
      ensures Valid() && Inputs() == old(Inputs()).(accountAge := v)
    {
      accountAge := v;
    }

    method SetCreditMix(v: int)
      requires Valid() && InRange(CreditMixSlider, v)
      modifies this
      ensures Valid() && Inputs() == old(Inputs()).(creditMix := v)
    {
      creditMix := v;
    }

    /** The score of the current sliders, computed in integers; it equals
        the rational formula and lies in [495, 1200]. */
    method Score() returns (score: int)
      requires Valid()
      ensures score == CalculateScore(Inputs())
      ensures 495 <= score <= 1200
    {
      var ageYears := if accountAge < 15 then accountAge else 15;
      score := 300 + 3 * (100 - creditUtilization) + 10 * ageYears + 20 * creditMix
               + (7 * paymentHistory + 1) / 2;
      ScoreClosedForm(Inputs());
      ScoreBounds(Inputs());
    }

    /** `getScoreAdvice`: push one message per factor that needs work, in
        factor order; if none was pushed, the all-clear message. */
    method GetScoreAdvice() returns (advice: seq<string>)
      requires Valid()
      ensures advice == Advice(Inputs())
    {
      ghost var f := Inputs();
      ghost var fired: seq<Factor> := [];
      advice := [];
      if paymentHistory < 95 {
        MessagesSnoc(fired, PaymentHistory);
        advice := advice + ["Improve payment consistency"];
        fired := fired + [PaymentHistory];
      }
      assert advice == Messages(fired);
      assert fired == (if f.paymentHistory < 95 then [PaymentHistory] else []);
      if creditUtilization > 30 {
        MessagesSnoc(fired, CreditUtilization);
        advice := advice + ["Reduce credit utilization below 30%"];
        fired := fired + [CreditUtilization];
      }
      assert advice == Messages(fired);
      if accountAge < 5 {
        MessagesSnoc(fired, AccountAge);
        advice := advice + ["Maintain older accounts"];
        fired := fired + [AccountAge];
      }
      assert advice == Messages(fired);
      if creditMix < 3 {
        MessagesSnoc(fired, CreditMix);
        advice := advice + ["Diversify credit types"];
        fired := fired + [CreditMix];
      }
      assert advice == Messages(fired);
      FiredStepwise(f);
      assert fired == Fired(f);
      MessagesSpec(fired);
      if |advice| == 0 {
        advice := ["Great job! Maintain current habits"];
      }
    }
  }
}
