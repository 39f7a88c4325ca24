/**
 * The churn-risk scorer: banded contributions for age, tenure and monthly
 * charges, a linear term for support calls, three weight tables with
 * defaults, a clamp to [0, 100], a four-tier classification, and the text
 * report the scorer returns (or its "Error: " string).
 */
module ChurnRisk {
  import opened Text

  /** The seven values the form passes to the scorer. */
  datatype Profile = Profile(
    age: int,
    tenure: int,
    monthlyCharges: real,
    supportCalls: int,
    contractType: string,
    paymentMethod: string,
    customerType: string)

  datatype Tier = Low | Medium | High | Critical

  /** The fields the scorer fills in before rendering the report. */
  datatype Report = Report(tier: Tier, score: int, probability: string, recommendation: string)

  datatype Option<T> = None | Some(value: T)

  /** What the guarded body of the scorer yields: a report, or the message of a fault. */
  datatype Outcome = Ok(report: Report) | Err(message: string)

  // ---------------------------------------------------------------------
  // Contributions

  /** Age bands, checked in the order <25, <35, >60; ages 35..60 add nothing. */
  function AgeContribution(age: int): (r: int)
    ensures age < 25 ==> r == 25
    ensures 25 <= age < 35 ==> r == 15
    ensures 35 <= age <= 60 ==> r == 0
    ensures age > 60 ==> r == 10
  {
    if age < 25 then 25
    else if age < 35 then 15
    else if age > 60 then 10
    else 0
  }

  /** Tenure bands, in months: the shorter the tenure, the larger the contribution. */
  function TenureContribution(tenure: int): (r: int)
    ensures tenure < 6 ==> r == 30
    ensures 6 <= tenure < 12 ==> r == 20
    ensures 12 <= tenure < 24 ==> r == 10
    ensures tenure >= 24 ==> r == 0
  {
    if tenure < 6 then 30
    else if tenure < 12 then 20
    else if tenure < 24 then 10
    else 0
  }

  /** Monthly-charges bands; both thresholds are strict. */
  function ChargesContribution(charges: real): (r: int)
    ensures charges > 100.0 ==> r == 20
    ensures 70.0 < charges <= 100.0 ==> r == 15
    ensures charges <= 70.0 ==> r == 0
  {
    if charges > 100.0 then 20
    else if charges > 70.0 then 15
    else 0
  }

  /** Support calls: 8 points per call, with no cap before the final clamp. */
  function SupportCallsContribution(calls: int): (r: int)
    ensures calls >= 0 ==> r >= 0
    ensures 0 <= calls <= 10 ==> r <= 80
  {
    calls * 8
  }

  const ContractWeights: map<string, int> :=
    map["Monthly" := 25, "Quarterly" := 15, "Annual" := 5, "Two-Year" := 0]

  const PaymentWeights: map<string, int> :=
    map["Electronic" := 0, "Credit Card" := 5, "Bank Transfer" := 10, "Manual" := 20]

  const TypeWeights: map<string, int> :=
    map["Young Professional" := -5, "Family User" := -10, "Senior Citizen" := 5,
        "Student" := 15, "Business User" := -15]

  /** A table lookup that falls back to a default for unknown keys (a dictionary's `get`). */
  function WeightOr(table: map<string, int>, key: string, default: int): (r: int)
    ensures key in table ==> r == table[key]
    ensures key !in table ==> r == default
  {
    if key in table then table[key] else default
  }

  function ContractWeight(contractType: string): (r: int)
    ensures contractType == "Monthly" ==> r == 25
    ensures contractType == "Quarterly" ==> r == 15
    ensures contractType == "Annual" ==> r == 5
    ensures contractType == "Two-Year" ==> r == 0
    ensures contractType !in ContractWeights ==> r == 15
  {
    WeightOr(ContractWeights, contractType, 15)
  }

  function PaymentWeight(paymentMethod: string): (r: int)
    ensures paymentMethod == "Electronic" ==> r == 0
    ensures paymentMethod == "Credit Card" ==> r == 5
    ensures paymentMethod == "Bank Transfer" ==> r == 10
    ensures paymentMethod == "Manual" ==> r == 20
    ensures paymentMethod !in PaymentWeights ==> r == 10
  {
    WeightOr(PaymentWeights, paymentMethod, 10)
  }

  function TypeWeight(customerType: string): (r: int)
    ensures customerType == "Young Professional" ==> r == -5
    ensures customerType == "Family User" ==> r == -10
    ensures customerType == "Senior Citizen" ==> r == 5
    ensures customerType == "Student" ==> r == 15
    ensures customerType == "Business User" ==> r == -15
    ensures customerType !in TypeWeights ==> r == 0
  {
    WeightOr(TypeWeights, customerType, 0)
  }

  /**
   * The score before normalisation: the sum of the seven contributions. Apart
   * from the support-call term it lies between -15 and 135.
   */
  function RawScore(p: Profile): (r: int)
    ensures 8 * p.supportCalls - 15 <= r <= 8 * p.supportCalls + 135
  {
    AgeContribution(p.age)
    + TenureContribution(p.tenure)
    + ChargesContribution(p.monthlyCharges)
    + SupportCallsContribution(p.supportCalls)
    + ContractWeight(p.contractType)
    + PaymentWeight(p.paymentMethod)
    + TypeWeight(p.customerType)
  }

  function Min(a: int, b: int): int {
    if a <= b then a else b
  }

  function Max(a: int, b: int): int {
    if a >= b then a else b
  }

  /** Normalisation `max(0, min(100, x))`. */
  function Clamp(x: int): (r: int)
    ensures 0 <= r <= 100
    ensures 0 <= x <= 100 ==> r == x
    ensures x < 0 ==> r == 0
    ensures x > 100 ==> r == 100
  {
    Max(0, Min(100, x))
  }

  // ---------------------------------------------------------------------
  // Tiers

  /** Tier selection, highest threshold first; each threshold belongs to the higher tier. */
  function TierOf(score: int): (t: Tier)
    ensures t == Critical <==> score >= 70
    ensures t == High <==> 50 <= score < 70
    ensures t == Medium <==> 30 <= score < 50
    ensures t == Low <==> score < 30
  {
    if score >= 70 then Critical
    else if score >= 50 then High
    else if score >= 30 then Medium
    else Low
  }

  /** The risk-level text shown for a tier, icon included. */
  function Label(t: Tier): (s: string)
    ensures NoNewline(s)
  {
    match t
    case Critical => "\U{1F6A8} CRITICAL"
    case High => "\U{26A0}\U{FE0F} HIGH"
    case Medium => "\U{1F4CA} MEDIUM"
    case Low => "\U{2705} LOW"
  }

  function Probability(t: Tier): (s: string)
    ensures NoNewline(s)
  {
    match t
    case Critical => "85-100%"
    case High => "65-84%"
    case Medium => "35-64%"
    case Low => "0-34%"
  }

  const BulletMark: string := "\U{2022} "

  /** The three actions recommended for a tier, each on a line of its own. */
  function Bullets(t: Tier): (ls: seq<string>)
    ensures |ls| == 3
    ensures forall k :: 0 <= k < 3 ==> BulletMark <= ls[k] && NoNewline(ls[k])
  {
    var actions :=
      match t
      case Critical => ["Personal call from manager", "Special discount offer", "Service review meeting"]
      case High => ["Loyalty program offer", "Feature education", "Satisfaction survey"]
      case Medium => ["Regular check-in calls", "Newsletter", "Usage tips"]
      case Low => ["Continue excellent service", "Upsell opportunities", "Referral program"];
    [BulletMark + actions[0], BulletMark + actions[1], BulletMark + actions[2]]
  }

  /**
   * The recommendation text of a tier: its three bullet lines separated by
   * newline characters, read back line by line as exactly those bullets.
   */
  function Recommendation(t: Tier): (s: string)
    ensures SplitLines(s) == Bullets(t)
  {
    SplitLinesOfJoinLines(Bullets(t));
    JoinLines(Bullets(t))
  }

  /** The report for a clamped score: tier, probability and recommendation follow from the score alone. */
  function ReportFor(score: int): (r: Report)
    ensures r.score == score
    ensures score >= 70 ==> r.tier == Critical && r.probability == "85-100%"
    ensures 50 <= score < 70 ==> r.tier == High && r.probability == "65-84%"
    ensures 30 <= score < 50 ==> r.tier == Medium && r.probability == "35-64%"
    ensures score < 30 ==> r.tier == Low && r.probability == "0-34%"
    ensures r.recommendation == Recommendation(r.tier)
  {
    var t := TierOf(score);
    Report(t, score, Probability(t), Recommendation(t))
  }

  /** The guarded computation of the scorer, up to (not including) rendering. */
  function Assess(p: Profile): (r: Report)
    ensures 0 <= r.score <= 100
    ensures 0 <= RawScore(p) <= 100 ==> r.score == RawScore(p)
    ensures RawScore(p) < 0 ==> r.score == 0
    ensures RawScore(p) > 100 ==> r.score == 100
    ensures r == ReportFor(r.score)
  {
    ReportFor(Clamp(RawScore(p)))
  }

  // ---------------------------------------------------------------------
  // Properties of the score

  /** The ranges the form's sliders allow. */
  function InFormRange(p: Profile): (b: bool)
    ensures b ==> -15 <= RawScore(p) <= 215
  {
    && 18 <= p.age <= 80
    && 1 <= p.tenure <= 60
    && 20.0 <= p.monthlyCharges <= 200.0
    && 0 <= p.supportCalls <= 10
  }

  /** Each threshold belongs to the higher tier. */
  lemma TierBoundaries()
    ensures TierOf(70) == Critical && TierOf(69) == High
    ensures TierOf(50) == High && TierOf(49) == Medium
    ensures TierOf(30) == Medium && TierOf(29) == Low
  {
  }

  /** Age 25 misses the under-25 band and lands in the 25..34 band. */
  lemma AgeBoundaries()
    ensures AgeContribution(24) == 25 && AgeContribution(25) == 15
    ensures AgeContribution(34) == 15 && AgeContribution(35) == 0
    ensures AgeContribution(60) == 0 && AgeContribution(61) == 10
  {
  }

  /** A longer tenure never adds more risk. */
  lemma TenureNonIncreasing(t1: int, t2: int)
    requires t1 <= t2
    ensures TenureContribution(t2) <= TenureContribution(t1)
  {
  }

  /** Higher monthly charges never add less risk. */
  lemma ChargesNonDecreasing(c1: real, c2: real)
    requires c1 <= c2
    ensures ChargesContribution(c1) <= ChargesContribution(c2)
  {
  }

  /** Each extra support call adds exactly 8 to the score before normalisation. */
  lemma SupportCallStep(p: Profile)
    ensures RawScore(p.(supportCalls := p.supportCalls + 1)) == RawScore(p) + 8
  {
  }

  /** More support calls, all else equal, never lower the final score. */
  lemma SupportCallsMonotone(p: Profile, calls: int)
    requires p.supportCalls <= calls
    ensures Assess(p).score <= Assess(p.(supportCalls := calls)).score
  {
  }

  /** Tier, probability and recommendation depend only on the final score. */
  lemma SameScoreSameReport(p1: Profile, p2: Profile)
    ensures Assess(p1).score == Assess(p2).score ==> Assess(p1) == Assess(p2)
  {
  }

  /** Within the form's ranges the clamp is reached at both ends. */
  lemma ClampReachedInFormRange()
    ensures var worst := Profile(20, 1, 150.0, 10, "Monthly", "Manual", "Student");
            InFormRange(worst) && RawScore(worst) == 215 && Assess(worst).score == 100
    ensures var best := Profile(40, 30, 50.0, 0, "Two-Year", "Electronic", "Business User");
            InFormRange(best) && RawScore(best) == -15 && Assess(best).score == 0
  {
  }

  /** The form's initial values: 0 + 10 + 15 + 16 + 25 + 5 - 5 = 66, a HIGH risk. */
  lemma FormDefaultsExample()
    ensures var p := Profile(35, 12, 75.0, 2, "Monthly", "Credit Card", "Young Professional");
            && InFormRange(p)
            && RawScore(p) == 66
            && Assess(p) == Report(High, 66, "65-84%", Recommendation(High))
  {
  }

  // ---------------------------------------------------------------------
  // The text the scorer returns

  const ErrorPrefix: string := "Error: "
  const ScorePrefix: string := "\U{1F4CA} **Risk Score**: "

  /** The report's opening section: the heading and the assessment itself. */
  function SummaryLines(r: Report): (ls: seq<string>)
    ensures |ls| == 7
  {
    [ "",
      "**CUSTOMER CHURN" + " RISK ASSESSMENT**",
      "",
      "\U{1F3AF} **Risk Level**: " + Label(r.tier),
      ScorePrefix + IntToDecimal(r.score) + "/100",
      "\U{1F4C8} **Churn Probability**: " + r.probability,
      "" ]
  }

  /** One bulleted line of the profile echo. */
  function ProfileField(name: string, value: string): (s: string)
    ensures NoNewline(name) && NoNewline(value) ==> NoNewline(s)
  {
    BulletMark + name + ": " + value
  }

  /** The echo of the customer's profile, up to the heading of the recommendations. */
  function ProfileLines(p: Profile, chargesText: string): (ls: seq<string>)
    ensures |ls| == 10
  {
    [ "**CUSTOMER PROFILE:**",
      ProfileField("Age", IntToDecimal(p.age) + " years"),
      ProfileField("Tenure", IntToDecimal(p.tenure) + " months  "),
      ProfileField("Monthly Charges", "$" + chargesText),
      ProfileField("Support Calls", IntToDecimal(p.supportCalls) + " this month"),
      ProfileField("Contract", p.contractType),
      ProfileField("Payment", p.paymentMethod),
      ProfileField("Profile", p.customerType),
      "",
      "**\U{1F4A1} RETENTION STRATEGY:**" ]
  }

  /** The report template's lines before the recommendation text. */
  function HeadLines(r: Report, p: Profile, chargesText: string): (ls: seq<string>)
    ensures |ls| == 17
  {
    SummaryLines(r) + ProfileLines(p, chargesText)
  }

  /** The report template's lines after the recommendation text. */
  // The long closing line is written in two pieces, as is the heading, which
  // keeps the proof that it holds no newline small.
  const TailLines: seq<string> :=
    ["", "---", "*AI-powered business intelligence" + " for customer retention*", ""]

  /**
   * The report text. `chargesText` is the decimal text of the monthly charges
   * as the host language prints the number; the integers are printed here.
   */
  function Render(r: Report, p: Profile, chargesText: string): (s: string)
    ensures |s| > 0 && s[0] == '\n'
  {
    var lines := HeadLines(r, p, chargesText) + [r.recommendation] + TailLines;
    JoinLinesOpensBlank(lines);
    JoinLines(lines)
  }

  /** The top-level handler: a report is rendered, a fault becomes "Error: " and its message. */
  function Respond(o: Outcome, p: Profile, chargesText: string): (s: string)
    ensures ErrorPrefix <= s <==> o.Err?
    ensures o.Err? ==> s[|ErrorPrefix|..] == o.message
  {
    match o
    case Ok(r) => Render(r, p, chargesText)
    case Err(m) => ErrorPrefix + m
  }

  /**
   * The scorer as a whole: profile in, report text out. With typed inputs no
   * step of the guarded block can fault, so it never answers with an error.
   */
  function PredictChurnRisk(p: Profile, chargesText: string): (s: string)
    ensures !(ErrorPrefix <= s)
  {
    Respond(Ok(Assess(p)), p, chargesText)
  }

  /**
   * Read line by line, a report whose free-text fields hold no newline is the
   * template's head lines, the tier's three bullets and the closing lines:
   * 24 lines in all.
   */
  lemma ReportTextLines(p: Profile, chargesText: string)
    requires NoNewline(p.contractType) && NoNewline(p.paymentMethod) && NoNewline(p.customerType)
    requires NoNewline(chargesText)
    ensures SplitLines(PredictChurnRisk(p, chargesText))
            == HeadLines(Assess(p), p, chargesText) + Bullets(Assess(p).tier) + TailLines
    ensures |SplitLines(PredictChurnRisk(p, chargesText))| == 24
  {
    var r := Assess(p);
    var head := HeadLines(r, p, chargesText);
    HeadLinesHaveNoNewline(r, p, chargesText);
    TailLinesHaveNoNewline();
    SplitLinesOfSplicedText(head, Bullets(r.tier), TailLines);
  }

  lemma SummaryLinesHaveNoNewline(r: Report)
    requires NoNewline(r.probability)
    ensures forall k :: 0 <= k < 7 ==> NoNewline(SummaryLines(r)[k])
  {
  }

  lemma ProfileLinesHaveNoNewline(p: Profile, chargesText: string)
    requires NoNewline(p.contractType) && NoNewline(p.paymentMethod) && NoNewline(p.customerType)
    requires NoNewline(chargesText)
    ensures forall k :: 0 <= k < 10 ==> NoNewline(ProfileLines(p, chargesText)[k])
  {
  }

  lemma TailLinesHaveNoNewline()
    ensures NoNewlines(TailLines)
  {
  }

  lemma HeadLinesHaveNoNewline(r: Report, p: Profile, chargesText: string)
    requires NoNewline(p.contractType) && NoNewline(p.paymentMethod) && NoNewline(p.customerType)
    requires NoNewline(chargesText)
    requires NoNewline(r.probability)
    ensures NoNewlines(HeadLines(r, p, chargesText))
  {
    SummaryLinesHaveNoNewline(r);
    ProfileLinesHaveNoNewline(p, chargesText);
  }

  /**
   * Reads the score back from a report's score line: the score prefix, an
   * integer in decimal, then "/100".
   */
  function ReadScore(line: string): Option<int> {
    var n := |ScorePrefix|;
    if |line| >= n + 4 && line[..n] == ScorePrefix && line[|line| - 4..] == "/100"
       && IsIntText(line[n..|line| - 4])
    then Some(ParseInt(line[n..|line| - 4]))
    else None
  }

  lemma ScoreIsFifthLine(r: Report, p: Profile, chargesText: string)
    ensures HeadLines(r, p, chargesText)[4] == ScorePrefix + IntToDecimal(r.score) + "/100"
  {
  }

  lemma ScoreReadFromLines(lines: seq<string>, r: Report, p: Profile, chargesText: string)
    requires lines == HeadLines(r, p, chargesText) + Bullets(r.tier) + TailLines
    ensures |lines| == 24 && ReadScore(lines[4]) == Some(r.score)
  {
    ScoreIsFifthLine(r, p, chargesText);
    assert lines[4] == HeadLines(r, p, chargesText)[4];
    ScoreLineRoundTrip(r.score);
  }

  /** The score line as the report prints it reads back as the same score. */
  lemma ScoreLineRoundTrip(score: int)
    ensures ReadScore(ScorePrefix + IntToDecimal(score) + "/100") == Some(score)
  {
    var digits := IntToDecimal(score);
    var line := ScorePrefix + digits + "/100";
    assert line[..|ScorePrefix|] == ScorePrefix;
    assert line[|line| - 4..] == "/100";
    assert line[|ScorePrefix|..|line| - 4] == digits;
    IntToDecimalRoundTrip(score);
  }

  /**
   * The fifth line of the report shows the clamped score, and reading it
   * back gives that score.
   */
  lemma ScoreLineShowsScore(p: Profile, chargesText: string)
    requires NoNewline(p.contractType) && NoNewline(p.paymentMethod) && NoNewline(p.customerType)
    requires NoNewline(chargesText)
    ensures |SplitLines(PredictChurnRisk(p, chargesText))| == 24
    ensures ReadScore(SplitLines(PredictChurnRisk(p, chargesText))[4]) == Some(Assess(p).score)
  {
    ReportTextLines(p, chargesText);
    var r := Assess(p);
    ScoreReadFromLines(SplitLines(PredictChurnRisk(p, chargesText)), r, p, chargesText);
  }
}
