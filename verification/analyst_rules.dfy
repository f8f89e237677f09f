/** The small classifiers of the AI analyst panel: the risk label and colour
    of a risk score, the colour of the risk gauge, and the badge and icon
    chosen for a recommendation text. */
module AnalystRules {
  import opened Text

  /** The three colour families the panel uses for risk. */
  datatype Tone = Rose | Amber | Emerald

  function ToneClass(t: Tone): string {
    match t
    case Rose => "text-rose-500"
    case Amber => "text-amber-500"
    case Emerald => "text-emerald-500"
  }

  function ToneStroke(t: Tone): string {
    match t
    case Rose => "#f43f5e"
    case Amber => "#f59e0b"
    case Emerald => "#10b981"
  }

  /** The tone `getRiskColor` and `getRiskLabel` both pick: at or above 75,
      at or above 50, below 50. */
  function RiskTone(score: real): (t: Tone)
    ensures t == Rose <==> score >= 75.0
    ensures t == Amber <==> 50.0 <= score < 75.0
    ensures t == Emerald <==> score < 50.0
  {
    if score >= 75.0 then Rose else if score >= 50.0 then Amber else Emerald
  }

  function RiskColor(score: real): string {
    ToneClass(RiskTone(score))
  }

  function RiskLabel(score: real): (r: string)
    ensures r == "HIGH EXPOSURE" <==> score >= 75.0
    ensures r == "MODERATE RISK" <==> 50.0 <= score < 75.0
    ensures r == "CONSERVATIVE" <==> score < 50.0
  {
    if score >= 75.0 then "HIGH EXPOSURE"
    else if score >= 50.0 then "MODERATE RISK"
    else "CONSERVATIVE"
  }

  function LabelOf(t: Tone): string {
    match t
    case Rose => "HIGH EXPOSURE"
    case Amber => "MODERATE RISK"
    case Emerald => "CONSERVATIVE"
  }

  /** The label and the colour of a score always belong together: two scores
      share a label exactly when they share a colour. */
  lemma RiskLabelMatchesColor(s: real, u: real)
    ensures RiskLabel(s) == LabelOf(RiskTone(s))
    ensures RiskLabel(s) == RiskLabel(u) <==> RiskColor(s) == RiskColor(u)
  {
  }

  /** The gauge stroke uses strict comparisons (above 75, above 50). */
  function GaugeTone(score: real): (t: Tone)
    ensures t == Rose <==> score > 75.0
    ensures t == Emerald <==> score <= 50.0
  {
    if score > 75.0 then Rose else if score > 50.0 then Amber else Emerald
  }

  /** The gauge and the label colour disagree at exactly two scores: 50 and 75. */
  lemma GaugeDiffersOnlyAtThresholds(score: real)
    ensures ToneStroke(GaugeTone(score)) != ToneStroke(RiskTone(score)) <==> score == 50.0 || score == 75.0
  {
  }

  const BuyWords: seq<string> := ["buy", "increase", "add", "invest"]
  const SellWords: seq<string> := ["sell", "reduce", "trim"]
  const HedgeWords: seq<string> := ["hedge", "protect"]

  datatype Badge = Accumulate | Reduce | Hedge | Strategy

  function BadgeLabel(b: Badge): string {
    match b
    case Accumulate => "ACCUMULATE"
    case Reduce => "REDUCE"
    case Hedge => "HEDGE"
    case Strategy => "STRATEGY"
  }

  /** `getActionBadge`: the lower-cased text is matched against the buy group,
      then the sell group, then the hedge group; the first group with a
      matching word decides. */
  function ActionBadge(text: string): (b: Badge)
    ensures b == Accumulate <==> IncludesAny(Lower(text), BuyWords)
    ensures b == Reduce <==> !IncludesAny(Lower(text), BuyWords) && IncludesAny(Lower(text), SellWords)
    ensures b == Hedge <==>
      !IncludesAny(Lower(text), BuyWords) && !IncludesAny(Lower(text), SellWords)
      && IncludesAny(Lower(text), HedgeWords)
  {
    var lower := Lower(text);
    if IncludesAny(lower, BuyWords) then Accumulate
    else if IncludesAny(lower, SellWords) then Reduce
    else if IncludesAny(lower, HedgeWords) then Hedge
    else Strategy
  }

  datatype RecIcon = TrendingUp | TrendingDown | TargetIcon

  /** `getRecIcon`: the same buy group, but "hedge" joins the sell group and
      "protect" is not looked for. */
  function RecIconOf(text: string): (icon: RecIcon)
    ensures icon == TrendingUp <==> IncludesAny(Lower(text), BuyWords)
    ensures icon == TrendingDown <==>
      !IncludesAny(Lower(text), BuyWords)
      && (IncludesAny(Lower(text), SellWords) || Includes(Lower(text), "hedge"))
    ensures icon == TargetIcon <==>
      !IncludesAny(Lower(text), BuyWords) && !IncludesAny(Lower(text), SellWords)
      && !Includes(Lower(text), "hedge")
  {
    var lower := Lower(text);
    IncludesAnyAppend(lower, SellWords, "hedge");
    if IncludesAny(lower, BuyWords) then TrendingUp
    else if IncludesAny(lower, SellWords + ["hedge"]) then TrendingDown
    else TargetIcon
  }

  /** Case does not matter: a text and its lower-cased form get the same
      badge and the same icon. */
  lemma BadgeIgnoresCase(text: string)
    ensures ActionBadge(Lower(text)) == ActionBadge(text)
    ensures RecIconOf(Lower(text)) == RecIconOf(text)
  {
    LowerIdempotent(text);
  }

  lemma IncludesAnyAppend(s: string, a: seq<string>, w: string)
    ensures IncludesAny(s, a + [w]) <==> IncludesAny(s, a) || Includes(s, w)
  {
    if Includes(s, w) {
      assert (a + [w])[|a|] == w;
    }
    if IncludesAny(s, a) {
      var k :| 0 <= k < |a| && Includes(s, a[k]);
      assert (a + [w])[k] == a[k];
    }
  }

  /** The icon agrees with the badge except on hedging texts: a text whose
      badge is HEDGE because of "hedge" gets the downward icon, one whose
      badge is HEDGE only because of "protect" gets the neutral icon. */
  lemma IconVersusBadge(text: string)
    ensures RecIconOf(text) == TrendingUp <==> ActionBadge(text) == Accumulate
    ensures RecIconOf(text) == TrendingDown <==>
      ActionBadge(text) == Reduce || (ActionBadge(text) == Hedge && Includes(Lower(text), "hedge"))
    ensures RecIconOf(text) == TargetIcon <==>
      ActionBadge(text) == Strategy || (ActionBadge(text) == Hedge && !Includes(Lower(text), "hedge"))
  {
    IncludesAnyAppend(Lower(text), SellWords, "hedge");
    var lower := Lower(text);
    if Includes(lower, "hedge") {
      assert HedgeWords[0] == "hedge";
    }
  }

  /** The word "hedge" alone: badge HEDGE, icon downward. */
  lemma HedgeTextDisagrees()
    ensures ActionBadge("hedge") == Hedge
    ensures RecIconOf("hedge") == TrendingDown
  {
    assert Lower("hedge") == "hedge";
    assert OccursAt("hedge", "hedge", 0);
    forall k | 0 <= k < |BuyWords| ensures !Includes("hedge", BuyWords[k]) {
      FirstLetterAbsent("hedge", BuyWords[k]);
    }
    forall k | 0 <= k < |SellWords| ensures !Includes("hedge", SellWords[k]) {
      FirstLetterAbsent("hedge", SellWords[k]);
    }
    assert Includes("hedge", HedgeWords[0]);
    IconVersusBadge("hedge");
  }
}
