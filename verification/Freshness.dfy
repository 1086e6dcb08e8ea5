/** Shelf-life deadlines of a batch, and the freshness estimate derived from them. */
module Freshness {
  import opened Prelude

  datatype Label = Fresh | Medium | Spoiled

  /** A category rule; either stage may be unset. */
  datatype Rule = Rule(freshDays: Option<int>, mediumDays: Option<int>)

  const DAY := 24 * 60 * 60

  datatype Deadlines = Deadlines(freshAt: Option<Time>, spoiledAt: Option<Time>)

  /** Deadlines fixed at intake by the rule then in force. */
  function Schedule(initial: Option<Label>, rule: Option<Rule>, intake: Time): Deadlines {
    match rule
    case None => Deadlines(None, None)
    case Some(r) =>
      if r.freshDays.None? || r.mediumDays.None? then Deadlines(None, None)
      else
        match initial
        case Some(Fresh) =>
          Deadlines(Some(intake + r.freshDays.value * DAY), Some(intake + r.freshDays.value * DAY + r.mediumDays.value * DAY))
        case Some(Medium) => Deadlines(Some(intake), Some(intake + r.mediumDays.value * DAY))
        case Some(Spoiled) => Deadlines(Some(intake), Some(intake))
        case None => Deadlines(None, None)
  }

  /** SQL's `deadline <= now`, where null is never due. */
  predicate Due(deadline: Option<Time>, now: Time) { deadline.Some? && deadline.value <= now }

  /** The `current_freshness` column of the batch list. */
  function Estimate(initial: Option<Label>, d: Deadlines, now: Time): Option<Label> {
    if Due(d.spoiledAt, now) then Some(Spoiled)
    else if Due(d.freshAt, now) then Some(Medium)
    else initial
  }

  function Rank(l: Label): nat {
    match l
    case Fresh => 0
    case Medium => 1
    case Spoiled => 2
  }

  /** A configured rule, as the admin schema and the table's checks admit it: at least a day per stage. */
  predicate Configured(rule: Option<Rule>) {
    && rule.Some? && rule.value.freshDays.Some? && rule.value.mediumDays.Some?
    && rule.value.freshDays.value >= 1 && rule.value.mediumDays.value >= 1
  }

  /** Unset, or configured with at least a day per stage. */
  predicate Permitted(rule: Option<Rule>) {
    Configured(rule) || rule.None? || rule.value.freshDays.None? || rule.value.mediumDays.None?
  }

  predicate Ordered(d: Deadlines) {
    d.freshAt.Some? && d.spoiledAt.Some? ==> d.freshAt.value <= d.spoiledAt.value
  }

  /** At intake the estimate is the classifier's label, and a configured rule gives two ordered deadlines,
      none of them past the moment the label itself says. */
  lemma IntakeEstimateIsTheLabel(initial: Label, rule: Option<Rule>, intake: Time)
    requires Permitted(rule)
    ensures var d := Schedule(Some(initial), rule, intake);
            && Ordered(d) && Estimate(Some(initial), d, intake) == Some(initial)
            && (Configured(rule) <==> d.freshAt.Some? && d.spoiledAt.Some?)
            && (Configured(rule) ==>
                  (d.freshAt.value > intake <==> initial == Fresh) && (d.spoiledAt.value > intake <==> initial != Spoiled))
  {}

  /** Freshness never moves backwards as time advances, and each stage lasts exactly as the rule says. */
  lemma FreshnessOnlyDeclines(initial: Label, rule: Option<Rule>, intake: Time, t1: Time, t2: Time)
    requires Permitted(rule) && intake <= t1 <= t2
    ensures var d := Schedule(Some(initial), rule, intake);
            && Estimate(Some(initial), d, t1).Some? && Estimate(Some(initial), d, t2).Some?
            && Rank(initial) <= Rank(Estimate(Some(initial), d, t1).value) <= Rank(Estimate(Some(initial), d, t2).value)
    ensures Configured(rule) ==>
              var d := Schedule(Some(initial), rule, intake);
              var freshFor := if initial == Fresh then rule.value.freshDays.value * DAY else 0;
              var mediumFor := if initial == Spoiled then 0 else rule.value.mediumDays.value * DAY;
              Estimate(Some(initial), d, t1) ==
              Some(if t1 < intake + freshFor then Fresh else if t1 < intake + freshFor + mediumFor then Medium else Spoiled)
  {}

  /** A batch with no label is never scheduled, so its estimate stays unknown. */
  lemma UnlabelledStaysUnknown(rule: Option<Rule>, intake: Time, t: Time)
    ensures Estimate(None, Schedule(None, rule, intake), t) == None
  {}

  /** A rule of less than a day per stage, which the schema refuses, would break the estimate at intake. */
  lemma ZeroDayRuleBreaksIntake(intake: Time)
    ensures var d := Schedule(Some(Fresh), Some(Rule(Some(0), Some(1))), intake);
            Estimate(Some(Fresh), d, intake) == Some(Medium)
  {}
}
