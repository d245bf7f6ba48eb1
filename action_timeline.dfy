/** The "Critical Actions" sidebar (components/ActionTimeline.tsx): the
    promotions that ask the user to act at a given time or on a given date,
    and, for each, just those actions. */
module ActionTimeline {
  import opened Seqs
  import opened Types
  import opened Icons

  /** `a.type === LOGIN_TIME || a.type === SPECIFIC_DATE` */
  predicate IsTimeSensitive(a: PromotionAction) {
    a.kind == LoginTime || a.kind == SpecificDate
  }

  /** `p.actions.some(IsTimeSensitive)` */
  predicate IsActionable(p: Promotion) {
    exists i :: 0 <= i < |p.actions| && IsTimeSensitive(p.actions[i])
  }

  /** actionablePromos */
  function ActionablePromos(promotions: seq<Promotion>): (kept: seq<Promotion>)
    ensures |kept| <= |promotions|
    ensures forall p :: p in kept ==> p in promotions && IsActionable(p)
  {
    Filter(IsActionable, promotions)
  }

  /** The actions listed under a promotion: the callback returns null for
      every other action, and React draws nothing for null. */
  function ShownActions(p: Promotion): (shown: seq<PromotionAction>)
    ensures forall a :: a in shown ==> a in p.actions && IsTimeSensitive(a)
  {
    Filter(IsTimeSensitive, p.actions)
  }

  /** The icon in front of a listed action: a clock for a login time, a
      calendar otherwise (only date actions reach this point). */
  function TimelineIcon(a: PromotionAction): Icon {
    if a.kind == LoginTime then Clock else Calendar
  }

  datatype TimelineRow = TimelineRow(icon: Icon, description: string)

  function ToRow(a: PromotionAction): TimelineRow {
    TimelineRow(TimelineIcon(a), a.description)
  }

  /** One entry of the list: the platform and discount line, the title, and
      the rows for the shown actions. */
  datatype TimelineEntry = TimelineEntry(
    platform: string,
    discount: string,
    title: string,
    rows: seq<TimelineRow>)

  function ToEntry(p: Promotion): TimelineEntry {
    TimelineEntry(p.platform, p.discount, p.title, Map(ToRow, ShownActions(p)))
  }

  /** What the sidebar draws: the "no time-sensitive actions" placeholder, or
      the "N Upcoming" badge and one entry per actionable promotion. */
  datatype TimelineView =
    | NothingUpcoming
    | CriticalActions(upcoming: nat, entries: seq<TimelineEntry>)

  function RenderTimeline(promotions: seq<Promotion>): TimelineView {
    var kept := ActionablePromos(promotions);
    if |kept| == 0 then NothingUpcoming
    else CriticalActions(|kept|, Map(ToEntry, kept))
  }

  /** A promotion is kept exactly when it is in the input and one of its
      actions is a login time or a specific date; so a promotion without
      actions, or with only app, coupon and plain actions, is left out. */
  lemma {:induction false} ActionableExactly(promotions: seq<Promotion>, p: Promotion)
    ensures p in ActionablePromos(promotions) <==>
      && p in promotions
      && exists i :: 0 <= i < |p.actions| && p.actions[i].kind in {LoginTime, SpecificDate}
  {
    FilterKeepsExactly(IsActionable, promotions, p);
  }

  /** The kept promotions keep their input order, and a promotion that
      occurs several times is kept as often as it occurs. */
  lemma {:induction false} ActionableInOrder(promotions: seq<Promotion>)
    ensures IsSubsequence(ActionablePromos(promotions), promotions)
    ensures forall p :: multiset(ActionablePromos(promotions))[p] ==
              if IsActionable(p) then multiset(promotions)[p] else 0
  {
    FilterIsSubsequence(IsActionable, promotions);
    forall p ensures multiset(ActionablePromos(promotions))[p] ==
      if IsActionable(p) then multiset(promotions)[p] else 0
    {
      FilterCount(IsActionable, promotions, p);
    }
  }

  /** Under a promotion the list shows exactly its login-time and
      specific-date actions. */
  lemma {:induction false} ShownActionsExactly(p: Promotion, a: PromotionAction)
    ensures a in ShownActions(p) <==> a in p.actions && IsTimeSensitive(a)
  {
    FilterKeepsExactly(IsTimeSensitive, p.actions, a);
  }

  /** ...in their order and each as often as the promotion lists it, and at
      least one of them exactly when the promotion is kept. */
  lemma {:induction false} ShownActionsInOrder(p: Promotion)
    ensures IsSubsequence(ShownActions(p), p.actions)
    ensures forall a :: multiset(ShownActions(p))[a] ==
              if IsTimeSensitive(a) then multiset(p.actions)[a] else 0
    ensures IsActionable(p) <==> |ShownActions(p)| > 0
  {
    FilterIsSubsequence(IsTimeSensitive, p.actions);
    forall a ensures multiset(ShownActions(p))[a] ==
      if IsTimeSensitive(a) then multiset(p.actions)[a] else 0
    {
      FilterCount(IsTimeSensitive, p.actions, a);
    }
    FilterEmptyIff(IsTimeSensitive, p.actions);
  }

  /** The placeholder appears exactly when no promotion is actionable;
      otherwise the badge counts the kept promotions, there is one entry per
      kept promotion, each with at least one row, and each row's icon is the
      clock for a login time and the calendar for a date. */
  lemma {:induction false} RenderTimelineShape(promotions: seq<Promotion>)
    ensures RenderTimeline(promotions).NothingUpcoming? <==>
      forall i :: 0 <= i < |promotions| ==> !IsActionable(promotions[i])
    ensures RenderTimeline(promotions).CriticalActions? ==>
      var view, kept := RenderTimeline(promotions), ActionablePromos(promotions);
      && view.upcoming == |view.entries| == |kept| > 0
      && forall k :: 0 <= k < |kept| ==>
           && view.entries[k].title == kept[k].title
           && |view.entries[k].rows| == |ShownActions(kept[k])| > 0
           && forall r :: 0 <= r < |ShownActions(kept[k])| ==>
                var a := ShownActions(kept[k])[r];
                view.entries[k].rows[r] == TimelineRow(if a.kind == LoginTime then Clock else Calendar, a.description)
  {
    var kept := ActionablePromos(promotions);
    FilterEmptyIff(IsActionable, promotions);
    forall k | 0 <= k < |kept| ensures |ShownActions(kept[k])| > 0 {
      assert kept[k] in kept;
      ShownActionsInOrder(kept[k]);
    }
  }

  /** A date action is drawn with the calendar, a login-time action with the
      clock, and the two icons differ. */
  lemma TimelineIconsDistinguishKinds(a: PromotionAction, b: PromotionAction)
    requires IsTimeSensitive(a) && IsTimeSensitive(b)
    ensures TimelineIcon(a) == TimelineIcon(b) <==> a.kind == b.kind
  {
  }
}
