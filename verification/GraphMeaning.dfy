/**
 * The days a Graph pattern and a rule stand for, each in its own terms, and that the translations of
 * internal/microsoft/recurrence.go keep them.
 */
module GraphMeaning {
  import opened Base
  import opened Events
  import opened GraphRecurrence

  // --- the civil calendar ------------------------------------------------------------------------

  function WeekdayName(day: int): string
  {
    match Weekday(day)
    case 0 => "monday"
    case 1 => "tuesday"
    case 2 => "wednesday"
    case 3 => "thursday"
    case 4 => "friday"
    case 5 => "saturday"
    case _ => "sunday"
  }

  /** Months are counted through the years. */
  function MonthIndex(w: World, day: int): int
  {
    12 * w.yearOf(day) + w.monthOf(day)
  }

  /** Weeks are counted from the given weekday on. */
  function WeekIndex(first: nat, day: int): int
  {
    (day + 3 - first) / 7
  }

  /** The n-th day of the month; a negative number counts from its end. */
  predicate OnMonthDay(w: World, n: int, day: int)
  {
    if n > 0 then w.dayOfMonthOf(day) == n else n < 0 && w.dayOfMonthOf(day - n) == 1
  }

  predicate InPhase(interval: int, steps: int)
  {
    steps % (if interval <= 0 then 1 else interval) == 0
  }

  // --- Graph patterns ------------------------------------------------------------------------------

  /** The week starts on the named day; without a name on Monday, as in a rule without WKST. */
  function WeekStart(name: string): nat
  {
    match name
    case "tuesday" => 1
    case "wednesday" => 2
    case "thursday" => 3
    case "friday" => 4
    case "saturday" => 5
    case "sunday" => 6
    case _ => 0
  }

  /** The day is the first, second, third, fourth or last of its weekday in its month; no index names them all. */
  predicate AtIndex(w: World, index: string, day: int)
  {
    var month := MonthIndex(w, day);
    match index
    case "" => true
    case "first" => MonthIndex(w, day - 7) != month
    case "second" => MonthIndex(w, day - 7) == month && MonthIndex(w, day - 14) != month
    case "third" => MonthIndex(w, day - 14) == month && MonthIndex(w, day - 21) != month
    case "fourth" => MonthIndex(w, day - 21) == month && MonthIndex(w, day - 28) != month
    case "last" => MonthIndex(w, day + 7) != month
    case _ => false
  }

  /** The day belongs to a series of this pattern that started on the given day. */
  predicate PatternDay(w: World, p: Pattern, start: int, day: int)
  {
    match p.kind
    case "daily" => InPhase(p.interval, day - start)
    case "weekly" =>
      InPhase(p.interval, WeekIndex(WeekStart(p.firstDay), day) - WeekIndex(WeekStart(p.firstDay), start)) && WeekdayName(day) in p.days
    case "absoluteMonthly" => InPhase(p.interval, MonthIndex(w, day) - MonthIndex(w, start)) && OnMonthDay(w, p.dayOfMonth, day)
    case "relativeMonthly" =>
      InPhase(p.interval, MonthIndex(w, day) - MonthIndex(w, start)) && WeekdayName(day) in p.days && AtIndex(w, p.index, day)
    case "absoluteYearly" =>
      InPhase(p.interval, w.yearOf(day) - w.yearOf(start)) && w.monthOf(day) == p.month && OnMonthDay(w, p.dayOfMonth, day)
    case "relativeYearly" =>
      && InPhase(p.interval, w.yearOf(day) - w.yearOf(start)) && w.monthOf(day) == p.month
      && WeekdayName(day) in p.days && AtIndex(w, p.index, day)
    case _ => false
  }

  // --- rules -----------------------------------------------------------------------------------------

  /** The day is the n-th of its weekday in its period, from the end if n is negative (section 3.3.10 of RFC 5545). */
  predicate NthIn(period: int -> int, n: int, day: int)
  {
    if n > 0 then period(day - 7 * (n - 1)) == period(day) != period(day - 7 * n)
    else n < 0 && period(day + 7 * (-n - 1)) == period(day) != period(day - 7 * n)
  }

  predicate OnByDay(period: int -> int, b: ByDay, day: int)
  {
    Weekday(day) == b.day && (b.n == 0 || NthIn(period, b.n, day))
  }

  predicate InMonths(w: World, r: Rule, day: int)
  {
    r.months == [] || w.monthOf(day) in r.months
  }

  predicate InMonthDays(w: World, r: Rule, day: int)
  {
    r.monthDays == [] || exists i | 0 <= i < |r.monthDays| :: OnMonthDay(w, r.monthDays[i], day)
  }

  predicate InDays(period: int -> int, r: Rule, day: int)
  {
    r.days == [] || exists i | 0 <= i < |r.days| :: OnByDay(period, r.days[i], day)
  }

  /** One position among the days of one plain weekday picks the n-th of them in the period. */
  predicate AtPosition(period: int -> int, r: Rule, day: int)
  {
    r.positions == [] || (|r.positions| == 1 && NthIn(period, r.positions[0], day))
  }

  /** Ordinals count within the month, or within the year in a yearly rule without months. */
  function Counting(w: World, r: Rule): int -> int
  {
    if r.freq.Yearly? && r.months == [] then w.yearOf else (day: int) => MonthIndex(w, day)
  }

  /** Without selectors, the start gives the weekday, the day of the month or the month. */
  predicate LikeStart(w: World, r: Rule, start: int, day: int)
  {
    && (r.freq.Weekly? && r.days == [] ==> Weekday(day) == Weekday(start))
    && ((r.freq.Monthly? || r.freq.Yearly?) && r.days == [] && r.monthDays == [] ==> w.dayOfMonthOf(day) == w.dayOfMonthOf(start))
    && (r.freq.Yearly? && r.months == [] && r.days == [] && r.monthDays == [] ==> w.monthOf(day) == w.monthOf(start))
  }

  function Periods(w: World, r: Rule, start: int, day: int): int
  {
    match r.freq
    case Daily => day - start
    case Weekly => WeekIndex(r.wkst, day) - WeekIndex(r.wkst, start)
    case Monthly => MonthIndex(w, day) - MonthIndex(w, start)
    case _ => w.yearOf(day) - w.yearOf(start)
  }

  /** The day belongs to a series of this rule that started on the given day, its end aside. */
  predicate RuleDay(w: World, r: Rule, start: int, day: int)
  {
    && !r.freq.OtherFreq? && InPhase(r.interval, Periods(w, r, start, day))
    && InMonths(w, r, day) && InMonthDays(w, r, day) && InDays(Counting(w, r), r, day) && AtPosition(Counting(w, r), r, day)
    && LikeStart(w, r, start, day)
  }

  // --- Graph to rule -----------------------------------------------------------------------------------

  lemma NameFound(name: string, day: int)
    ensures var i := Find(DAY_NAMES, name);
            && (i.Some? ==> (i.value == Weekday(day) <==> name == WeekdayName(day)))
            && (i.None? ==> name != WeekdayName(day))
            && (name != "" && i.Some? ==> WeekStart(name) == i.value)
  {
    var names := DAY_NAMES;
    assert names[1..] == ["tuesday", "wednesday", "thursday", "friday", "saturday", "sunday"];
    assert names[1..][1..] == ["wednesday", "thursday", "friday", "saturday", "sunday"];
    assert names[1..][1..][1..] == ["thursday", "friday", "saturday", "sunday"];
    assert names[1..][1..][1..][1..] == ["friday", "saturday", "sunday"];
    assert names[1..][1..][1..][1..][1..] == ["saturday", "sunday"];
    assert names[1..][1..][1..][1..][1..][1..] == ["sunday"];
    assert names[1..][1..][1..][1..][1..][1..][1..] == [];
  }

  lemma {:induction false} DaysMean(days: seq<string>, n: int, day: int)
    requires DaysOf(days, n).Some?
    ensures (exists i | 0 <= i < |DaysOf(days, n).value| :: DaysOf(days, n).value[i].day == Weekday(day)) <==> WeekdayName(day) in days
    ensures |DaysOf(days, n).value| == |days| && forall i | 0 <= i < |days| :: DaysOf(days, n).value[i].n == n
  {
    if days != [] {
      var k := |days| - 1;
      DaysMean(days[..k], n, day);
      NameFound(days[k], day);
      hide Find;
      var front, all := DaysOf(days[..k], n).value, DaysOf(days, n).value;
      assert all[k].day == Weekday(day) <==> days[k] == WeekdayName(day);
      assert forall i | 0 <= i < k :: all[i] == front[i];
      assert WeekdayName(day) in days <==> WeekdayName(day) in days[..k] || days[k] == WeekdayName(day);
    }
  }

  lemma IndexMeans(w: World, index: string, day: int)
    requires index == "" || Ordinal(index).Some?
    ensures index == "" || (Ordinal(index).value != 0 && (AtIndex(w, index, day) <==> NthIn((d: int) => MonthIndex(w, d), Ordinal(index).value, day)))
  {
    var names := INDEX_NAMES;
    assert names[1..] == ["second", "third", "fourth"];
    assert names[1..][1..] == ["third", "fourth"];
    assert names[1..][1..][1..] == ["fourth"];
    assert names[1..][1..][1..][1..] == [];
    hide MonthIndex;
  }

  /** The ordinal days a pattern's names and index become stand for the same days. */
  lemma GraphDaysMean(w: World, r: Rule, days: seq<string>, index: string, day: int)
    requires GraphDays(days, index) == Ok(r.days)
    requires index == "" || Counting(w, r) == ((d: int) => MonthIndex(w, d))
    ensures r.days != [] && (InDays(Counting(w, r), r, day) <==> WeekdayName(day) in days && AtIndex(w, index, day))
  {
    var n := if index == "" then 0 else Ordinal(index).value;
    DaysMean(days, n, day);
    hide DaysOf, AtIndex, MonthIndex, NthIn, Ordinal;
    IndexMeans(w, index, day);
    NoIndex(w, day);
    var period := Counting(w, r);
    forall i | 0 <= i < |r.days| ensures OnByDay(period, r.days[i], day) <==> r.days[i].day == Weekday(day) && AtIndex(w, index, day) {
      assert r.days[i].n == n;
    }
    assert r.days == DaysOf(days, n).value;
    if WeekdayName(day) in days && AtIndex(w, index, day) {
      var i :| 0 <= i < |r.days| && r.days[i].day == Weekday(day);
      assert OnByDay(period, r.days[i], day);
    }
  }

  lemma NoIndex(w: World, day: int)
    ensures AtIndex(w, "", day)
  {
  }

  /** What a pattern selects is what its rule selects. */
  lemma PatternRuleMeans(w: World, p: Pattern, r: Rule, start: int, day: int)
    requires PatternRule(p).Ok? && r == PatternRule(p).value.(interval := r.interval, count := r.count, until := r.until)
    requires InPhase(r.interval, 0) && forall steps :: InPhase(r.interval, steps) <==> InPhase(p.interval, steps)
    ensures PatternDay(w, p, start, day) <==> RuleDay(w, r, start, day)
  {
    hide GraphDays, InPhase, MonthIndex, WeekIndex, WeekdayName, OnMonthDay, AtIndex, NthIn, Find;
    if p.kind == "weekly" {
      WeeklyMeans(w, p, r, start, day);
    } else if p.kind == "relativeMonthly" || p.kind == "relativeYearly" {
      OrdinalMeans(w, p, r, start, day);
    } else if p.kind == "absoluteMonthly" || p.kind == "absoluteYearly" {
      assert InMonthDays(w, r, day) <==> OnMonthDay(w, r.monthDays[0], day);
    }
  }

  lemma OrdinalMeans(w: World, p: Pattern, r: Rule, start: int, day: int)
    requires p.kind == "relativeMonthly" || p.kind == "relativeYearly"
    requires PatternRule(p).Ok? && r == PatternRule(p).value.(interval := r.interval, count := r.count, until := r.until)
    requires forall steps :: InPhase(r.interval, steps) <==> InPhase(p.interval, steps)
    ensures PatternDay(w, p, start, day) <==> RuleDay(w, r, start, day)
  {
    hide GraphDays, InPhase, MonthIndex, WeekIndex, WeekdayName, OnMonthDay, AtIndex, NthIn, Find, InDays;
    CountingMonths(w, r);
    GraphDaysMean(w, r, p.days, p.index, day);
  }

  lemma CountingMonths(w: World, r: Rule)
    ensures r.freq.Monthly? || r.months != [] ==> Counting(w, r) == ((d: int) => MonthIndex(w, d))
  {
  }

  lemma WeeklyMeans(w: World, p: Pattern, r: Rule, start: int, day: int)
    requires p.kind == "weekly" && PatternRule(p).Ok? && r == PatternRule(p).value.(interval := r.interval, count := r.count, until := r.until)
    requires forall steps :: InPhase(r.interval, steps) <==> InPhase(p.interval, steps)
    ensures PatternDay(w, p, start, day) <==> RuleDay(w, r, start, day)
  {
    hide GraphDays, InPhase, MonthIndex, WeekIndex, WeekdayName, OnMonthDay, AtIndex, NthIn, Find;
    GraphDaysMean(w, r, p.days, "", day);
    NoIndex(w, day);
    if p.firstDay != "" {
      NameFound(p.firstDay, day);
    }
    assert WeekStart(p.firstDay) == r.wkst by { hide WeekdayName; }
    hide InDays, Counting, WeekStart;
  }

  lemma StepsAlike(p: int, r: int, steps: int)
    requires r == if p <= 1 then 0 else p
    ensures InPhase(r, steps) <==> InPhase(p, steps)
  {
  }

  /** The rule written for a Graph recurrence stands for exactly the days of its pattern. */
  lemma ToRuleKeepsDays(w: World, g: Graph, allDay: bool, start: int, day: int)
    requires ToRule(w, g, allDay).Ok?
    ensures PatternDay(w, g.pattern, start, day) <==> RuleDay(w, ToRule(w, g, allDay).value.0, start, day)
  {
    var r := ToRule(w, g, allDay).value.0;
    forall steps ensures InPhase(r.interval, steps) <==> InPhase(g.pattern.interval, steps) {
      StepsAlike(g.pattern.interval, r.interval, steps);
    }
    hide PatternRule, PatternDay, RuleDay, InPhase;
    assert InPhase(r.interval, 0) by { NoSteps(r.interval); }
    PatternRuleMeans(w, g.pattern, r, start, day);
  }

  lemma NoSteps(interval: int)
    ensures InPhase(interval, 0)
  {
  }

  // --- rule to Graph -------------------------------------------------------------------------------------

  /**
   * The rules whose selectors Graph can hold: no day of the month beside a weekday, and in a yearly rule no selector
   * without a month. The translation does not look at these combinations and drops what it cannot hold.
   */
  predicate Holdable(r: Rule)
  {
    && ((r.freq.Monthly? || r.freq.Yearly?) && r.days != [] ==> r.monthDays == [])
    && (r.freq.Yearly? && r.months == [] ==> r.days == [] && r.monthDays == [])
  }

  lemma NameOfDay(d: nat, day: int)
    requires d < 7
    ensures DAY_NAMES[d] == WeekdayName(day) <==> Weekday(day) == d
    ensures WeekStart(DAY_NAMES[d]) == d && DAY_NAMES[d] != ""
  {
  }

  lemma {:induction false} NamesMean(days: seq<ByDay>, plain: bool, total: nat, day: int)
    requires NamesOf(days, plain, total).Some?
    ensures WeekdayName(day) in NamesOf(days, plain, total).value.0 <==> exists i | 0 <= i < |days| :: days[i].day == Weekday(day)
    ensures plain ==> forall i | 0 <= i < |days| :: days[i].n == 0
  {
    if days != [] {
      var k := |days| - 1;
      NamesMean(days[..k], plain, total, day);
      NameOfDay(days[k].day, day);
      hide WeekdayName, Weekday;
      assert forall i | 0 <= i < k :: days[..k][i] == days[i];
    }
  }

  /** One ordinal weekday, by its name and index. */
  lemma RelativeMeans(w: World, r: Rule, day: int)
    requires Relative(r).Some? && r.days != []
    ensures |r.days| == 1 && r.days[0].n != 0
    ensures (WeekdayName(day) in Relative(r).value.0 <==> Weekday(day) == r.days[0].day)
    ensures AtIndex(w, Relative(r).value.1, day) <==> NthIn((d: int) => MonthIndex(w, d), r.days[0].n, day)
  {
    var k := |r.days| - 1;
    NamesMean(r.days, false, |r.days|, day);
    LastIndex(r.days, false, |r.days|);
    hide NamesOf, WeekdayName, Weekday, AtIndex, MonthIndex, NthIn;
    IndexNameMeans(w, r.days[0].n, day);
  }

  /** An index comes from the single ordinal day it was found at. */
  lemma {:induction false} LastIndex(days: seq<ByDay>, plain: bool, total: nat)
    requires NamesOf(days, plain, total).Some? && NamesOf(days, plain, total).value.1 != "" && |days| <= total
    ensures |days| == 1 == total && days[0].n != 0 && IndexName(days[0].n) == Some(NamesOf(days, plain, total).value.1)
  {
    var k := |days| - 1;
    if days[k].n == 0 {
      LastIndex(days[..k], plain, total);
    } else {
      assert total == 1;
    }
  }

  lemma IndexNameMeans(w: World, n: int, day: int)
    requires IndexName(n).Some? && n != 0
    ensures AtIndex(w, IndexName(n).value, day) <==> NthIn((d: int) => MonthIndex(w, d), n, day)
  {
    hide MonthIndex;
  }

  /** What a rule without positions selects is what its pattern selects. */
  lemma RulePatternMeans(w: World, r: Rule, p: Pattern, today: int, day: int)
    requires w.Sound() && RulePattern(w, r, today).Some? && p == RulePattern(w, r, today).value.(interval := p.interval)
    requires r.positions == [] && Holdable(r) && forall steps :: InPhase(r.interval, steps) <==> InPhase(p.interval, steps)
    ensures PatternDay(w, p, today, day) <==> RuleDay(w, r, today, day)
  {
    match r.freq {
      case Daily => hide InPhase, MonthIndex, WeekdayName;
      case Weekly => WeekPatternMeans(w, r, p, today, day);
      case Monthly => MonthPatternMeans(w, r, p, today, day);
      case Yearly => YearPatternMeans(w, r, p, today, day);
      case OtherFreq =>
    }
  }

  lemma WeekPatternMeans(w: World, r: Rule, p: Pattern, today: int, day: int)
    requires w.Sound() && RulePattern(w, r, today).Some? && p == RulePattern(w, r, today).value.(interval := p.interval) && r.freq.Weekly?
    requires r.positions == [] && forall steps :: InPhase(r.interval, steps) <==> InPhase(p.interval, steps)
    ensures PatternDay(w, p, today, day) <==> RuleDay(w, r, today, day)
  {
    var days := if r.days == [] then [ByDay(w.weekdayOf(today), 0)] else r.days;
    NamesMean(days, true, |days|, day);
    NameOfDay(r.wkst, day);
    assert r.days == [] ==> days[0].day == Weekday(today);
    hide NamesOf, InPhase, WeekdayName, Weekday, WeekIndex, NthIn, WeekStart, MonthIndex, AtIndex;
    if r.days != [] {
      var period := Counting(w, r);
      assert forall i | 0 <= i < |r.days| :: OnByDay(period, r.days[i], day) <==> r.days[i].day == Weekday(day);
    }
  }

  lemma MonthPatternMeans(w: World, r: Rule, p: Pattern, today: int, day: int)
    requires RulePattern(w, r, today).Some? && p == RulePattern(w, r, today).value.(interval := p.interval) && r.freq.Monthly?
    requires r.positions == [] && Holdable(r) && forall steps :: InPhase(r.interval, steps) <==> InPhase(p.interval, steps)
    ensures PatternDay(w, p, today, day) <==> RuleDay(w, r, today, day)
  {
    CountingMonths(w, r);
    if r.days != [] {
      RelativeMeans(w, r, day);
    }
    hide NamesOf, InPhase, WeekdayName, Weekday, NthIn, MonthIndex, AtIndex, Counting, Relative, WeekIndex;
    if r.days != [] {
      OneDay(w, r, day);
      hide InDays;
    }
  }

  lemma OneDay(w: World, r: Rule, day: int)
    requires |r.days| == 1 && r.days[0].n != 0
    ensures InDays(Counting(w, r), r, day) <==> Weekday(day) == r.days[0].day && NthIn(Counting(w, r), r.days[0].n, day)
  {
    hide Counting, NthIn, Weekday;
  }

  lemma YearPatternMeans(w: World, r: Rule, p: Pattern, today: int, day: int)
    requires RulePattern(w, r, today).Some? && p == RulePattern(w, r, today).value.(interval := p.interval) && r.freq.Yearly?
    requires r.positions == [] && Holdable(r) && forall steps :: InPhase(r.interval, steps) <==> InPhase(p.interval, steps)
    ensures PatternDay(w, p, today, day) <==> RuleDay(w, r, today, day)
  {
    CountingMonths(w, r);
    if r.days != [] {
      RelativeMeans(w, r, day);
    }
    hide NamesOf, InPhase, WeekdayName, Weekday, NthIn, MonthIndex, AtIndex, Counting, Relative, WeekIndex;
    if r.days != [] {
      OneDay(w, r, day);
      hide InDays;
    }
  }

  /** A set position beside one plain weekday is an ordinal weekday. */
  lemma PositionMeans(w: World, rule: Rule, today: int, day: int)
    requires Unpositioned(rule).positions == [] && (rule.positions != [] ==> rule.positions[0] != 0)
    ensures RuleDay(w, rule, today, day) <==> RuleDay(w, Unpositioned(rule), today, day)
  {
    hide InPhase, NthIn, Weekday, MonthIndex, OnMonthDay, Counting;
    if rule.positions != [] {
      SameCounting(w, rule);
      SingleDay(Counting(w, rule), rule, day);
      SingleDay(Counting(w, rule), Unpositioned(rule), day);
      hide InDays;
    }
  }

  lemma SameCounting(w: World, rule: Rule)
    ensures Counting(w, rule) == Counting(w, Unpositioned(rule))
  {
  }

  lemma SingleDay(period: int -> int, r: Rule, day: int)
    requires |r.days| == 1
    ensures InDays(period, r, day) <==> OnByDay(period, r.days[0], day)
  {
    hide OnByDay;
  }

  /** The pattern found for a rule that Graph can hold stands for exactly the days of the rule. */
  lemma ToGraphKeepsDays(w: World, rule: Rule, start: EventTime, day: int)
    requires w.Sound() && ToGraph(w, rule, start).Ok? && Holdable(rule)
    ensures var zone := if start.Timed? then start.zone else UTC;
            var today := w.localDay(zone, start.Instant().value);
            PatternDay(w, ToGraph(w, rule, start).value.pattern, today, day) <==> RuleDay(w, rule, today, day)
  {
    var zone := if start.Timed? then start.zone else UTC;
    var today := w.localDay(zone, start.Instant().value);
    var r, p := Unpositioned(rule), ToGraph(w, rule, start).value.pattern;
    if rule.positions != [] {
      PlainRefused(w, rule, today);
    }
    hide RulePattern, PatternDay, RuleDay, World.Sound;
    forall steps ensures InPhase(r.interval, steps) <==> InPhase(p.interval, steps) {
    }
    hide InPhase;
    RulePatternMeans(w, r, p, today, day);
    PositionMeans(w, rule, today, day);
  }

  /** Position zero leaves a plain weekday, which a month or a year cannot hold. */
  lemma PlainRefused(w: World, rule: Rule, today: int)
    requires rule.positions != [] && Unpositioned(rule).positions == [] && RulePattern(w, Unpositioned(rule), today).Some?
    ensures rule.positions[0] != 0
  {
    PlainHasNoIndex(ByDay(rule.days[0].day, 0));
    hide NamesOf;
  }

  lemma PlainHasNoIndex(b: ByDay)
    requires b.n == 0
    ensures NamesOf([b], false, 1).Some? ==> NamesOf([b], false, 1).value.1 == ""
  {
    assert [b][..0] == [];
  }

  // --- what is dropped -----------------------------------------------------------------------------------

  /**
   * Beside an ordinal weekday the days of the month are dropped: the rule's days are those of the pattern that fall
   * on them, so both agree exactly when all of the pattern's do.
   */
  lemma MonthDaysDropped(w: World, r: Rule, p: Pattern, today: int, day: int)
    requires w.Sound() && RulePattern(w, r, today).Some? && p == RulePattern(w, r, today).value.(interval := p.interval)
    requires (r.freq.Monthly? || (r.freq.Yearly? && r.months != [])) && r.days != [] && r.positions == []
    requires forall steps :: InPhase(r.interval, steps) <==> InPhase(p.interval, steps)
    ensures RuleDay(w, r, today, day) <==> PatternDay(w, p, today, day) && InMonthDays(w, r, day)
  {
    var bare := r.(monthDays := []);
    assert RulePattern(w, bare, today) == RulePattern(w, r, today);
    RulePatternMeans(w, bare, p, today, day);
    hide PatternDay, InPhase, MonthIndex, NthIn, WeekIndex, Weekday;
    assert Counting(w, r) == Counting(w, bare);
    hide Counting;
  }

  /** A yearly rule with a day of the month but no month: its pattern keeps the month of the start alone. */
  lemma MonthsDropped(w: World, r: Rule, p: Pattern, today: int, day: int)
    requires w.Sound() && RulePattern(w, r, today).Some? && p == RulePattern(w, r, today).value.(interval := p.interval)
    requires r.freq.Yearly? && r.months == [] && r.days == [] && r.monthDays != [] && r.positions == []
    requires forall steps :: InPhase(r.interval, steps) <==> InPhase(p.interval, steps)
    ensures PatternDay(w, p, today, day) <==> RuleDay(w, r, today, day) && w.monthOf(day) == w.monthOf(today)
  {
    var named := r.(months := [w.monthOf(today)]);
    assert RulePattern(w, named, today) == RulePattern(w, r, today);
    RulePatternMeans(w, named, p, today, day);
    hide PatternDay, InPhase, MonthIndex, NthIn, WeekIndex, Weekday, Counting;
  }

  /**
   * A yearly rule with an ordinal weekday but no month counts within the year; its pattern counts within the month of
   * the start. So the pattern's first weekday of a later month is no day of the rule.
   */
  lemma YearlyOrdinalMoves(w: World, r: Rule, p: Pattern, today: int, day: int)
    requires w.Sound() && RulePattern(w, r, today).Some? && p == RulePattern(w, r, today).value.(interval := p.interval)
    requires r.freq.Yearly? && r.months == [] && |r.days| == 1 && r.days[0].n == 1 && r.positions == []
    requires w.yearOf(day - 7) == w.yearOf(day)
    ensures !RuleDay(w, r, today, day)
  {
    hide InPhase;
  }

  // --- ends ------------------------------------------------------------------------------------------------

  /** The rule ends as the range does: after as many occurrences, or at the end of the last day in the zone. */
  predicate SameEnd(w: World, range: Range, rule: Rule, zone: string, allDay: bool)
  {
    if rule.count > 0 then range.kind == "numbered" && range.count == rule.count
    else if rule.until.Some? then
      && range.kind == "endDate" && range.endDate.Some?
      && if allDay then rule.until.value == range.endDate.value * DAY else w.localDay(zone, rule.until.value) == range.endDate.value
    else range.kind == "noEnd" || range.kind == ""
  }

  lemma ToRuleKeepsEnd(w: World, g: Graph, allDay: bool)
    requires w.Sound() && ToRule(w, g, allDay).Ok?
    ensures var (rule, zone) := ToRule(w, g, allDay).value;
            && SameEnd(w, g.range, rule, zone, allDay) && (rule.until.Some? ==> rule.count == 0)
            && (rule.until.Some? && !allDay ==> rule.until.value == w.endOfDay(zone, g.range.endDate.value))
  {
    assert PatternRule(g.pattern).value.count == 0 && PatternRule(g.pattern).value.until.None? by { hide GraphDays; }
    hide PatternRule;
  }

  /** The zone of a translated recurrence can be loaded: the named one, else the one its Windows name stands for, else none is found. */
  lemma ZoneKept(w: World, g: Graph, allDay: bool)
    ensures ToRule(w, g, allDay).Ok? ==>
              var zone := ToRule(w, g, allDay).value.1;
              if g.range.zone == "" || g.range.zone == UTC then zone == UTC
              else w.loads(zone) && (zone == g.range.zone || (!w.loads(g.range.zone) && w.ianaOf(g.range.zone) == Some(zone)))
    ensures IanaZone(w, g.range.zone).Err? <==>
              && g.range.zone != "" && g.range.zone != UTC && !w.loads(g.range.zone)
              && (w.ianaOf(g.range.zone).None? || !w.loads(w.ianaOf(g.range.zone).value))
  {
    hide PatternRule;
  }

  lemma ToGraphKeepsEnd(w: World, rule: Rule, start: EventTime)
    requires w.Sound() && ToGraph(w, rule, start).Ok?
    ensures var zone := if start.Timed? then start.zone else UTC;
            var range := ToGraph(w, rule, start).value.range;
            && SameEnd(w, range, rule, zone, false) && range.startDate == w.localDay(zone, start.Instant().value)
            && (if zone == UTC then range.zone == UTC else w.aliasOf(zone) == Some(range.zone))
  {
    hide RulePattern;
  }

  /** With the same end both admit the same instants, but for some of the last day. */
  lemma SameEndAdmits(w: World, range: Range, rule: Rule, zone: string, t: int)
    requires w.Sound() && SameEnd(w, range, rule, zone, false) && rule.count <= 0 && rule.until.Some?
    ensures t <= rule.until.value ==> w.localDay(zone, t) <= range.endDate.value
    ensures w.localDay(zone, t) < range.endDate.value ==> t <= rule.until.value
  {
    assert t <= rule.until.value || rule.until.value <= t;
  }
}
