/** Microsoft Graph recurrence and portable rules (internal/microsoft/recurrence.go), on parsed rule records. */
module GraphRecurrence {
  import opened Base
  import opened Events

  const UTC := "UTC"
  const DAY_NAMES: seq<string> := ["monday", "tuesday", "wednesday", "thursday", "friday", "saturday", "sunday"]
  const INDEX_NAMES: seq<string> := ["first", "second", "third", "fourth"]

  datatype Pattern = Pattern(
    kind: string, interval: int, month: int, dayOfMonth: int, days: seq<string>, firstDay: string, index: string)

  /** Dates are day numbers; None is text that is not a date. */
  datatype Range = Range(kind: string, startDate: int, endDate: Option<int>, count: int, zone: string)

  datatype Graph = Graph(pattern: Pattern, range: Range)

  datatype Freq = Daily | Weekly | Monthly | Yearly | OtherFreq

  /** A weekday counted from Monday, with its ordinal; zero is none. */
  datatype ByDay = ByDay(day: nat, n: int)

  datatype Rule = Rule(
    freq: Freq, interval: int, wkst: nat, count: int, until: Option<int>,
    months: seq<int>, monthDays: seq<int>, days: seq<ByDay>, positions: seq<int>, others: bool)

  /** The zone tables and the civil calendar, as far as they are used. */
  datatype World = World(
    loads: string -> bool, ianaOf: string -> Option<string>, aliasOf: string -> Option<string>,
    localDay: (string, int) -> int, endOfDay: (string, int) -> int,
    yearOf: int -> int, monthOf: int -> int, dayOfMonthOf: int -> int, weekdayOf: int -> nat)
  {
    /**
     * The last second of a local day belongs to it, and so does UTC midnight to its date; local days follow one
     * another; weekdays repeat every seven days.
     */
    ghost predicate Sound()
    {
      && (forall zone, day :: localDay(zone, endOfDay(zone, day)) == day)
      && (forall day :: localDay(UTC, day * DAY) == day)
      && (forall zone, s, t | s <= t :: localDay(zone, s) <= localDay(zone, t))
      && (forall day :: weekdayOf(day) == Weekday(day))
    }
  }

  /** Days are numbered from 1 January 1970, a Thursday; weekdays are counted from Monday. */
  function Weekday(day: int): nat
  {
    (day + 3) % 7
  }

  function Find(names: seq<string>, name: string): (i: Option<nat>)
    ensures i.Some? ==> i.value < |names| && names[i.value] == name
    ensures name in names ==> i.Some?
  {
    if names == [] then None
    else if names[0] == name then Some(0)
    else match Find(names[1..], name)
         case Some(i) => Some(i + 1)
         case None => None
  }

  function Ordinal(index: string): Option<int>
  {
    if index == "last" then Some(-1)
    else match Find(INDEX_NAMES, index)
         case Some(i) => Some(i + 1)
         case None => None
  }

  function IndexName(n: int): Option<string>
  {
    if n == -1 then Some("last") else if 1 <= n <= 4 then Some(INDEX_NAMES[n - 1]) else None
  }

  lemma OrdinalReads(index: string)
    requires Ordinal(index).Some?
    ensures IndexName(Ordinal(index).value) == Some(index) && Ordinal(index).value != 0
  {
  }

  // --- Graph to rule ----------------------------------------------------------------------

  function IanaZone(w: World, zone: string): Result<string>
  {
    if zone == "" || zone == UTC then Ok(UTC)
    else if w.loads(zone) then Ok(zone)
    else match w.ianaOf(zone)
         case None => Err(Rejected)
         case Some(iana) => if w.loads(iana) then Ok(iana) else Err(Rejected)
  }

  function DaysOf(days: seq<string>, n: int): Option<seq<ByDay>>
  {
    if days == [] then Some([])
    else
      var front := DaysOf(days[..|days| - 1], n);
      var last := Find(DAY_NAMES, days[|days| - 1]);
      if front.None? || last.None? then None else Some(front.value + [ByDay(last.value, n)])
  }

  /** graphDays: the ordinal, when there is one, goes with a single day. */
  function GraphDays(days: seq<string>, index: string): Result<seq<ByDay>>
  {
    if days == [] || (index != "" && |days| != 1) || (index != "" && Ordinal(index).None?) then Err(Rejected)
    else match DaysOf(days, if index == "" then 0 else Ordinal(index).value)
         case None => Err(Rejected)
         case Some(r) => Ok(r)
  }

  method ReadGraphDays(days: seq<string>, index: string) returns (r: Result<seq<ByDay>>)
    ensures r == GraphDays(days, index)
  {
    if days == [] || (index != "" && |days| != 1) {
      return Err(Rejected);
    }
    var n := 0;
    if index != "" {
      var found := Ordinal(index);
      if found.None? {
        return Err(Rejected);
      }
      n := found.value;
    }
    var result: seq<ByDay> := [];
    for i := 0 to |days|
      invariant DaysOf(days[..i], n) == Some(result)
    {
      assert days[..i + 1][..i] == days[..i];
      var day := Find(DAY_NAMES, days[i]);
      if day.None? {
        DaysFail(days, n, i + 1);
        return Err(Rejected);
      }
      result := result + [ByDay(day.value, n)];
    }
    assert days[..|days|] == days;
    return Ok(result);
  }

  lemma {:induction false} DaysFail(days: seq<string>, n: int, i: nat)
    requires i <= |days| && DaysOf(days[..i], n).None?
    ensures DaysOf(days, n).None?
    decreases |days|
  {
    if i == |days| {
      assert days[..i] == days;
    } else {
      assert days[..|days| - 1][..i] == days[..i];
      DaysFail(days[..|days| - 1], n, i);
    }
  }

  const PLAIN := Rule(OtherFreq, 0, 0, 0, None, [], [], [], [], false)

  function PatternRule(p: Pattern): Result<Rule>
  {
    if p.kind == "daily" then Ok(PLAIN.(freq := Daily))
    else if p.kind == "weekly" then
      var days := GraphDays(p.days, "");
      if days.Err? then Err(days.error)
      else if p.firstDay == "" then Ok(PLAIN.(freq := Weekly, days := days.value))
      else match Find(DAY_NAMES, p.firstDay)
           case None => Err(Rejected)
           case Some(wkst) => Ok(PLAIN.(freq := Weekly, days := days.value, wkst := wkst))
    else if p.kind == "absoluteMonthly" then Ok(PLAIN.(freq := Monthly, monthDays := [p.dayOfMonth]))
    else if p.kind == "relativeMonthly" then
      var days := GraphDays(p.days, p.index);
      if days.Err? then Err(days.error) else Ok(PLAIN.(freq := Monthly, days := days.value))
    else if p.kind == "absoluteYearly" then Ok(PLAIN.(freq := Yearly, months := [p.month], monthDays := [p.dayOfMonth]))
    else if p.kind == "relativeYearly" then
      var days := GraphDays(p.days, p.index);
      if days.Err? then Err(days.error) else Ok(PLAIN.(freq := Yearly, months := [p.month], days := days.value))
    else Err(Rejected)
  }

  function WithRange(w: World, rule: Rule, range: Range, zone: string, allDay: bool): Result<Rule>
  {
    if range.kind == "noEnd" || range.kind == "" then Ok(rule)
    else if range.kind == "numbered" then if range.count <= 0 then Err(Rejected) else Ok(rule.(count := range.count))
    else if range.kind == "endDate" then
      match range.endDate
      case None => Err(Rejected)
      case Some(day) => Ok(rule.(until := Some(if allDay then day * DAY else w.endOfDay(zone, day))))
    else Err(Rejected)
  }

  /** graphRecurrenceLines, with the zone it reports. */
  function ToRule(w: World, g: Graph, allDay: bool): Result<(Rule, string)>
  {
    var zone := IanaZone(w, g.range.zone);
    if zone.Err? then Err(zone.error) else
    var rule := PatternRule(g.pattern);
    if rule.Err? then Err(rule.error) else
    var interval := if g.pattern.interval <= 0 then 1 else g.pattern.interval;
    var ranged := WithRange(w, rule.value.(interval := if interval == 1 then 0 else interval), g.range, zone.value, allDay);
    if ranged.Err? then Err(ranged.error) else Ok((ranged.value, zone.value))
  }

  // --- rule to Graph ----------------------------------------------------------------------

  /** toDays, with the index it found. */
  function NamesOf(days: seq<ByDay>, plain: bool, total: nat): Option<(seq<string>, string)>
  {
    if days == [] then Some(([], ""))
    else
      var front, last := NamesOf(days[..|days| - 1], plain, total), days[|days| - 1];
      if front.None? || last.day >= 7 then None
      else if last.n == 0 then Some((front.value.0 + [DAY_NAMES[last.day]], front.value.1))
      else if plain || total != 1 || IndexName(last.n).None? then None
      else Some((front.value.0 + [DAY_NAMES[last.day]], IndexName(last.n).value))
  }

  method ReadNames(days: seq<ByDay>, plain: bool) returns (r: Option<(seq<string>, string)>)
    ensures r == NamesOf(days, plain, |days|)
  {
    var names, index := [], "";
    for i := 0 to |days|
      invariant NamesOf(days[..i], plain, |days|) == Some((names, index))
    {
      assert days[..i + 1][..i] == days[..i];
      var day := days[i];
      if day.day >= 7 || (day.n != 0 && (plain || |days| != 1 || IndexName(day.n).None?)) {
        NamesFail(days, plain, |days|, i + 1);
        return None;
      }
      if day.n != 0 {
        index := IndexName(day.n).value;
      }
      names := names + [DAY_NAMES[day.day]];
    }
    assert days[..|days|] == days;
    return Some((names, index));
  }

  lemma {:induction false} NamesFail(days: seq<ByDay>, plain: bool, total: nat, i: nat)
    requires i <= |days| && NamesOf(days[..i], plain, total).None?
    ensures NamesOf(days, plain, total).None?
    decreases |days|
  {
    if i == |days| {
      assert days[..i] == days;
    } else {
      assert days[..|days| - 1][..i] == days[..i];
      NamesFail(days[..|days| - 1], plain, total, i);
    }
  }

  const BLANK := Pattern("", 1, 0, 0, [], "", "")

  /** One plain weekday with one set position is the same as an ordinal weekday. */
  function Unpositioned(r: Rule): Rule
  {
    if |r.positions| == 1 && |r.days| == 1 && r.days[0].n == 0 && (r.freq.Monthly? || r.freq.Yearly?)
    then r.(days := [ByDay(r.days[0].day, r.positions[0])], positions := []) else r
  }

  function DayInMonth(r: Rule, start: int): Option<int>
  {
    if |r.monthDays| > 1 then None
    else
      var day := if |r.monthDays| == 1 then r.monthDays[0] else start;
      if 1 <= day <= 31 then Some(day) else None
  }

  function Relative(r: Rule): Option<(seq<string>, string)>
  {
    var named := NamesOf(r.days, false, |r.days|);
    if named.Some? && named.value.1 == "" then None else named
  }

  function RulePattern(w: World, r: Rule, today: int): Option<Pattern>
  {
    match r.freq
    case Daily => if r.days != [] || r.months != [] || r.monthDays != [] then None else Some(BLANK.(kind := "daily"))
    case Weekly =>
      if r.months != [] || r.monthDays != [] || r.wkst >= 7 then None
      else
        var days := if r.days == [] then [ByDay(w.weekdayOf(today), 0)] else r.days;
        (match NamesOf(days, true, |days|)
         case None => None
         case Some(named) => Some(BLANK.(kind := "weekly", days := named.0, firstDay := DAY_NAMES[r.wkst])))
    case Monthly =>
      if r.months != [] then None
      else if r.days != [] then
        (match Relative(r)
         case None => None
         case Some(named) => Some(BLANK.(kind := "relativeMonthly", days := named.0, index := named.1)))
      else
        (match DayInMonth(r, w.dayOfMonthOf(today))
         case None => None
         case Some(day) => Some(BLANK.(kind := "absoluteMonthly", dayOfMonth := day)))
    case Yearly =>
      if |r.months| > 1 then None
      else
        var month := if |r.months| == 1 then r.months[0] else w.monthOf(today);
        if r.days != [] then
          (match Relative(r)
           case None => None
           case Some(named) => Some(BLANK.(kind := "relativeYearly", days := named.0, index := named.1, month := month)))
        else
          (match DayInMonth(r, w.dayOfMonthOf(today))
           case None => None
           case Some(day) => Some(BLANK.(kind := "absoluteYearly", dayOfMonth := day, month := month)))
    case OtherFreq => None
  }

  function RuleRange(w: World, r: Rule, today: int, zone: string, alias: string): Range
  {
    var open := Range("noEnd", today, None, 0, alias);
    if r.count > 0 then open.(kind := "numbered", count := r.count)
    else match r.until
         case None => open
         case Some(until) => open.(kind := "endDate", endDate := Some(w.localDay(zone, until)))
  }

  /** portableToGraphRecurrence on one parsed rule. */
  function ToGraph(w: World, rule: Rule, start: EventTime): Result<Graph>
  {
    var r := Unpositioned(rule);
    if r.positions != [] || r.others || start.Instant().None? then Err(Rejected)
    else
      var zone := if start.Timed? then start.zone else UTC;
      var alias := if zone == UTC then Some(UTC) else w.aliasOf(zone);
      if alias.None? then Err(Rejected)
      else
        var today := w.localDay(zone, start.Instant().value);
        match RulePattern(w, r, today)
        case None => Err(Rejected)
        case Some(p) => Ok(Graph(p.(interval := if r.interval <= 0 then 1 else r.interval), RuleRange(w, r, today, zone, alias.value)))
  }

  // --- the round trip ----------------------------------------------------------------------

  /** The fields a pattern of this kind uses, with the others cleared. */
  function Normal(p: Pattern): Pattern
  {
    var plain := BLANK.(kind := p.kind, interval := p.interval);
    if p.kind == "weekly" then plain.(days := p.days, firstDay := p.firstDay)
    else if p.kind == "absoluteMonthly" then plain.(dayOfMonth := p.dayOfMonth)
    else if p.kind == "relativeMonthly" then plain.(days := p.days, index := p.index)
    else if p.kind == "absoluteYearly" then plain.(dayOfMonth := p.dayOfMonth, month := p.month)
    else if p.kind == "relativeYearly" then plain.(days := p.days, index := p.index, month := p.month)
    else plain
  }

  /** How and when the range ends. */
  function EndOf(r: Range): (string, int, Option<int>)
  {
    if r.kind == "numbered" then ("numbered", r.count, None)
    else if r.kind == "endDate" then ("endDate", 0, r.endDate)
    else ("noEnd", 0, None)
  }

  /** A Graph pattern with everything its kind needs. */
  predicate WellFormed(p: Pattern)
  {
    && p.interval >= 1
    && (p.kind == "weekly" ==> p.firstDay != "")
    && (p.kind == "relativeMonthly" || p.kind == "relativeYearly" ==> p.index != "")
    && (p.kind == "absoluteMonthly" || p.kind == "absoluteYearly" ==> 1 <= p.dayOfMonth <= 31)
  }

  lemma {:induction false} DaysRead(days: seq<string>, n: int, plain: bool, total: nat)
    requires DaysOf(days, n).Some? && (n == 0 || (!plain && total == 1 && IndexName(n).Some?))
    ensures |DaysOf(days, n).value| == |days|
    ensures NamesOf(DaysOf(days, n).value, plain, total)
         == Some((days, if n == 0 || days == [] then "" else IndexName(n).value))
  {
    if days != [] {
      var k := |days| - 1;
      DaysRead(days[..k], n, plain, total);
      assert DaysOf(days, n).value[..k] == DaysOf(days[..k], n).value;
      assert days == days[..k] + [days[k]];
    }
  }

  lemma GraphDaysRead(days: seq<string>, index: string, plain: bool)
    requires GraphDays(days, index).Ok? && (index == "" || !plain)
    ensures var r := GraphDays(days, index).value;
            r != [] && NamesOf(r, plain, |r|) == Some((days, index)) && (forall i | 0 <= i < |r| :: r[i].n == 0 <==> index == "")
  {
    var n := if index == "" then 0 else Ordinal(index).value;
    if index != "" {
      OrdinalReads(index);
    }
    DaysRead(days, n, plain, |days|);
    DaysOrdinal(days, n);
  }

  lemma {:induction false} DaysOrdinal(days: seq<string>, n: int)
    requires DaysOf(days, n).Some?
    ensures forall i | 0 <= i < |DaysOf(days, n).value| :: DaysOf(days, n).value[i].n == n
  {
    if days != [] {
      DaysOrdinal(days[..|days| - 1], n);
    }
  }

  /** The pattern read back from the rule of a pattern, apart from the interval. */
  lemma PatternBack(w: World, p: Pattern, today: int)
    requires PatternRule(p).Ok?
    ensures var r, back := PatternRule(p).value, RulePattern(w, PatternRule(p).value, today);
            && r.positions == [] && !r.others && r.count == 0 && r.until == None
            && (back.Some? && back.value.(interval := p.interval) == Normal(p) <==> WellFormed(p.(interval := 1)))
  {
    hide GraphDays, NamesOf;
    if p.kind == "weekly" {
      GraphDaysRead(p.days, "", true);
    } else if p.kind == "relativeMonthly" || p.kind == "relativeYearly" {
      GraphDaysRead(p.days, p.index, false);
    }
  }

  /**
   * For an event in the zone of the recurrence, Graph to rule to Graph gives back the same pattern and the same end
   * exactly when the Graph pattern is well formed and the zone of a timed event has a Windows name.
   */
  lemma RoundTripExact(w: World, g: Graph, start: EventTime)
    requires w.Sound() && ToRule(w, g, start.AllDay?).Ok? && start.Instant().Some?
    requires start.Timed? ==> start.zone == ToRule(w, g, false).value.1
    ensures var back := ToGraph(w, ToRule(w, g, start.AllDay?).value.0, start);
            (back.Ok? && back.value.pattern == Normal(g.pattern) && EndOf(back.value.range) == EndOf(g.range))
            <==> WellFormed(g.pattern) && (start.AllDay? || start.zone == UTC || w.aliasOf(start.zone).Some?)
  {
    hide PatternRule, RulePattern, Normal;
    var rule := ToRule(w, g, start.AllDay?).value.0;
    var base := PatternRule(g.pattern).value;
    var zone := if start.Timed? then start.zone else UTC;
    var today := w.localDay(zone, start.Instant().value);
    PatternBack(w, g.pattern, today);
    SamePattern(w, base, rule, today);
    NormalInterval(w, g.pattern, base, today);
  }

  /** Interval and range do not matter for the pattern. */
  lemma SamePattern(w: World, a: Rule, b: Rule, today: int)
    requires b == a.(interval := b.interval, count := b.count, until := b.until)
    ensures RulePattern(w, a, today) == RulePattern(w, b, today)
  {
    hide NamesOf;
  }

  lemma NormalInterval(w: World, p: Pattern, r: Rule, today: int)
    ensures RulePattern(w, r, today).Some? ==> RulePattern(w, r, today).value.interval == 1
    ensures Normal(p).interval == p.interval
    ensures WellFormed(p) <==> p.interval >= 1 && WellFormed(p.(interval := 1))
  {
    hide NamesOf;
  }
}
