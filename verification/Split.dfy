/** Splitting a recurring series in two (internal/application/following.go). */
module SeriesSplit {
  import opened Base
  import opened Strings
  import opened Events

  const SECOND := 1_000_000_000
  const RULE := "RRULE:"
  const COUNT := "COUNT="
  const UNTIL := "UNTIL="

  predicate HasPrefix(s: string, prefix: string)
  {
    |prefix| <= |s| && s[..|prefix|] == prefix
  }

  predicate IsRule(line: string)
  {
    HasPrefix(ToUpper(line), RULE)
  }

  function PartsOf(line: string): seq<string>
    requires IsRule(line)
  {
    Split(line[|RULE|..], ';')
  }

  predicate IsCount(part: string) { HasPrefix(ToUpper(part), COUNT) }

  predicate IsUntil(part: string) { HasPrefix(ToUpper(part), UNTIL) }

  /** The parts that describe the pattern: everything but the limits. */
  function Kept(parts: seq<string>): seq<string>
  {
    if parts == [] then []
    else
      var last := parts[|parts| - 1];
      Kept(parts[..|parts| - 1]) + (if IsCount(last) || IsUntil(last) then [] else [last])
  }

  /** The value of the last COUNT part; unreadable or absent counts as zero. */
  function CountOf(parts: seq<string>): int
  {
    if parts == [] then 0
    else
      var last := parts[|parts| - 1];
      if IsCount(last) then (match Atoi(TrimSpace(last[|COUNT|..])) case Some(n) => n case None => 0)
      else CountOf(parts[..|parts| - 1])
  }

  /** The calendar text of an UNTIL value; a decimal number stands for its digits. */
  function UntilBefore(t: EventTime): string
    requires !t.Malformed?
  {
    if t.AllDay? then Itoa(t.day - 1) else Itoa((t.instant - SECOND) / SECOND) + "Z"
  }

  function CountPart(n: int): string { COUNT + Itoa(n) }

  function UntilPart(t: EventTime): string
    requires !t.Malformed?
  {
    UNTIL + UntilBefore(t)
  }

  function RuleLine(parts: seq<string>): string
  {
    RULE + Join(parts, ';')
  }

  lemma UntilPlain(t: EventTime)
    requires !t.Malformed?
    ensures ';' !in UntilBefore(t)
  {
    hide Itoa;
  }

  /** Parts that describe a pattern only. */
  predicate Pattern(kept: seq<string>)
  {
    forall i | 0 <= i < |kept| :: !IsCount(kept[i]) && !IsUntil(kept[i]) && ';' !in kept[i]
  }

  lemma {:induction false} KeptIsPattern(parts: seq<string>)
    requires forall i | 0 <= i < |parts| :: ';' !in parts[i]
    ensures Pattern(Kept(parts))
  {
    hide IsCount, IsUntil;
    if parts != [] {
      KeptIsPattern(parts[..|parts| - 1]);
    }
  }

  lemma LinePattern(line: string)
    requires IsRule(line)
    ensures Pattern(Kept(PartsOf(line)))
  {
    hide Kept, Pattern;
    var parts := PartsOf(line);
    assert forall i | 0 <= i < |parts| :: parts[i] in parts;
    KeptIsPattern(parts);
  }

  datatype Halves = Halves(past: seq<string>, future: seq<string>)

  function SplitLine(line: string, effective: EventTime, elapsed: int): Result<(string, string)>
    requires !effective.Malformed?
  {
    if !IsRule(line) then Ok((line, line))
    else
      var parts := PartsOf(line);
      var n := CountOf(parts);
      if elapsed <= 0 || (n > 0 && elapsed >= n) then Err(Rejected)
      else if n > 0 then
        Ok((RuleLine(Kept(parts) + [CountPart(elapsed)]), RuleLine(Kept(parts) + [CountPart(n - elapsed)])))
      else Ok((RuleLine(Kept(parts) + [UntilPart(effective)]), line))
  }

  function SplitLines(lines: seq<string>, effective: EventTime, elapsed: int): (r: Result<Halves>)
    requires !effective.Malformed?
    ensures r.Ok? ==> |r.value.past| == |lines| && |r.value.future| == |lines|
  {
    if lines == [] then Ok(Halves([], []))
    else
      var front := SplitLines(lines[..|lines| - 1], effective, elapsed);
      if front.Err? then front
      else
        var last := SplitLine(lines[|lines| - 1], effective, elapsed);
        if last.Err? then Err(last.error) else Ok(Halves(front.value.past + [last.value.0], front.value.future + [last.value.1]))
  }

  function SplitSeries(lines: seq<string>, effective: EventTime, elapsed: int): Result<Halves>
    requires !effective.Malformed?
  {
    var r := SplitLines(lines, effective, elapsed);
    if r.Ok? && !exists i | 0 <= i < |lines| :: IsRule(lines[i]) then Err(Rejected) else r
  }

  // --- the loops ------------------------------------------------------------------------

  method ReadParts(parts: seq<string>) returns (kept: seq<string>, count: int)
    ensures kept == Kept(parts) && count == CountOf(parts)
  {
    kept, count := [], 0;
    for i := 0 to |parts|
      invariant kept == Kept(parts[..i]) && count == CountOf(parts[..i])
    {
      assert parts[..i + 1][..i] == parts[..i];
      if IsCount(parts[i]) {
        var n := Atoi(TrimSpace(parts[i][|COUNT|..]));
        count := if n.Some? then n.value else 0;
      } else if !IsUntil(parts[i]) {
        kept := kept + [parts[i]];
      }
    }
    assert parts[..|parts|] == parts;
  }

  /** The two new texts of one rule line. */
  method SplitRule(line: string, effective: EventTime, elapsed: int) returns (r: Result<(string, string)>)
    requires !effective.Malformed? && IsRule(line)
    ensures r == SplitLine(line, effective, elapsed)
  {
    hide IsRule, PartsOf, Kept, CountOf, UntilPart, CountPart, RuleLine;
    var kept, count := ReadParts(PartsOf(line));
    if elapsed <= 0 || (count > 0 && elapsed >= count) {
      return Err(Rejected);
    }
    if count > 0 {
      return Ok((RuleLine(kept + [CountPart(elapsed)]), RuleLine(kept + [CountPart(count - elapsed)])));
    }
    return Ok((RuleLine(kept + [UntilPart(effective)]), line));
  }

  /** splitRecurrence: both copies of the lines are edited in one pass. */
  method SplitRecurrence(lines: seq<string>, effective: EventTime, elapsed: int) returns (r: Result<Halves>)
    requires !effective.Malformed?
    ensures r == SplitSeries(lines, effective, elapsed)
  {
    hide IsRule, SplitLine, SplitLines;
    var past, future := lines, lines;
    var found := false;
    assert SplitLines(lines[..0], effective, elapsed) == Ok(Halves([], [])) by { NothingSplit(lines, effective, elapsed); }
    for i := 0 to |lines|
      invariant |past| == |future| == |lines| && past[i..] == future[i..] == lines[i..]
      invariant SplitLines(lines[..i], effective, elapsed) == Ok(Halves(past[..i], future[..i]))
      invariant found <==> exists k | 0 <= k < i :: IsRule(lines[k])
    {
      SplitNext(lines, effective, elapsed, i);
      assert past[i] == past[i..][0] && future[i] == future[i..][0] && lines[i] == lines[i..][0];
      if IsRule(lines[i]) {
        found := true;
        var halves := SplitRule(lines[i], effective, elapsed);
        if halves.Err? {
          StaysFailed(lines, effective, elapsed, i + 1);
          return Err(halves.error);
        }
        past, future := past[i := halves.value.0], future[i := halves.value.1];
      }
      assert past[..i + 1] == past[..i] + [past[i]] && future[..i + 1] == future[..i] + [future[i]];
      assert past[i + 1..] == lines[i..][1..] && future[i + 1..] == lines[i..][1..] && lines[i..][1..] == lines[i + 1..];
    }
    assert lines[..|lines|] == lines && past[..|lines|] == past && future[..|lines|] == future;
    return if found then Ok(Halves(past, future)) else Err(Rejected);
  }

  lemma NothingSplit(lines: seq<string>, effective: EventTime, elapsed: int)
    requires !effective.Malformed?
    ensures SplitLines(lines[..0], effective, elapsed) == Ok(Halves([], []))
  {
  }

  lemma SplitNext(lines: seq<string>, effective: EventTime, elapsed: int, i: nat)
    requires !effective.Malformed? && i < |lines| && SplitLines(lines[..i], effective, elapsed).Ok?
    ensures var front, last := SplitLines(lines[..i], effective, elapsed).value, SplitLine(lines[i], effective, elapsed);
            SplitLines(lines[..i + 1], effective, elapsed) ==
            if last.Err? then Err(last.error) else Ok(Halves(front.past + [last.value.0], front.future + [last.value.1]))
    ensures !IsRule(lines[i]) ==> SplitLine(lines[i], effective, elapsed) == Ok((lines[i], lines[i]))
  {
    hide IsRule, PartsOf;
    assert lines[..i + 1][..i] == lines[..i];
  }

  lemma {:induction false} StaysFailed(lines: seq<string>, effective: EventTime, elapsed: int, i: nat)
    requires !effective.Malformed? && i <= |lines| && SplitLines(lines[..i], effective, elapsed).Err?
    ensures SplitLines(lines, effective, elapsed) == SplitLines(lines[..i], effective, elapsed)
    decreases |lines|
  {
    if i == |lines| {
      assert lines[..i] == lines;
    } else {
      assert lines[..|lines| - 1][..i] == lines[..i];
      StaysFailed(lines[..|lines| - 1], effective, elapsed, i);
    }
  }

  // --- recognising a trimmed series --------------------------------------------------------

  /** strings.SplitN(part, "=", 2). */
  function KeyOf(part: string): string { part[..IndexOf(part, '=')] }

  function ValueOf(part: string): Option<string>
  {
    var i := IndexOf(part, '=');
    if i < |part| then Some(part[i + 1..]) else None
  }

  /** What one part says: whether it is the expected limit, or nothing when it is no limit. */
  function Says(part: string, want: string, elapsed: int): Option<bool>
  {
    if ValueOf(part).None? then None
    else if ToUpper(KeyOf(part)) == "UNTIL" then Some(ValueOf(part).value == want)
    else if ToUpper(KeyOf(part)) == "COUNT" then Some(Atoi(ValueOf(part).value) == Some(elapsed))
    else None
  }

  /** The first part that is a limit decides. */
  function FirstLimit(parts: seq<string>, want: string, elapsed: int): Option<bool>
  {
    if parts == [] then None
    else if Says(parts[0], want, elapsed).Some? then Says(parts[0], want, elapsed)
    else FirstLimit(parts[1..], want, elapsed)
  }

  function FirstRule(lines: seq<string>, want: string, elapsed: int): bool
  {
    if lines == [] then false
    else
      var here := if IsRule(lines[0]) then FirstLimit(PartsOf(lines[0]), want, elapsed) else None;
      if here.Some? then here.value else FirstRule(lines[1..], want, elapsed)
  }

  /** recurrenceTrimmedBefore. */
  method RecurrenceTrimmedBefore(lines: seq<string>, effective: EventTime, elapsed: int) returns (trimmed: bool)
    requires !effective.Malformed?
    ensures trimmed == FirstRule(lines, UntilBefore(effective), elapsed)
  {
    hide IsRule, Says, UntilBefore;
    var want := UntilBefore(effective);
    assert lines[0..] == lines;
    for i := 0 to |lines|
      invariant FirstRule(lines, want, elapsed) == FirstRule(lines[i..], want, elapsed)
    {
      assert lines[i..][1..] == lines[i + 1..];
      if IsRule(lines[i]) {
        var parts := PartsOf(lines[i]);
        assert parts[0..] == parts;
        for k := 0 to |parts|
          invariant FirstLimit(parts, want, elapsed) == FirstLimit(parts[k..], want, elapsed)
        {
          assert parts[k..][1..] == parts[k + 1..];
          var said := Says(parts[k], want, elapsed);
          if said.Some? {
            return said.value;
          }
        }
      }
    }
    return false;
  }

  lemma KeyOfLimit(part: string, key: string, value: string)
    requires part == key + "=" + value && '=' !in key
    ensures KeyOf(part) == key && ValueOf(part) == Some(value)
  {
    var i := IndexOf(part, '=');
    assert part[|key|] == '=';
    assert forall k | 0 <= k < |key| :: part[k] == key[k] && part[k] != '=';
    assert forall k | 0 <= k < i :: part[..i][k] == part[k];
    assert part[|key| + 1..] == value && part[..|key|] == key;
  }

  /** The key comparison and the prefix comparison agree on what a limit is. */
  lemma LimitPrefix(part: string, want: string, elapsed: int)
    ensures Says(part, want, elapsed).Some? <==> IsCount(part) || IsUntil(part)
  {
    var i := IndexOf(part, '=');
    var upper := ToUpper(part);
    assert forall k | 0 <= k < |part| :: upper[k] == '=' <==> part[k] == '=';
    assert forall k | 0 <= k < i :: part[k] == part[..i][k] && part[k] != '=';
    assert ToUpper(part[..i]) == upper[..i];
    if IsCount(part) {
      assert upper[5] == COUNT[5] && forall k | 0 <= k < 5 :: upper[k] == upper[..6][k] && upper[k] != '=';
      assert i == 5 && upper[..6][..5] == "COUNT";
    }
    if IsUntil(part) {
      assert upper[5] == UNTIL[5] && forall k | 0 <= k < 5 :: upper[k] == upper[..6][k] && upper[k] != '=';
      assert i == 5 && upper[..6][..5] == "UNTIL";
    }
    if Says(part, want, elapsed).Some? {
      assert upper[..6] == upper[..5] + "=";
    }
  }

  lemma {:induction false} KeptSaysNothing(kept: seq<string>, last: string, want: string, elapsed: int)
    requires Pattern(kept) && Says(last, want, elapsed).Some?
    ensures FirstLimit(kept + [last], want, elapsed) == Says(last, want, elapsed)
  {
    hide Says, IsCount, IsUntil;
    if kept != [] {
      LimitPrefix(kept[0], want, elapsed);
      assert (kept + [last])[1..] == kept[1..] + [last];
      assert forall i | 0 <= i < |kept[1..]| :: kept[1..][i] == kept[i + 1];
      KeptSaysNothing(kept[1..], last, want, elapsed);
    }
  }

  lemma RuleLineParts(parts: seq<string>)
    requires parts != [] && forall i | 0 <= i < |parts| :: ';' !in parts[i]
    ensures IsRule(RuleLine(parts)) && PartsOf(RuleLine(parts)) == parts
  {
    hide Join, Split;
    var line := RuleLine(parts);
    assert line[..|RULE|] == RULE && line[|RULE|..] == Join(parts, ';');
    assert ToUpper(line)[..|RULE|] == RULE;
    SplitOfJoin(parts, ';');
  }

  lemma CountSays(elapsed: int, want: string)
    ensures Says(CountPart(elapsed), want, elapsed) == Some(true) && ';' !in CountPart(elapsed)
  {
    hide Itoa, Atoi;
    KeyOfLimit(CountPart(elapsed), "COUNT", Itoa(elapsed));
    AtoiOfItoa(elapsed);
    assert ToUpper("COUNT") == "COUNT";
  }

  lemma UntilSays(want: string, elapsed: int)
    requires ';' !in want
    ensures Says(UNTIL + want, want, elapsed) == Some(true) && ';' !in UNTIL + want
  {
    KeyOfLimit(UNTIL + want, "UNTIL", want);
    assert ToUpper("UNTIL") == "UNTIL";
  }

  /** A rule line that was split is trimmed. */
  lemma OldLineTrimmed(line: string, effective: EventTime, elapsed: int)
    requires !effective.Malformed? && IsRule(line) && SplitLine(line, effective, elapsed).Ok?
    ensures var past := SplitLine(line, effective, elapsed).value.0;
            IsRule(past) && FirstLimit(PartsOf(past), UntilBefore(effective), elapsed) == Some(true)
  {
    var parts := PartsOf(line);
    var want := UntilBefore(effective);
    var last := if CountOf(parts) > 0 then CountPart(elapsed) else UntilPart(effective);
    CountSays(elapsed, want);
    UntilPlain(effective);
    UntilSays(want, elapsed);
    LinePattern(line);
    hide IsRule, PartsOf, UntilBefore, Says, Itoa, IsCount, IsUntil, RuleLine, CountOf;
    RuleLineParts(Kept(parts) + [last]);
    KeptSaysNothing(Kept(parts), last, want, elapsed);
  }

  lemma {:induction false} OldLinesTrimmed(lines: seq<string>, past: seq<string>, effective: EventTime, elapsed: int)
    requires !effective.Malformed? && |past| == |lines|
    requires forall i | 0 <= i < |lines| :: SplitLine(lines[i], effective, elapsed).Ok? && past[i] == SplitLine(lines[i], effective, elapsed).value.0
    requires exists i | 0 <= i < |lines| :: IsRule(lines[i])
    ensures FirstRule(past, UntilBefore(effective), elapsed)
  {
    hide IsRule, PartsOf, UntilBefore, RuleLine, Kept, CountOf, FirstLimit;
    if IsRule(lines[0]) {
      OldLineTrimmed(lines[0], effective, elapsed);
    } else {
      var k :| 0 <= k < |lines| && IsRule(lines[k]);
      assert lines[1..][k - 1] == lines[k];
      OldLinesTrimmed(lines[1..], past[1..], effective, elapsed);
    }
  }

  lemma {:induction false} LinesSplit(lines: seq<string>, effective: EventTime, elapsed: int, i: nat)
    requires !effective.Malformed? && SplitLines(lines, effective, elapsed).Ok? && i < |lines|
    ensures SplitLine(lines[i], effective, elapsed).Ok?
    ensures var r, s := SplitLines(lines, effective, elapsed).value, SplitLine(lines[i], effective, elapsed).value;
            r.past[i] == s.0 && r.future[i] == s.1
  {
    hide SplitLine;
    if i < |lines| - 1 {
      LinesSplit(lines[..|lines| - 1], effective, elapsed, i);
    }
  }

  /** The old half of any successful split is recognised as already trimmed. */
  lemma OldHalfRecognised(lines: seq<string>, effective: EventTime, elapsed: int)
    requires !effective.Malformed? && SplitSeries(lines, effective, elapsed).Ok?
    ensures FirstRule(SplitSeries(lines, effective, elapsed).value.past, UntilBefore(effective), elapsed)
  {
    hide IsRule, SplitLine, SplitLines, FirstRule, UntilBefore;
    forall i | 0 <= i < |lines|
      ensures SplitLine(lines[i], effective, elapsed).Ok?
      ensures SplitSeries(lines, effective, elapsed).value.past[i] == SplitLine(lines[i], effective, elapsed).value.0
    {
      LinesSplit(lines, effective, elapsed, i);
    }
    OldLinesTrimmed(lines, SplitSeries(lines, effective, elapsed).value.past, effective, elapsed);
  }

  // --- what the rules generate (section 3.3.10 of RFC 5545) ------------------------------------

  /** The occurrence after a given one, as the pattern parts of a rule determine it. */
  type Stepper = (seq<string>, int) -> int

  /** Occurrences move forward on a grid of whole days or whole seconds. */
  ghost predicate Steps(next: Stepper, unit: nat)
    requires unit > 0
  {
    forall kept, t :: next(kept, t) > t && (next(kept, t) - t) % unit == 0
  }

  predicate OnGrid(t: int, unit: nat)
    requires unit > 0
  {
    t % unit == 0
  }

  /** The i-th occurrence of the unlimited pattern; the first is the start itself. */
  function Nth(next: Stepper, kept: seq<string>, start: int, i: nat): int
  {
    if i == 0 then start else next(kept, Nth(next, kept, start, i - 1))
  }

  function Unit(t: EventTime): (u: nat)
    ensures u > 0
  {
    if t.AllDay? then DAY else SECOND
  }

  /** The instant an UNTIL value stands for: a whole second with a trailing Z, otherwise a date. */
  function UntilInstant(text: string): Option<int>
  {
    if text != "" && text[|text| - 1] == 'Z' then
      (match Atoi(text[..|text| - 1]) case Some(n) => Some(n * SECOND) case None => None)
    else (match Atoi(text) case Some(n) => Some(n * DAY) case None => None)
  }

  /** A rule's limit; a rule with more than one, or with an unreadable or empty one, has no meaning. */
  datatype Limit = Unlimited | First(n: nat) | Through(instant: int) | NoMeaning

  function LimitOf(parts: seq<string>): Limit
  {
    if parts == [] then Unlimited
    else
      var before, last := LimitOf(parts[..|parts| - 1]), parts[|parts| - 1];
      if !IsCount(last) && !IsUntil(last) then before
      else if !before.Unlimited? then NoMeaning
      else if IsCount(last) then
        (match Atoi(TrimSpace(last[|COUNT|..])) case Some(n) => if n > 0 then First(n) else NoMeaning case None => NoMeaning)
      else (match UntilInstant(last[|UNTIL|..]) case Some(t) => Through(t) case None => NoMeaning)
  }

  predicate Within(limit: Limit, i: nat, t: int)
  {
    match limit
    case Unlimited => true
    case First(n) => i < n
    case Through(u) => t <= u
    case NoMeaning => false
  }

  /** The rule line, started at this instant, has an occurrence then. */
  ghost predicate Occurs(next: Stepper, line: string, start: int, t: int)
    requires IsRule(line)
  {
    Generates(next, Kept(PartsOf(line)), LimitOf(PartsOf(line)), start, t)
  }

  ghost predicate Generates(next: Stepper, kept: seq<string>, limit: Limit, start: int, t: int)
  {
    exists i: nat :: Nth(next, kept, start, i) == t && Within(limit, i, t)
  }

  lemma {:induction false} NthGrows(next: Stepper, kept: seq<string>, start: int, unit: nat, i: nat, j: nat)
    requires unit > 0 && Steps(next, unit) && i <= j
    ensures Nth(next, kept, start, i) <= Nth(next, kept, start, j)
    ensures i < j ==> Nth(next, kept, start, i) < Nth(next, kept, start, j)
    ensures (Nth(next, kept, start, j) - Nth(next, kept, start, i)) % unit == 0
    decreases j
  {
    if i < j {
      NthGrows(next, kept, start, unit, i, j - 1);
      var a, b, c := Nth(next, kept, start, i), Nth(next, kept, start, j - 1), Nth(next, kept, start, j);
      assert c == next(kept, b);
      SumOfMultiples(c - b, b - a, unit);
    }
  }

  lemma NthOnGrid(next: Stepper, kept: seq<string>, start: int, unit: nat, i: nat)
    requires unit > 0 && Steps(next, unit) && OnGrid(start, unit)
    ensures OnGrid(Nth(next, kept, start, i), unit)
  {
    hide Nth, Steps;
    NthGrows(next, kept, start, unit, 0, i);
    assert Nth(next, kept, start, 0) == start by { NthFirst(next, kept, start); }
    SumOfMultiples(Nth(next, kept, start, i) - start, start, unit);
  }

  lemma NthFirst(next: Stepper, kept: seq<string>, start: int)
    ensures Nth(next, kept, start, 0) == start
  {
  }

  lemma SumOfMultiples(a: int, b: int, unit: nat)
    requires unit > 0 && a % unit == 0 && b % unit == 0
    ensures (a + b) % unit == 0
  {
    var x, y := a / unit, b / unit;
    assert a + b == unit * (x + y);
    MultipleMod(x + y, unit);
  }

  lemma MultipleMod(x: int, unit: nat)
    requires unit > 0
    ensures (unit * x) % unit == 0
  {
    var q, r := (unit * x) / unit, (unit * x) % unit;
    assert unit * (x - q) == r;
    MultipleBounds(x - q, unit);
  }

  lemma MultipleBounds(d: int, unit: nat)
    ensures d >= 1 ==> unit * d >= unit
    ensures d <= -1 ==> unit * d + unit <= 0
  {
  }

  /** The pattern has no memory: started at a later occurrence it goes on as before. */
  lemma {:induction false} NthShifts(next: Stepper, kept: seq<string>, start: int, k: nat, i: nat)
    ensures Nth(next, kept, Nth(next, kept, start, k), i) == Nth(next, kept, start, k + i)
    decreases i
  {
    if i > 0 {
      NthShifts(next, kept, start, k, i - 1);
    }
  }

  lemma {:induction false} LimitCount(parts: seq<string>)
    requires !LimitOf(parts).NoMeaning?
    ensures LimitOf(parts).First? ==> CountOf(parts) == LimitOf(parts).n > 0
    ensures !LimitOf(parts).First? ==> CountOf(parts) == 0
  {
    hide IsCount, IsUntil, UntilInstant;
    if parts != [] {
      LimitCount(parts[..|parts| - 1]);
    }
  }

  lemma {:induction false} KeptUnlimited(kept: seq<string>)
    requires Pattern(kept)
    ensures LimitOf(kept) == Unlimited && Kept(kept) == kept
  {
    hide IsCount, IsUntil;
    if kept != [] {
      KeptUnlimited(kept[..|kept| - 1]);
      assert kept == kept[..|kept| - 1] + [kept[|kept| - 1]];
    }
  }

  /** A rule rebuilt from its pattern and one new limit. */
  lemma Rebuilt(kept: seq<string>, last: string, limit: Limit)
    requires Pattern(kept) && ';' !in last && (IsCount(last) || IsUntil(last)) && LimitOf([last]) == limit
    ensures IsRule(RuleLine(kept + [last])) && PartsOf(RuleLine(kept + [last])) == kept + [last]
    ensures Kept(kept + [last]) == kept && LimitOf(kept + [last]) == limit
  {
    hide IsCount, IsUntil, IsRule, PartsOf, RuleLine;
    RuleLineParts(kept + [last]);
    KeptUnlimited(kept);
    assert (kept + [last])[..|kept|] == kept && [last][..0] == [];
  }

  lemma CountLimit(n: int)
    requires n > 0
    ensures IsCount(CountPart(n)) && !IsUntil(CountPart(n)) && LimitOf([CountPart(n)]) == First(n)
  {
    hide Itoa, Atoi;
    var part := CountPart(n);
    assert ToUpper(part)[..|COUNT|] == COUNT && part[|COUNT|..] == Itoa(n);
    NoBlanks(Itoa(n));
    AtoiOfItoa(n);
    assert ToUpper(part)[0] == 'C';
  }

  lemma NoBlanks(s: string)
    requires forall c | c in s :: !Blank(c)
    ensures TrimSpace(s) == s
  {
  }

  lemma UntilLimit(effective: EventTime, e: int)
    requires !effective.Malformed? && effective.Instant() == Some(e) && OnGrid(e, Unit(effective))
    ensures var part := UntilPart(effective);
            IsUntil(part) && !IsCount(part) && LimitOf([part]) == Through(e - Unit(effective))
  {
    hide Itoa, Atoi;
    var part := UntilPart(effective);
    assert ToUpper(part)[..|UNTIL|] == UNTIL && part[|UNTIL|..] == UntilBefore(effective);
    assert ToUpper(part)[0] == 'U';
    UntilReads(effective, e);
  }

  lemma UntilReads(effective: EventTime, e: int)
    requires !effective.Malformed? && effective.Instant() == Some(e) && OnGrid(e, Unit(effective))
    ensures UntilInstant(UntilBefore(effective)) == Some(e - Unit(effective))
  {
    hide Itoa, Atoi;
    var text := UntilBefore(effective);
    if effective.AllDay? {
      AtoiOfItoa(effective.day - 1);
      assert text[|text| - 1] in text;
    } else {
      var seconds := (e - SECOND) / SECOND;
      AtoiOfItoa(seconds);
      assert text[..|text| - 1] == Itoa(seconds);
    }
  }

  /** The limit of the old half keeps exactly the first occurrences. */
  lemma PastLimit(next: Stepper, kept: seq<string>, start: int, elapsed: nat, unit: nat, limit: Limit, i: nat)
    requires unit > 0 && Steps(next, unit)
    requires limit == First(elapsed) || limit == Through(Nth(next, kept, start, elapsed) - unit)
    ensures Within(limit, i, Nth(next, kept, start, i)) <==> i < elapsed
    ensures i < elapsed <==> Nth(next, kept, start, i) < Nth(next, kept, start, elapsed)
  {
    if i < elapsed {
      NthGrows(next, kept, start, unit, i, elapsed);
      GridGap(Nth(next, kept, start, i), Nth(next, kept, start, elapsed), unit);
    } else {
      NthGrows(next, kept, start, unit, elapsed, i);
    }
  }

  lemma GridGap(a: int, b: int, unit: nat)
    requires unit > 0 && a < b && (b - a) % unit == 0
    ensures a <= b - unit
  {
    MultipleBounds((b - a) / unit, unit);
  }

  lemma PastGenerates(next: Stepper, kept: seq<string>, start: int, elapsed: nat, unit: nat, limit: Limit, past: Limit, t: int)
    requires unit > 0 && Steps(next, unit) && Within(limit, elapsed, Nth(next, kept, start, elapsed))
    requires past == First(elapsed) || past == Through(Nth(next, kept, start, elapsed) - unit)
    ensures Generates(next, kept, past, start, t) <==> Generates(next, kept, limit, start, t) && t < Nth(next, kept, start, elapsed)
  {
    if Generates(next, kept, past, start, t) {
      var i: nat :| Nth(next, kept, start, i) == t && Within(past, i, t);
      PastLimit(next, kept, start, elapsed, unit, past, i);
      assert Within(limit, i, t);
    }
    if Generates(next, kept, limit, start, t) && t < Nth(next, kept, start, elapsed) {
      var i: nat :| Nth(next, kept, start, i) == t && Within(limit, i, t);
      PastLimit(next, kept, start, elapsed, unit, past, i);
      assert Within(past, i, t);
    }
  }

  lemma FutureStays(next: Stepper, kept: seq<string>, start: int, elapsed: nat, unit: nat, limit: Limit, future: Limit, t: int)
    requires unit > 0 && Steps(next, unit) && Within(limit, elapsed, Nth(next, kept, start, elapsed))
    requires future == if limit.First? then First(limit.n - elapsed) else limit
    requires Generates(next, kept, future, Nth(next, kept, start, elapsed), t)
    ensures Generates(next, kept, limit, start, t) && Nth(next, kept, start, elapsed) <= t
  {
    hide Nth, Steps;
    var i: nat :| Nth(next, kept, Nth(next, kept, start, elapsed), i) == t && Within(future, i, t);
    NthShifts(next, kept, start, elapsed, i);
    NthGrows(next, kept, start, unit, elapsed, elapsed + i);
    assert Nth(next, kept, start, elapsed + i) == t && Within(limit, elapsed + i, t);
  }

  lemma FutureCovers(next: Stepper, kept: seq<string>, start: int, elapsed: nat, unit: nat, limit: Limit, future: Limit, t: int)
    requires unit > 0 && Steps(next, unit) && Within(limit, elapsed, Nth(next, kept, start, elapsed))
    requires future == if limit.First? then First(limit.n - elapsed) else limit
    requires Generates(next, kept, limit, start, t) && Nth(next, kept, start, elapsed) <= t
    ensures Generates(next, kept, future, Nth(next, kept, start, elapsed), t)
  {
    hide Nth, Steps;
    var i: nat :| Nth(next, kept, start, i) == t && Within(limit, i, t);
    PastLimit(next, kept, start, elapsed, unit, First(elapsed), i);
    NthShifts(next, kept, start, elapsed, i - elapsed);
    assert Nth(next, kept, Nth(next, kept, start, elapsed), i - elapsed) == t && Within(future, i - elapsed, t);
  }

  lemma FutureGenerates(next: Stepper, kept: seq<string>, start: int, elapsed: nat, unit: nat, limit: Limit, future: Limit, t: int)
    requires unit > 0 && Steps(next, unit) && Within(limit, elapsed, Nth(next, kept, start, elapsed))
    requires future == if limit.First? then First(limit.n - elapsed) else limit
    ensures Generates(next, kept, future, Nth(next, kept, start, elapsed), t)
       <==> Generates(next, kept, limit, start, t) && Nth(next, kept, start, elapsed) <= t
  {
    hide Nth, Steps, Generates;
    if Generates(next, kept, future, Nth(next, kept, start, elapsed), t) {
      FutureStays(next, kept, start, elapsed, unit, limit, future, t);
    } else if Generates(next, kept, limit, start, t) && Nth(next, kept, start, elapsed) <= t {
      FutureCovers(next, kept, start, elapsed, unit, limit, future, t);
    }
  }

  /** A line rebuilt from the pattern of another. */
  ghost predicate Carries(line: string, kept: seq<string>, limit: Limit)
  {
    IsRule(line) && Kept(PartsOf(line)) == kept && LimitOf(PartsOf(line)) == limit
  }

  lemma CountHalf(kept: seq<string>, n: int)
    requires n > 0 && Pattern(kept)
    ensures Carries(RuleLine(kept + [CountPart(n)]), kept, First(n))
  {
    CountLimit(n);
    hide IsCount, IsUntil, IsRule, PartsOf, RuleLine, LimitOf, Itoa, Kept;
    Rebuilt(kept, CountPart(n), First(n));
  }

  lemma UntilHalf(kept: seq<string>, effective: EventTime, e: int)
    requires !effective.Malformed? && effective.Instant() == Some(e) && OnGrid(e, Unit(effective))
    requires Pattern(kept)
    ensures Carries(RuleLine(kept + [UntilPart(effective)]), kept, Through(e - Unit(effective)))
  {
    UntilLimit(effective, e);
    hide IsCount, IsUntil, IsRule, PartsOf, RuleLine, LimitOf, Itoa, Kept, UntilBefore;
    UntilPlain(effective);
    assert ';' !in UntilPart(effective);
    Rebuilt(kept, UntilPart(effective), Through(e - Unit(effective)));
  }

  /** The two texts of a split rule line. */
  lemma SplitShape(line: string, effective: EventTime, elapsed: nat)
    requires !effective.Malformed? && IsRule(line)
    ensures var parts := PartsOf(line);
            var n := CountOf(parts);
            SplitLine(line, effective, elapsed) ==
              if elapsed == 0 || 0 < n <= elapsed then Err(Rejected)
              else if n > 0 then Ok((RuleLine(Kept(parts) + [CountPart(elapsed)]), RuleLine(Kept(parts) + [CountPart(n - elapsed)])))
              else Ok((RuleLine(Kept(parts) + [UntilPart(effective)]), line))
  {
    hide IsRule, PartsOf, Kept, CountOf, RuleLine, CountPart, UntilPart;
  }

  /** The rule that each half becomes. */
  lemma HalfRules(line: string, effective: EventTime, elapsed: nat, e: int)
    requires !effective.Malformed? && effective.Instant() == Some(e) && OnGrid(e, Unit(effective))
    requires IsRule(line) && !LimitOf(PartsOf(line)).NoMeaning? && elapsed > 0
    requires LimitOf(PartsOf(line)).First? ==> elapsed < LimitOf(PartsOf(line)).n
    ensures SplitLine(line, effective, elapsed).Ok?
    ensures HalvesCarry(line, SplitLine(line, effective, elapsed).value, elapsed, e - Unit(effective))
  {
    hide OnGrid, Unit, SplitLine, PartsOf, RuleLine, LimitOf, CountPart, UntilPart, Kept, CountOf, IsRule, HalvesCarry;
    LimitCount(PartsOf(line));
    SplitShape(line, effective, elapsed);
    if LimitOf(PartsOf(line)).First? {
      CountRules(line, SplitLine(line, effective, elapsed).value, elapsed, e - Unit(effective));
    } else {
      UntilRules(line, SplitLine(line, effective, elapsed).value, effective, elapsed, e);
    }
  }

  lemma CountRules(line: string, halves: (string, string), elapsed: nat, until: int)
    requires IsRule(line) && LimitOf(PartsOf(line)).First? && 0 < elapsed < LimitOf(PartsOf(line)).n
    requires halves.0 == RuleLine(Kept(PartsOf(line)) + [CountPart(elapsed)])
    requires halves.1 == RuleLine(Kept(PartsOf(line)) + [CountPart(LimitOf(PartsOf(line)).n - elapsed)])
    ensures HalvesCarry(line, halves, elapsed, until)
  {
    hide Pattern, PartsOf, RuleLine, LimitOf, CountPart, Kept, Carries, IsRule;
    LinePattern(line);
    CountHalf(Kept(PartsOf(line)), elapsed);
    CountHalf(Kept(PartsOf(line)), LimitOf(PartsOf(line)).n - elapsed);
  }

  lemma UntilRules(line: string, halves: (string, string), effective: EventTime, elapsed: nat, e: int)
    requires !effective.Malformed? && effective.Instant() == Some(e) && OnGrid(e, Unit(effective))
    requires IsRule(line) && !LimitOf(PartsOf(line)).First?
    requires halves == (RuleLine(Kept(PartsOf(line)) + [UntilPart(effective)]), line)
    ensures HalvesCarry(line, halves, elapsed, e - Unit(effective))
  {
    hide Pattern, OnGrid, Unit, PartsOf, RuleLine, LimitOf, UntilPart, Kept, Carries, IsRule;
    LinePattern(line);
    OwnRule(line);
    UntilHalf(Kept(PartsOf(line)), effective, e);
  }

  lemma OwnRule(line: string)
    requires IsRule(line)
    ensures Carries(line, Kept(PartsOf(line)), LimitOf(PartsOf(line)))
  {
  }

  ghost predicate HalvesCarry(line: string, halves: (string, string), elapsed: nat, until: int)
    requires IsRule(line)
  {
    var kept, limit := Kept(PartsOf(line)), LimitOf(PartsOf(line));
    && Carries(halves.0, kept, if limit.First? then First(elapsed) else Through(until))
    && Carries(halves.1, kept, if limit.First? && elapsed < limit.n then First(limit.n - elapsed) else limit)
  }

  /**
   * When elapsed is the number of occurrences before the split, the old and the future rule partition the
   * occurrences of the original at it, and a COUNT is conserved.
   */
  lemma SplitPartitions(next: Stepper, line: string, start: int, effective: EventTime, elapsed: nat)
    requires !effective.Malformed? && IsRule(line) && !LimitOf(PartsOf(line)).NoMeaning?
    requires Steps(next, Unit(effective)) && OnGrid(start, Unit(effective))
    requires effective.Instant() == Some(Nth(next, Kept(PartsOf(line)), start, elapsed))
    requires Within(LimitOf(PartsOf(line)), elapsed, effective.Instant().value)
    ensures SplitLine(line, effective, elapsed).Ok? <==> elapsed > 0
    ensures elapsed > 0 ==> Partition(next, line, start, effective.Instant().value, SplitLine(line, effective, elapsed).value)
    ensures elapsed > 0 ==> CountsConserved(line, SplitLine(line, effective, elapsed).value)
  {
    hide SplitLine, IsRule, PartsOf, Kept, LimitOf, Generates, Nth, CountOf, Steps, RuleLine, CountPart, UntilPart, Occurs;
    SplitShape(line, effective, elapsed);
    LimitCount(PartsOf(line));
    if elapsed > 0 {
      SplitHalves(next, line, start, effective, elapsed, effective.Instant().value);
    }
  }

  lemma SplitHalves(next: Stepper, line: string, start: int, effective: EventTime, elapsed: nat, e: int)
    requires !effective.Malformed? && IsRule(line) && !LimitOf(PartsOf(line)).NoMeaning? && elapsed > 0
    requires Steps(next, Unit(effective)) && OnGrid(start, Unit(effective))
    requires effective.Instant() == Some(e) && e == Nth(next, Kept(PartsOf(line)), start, elapsed)
    requires Within(LimitOf(PartsOf(line)), elapsed, e)
    ensures SplitLine(line, effective, elapsed).Ok?
    ensures Partition(next, line, start, e, SplitLine(line, effective, elapsed).value)
    ensures CountsConserved(line, SplitLine(line, effective, elapsed).value)
  {
    hide OnGrid, Unit, SplitLine, IsRule, PartsOf, Kept, LimitOf, Generates, CountOf, Steps, Partition, CountsConserved, Nth, HalvesCarry;
    NthOnGrid(next, Kept(PartsOf(line)), start, Unit(effective), elapsed);
    HalfRules(line, effective, elapsed, e);
    HalvesPartition(next, line, start, elapsed, Unit(effective), SplitLine(line, effective, elapsed).value);
  }

  lemma CountsAdd(line: string, halves: (string, string), elapsed: nat, until: int)
    requires IsRule(line) && !LimitOf(PartsOf(line)).NoMeaning? && HalvesCarry(line, halves, elapsed, until)
    requires LimitOf(PartsOf(line)).First? ==> elapsed < LimitOf(PartsOf(line)).n
    ensures CountsConserved(line, halves)
  {
    hide IsRule, PartsOf, LimitOf, CountOf, Kept;
    LimitCount(PartsOf(line));
    if LimitOf(PartsOf(line)).First? {
      LimitCount(PartsOf(halves.0));
      LimitCount(PartsOf(halves.1));
    }
  }

  lemma HalvesPartition(next: Stepper, line: string, start: int, elapsed: nat, unit: nat, halves: (string, string))
    requires unit > 0 && Steps(next, unit) && IsRule(line) && !LimitOf(PartsOf(line)).NoMeaning?
    requires Within(LimitOf(PartsOf(line)), elapsed, Nth(next, Kept(PartsOf(line)), start, elapsed))
    requires HalvesCarry(line, halves, elapsed, Nth(next, Kept(PartsOf(line)), start, elapsed) - unit)
    ensures Partition(next, line, start, Nth(next, Kept(PartsOf(line)), start, elapsed), halves)
    ensures CountsConserved(line, halves)
  {
    hide IsRule, PartsOf, Kept, LimitOf, Generates, Nth, Steps, CountsConserved;
    var kept, limit := Kept(PartsOf(line)), LimitOf(PartsOf(line));
    var e := Nth(next, kept, start, elapsed);
    CountsAdd(line, halves, elapsed, e - unit);
    forall t
      ensures Occurs(next, halves.0, start, t) <==> Occurs(next, line, start, t) && t < e
      ensures Occurs(next, halves.1, e, t) <==> Occurs(next, line, start, t) && e <= t
    {
      PastGenerates(next, kept, start, elapsed, unit, limit, LimitOf(PartsOf(halves.0)), t);
      FutureGenerates(next, kept, start, elapsed, unit, limit, LimitOf(PartsOf(halves.1)), t);
    }
  }

  /** The first half has exactly the occurrences before the split, the second exactly the others. */
  ghost predicate Partition(next: Stepper, line: string, start: int, e: int, halves: (string, string))
    requires IsRule(line)
  {
    && IsRule(halves.0) && IsRule(halves.1)
    && (forall t :: Occurs(next, halves.0, start, t) <==> Occurs(next, line, start, t) && t < e)
    && (forall t :: Occurs(next, halves.1, e, t) <==> Occurs(next, line, start, t) && e <= t)
  }

  predicate CountsConserved(line: string, halves: (string, string))
    requires IsRule(line)
  {
    && IsRule(halves.0) && IsRule(halves.1)
    && (CountOf(PartsOf(line)) > 0 ==> CountOf(PartsOf(halves.0)) + CountOf(PartsOf(halves.1)) == CountOf(PartsOf(line)))
  }

  /** A rule that still has the split occurrence is not taken for a trimmed one. */
  lemma OriginalNotTrimmed(next: Stepper, line: string, start: int, effective: EventTime, elapsed: nat)
    requires !effective.Malformed? && IsRule(line) && !LimitOf(PartsOf(line)).NoMeaning?
    requires Steps(next, Unit(effective)) && OnGrid(start, Unit(effective))
    requires effective.Instant() == Some(Nth(next, Kept(PartsOf(line)), start, elapsed))
    requires Within(LimitOf(PartsOf(line)), elapsed, effective.Instant().value)
    ensures FirstLimit(PartsOf(line), UntilBefore(effective), elapsed) != Some(true)
  {
    hide PartsOf, Kept, LimitOf, IsRule, UntilBefore, Nth, Steps, FirstLimit, OnGrid;
    NthOnGrid(next, Kept(PartsOf(line)), start, Unit(effective), elapsed);
    UntilReads(effective, effective.Instant().value);
    if FirstLimit(PartsOf(line), UntilBefore(effective), elapsed) == Some(true) {
      DecidesLimit(PartsOf(line), UntilBefore(effective), elapsed);
    }
  }

  lemma LimitValue(part: string)
    requires IsCount(part) || IsUntil(part)
    ensures |part| >= 6 && ValueOf(part) == Some(part[6..])
    ensures ToUpper(KeyOf(part)) == if IsCount(part) then "COUNT" else "UNTIL"
  {
    var i, upper := IndexOf(part, '='), ToUpper(part);
    var head := if IsCount(part) then COUNT else UNTIL;
    assert upper[..6] == head;
    assert forall k | 0 <= k < 6 :: upper[k] == upper[..6][k];
    assert forall k | 0 <= k < 5 :: head[k] != '=';
    assert forall k | 0 <= k < |part| :: upper[k] == UpperChar(part[k]) && (upper[k] == '=' <==> part[k] == '=');
    assert upper[5] == '=' && part[5] == '=' && forall k | 0 <= k < 5 :: upper[k] != '=' && part[k] != '=';
    assert forall k | 0 <= k < i :: part[k] == part[..i][k];
    assert i == 5;
    assert ToUpper(part[..5]) == upper[..5] == head[..5];
  }

  lemma {:induction false} DigitsPlain(s: string)
    requires ParseDigits(s).Some?
    ensures forall c | c in s :: !Blank(c)
  {
    if |s| > 1 {
      DigitsPlain(s[..|s| - 1]);
      assert s == s[..|s| - 1] + [s[|s| - 1]];
    }
  }

  lemma NumberPlain(s: string)
    requires Atoi(s).Some?
    ensures TrimSpace(s) == s
  {
    if s != "" && s[0] == '-' {
      DigitsPlain(s[1..]);
      assert s == [s[0]] + s[1..];
    } else {
      DigitsPlain(s);
    }
    NoBlanks(s);
  }

  lemma {:induction false} FirstLimitAppend(front: seq<string>, last: string, want: string, elapsed: int)
    ensures FirstLimit(front + [last], want, elapsed)
         == if FirstLimit(front, want, elapsed).Some? then FirstLimit(front, want, elapsed) else Says(last, want, elapsed)
  {
    hide Says;
    if front != [] {
      assert (front + [last])[1..] == front[1..] + [last];
      FirstLimitAppend(front[1..], last, want, elapsed);
    } else {
      assert (front + [last])[1..] == [];
    }
  }

  lemma {:induction false} UnlimitedSaysNothing(parts: seq<string>, want: string, elapsed: int)
    requires LimitOf(parts) == Unlimited
    ensures FirstLimit(parts, want, elapsed).None?
  {
    hide Says, IsCount, IsUntil, FirstLimit;
    if parts != [] {
      var front, last := parts[..|parts| - 1], parts[|parts| - 1];
      LimitPrefix(last, want, elapsed);
      UnlimitedSaysNothing(front, want, elapsed);
      FirstLimitAppend(front, last, want, elapsed);
      assert parts == front + [last];
    } else {
      NoLimit(want, elapsed);
    }
  }

  lemma NoLimit(want: string, elapsed: int)
    ensures FirstLimit([], want, elapsed).None?
  {
  }

  /** A recognised limit is the rule's limit: that count, or the instant of that text. */
  lemma {:induction false} DecidesLimit(parts: seq<string>, want: string, elapsed: int)
    requires !LimitOf(parts).NoMeaning? && FirstLimit(parts, want, elapsed) == Some(true)
    ensures (elapsed > 0 && LimitOf(parts) == First(elapsed))
         || (UntilInstant(want).Some? && LimitOf(parts) == Through(UntilInstant(want).value))
  {
    hide IsCount, IsUntil, FirstLimit, UntilInstant, Atoi, TrimSpace, ToUpper, KeyOf, ValueOf;
    NoLimit(want, elapsed);
    var front, last := parts[..|parts| - 1], parts[|parts| - 1];
    FirstLimitAppend(front, last, want, elapsed);
    assert parts == front + [last];
    LimitPrefix(last, want, elapsed);
    if IsCount(last) || IsUntil(last) {
      UnlimitedSaysNothing(front, want, elapsed);
      LimitValue(last);
      if IsCount(last) {
        NumberPlain(last[6..]);
      }
    } else {
      DecidesLimit(front, want, elapsed);
    }
  }
}
