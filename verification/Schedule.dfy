/** Schedule rules: how a rule string is printed, read back, and turned into the next due time. */
module Schedule {
  import opened Basics

  /** What `croniter` contributes: which strings are cron expressions, and the next occurrence after a moment,
      or None when there is none and `get_next` raises. */
  datatype Cron = Cron(valid: string -> bool, next: (string, Time) -> Option<Time>)

  // ---------------------------------------------------------------- Python's strip and int

  /** ASCII white space, as `str.strip` removes it. */
  predicate IsSpace(c: char) {
    c in " \t\n\r\U{0B}\U{0C}\U{1C}\U{1D}\U{1E}\U{1F}"
  }

  /** ASCII white space, as `int` tolerates it around a literal. */
  predicate IsIntSpace(c: char) {
    c in " \t\n\r\U{0B}\U{0C}"
  }

  function DropLeft(s: string, space: char -> bool): string {
    if s != "" && space(s[0]) then DropLeft(s[1..], space) else s
  }

  function DropRight(s: string, space: char -> bool): string {
    if s != "" && space(s[|s| - 1]) then DropRight(s[..|s| - 1], space) else s
  }

  function Strip(s: string): string {
    DropRight(DropLeft(s, IsSpace), IsSpace)
  }

  predicate EndsWith(s: string, c: char) {
    s != "" && s[|s| - 1] == c
  }

  predicate IsDigit(c: char) {
    '0' <= c <= '9'
  }

  function DigitValue(c: char): (d: nat)
    requires IsDigit(c)
    ensures d < 10
  {
    c as int - '0' as int
  }

  /** Decimal digits, single underscores allowed between two of them. */
  function Digits(s: string): Option<nat> {
    if s == "" || !IsDigit(s[|s| - 1]) then None
    else
      var d, front := DigitValue(s[|s| - 1]), s[..|s| - 1];
      if front == "" then Some(d)
      else
        match Digits(if EndsWith(front, '_') then front[..|front| - 1] else front)
        case None => None
        case Some(n) => Some(10 * n + d)
  }

  /** `int(s)`; None stands for ValueError. */
  function PyInt(s: string): Option<int> {
    var t := DropRight(DropLeft(s, IsIntSpace), IsIntSpace);
    if t == "" then None
    else if t[0] == '-' then
      match Digits(t[1..]) case None => None case Some(n) => Some(0 - n as int)
    else if t[0] == '+' then
      match Digits(t[1..]) case None => None case Some(n) => Some(n)
    else
      match Digits(t) case None => None case Some(n) => Some(n)
  }

  function DigitChar(d: nat): (c: char)
    requires d < 10
    ensures IsDigit(c) && DigitValue(c) == d
  {
    ('0' as int + d) as char
  }

  function PrintNat(n: nat): string {
    if n < 10 then [DigitChar(n)] else PrintNat(n / 10) + [DigitChar(n % 10)]
  }

  /** `str(n)` for an integer. */
  function Print(n: int): string {
    if n < 0 then "-" + PrintNat(-n) else PrintNat(n)
  }

  // ---------------------------------------------------------------- rules

  /** The schedule part of a request: `stype` is `schedule_type`, None when absent. */
  datatype ScheduleFields = ScheduleFields(stype: Option<string>, cron: Option<string>, seconds: Option<int>)

  const EVERY := "every:"
  const MANUAL := "manual"

  /** `current or "manual"`. */
  function OrManual(current: Option<string>): string {
    if current.Some? && current.value != "" then current.value else MANUAL
  }

  function ResolveScheduleRule(f: ScheduleFields, current: Option<string>): string {
    if f.stype.None? || f.stype.value == "" then OrManual(current)
    else if f.stype.value == MANUAL then MANUAL
    else if f.stype.value == "cron" then (if f.cron.Some? then f.cron.value else "")
    else if f.stype.value == "interval" then
      EVERY + (if f.seconds.Some? then Print(f.seconds.value) else "None") + "s"
    else OrManual(current)
  }

  /** Seconds meant by a stripped value such as `5m`; None stands for ValueError. */
  function UnitSeconds(value: string): Option<int> {
    if value == "" then None
    else
      var n := PyInt(value[..|value| - 1]);
      if n.None? then None
      else if EndsWith(value, 'm') then Some(60 * n.value)
      else if EndsWith(value, 'h') then Some(3600 * n.value)
      else if EndsWith(value, 's') then Some(n.value)
      else None
  }

  /** The interval `compute_next_run` adds for this rule, if it takes the interval branch and succeeds. */
  function RuleInterval(rule: string): Option<int> {
    var r := Strip(rule);
    if EVERY <= r then UnitSeconds(Strip(r[|EVERY|..])) else None
  }

  function ComputeNextRun(cron: Cron, rule: string, base: Time): Result<Time> {
    var r := Strip(rule);
    if EVERY <= r then
      match UnitSeconds(Strip(r[|EVERY|..])) {
        case None => Err
        case Some(n) => Ok(base + n * SECOND)
      }
    else if cron.valid(r) && cron.next(r, base).Some? then Ok(cron.next(r, base).value)
    else Err
  }

  /** Whether a rule can be read at all: this does not depend on the time of asking. */
  predicate RuleValid(cron: Cron, rule: string) {
    if EVERY <= Strip(rule) then RuleInterval(rule).Some? else cron.valid(Strip(rule))
  }

  // Job.schedule_type and Job.interval_seconds
  function ScheduleType(rule: string): string {
    if rule == MANUAL then MANUAL else if EVERY <= rule then "interval" else "cron"
  }

  datatype IntervalSeconds = ValueError | NoValue | Seconds(n: int)

  function JobIntervalSeconds(rule: string): IntervalSeconds {
    if ScheduleType(rule) != "interval" then NoValue
    else
      var value := Strip(rule[|EVERY|..]);
      if EndsWith(value, 's') || EndsWith(value, 'm') || EndsWith(value, 'h') then
        match PyInt(value[..|value| - 1]) {
          case None => ValueError
          case Some(n) =>
            Seconds(if EndsWith(value, 's') then n else if EndsWith(value, 'm') then 60 * n else 3600 * n)
        }
      else NoValue
  }

  /** The number of a legacy interval rule: seconds, with or without the unit. */
  function LegacyNumber(rule: string): Option<int>
    requires EVERY <= rule
  {
    var v := rule[6..];
    PyInt(if EndsWith(v, 's') then v[..|v| - 1] else v)
  }

  lemma LegacyPrefixes()
    ensures EVERY[0] == 'e' && MANUAL[0] == 'm' && "cron:"[0] == 'c' && |EVERY| == 6
    ensures "interval" != MANUAL && "interval" != "cron" && "cron" != MANUAL
  {
    assert "interval"[0] == 'i' && "cron"[0] == 'c';
  }

  /** JobBase.sync_legacy_fields, the part that reads `schedule_rule` (None: key absent). */
  function LegacyFields(rule: Option<string>, f: ScheduleFields): Result<ScheduleFields> {
    if rule.None? then Ok(f)
    else if rule.value == MANUAL then Ok(f.(stype := Some(MANUAL)))
    else if "cron:" <= rule.value then Ok(f.(stype := Some("cron"), cron := Some(rule.value[5..])))
    else if EVERY <= rule.value then
      var v := rule.value[6..];
      match PyInt(if EndsWith(v, 's') then v[..|v| - 1] else v) {
        case None => Err
        case Some(n) => Ok(f.(stype := Some("interval"), seconds := Some(n)))
      }
    else Ok(f.(stype := if f.stype.Some? then f.stype else Some(MANUAL)))
  }

  /** Together with what is stored for the resulting fields: `manual` and `cron:` rules mean what they say; an
      interval is stored in seconds, and is an error exactly when its number cannot be read; any other text is
      ignored. */
  method SyncLegacyFields(rule: Option<string>, data: ScheduleFields) returns (r: Result<ScheduleFields>)
    ensures r == LegacyFields(rule, data)
    ensures rule.None? ==> r == Ok(data)
    ensures rule == Some(MANUAL) ==> r.Ok? && forall stored :: ResolveScheduleRule(r.value, stored) == MANUAL
    ensures rule.Some? && "cron:" <= rule.value ==>
              r.Ok? && forall stored :: ResolveScheduleRule(r.value, stored) == rule.value[5..]
    ensures rule.Some? && EVERY <= rule.value ==>
              && (r.Err? <==> LegacyNumber(rule.value).None?)
              && (r.Ok? ==> forall stored ::
                    ResolveScheduleRule(r.value, stored) == IntervalRule(LegacyNumber(rule.value).value))
    ensures rule.Some? && rule.value != MANUAL && !("cron:" <= rule.value) && !(EVERY <= rule.value) ==>
              r.Ok? && r.value == data.(stype := Some(if data.stype.Some? then data.stype.value else MANUAL))
  {
    LegacyPrefixes();
    var normalized := data;
    if rule.Some? {
      if rule.value == MANUAL {
        normalized := normalized.(stype := Some(MANUAL));
      } else if "cron:" <= rule.value {
        normalized := normalized.(stype := Some("cron"));
        normalized := normalized.(cron := Some(rule.value[5..]));
      } else if EVERY <= rule.value {
        normalized := normalized.(stype := Some("interval"));
        var val := rule.value[6..];
        if EndsWith(val, 's') {
          val := val[..|val| - 1];
        }
        var n := PyInt(val);
        if n.None? {
          return Err;
        }
        normalized := normalized.(seconds := Some(n.value));
      } else if normalized.stype.None? {
        normalized := normalized.(stype := Some(MANUAL));
      }
    }
    return Ok(normalized);
  }

  // ---------------------------------------------------------------- printing and reading numbers

  lemma {:induction false} DigitsReadBack(n: nat)
    ensures PrintNat(n) != "" && (forall i :: 0 <= i < |PrintNat(n)| ==> IsDigit(PrintNat(n)[i]))
    ensures Digits(PrintNat(n)) == Some(n)
  {
    if n >= 10 {
      DigitsReadBack(n / 10);
      assert PrintNat(n)[..|PrintNat(n)| - 1] == PrintNat(n / 10);
    }
  }

  lemma PyIntReadsBack(n: int)
    ensures PyInt(Print(n)) == Some(n)
    ensures Print(n) != "" && forall i :: 0 <= i < |Print(n)| ==> IsDigit(Print(n)[i]) || Print(n)[i] == '-'
  {
    DigitsReadBack(if n < 0 then -n else n);
    var s := Print(n);
    assert !IsIntSpace(s[0]) && !IsIntSpace(s[|s| - 1]);
    if n < 0 {
      assert s[1..] == PrintNat(-n);
    }
  }

  // ---------------------------------------------------------------- strip

  lemma {:induction false} DropRightKeepsPrefix(p: string, s: string, space: char -> bool)
    requires p != "" && !space(p[|p| - 1])
    ensures DropRight(p + s, space) == p + DropRight(s, space)
  {
    if s == "" {
      assert p + s == p;
    } else {
      assert (p + s)[..|p + s| - 1] == p + s[..|s| - 1];
      if space(s[|s| - 1]) {
        DropRightKeepsPrefix(p, s[..|s| - 1], space);
      }
    }
  }

  /** Stripping the tail first does not change what stripping both ends leaves. */
  lemma {:induction false} StripAfterDropRight(s: string)
    ensures Strip(DropRight(s, IsSpace)) == Strip(s)
  {
    if s == "" {
    } else if IsSpace(s[0]) {
      StripAfterDropRight(s[1..]);
      assert s == [s[0]] + s[1..];
      DropRightAfterSpace(s);
    } else {
      DropRightKeepsPrefix([s[0]], s[1..], IsSpace);
      assert s == [s[0]] + s[1..];
      DropRightTwice(s);
    }
  }

  /** With a leading space: either the tail survives behind it, or everything was space. */
  lemma {:induction false} DropRightAfterSpace(s: string)
    requires s != "" && IsSpace(s[0])
    ensures Strip(DropRight(s, IsSpace)) == Strip(DropRight(s[1..], IsSpace))
  {
    if IsSpace(s[|s| - 1]) && |s| > 1 {
      assert s[..|s| - 1][1..] == s[1..][..|s| - 2];
      DropRightAfterSpace(s[..|s| - 1]);
    }
  }

  lemma {:induction false} DropRightTwice(s: string)
    ensures DropRight(DropRight(s, IsSpace), IsSpace) == DropRight(s, IsSpace)
  {
    if s != "" && IsSpace(s[|s| - 1]) {
      DropRightTwice(s[..|s| - 1]);
    }
  }

  /** A rule that starts with `every:` keeps that start, and its value survives stripping the rule. */
  lemma EveryRuleStripped(rule: string)
    requires EVERY <= rule
    ensures EVERY <= Strip(rule)
    ensures Strip(Strip(rule)[|EVERY|..]) == Strip(rule[|EVERY|..])
  {
    var v := rule[|EVERY|..];
    assert rule == EVERY + v;
    assert rule[0] == 'e' && DropLeft(rule, IsSpace) == rule;
    DropRightKeepsPrefix(EVERY, v, IsSpace);
    assert Strip(rule)[|EVERY|..] == DropRight(v, IsSpace);
    StripAfterDropRight(v);
  }

  // ---------------------------------------------------------------- main results

  /** For every stored rule that starts with `every:`, whatever follows, the scheduler and the job agree:
      the next run lies exactly `interval_seconds` ahead, and it raises exactly when that has no number. */
  lemma EveryRulesAgree(cron: Cron, rule: string, base: Time)
    requires EVERY <= rule
    ensures ComputeNextRun(cron, rule, base) ==
            match JobIntervalSeconds(rule) { case Seconds(n) => Ok(base + n * SECOND) case _ => Err }
  {
    hide PyInt, Strip;
    EveryRuleStripped(rule);
    assert rule[0] == 'e' && MANUAL[0] == 'm';
  }

  /** A leading blank makes the job call the rule a cron rule although the scheduler runs it as an interval:
      the two readings of a rule differ exactly there. */
  lemma ReadingsDiffer(rule: string)
    ensures (EVERY <= Strip(rule)) != (ScheduleType(rule) == "interval") <==>
            EVERY <= Strip(rule) && IsSpace(rule[0])
  {
    if EVERY <= rule {
      EveryRuleStripped(rule);
      assert rule[0] == 'e';
    } else if EVERY <= Strip(rule) && !IsSpace(rule[0]) {
      assert Strip(rule) == DropRight(rule, IsSpace);
      DropRightIsPrefix(rule, IsSpace);
    }
  }

  lemma {:induction false} DropRightIsPrefix(s: string, space: char -> bool)
    ensures DropRight(s, space) <= s
  {
    if s != "" && space(s[|s| - 1]) {
      DropRightIsPrefix(s[..|s| - 1], space);
    }
  }

  /** What the printer puts between `every:` and the end. */
  lemma PrintedInterval(n: int)
    ensures var rule := EVERY + Print(n) + "s";
            && EVERY <= rule && rule[6..] == Print(n) + "s" && EndsWith(rule[6..], 's')
            && rule[6..][..|rule[6..]| - 1] == Print(n)
            && Strip(rule[6..]) == rule[6..]
            && rule != MANUAL && !("cron:" <= rule)
  {
    hide PyInt, Print, Strip;
    var rule, v := EVERY + Print(n) + "s", Print(n) + "s";
    assert rule == EVERY + v && |EVERY| == 6;
    PyIntReadsBack(n);
    assert v[|v| - 1] == 's' && v[0] == Print(n)[0];
    NothingToStrip(v);
    assert rule[0] == 'e' && MANUAL[0] == 'm' && "cron:"[0] == 'c';
    assert v[..|v| - 1] == Print(n);
  }

  lemma NothingToStrip(s: string)
    requires s != "" && !IsSpace(s[0]) && !IsSpace(s[|s| - 1])
    ensures Strip(s) == s
  {
  }

  function IntervalRule(n: int): string {
    EVERY + Print(n) + "s"
  }

  lemma JobReadsInterval(n: int)
    ensures JobIntervalSeconds(IntervalRule(n)) == Seconds(n)
  {
    PrintedInterval(n);
    PyIntReadsBack(n);
  }

  lemma LegacyReadsInterval(n: int, f: ScheduleFields)
    ensures LegacyFields(Some(IntervalRule(n)), f) == Ok(f.(stype := Some("interval"), seconds := Some(n)))
  {
    PrintedInterval(n);
    PyIntReadsBack(n);
  }

  /** An interval of any integer number of seconds survives printing, and every reader gets it back. */
  lemma IntervalRoundTrip(cron: Cron, n: int, current: Option<string>, f: ScheduleFields, base: Time)
    ensures ResolveScheduleRule(ScheduleFields(Some("interval"), f.cron, Some(n)), current) == IntervalRule(n)
    ensures ScheduleType(IntervalRule(n)) == "interval"
    ensures JobIntervalSeconds(IntervalRule(n)) == Seconds(n)
    ensures ComputeNextRun(cron, IntervalRule(n), base) == Ok(base + n * SECOND)
    ensures LegacyFields(Some(IntervalRule(n)), f) == Ok(f.(stype := Some("interval"), seconds := Some(n)))
  {
    hide PyInt, UnitSeconds, Strip;
    JobReadsInterval(n);
    LegacyReadsInterval(n, f);
    PrintedInterval(n);
    EveryRulesAgree(cron, IntervalRule(n), base);
  }

  /** So a leading blank changes what every interval rule is called, but not when it runs. */
  lemma LeadingBlank(cron: Cron, rule: string, base: Time)
    requires EVERY <= rule
    ensures ComputeNextRun(cron, " " + rule, base) == ComputeNextRun(cron, rule, base)
    ensures ScheduleType(" " + rule) == "cron" && ScheduleType(rule) == "interval"
  {
    hide UnitSeconds, PyInt;
    var blank := " " + rule;
    assert blank[1..] == rule && blank[0] == ' ' && rule[0] == 'e';
    assert Strip(blank) == Strip(rule);
  }

  /** The three units: an interval of n seconds, minutes or hours lies that much ahead, whatever n is. */
  lemma UnitsMean(cron: Cron, n: int, base: Time)
    ensures ComputeNextRun(cron, "every:" + Print(n) + "s", base) == Ok(base + n * 1_000_000)
    ensures ComputeNextRun(cron, "every:" + Print(n) + "m", base) == Ok(base + n * 60_000_000)
    ensures ComputeNextRun(cron, "every:" + Print(n) + "h", base) == Ok(base + n * 3600_000_000)
  {
    hide PyInt, Print, Strip;
    UnitMeans(cron, n, 's', base);
    UnitMeans(cron, n, 'm', base);
    UnitMeans(cron, n, 'h', base);
  }

  lemma UnitMeans(cron: Cron, n: int, unit: char, base: Time)
    requires unit in "smh"
    ensures ComputeNextRun(cron, EVERY + Print(n) + [unit], base)
            == Ok(base + n * (if unit == 's' then 1 else if unit == 'm' then 60 else 3600) * SECOND)
  {
    hide Print, Strip, UnitSeconds;
    var rule, v := EVERY + Print(n) + [unit], Print(n) + [unit];
    assert rule == EVERY + v && rule[|EVERY|..] == v;
    PrintedUnit(n, unit);
    EveryRuleStripped(rule);
  }

  lemma PrintedUnit(n: int, unit: char)
    requires unit in "smh"
    ensures var v := Print(n) + [unit];
            Strip(v) == v && UnitSeconds(v) == Some(n * if unit == 's' then 1 else if unit == 'm' then 60 else 3600)
  {
    hide PyInt, Print, Strip;
    var v := Print(n) + [unit];
    PyIntReadsBack(n);
    assert v[|v| - 1] == unit && v[0] == Print(n)[0] && v[..|v| - 1] == Print(n);
    NothingToStrip(v);
  }

  /** A cron expression without outer blanks that a request gives is stored as it is, called a cron rule, and its
      next run is the next occurrence of that very expression after the base, if it has one. */
  lemma CronRequestRuns(cron: Cron, e: string, f: ScheduleFields, current: Option<string>, base: Time, t: Time)
    requires e != "" && !IsSpace(e[0]) && !IsSpace(e[|e| - 1]) && e != MANUAL && !(EVERY <= e)
    ensures var rule := ResolveScheduleRule(f.(stype := Some("cron"), cron := Some(e)), current);
            && rule == e && ScheduleType(rule) == "cron"
            && (ComputeNextRun(cron, rule, base) == Ok(t) <==> cron.valid(e) && cron.next(e, base) == Some(t))
  {
    hide Strip;
    NothingToStrip(e);
    LegacyPrefixes();
  }

  /** A request without one of the three schedule types keeps the rule that the job has, or stays manual. */
  lemma UntypedRequestKeepsRule(f: ScheduleFields, current: string)
    requires f.stype.None? || f.stype.value !in ["manual", "cron", "interval"]
    ensures current != "" ==> ResolveScheduleRule(f, Some(current)) == current
    ensures ResolveScheduleRule(f, None) == "manual" && ScheduleType("manual") == "manual"
  {
  }

  /** A cron request without an expression is stored blank, and never scheduled by a blank rule. */
  lemma MissingExpression(f: ScheduleFields, current: Option<string>)
    ensures ResolveScheduleRule(f.(stype := Some("cron"), cron := None), current) == ""
    ensures ResolveScheduleRule(f.(stype := Some("interval"), seconds := None), current) == "every:Nones"
  {
    LegacyPrefixes();
  }

  // ---------------------------------------------------------------- characters and numbers

  /** White space in ASCII: `strip` removes the separators 28 to 31, too, and `int` does not. */
  lemma BlanksAre(c: char)
    ensures IsIntSpace(c) <==> c == ' ' || 9 <= c as int <= 13
    ensures IsSpace(c) <==> IsIntSpace(c) || 28 <= c as int <= 31
  {
  }

  /** A sign and blanks around the digits are read. */
  lemma SignedLiterals(n: nat)
    ensures PyInt(" -" + PrintNat(n) + "\n") == Some(0 - n) && PyInt("+" + PrintNat(n)) == Some(n)
  {
    hide PrintNat, Digits, DropLeft, DropRight;
    DigitsReadBack(n);
    var s := PrintNat(n);
    assert ("-" + s)[1..] == s && ("+" + s)[1..] == s && !IsIntSpace(s[|s| - 1]);
    assert " -" + s + "\n" == " " + ("-" + s) + "\n";
    BlanksAround("-" + s);
    NoBlanks("+" + s);
  }

  lemma BlanksAround(t: string)
    requires t != "" && !IsIntSpace(t[0]) && !IsIntSpace(t[|t| - 1])
    ensures DropRight(DropLeft(" " + t + "\n", IsIntSpace), IsIntSpace) == t
  {
    var s := " " + t + "\n";
    assert s[1..] == t + "\n" && (t + "\n")[..|t|] == t;
    assert DropLeft(s, IsIntSpace) == t + "\n";
    assert DropRight(t + "\n", IsIntSpace) == t;
  }

  lemma NoBlanks(t: string)
    requires t != "" && !IsIntSpace(t[0]) && !IsIntSpace(t[|t| - 1])
    ensures DropRight(DropLeft(t, IsIntSpace), IsIntSpace) == t
  {
    assert DropLeft(t, IsIntSpace) == t;
  }

  /** An underscore is read between two digits, and nowhere else. */
  lemma Underscores(n: nat, d: nat)
    requires d < 10
    ensures Digits(PrintNat(n) + "_" + PrintNat(d)) == Some(10 * n + d)
    ensures Digits("_" + PrintNat(n)) == None && Digits(PrintNat(n) + "_") == None && Digits("") == None
  {
    DigitsReadBack(n);
    DigitsReadBack(d);
    var s := PrintNat(n);
    LeadingUnderscore(s);
    LastDigit(s, d);
  }

  lemma LastDigit(s: string, d: nat)
    requires s != "" && d < 10
    ensures Digits(s + "_" + PrintNat(d)) == match Digits(s) { case None => None case Some(n) => Some(10 * n + d) }
  {
    var t := s + "_" + PrintNat(d);
    assert t[..|t| - 1] == s + "_" && (s + "_")[..|s|] == s;
  }

  lemma {:induction false} LeadingUnderscore(s: string)
    requires s != "" && forall i :: 0 <= i < |s| ==> IsDigit(s[i])
    ensures Digits("_" + s) == None
  {
    var front := ("_" + s)[..|s|];
    if |s| > 1 {
      assert front == "_" + s[..|s| - 1] && !EndsWith(front, '_');
      LeadingUnderscore(s[..|s| - 1]);
    } else {
      assert front == "_" && front[..0] == "";
    }
  }

  /** A cron expression survives the legacy spelling `cron:` unchanged. */
  lemma CronRoundTrip(e: string, current: Option<string>, f: ScheduleFields)
    ensures LegacyFields(Some("cron:" + e), f).Ok?
    ensures ResolveScheduleRule(LegacyFields(Some("cron:" + e), f).value, current) == e
  {
    assert ("cron:" + e)[5..] == e;
    assert ("cron:" + e)[0] != MANUAL[0];
  }

  // ---------------------------------------------------------------- legacy intervals

  lemma {:induction false} DropLeftBeforeEnd(s: string, c: char)
    requires !IsSpace(c)
    ensures DropLeft(s + [c], IsSpace) == DropLeft(s, IsSpace) + [c]
  {
    if s != "" {
      assert (s + [c])[1..] == s[1..] + [c];
      if IsSpace(s[0]) {
        DropLeftBeforeEnd(s[1..], c);
      }
    }
  }

  /** Where `int` finds a sign or a digit, `strip` finds it too: the characters only `strip` removes would
      have been an error. */
  lemma {:induction false} BothDropLeft(s: string)
    requires var t := DropLeft(s, IsIntSpace); t != "" && !IsSpace(t[0])
    ensures DropLeft(s, IsSpace) == DropLeft(s, IsIntSpace)
  {
    if IsIntSpace(s[0]) {
      BothDropLeft(s[1..]);
    }
  }

  lemma {:induction false} BothDropRight(s: string)
    requires var t := DropRight(s, IsIntSpace); t != "" && !IsSpace(t[|t| - 1])
    ensures DropRight(s, IsSpace) == DropRight(s, IsIntSpace)
  {
    if IsIntSpace(s[|s| - 1]) {
      BothDropRight(s[..|s| - 1]);
    }
  }

  lemma {:induction false} DropLeftTwice(s: string)
    ensures DropLeft(DropLeft(s, IsIntSpace), IsIntSpace) == DropLeft(s, IsIntSpace)
  {
    if s != "" && IsIntSpace(s[0]) {
      DropLeftTwice(s[1..]);
    }
  }

  /** A readable number starts with a sign or digit and ends in a digit, spaces aside. */
  lemma ReadableEnds(s: string)
    requires PyInt(s).Some?
    ensures var t := DropRight(DropLeft(s, IsIntSpace), IsIntSpace);
            t != "" && !IsSpace(t[0]) && IsDigit(t[|t| - 1]) && DropLeft(s, IsIntSpace) != ""
            && DropLeft(s, IsIntSpace)[0] == t[0]
  {
    DropRightIsPrefix(DropLeft(s, IsIntSpace), IsIntSpace);
    var t := DropRight(DropLeft(s, IsIntSpace), IsIntSpace);
    if t[0] == '-' || t[0] == '+' {
      DigitsEnds(t[1..]);
      assert t[1..][|t| - 2] == t[|t| - 1];
    } else {
      DigitsEnds(t);
    }
  }

  lemma {:induction false} DigitsEnds(s: string)
    requires Digits(s).Some?
    ensures s != "" && IsDigit(s[0]) && IsDigit(s[|s| - 1])
  {
    var front := s[..|s| - 1];
    if front != "" {
      DigitsEnds(if EndsWith(front, '_') then front[..|front| - 1] else front);
    }
  }

  lemma StripIsEnough(s: string)
    requires PyInt(s).Some?
    ensures DropLeft(s, IsSpace) == DropLeft(s, IsIntSpace) && PyInt(DropLeft(s, IsSpace)) == PyInt(s)
  {
    ReadableEnds(s);
    BothDropLeft(s);
    DropLeftTwice(s);
  }

  lemma StripLeavesDigit(s: string)
    requires PyInt(s).Some?
    ensures Strip(s) != "" && IsDigit(Strip(s)[|Strip(s)| - 1])
  {
    hide PyInt, DropLeft, DropRight;
    ReadableEnds(s);
    StripIsEnough(s);
    BothDropRight(DropLeft(s, IsIntSpace));
  }

  lemma StripBeforeUnit(s: string, c: char)
    requires !IsSpace(c)
    ensures Strip(s + [c]) == DropLeft(s, IsSpace) + [c]
  {
    DropLeftBeforeEnd(s, c);
  }

  lemma UnitIsRead(rule: string)
    requires EVERY <= rule && EndsWith(rule[6..], 's') && LegacyNumber(rule).Some?
    ensures JobIntervalSeconds(rule) == Seconds(LegacyNumber(rule).value)
  {
    hide PyInt, Strip, DropLeft;
    var v := rule[6..];
    var u := v[..|v| - 1];
    assert v == u + ['s'];
    StripBeforeUnit(u, 's');
    StripIsEnough(u);
    assert (DropLeft(u, IsSpace) + ['s'])[..|DropLeft(u, IsSpace)|] == DropLeft(u, IsSpace);
    assert rule[0] == 'e';
  }

  lemma NoUnitIsRefused(rule: string)
    requires EVERY <= rule && !EndsWith(rule[6..], 's') && LegacyNumber(rule).Some?
    ensures JobIntervalSeconds(rule) == NoValue
  {
    hide PyInt, Strip;
    StripLeavesDigit(rule[6..]);
  }

  /** The legacy parser keeps the meaning of every interval rule it accepts with a unit: what is then stored has
      the same next run. Without a unit it reads seconds where the scheduler would have refused the rule. */
  lemma LegacyKeepsMeaning(cron: Cron, rule: string, f: ScheduleFields, current: Option<string>, base: Time)
    requires EVERY <= rule && LegacyNumber(rule).Some?
    ensures LegacyFields(Some(rule), f).Ok?
    ensures var stored := ResolveScheduleRule(LegacyFields(Some(rule), f).value, current);
            && ComputeNextRun(cron, stored, base) == Ok(base + LegacyNumber(rule).value * SECOND)
            && ComputeNextRun(cron, rule, base)
               == if EndsWith(rule, 's') then ComputeNextRun(cron, stored, base) else Err
  {
    hide PyInt, UnitSeconds, Strip, Print, ComputeNextRun, JobIntervalSeconds;
    LegacyPrefixes();
    IntervalRoundTrip(cron, LegacyNumber(rule).value, current, f, base);
    EveryRulesAgree(cron, rule, base);
    assert EndsWith(rule, 's') <==> EndsWith(rule[6..], 's') by { assert rule == EVERY + rule[6..] && EVERY[5] == ':'; }
    if EndsWith(rule[6..], 's') {
      UnitIsRead(rule);
    } else {
      NoUnitIsRefused(rule);
    }
  }

  /** Any other legacy text, such as a bare cron expression, is ignored: what is stored does not depend on it,
      and it is `manual` when the request has no schedule type of its own. */
  lemma BareLegacyRuleIgnored(rule: string, other: string, f: ScheduleFields, current: Option<string>)
    requires forall r | r in [rule, other] :: r != MANUAL && !("cron:" <= r) && !(EVERY <= r)
    ensures LegacyFields(Some(rule), f).Ok? && LegacyFields(Some(rule), f) == LegacyFields(Some(other), f)
    ensures ResolveScheduleRule(LegacyFields(Some(rule), f).value, current) ==
            if f.stype.None? then MANUAL else ResolveScheduleRule(f, current)
  {
    assert rule in [rule, other] && other in [rule, other];
  }

  /** `int` never accepts a literal that ends in a letter other than a digit or blank. */
  lemma PyIntNeedsDigit(s: string, c: char)
    requires !IsDigit(c) && !IsIntSpace(c)
    ensures PyInt(s + [c]) == None
  {
    DropLeftKeepsEnd(s, c);
  }

  lemma {:induction false} DropLeftKeepsEnd(s: string, c: char)
    requires !IsIntSpace(c)
    ensures EndsWith(DropLeft(s + [c], IsIntSpace), c)
  {
    if s != "" && IsIntSpace(s[0]) {
      assert (s + [c])[1..] == s[1..] + [c];
      DropLeftKeepsEnd(s[1..], c);
    }
  }

  /** The legacy parser rejects every interval given in minutes or hours, which the scheduler accepts. */
  lemma LegacyRejectsMinutesAndHours(x: string, unit: char, f: ScheduleFields)
    requires unit == 'm' || unit == 'h'
    ensures LegacyFields(Some(EVERY + x + [unit]), f) == Err
  {
    var rule := EVERY + x + [unit];
    assert rule[6..] == x + [unit];
    assert rule[0] == 'e';
    PyIntNeedsDigit(x, unit);
  }
}
