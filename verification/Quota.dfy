/** Token quotas: the usage table, the service that checks and adds usage, and what every run of
    additions and resets keeps between the day, week and month counters. */
module Quota {
  import opened Options
  import opened Calendar

  datatype Limits = Limits(daily: int, weekly: int, monthly: int) {
    function Get(w: Window): int {
      match w case Daily => daily case Weekly => weekly case Monthly => monthly
    }
  }

  const Windows: seq<Window> := [Daily, Weekly, Monthly]

  // ---------- the token_usage table ----------

  /** Rows keyed by (member_id, period). */
  type Table = map<(string, string), int>

  function Used(u: Table, member: string, period: string): int {
    if (member, period) in u then u[(member, period)] else 0
  }

  function Upsert(u: Table, member: string, period: string, tokens: int): Table {
    u[(member, period) := Used(u, member, period) + tokens]
  }

  function UpsertAll(u: Table, member: string, periods: seq<string>, tokens: int): Table
    decreases |periods|
  {
    if periods == [] then u else UpsertAll(Upsert(u, member, periods[0], tokens), member, periods[1..], tokens)
  }

  function AddUsage(u: Table, member: string, periods: seq<string>, tokens: int): Table {
    if periods == [] || tokens <= 0 then u else UpsertAll(u, member, periods, tokens)
  }

  function UsageForPeriods(u: Table, member: string, periods: seq<string>): map<string, int> {
    map p | p in periods && (member, p) in u :: u[(member, p)]
  }

  function ResetUsage(u: Table, member: string): Table {
    map k | k in u && k.0 != member :: u[k]
  }

  function PeriodKeys(t: Instant): seq<string> {
    [PeriodKey(Daily, t), PeriodKey(Weekly, t), PeriodKey(Monthly, t)]
  }

  // ---------- the service ----------

  datatype CachedLimits = CachedLimits(limits: Limits, expires: Instant)

  const DEFAULT_LIMITS_TTL: nat := 30_000_000_000

  datatype Verdict =
    | Failed
    | Allowed
    | Exceeded(window: Window, used: int, limit: int, period: string, resetUtc: Instant)

  function Pick(member: int, def: int): int { if member > 0 then member else def }

  predicate Over(u: Table, limits: Limits, member: string, w: Window, now: Instant) {
    0 < limits.Get(w) <= Used(u, member, PeriodKey(w, now))
  }

  /** What a verdict promises: the first window over its limit in day, week, month order, or none. */
  ghost predicate Judges(r: Verdict, u: Table, limits: Limits, member: string, now: Instant) {
    match r
    case Failed => true
    case Allowed => forall w :: !Over(u, limits, member, w, now)
    case Exceeded(w, used, limit, period, resetUtc) =>
      && Over(u, limits, member, w, now)
      && (w != Daily ==> !Over(u, limits, member, Daily, now))
      && (w == Monthly ==> !Over(u, limits, member, Weekly, now))
      && period == PeriodKey(w, now) && limit == limits.Get(w) && used == Used(u, member, period)
      && resetUtc == ResetAfter(w, now)
  }

  // ---------- default limits over runs ----------

  /** What happens around the cached defaults: time passes, another instance or this one changes them, a call reads
      them. A fill that misses may take a while between its query and the time it stamps. */
  datatype Moment =
    | Wait(nanos: nat)
    | ChangedElsewhere(limits: Limits)
    | ChangedHere(limits: Limits)
    | Ask(took: nat, ok: bool)

  /** answers: what each call returned and when, with the moment its value was queried and how long that fill took. */
  datatype DefaultsState = DefaultsState(clock: Instant, stored: Limits, cache: Option<(CachedLimits, nat, nat)>,
                                         answers: seq<DefaultsAnswer>, moments: nat)

  datatype DefaultsAnswer = DefaultsAnswer(limits: Limits, at: Instant, queried: nat, took: nat)

  function Pass(s: DefaultsState, m: Moment): DefaultsState {
    var next := s.moments + 1;
    match m
    case Wait(nanos) => s.(clock := s.clock + nanos, moments := next)
    case ChangedElsewhere(l) => s.(stored := l, moments := next)
    case ChangedHere(l) => s.(stored := l, cache := None, moments := next)
    case Ask(took, ok) =>
      if s.cache.Some? && s.clock < s.cache.value.0.expires then
        var (c, queried, spent) := s.cache.value;
        s.(answers := s.answers + [DefaultsAnswer(c.limits, s.clock, queried, spent)], moments := next)
      else if !ok then s.(moments := next)
      else
        DefaultsState(s.clock + took, s.stored,
                      Some((CachedLimits(s.stored, s.clock + took + DEFAULT_LIMITS_TTL), s.moments, took)),
                      s.answers + [DefaultsAnswer(s.stored, s.clock, s.moments, took)], next)
  }

  /** Changed here, a default is what the very next call returns; changed elsewhere, what the next call returns that finds
      no cached row in force. Waiting is what the clock does. */
  lemma ChangesAreServed(s: DefaultsState, l: Limits, took: nat, nanos: nat)
    ensures var s' := Pass(Pass(s, ChangedHere(l)), Ask(took, true));
            |s'.answers| == |s.answers| + 1 && s'.answers[|s.answers|].limits == l
    ensures !(s.cache.Some? && s.clock < s.cache.value.0.expires) ==>
              var s' := Pass(Pass(s, ChangedElsewhere(l)), Ask(took, true));
              |s'.answers| == |s.answers| + 1 && s'.answers[|s.answers|].limits == l
    ensures Pass(s, Wait(nanos)).clock == s.clock + nanos
  {
  }

  function PassAll(first: Limits, ms: seq<Moment>): DefaultsState {
    if ms == [] then DefaultsState(0, first, None, [], 0) else Pass(PassAll(first, ms[..|ms| - 1]), ms[|ms| - 1])
  }

  /** A value and the moment it was queried belong together. */
  ghost predicate Queried(first: Limits, ms: seq<Moment>, limits: Limits, queried: nat) {
    queried <= |ms| && PassAll(first, ms[..queried]).stored == limits
  }

  ghost predicate DefaultsKept(first: Limits, ms: seq<Moment>) {
    var s := PassAll(first, ms);
    && s.moments == |ms|
    && (s.cache.Some? ==>
          var (c, queried, took) := s.cache.value;
          Queried(first, ms, c.limits, queried)
          && c.expires == PassAll(first, ms[..queried]).clock + took + DEFAULT_LIMITS_TTL)
    && forall i | 0 <= i < |s.answers| :: AnswerKept(first, ms, s.answers[i])
  }

  ghost predicate AnswerKept(first: Limits, ms: seq<Moment>, a: DefaultsAnswer) {
    Queried(first, ms, a.limits, a.queried)
    && a.at < PassAll(first, ms[..a.queried]).clock + a.took + DEFAULT_LIMITS_TTL
  }

  /** What was queried in a run stays so as the run goes on. */
  lemma QueriedStays(first: Limits, ms: seq<Moment>, m: Moment, queried: nat)
    requires queried <= |ms|
    ensures PassAll(first, (ms + [m])[..queried]) == PassAll(first, ms[..queried])
  {
    assert (ms + [m])[..queried] == ms[..queried];
  }

  lemma AnswersStayKept(first: Limits, ms: seq<Moment>, m: Moment, i: nat)
    requires DefaultsKept(first, ms) && i < |Pass(PassAll(first, ms), m).answers|
    ensures AnswerKept(first, ms + [m], Pass(PassAll(first, ms), m).answers[i])
  {
    var (s, a) := (PassAll(first, ms), Pass(PassAll(first, ms), m).answers[i]);
    assert ms[..|ms|] == ms;
    assert i < |s.answers| ==> a == s.answers[i] && AnswerKept(first, ms, a);
    hide PassAll;
    QueriedStays(first, ms, m, |ms|);
    QueriedStays(first, ms, m, a.queried);
  }

  lemma CacheStaysKept(first: Limits, ms: seq<Moment>, m: Moment)
    requires DefaultsKept(first, ms)
    ensures var s := Pass(PassAll(first, ms), m);
            s.moments == |ms| + 1 &&
            (s.cache.Some? ==>
               var (c, queried, took) := s.cache.value;
               Queried(first, ms + [m], c.limits, queried)
               && c.expires == PassAll(first, (ms + [m])[..queried]).clock + took + DEFAULT_LIMITS_TTL)
  {
    var s := PassAll(first, ms);
    assert ms[..|ms|] == ms;
    hide PassAll;
    QueriedStays(first, ms, m, |ms|);
    if s.cache.Some? {
      QueriedStays(first, ms, m, s.cache.value.1);
    }
  }

  lemma {:induction false} DefaultsStayKept(first: Limits, ms: seq<Moment>)
    ensures DefaultsKept(first, ms)
  {
    if ms != [] {
      var (before, m) := (ms[..|ms| - 1], ms[|ms| - 1]);
      assert ms == before + [m];
      DefaultsStayKept(first, before);
      assert PassAll(first, ms) == Pass(PassAll(first, before), m);
      hide PassAll, Pass, AnswerKept, Queried;
      CacheStaysKept(first, before, m);
      forall i | 0 <= i < |PassAll(first, ms).answers| ensures AnswerKept(first, ms, PassAll(first, ms).answers[i]) {
        AnswersStayKept(first, before, m, i);
      }
    }
  }

  /** Every default ever returned is the row as some query found it, less than 30 s before, not counting the time the
      query itself took; whoever changed the row since. */
  lemma DefaultsAreRecent(first: Limits, ms: seq<Moment>, i: nat)
    requires i < |PassAll(first, ms).answers|
    ensures var a := PassAll(first, ms).answers[i];
            && a.queried <= |ms| && a.limits == PassAll(first, ms[..a.queried]).stored
            && a.at < PassAll(first, ms[..a.queried]).clock + a.took + 30_000_000_000
  {
    DefaultsStayKept(first, ms);
    assert AnswerKept(first, ms, PassAll(first, ms).answers[i]);
  }

  // ---------- the code of the service ----------

  class Service {
    var usage: Table
    var memberLimits: map<string, Limits>
    var defaults: Limits
    var defCache: Option<CachedLimits>

    predicate CacheHit(clock: Instant)
      reads this
    {
      defCache.Some? && clock < defCache.value.expires
    }

    /** The default limits a call sees: the cached ones until they expire, else the stored row. */
    function DefaultsSeen(clock: Instant): Limits
      reads this
    {
      if CacheHit(clock) then defCache.value.limits else defaults
    }

    function LimitsInForce(member: string, clock: Instant): Limits
      reads this
    {
      var own := if member in memberLimits then memberLimits[member] else Limits(0, 0, 0);
      var def := DefaultsSeen(clock);
      Limits(Pick(own.daily, def.daily), Pick(own.weekly, def.weekly), Pick(own.monthly, def.monthly))
    }

    /** The service's fields and clock are those of a state of the run above; clock' is when a fill stamps. */
    ghost predicate IsAt(s: DefaultsState, clock: Instant)
      reads this
    {
      && s.clock == clock && s.stored == defaults
      && (if s.cache.Some? then defCache == Some(s.cache.value.0) else defCache.None?)
    }

    /** One Ask of the run: it leaves the run's cache and answers what the run answers. */
    method DefaultLimits(clock: Instant, clock': Instant, dbOk: bool, ghost s: DefaultsState) returns (r: Option<Limits>)
      modifies `defCache
      ensures old(IsAt(s, clock)) && clock <= clock' ==>
                var s' := Pass(s, Ask(clock' - clock, dbOk));
                && (if s'.cache.Some? then defCache == Some(s'.cache.value.0) else defCache.None?)
                && (r.Some? <==> |s'.answers| == |s.answers| + 1)
                && (r.Some? ==> r.value == s'.answers[|s.answers|].limits)
      ensures r.None? <==> !dbOk && !old(CacheHit(clock))
      ensures r.Some? ==> r.value == old(DefaultsSeen(clock))
      ensures defCache == if r.None? || old(CacheHit(clock)) then old(defCache)
                          else Some(CachedLimits(defaults, clock' + DEFAULT_LIMITS_TTL))
    {
      if defCache.Some? && clock < defCache.value.expires {
        return Some(defCache.value.limits);
      }
      if !dbOk {
        return None;
      }
      defCache := Some(CachedLimits(defaults, clock' + DEFAULT_LIMITS_TTL));
      r := Some(defaults);
    }

    method EffectiveLimits(member: string, clock: Instant, clock': Instant, limitsOk: bool, defaultsOk: bool)
      returns (r: Option<Limits>)
      modifies `defCache
      ensures r.Some? ==> r.value == old(LimitsInForce(member, clock))
      ensures r.Some? ==>
                var (own, def) := (if member in memberLimits then memberLimits[member] else Limits(0, 0, 0),
                                   old(DefaultsSeen(clock)));
                && r.value.daily == (if own.daily > 0 then own.daily else def.daily)
                && r.value.weekly == (if own.weekly > 0 then own.weekly else def.weekly)
                && r.value.monthly == (if own.monthly > 0 then own.monthly else def.monthly)
      ensures r.None? <==> !limitsOk || (!defaultsOk && !old(CacheHit(clock)))
    {
      if !limitsOk {
        return None;
      }
      var own := if member in memberLimits then memberLimits[member] else Limits(0, 0, 0);
      ghost var s: DefaultsState := *;
      var def := DefaultLimits(clock, clock', defaultsOk, s);
      if def.None? {
        return None;
      }
      r := Some(Limits(Pick(own.daily, def.value.daily), Pick(own.weekly, def.value.weekly),
                       Pick(own.monthly, def.value.monthly)));
    }

    method Check(member: string, clock: Instant, clock': Instant, now: Instant,
                 limitsOk: bool, defaultsOk: bool, usageOk: bool)
      returns (r: Verdict)
      modifies `defCache
      ensures var l := old(LimitsInForce(member, clock));
              r.Failed? <==> || !limitsOk || (!defaultsOk && !old(CacheHit(clock)))
                             || (!usageOk && (l.daily > 0 || l.weekly > 0 || l.monthly > 0))
      ensures Judges(r, usage, old(LimitsInForce(member, clock)), member, now)
      ensures var (l, day, week, month) := (old(LimitsInForce(member, clock)), Used(usage, member, PeriodKey(Daily, now)),
                                            Used(usage, member, PeriodKey(Weekly, now)),
                                            Used(usage, member, PeriodKey(Monthly, now)));
              && (r.Allowed? ==> && (l.daily <= 0 || day < l.daily) && (l.weekly <= 0 || week < l.weekly)
                                 && (l.monthly <= 0 || month < l.monthly))
              && (r.Exceeded? && r.window == Daily ==>
                    r == Exceeded(Daily, day, l.daily, PeriodKey(Daily, now), ResetAfter(Daily, now)) && 0 < l.daily <= day)
              && (r.Exceeded? && r.window == Weekly ==>
                    && r == Exceeded(Weekly, week, l.weekly, PeriodKey(Weekly, now), ResetAfter(Weekly, now))
                    && 0 < l.weekly <= week && (l.daily <= 0 || day < l.daily))
              && (r.Exceeded? && r.window == Monthly ==>
                    && r == Exceeded(Monthly, month, l.monthly, PeriodKey(Monthly, now), ResetAfter(Monthly, now))
                    && 0 < l.monthly <= month && (l.daily <= 0 || day < l.daily) && (l.weekly <= 0 || week < l.weekly))
    {
      hide PeriodKey, ResetAfter;
      var limits := EffectiveLimits(member, clock, clock', limitsOk, defaultsOk);
      if limits.None? {
        return Failed;
      }
      var periods: seq<string> := [];
      for i := 0 to |Windows|
        invariant forall j | 0 <= j < i :: limits.value.Get(Windows[j]) > 0 ==> PeriodKey(Windows[j], now) in periods
        invariant periods == [] <==> forall j | 0 <= j < i :: limits.value.Get(Windows[j]) <= 0
      {
        if limits.value.Get(Windows[i]) > 0 {
          periods := periods + [PeriodKey(Windows[i], now)];
        }
      }
      assert Windows[0] == Daily && Windows[1] == Weekly && Windows[2] == Monthly;
      if |periods| == 0 {
        return Allowed;
      }
      if !usageOk {
        return Failed;
      }
      var rows := UsageForPeriods(usage, member, periods);
      for i := 0 to |Windows|
        invariant forall j | 0 <= j < i :: !Over(usage, limits.value, member, Windows[j], now)
      {
        var w := Windows[i];
        var limit := limits.value.Get(w);
        if limit <= 0 {
          continue;
        }
        var period := PeriodKey(w, now);
        var used := if period in rows then rows[period] else 0;
        if used >= limit {
          assert w == Monthly ==> Windows[0] == Daily && Windows[1] == Weekly;
          return Exceeded(w, used, limit, period, ResetAfter(w, now));
        }
      }
      assert Windows[0] == Daily && Windows[1] == Weekly && Windows[2] == Monthly;
      r := Allowed;
    }

    method Add(member: string, tokens: int, now: Instant, dbOk: bool)
      modifies `usage
      ensures usage == Apply(old(usage), Added(member, tokens, now, dbOk))
      ensures forall m, w, t :: Reading(usage, m, w, t) == Reading(old(usage), m, w, t)
                + if dbOk && tokens > 0 && member != "" && m == member && PeriodKey(w, now) == PeriodKey(w, t) then tokens else 0
    {
      if dbOk && tokens > 0 {
        forall m, w, t ensures Reading(AddUsage(usage, member, PeriodKeys(now), tokens), m, w, t) == Reading(usage, m, w, t)
                                 + if member == m && PeriodKey(w, now) == PeriodKey(w, t) then tokens else 0 {
          AddMovesReading(usage, member, tokens, now, m, w, t);
        }
      }
      hide PeriodKey, Reading, AddUsage;
      if tokens <= 0 || member == "" {
        return;
      }
      var periods: seq<string> := [];
      for i := 0 to |Windows|
        invariant periods == PeriodKeys(now)[..i]
      {
        periods := periods + [PeriodKey(Windows[i], now)];
      }
      assert PeriodKeys(now)[..3] == PeriodKeys(now);
      if dbOk {
        usage := AddUsage(usage, member, periods, tokens);
      }
    }

    method Reset(member: string, dbOk: bool)
      modifies `usage
      ensures usage == Apply(old(usage), Cleared(member, dbOk))
      ensures forall m, period :: (m, period) in usage <==> (m, period) in old(usage) && !(dbOk && m == member)
      ensures forall k | k in usage :: usage[k] == old(usage)[k]
    {
      if dbOk {
        usage := ResetUsage(usage, member);
      }
    }
  }

  // ---------- runs ----------

  datatype Event =
    | Added(member: string, tokens: int, at: Instant, ok: bool)
    | Cleared(member: string, ok: bool)

  function Apply(u: Table, e: Event): Table {
    match e
    case Added(m, n, at, ok) => if ok && n > 0 && m != "" then AddUsage(u, m, PeriodKeys(at), n) else u
    case Cleared(m, ok) => if ok then ResetUsage(u, m) else u
  }

  function Run(events: seq<Event>): Table {
    if events == [] then map[] else Apply(Run(events[..|events| - 1]), events[|events| - 1])
  }

  /** The counter of window w that a member's reading shows at instant t. */
  function Reading(u: Table, member: string, w: Window, t: Instant): int {
    Used(u, member, PeriodKey(w, t))
  }

  /** The daily counter as read at any instant of the given day. */
  function DayCounter(u: Table, member: string, day: nat): int { Used(u, member, DayKey(CivilDate(day))) }

  function SumDays(u: Table, member: string, lo: nat, hi: nat): int
    decreases hi - lo
  {
    if lo >= hi then 0 else DayCounter(u, member, lo) + SumDays(u, member, lo + 1, hi)
  }

  lemma UpsertThree(u: Table, m: string, a: string, b: string, c: string, n: int)
    ensures UpsertAll(u, m, [a, b, c], n) == Upsert(Upsert(Upsert(u, m, a, n), m, b, n), m, c, n)
  {
    assert [a, b, c][1..] == [b, c] && [b, c][1..] == [c] && [c][1..] == [];
    var v := Upsert(Upsert(u, m, a, n), m, b, n);
    assert UpsertAll(v, m, [c], n) == UpsertAll(Upsert(v, m, c, n), m, [], n);
  }

  lemma AddMovesReading(u: Table, m: string, n: int, at: Instant, member: string, w: Window, t: Instant)
    requires n > 0
    ensures Reading(AddUsage(u, m, PeriodKeys(at), n), member, w, t) == Reading(u, member, w, t)
              + if m == member && PeriodKey(w, at) == PeriodKey(w, t) then n else 0
  {
    hide PeriodKey;
    var keys := PeriodKeys(at);
    UpsertThree(u, m, keys[0], keys[1], keys[2], n);
    WindowsNeverCollide(Daily, at, Weekly, at);
    WindowsNeverCollide(Daily, at, Monthly, at);
    WindowsNeverCollide(Weekly, at, Monthly, at);
    forall v: Window | v != w ensures PeriodKey(v, at) != PeriodKey(w, t) {
      WindowsNeverCollide(v, at, w, t);
    }
  }

  lemma AddMovesDay(u: Table, m: string, n: int, at: Instant, member: string, day: nat)
    requires n > 0
    ensures DayCounter(AddUsage(u, m, PeriodKeys(at), n), member, day)
         == DayCounter(u, member, day) + if m == member && DayOf(at) == day then n else 0
  {
    hide DayKey, CivilDate, AddUsage, PeriodKeys;
    assert DayOf(Midnight(day)) == day;
    AddMovesReading(u, m, n, at, member, Daily, Midnight(day));
    KeyNamesPeriod(Daily, at, Midnight(day));
  }

  lemma {:induction false} AddMovesSum(u: Table, m: string, n: int, at: Instant, member: string, lo: nat, hi: nat)
    requires n > 0
    ensures SumDays(AddUsage(u, m, PeriodKeys(at), n), member, lo, hi) == SumDays(u, member, lo, hi)
              + if m == member && lo <= DayOf(at) < hi then n else 0
    decreases hi - lo
  {
    hide DayCounter, AddUsage, PeriodKeys;
    if lo < hi {
      AddMovesDay(u, m, n, at, member, lo);
      AddMovesSum(u, m, n, at, member, lo + 1, hi);
    }
  }

  lemma {:induction false} ClearEmptiesSum(u: Table, m: string, member: string, lo: nat, hi: nat)
    ensures SumDays(ResetUsage(u, m), member, lo, hi) == if m == member then 0 else SumDays(u, member, lo, hi)
    decreases hi - lo
  {
    if lo < hi {
      ClearEmptiesSum(u, m, member, lo + 1, hi);
    }
  }

  lemma {:induction false} EmptySum(member: string, lo: nat, hi: nat)
    ensures SumDays(map[], member, lo, hi) == 0
    decreases hi - lo
  {
    if lo < hi {
      EmptySum(member, lo + 1, hi);
    }
  }

  /** Conservation: in every run, whatever the order and times of additions, failures and resets, each
      period's counter is the sum of the day counters of exactly the days in that period. */
  lemma {:induction false} CountersBalance(events: seq<Event>, member: string, w: Window, t: Instant)
    ensures Reading(Run(events), member, w, t)
         == SumDays(Run(events), member, FirstDay(w, DayOf(t)), ResetDay(w, DayOf(t)))
  {
    var (lo, hi) := (FirstDay(w, DayOf(t)), ResetDay(w, DayOf(t)));
    if events == [] {
      EmptySum(member, lo, hi);
    } else {
      var (before, e) := (events[..|events| - 1], events[|events| - 1]);
      CountersBalance(before, member, w, t);
      match e
      case Added(m, n, at, ok) =>
        if ok && n > 0 && m != "" {
          AddMovesReading(Run(before), m, n, at, member, w, t);
          AddMovesSum(Run(before), m, n, at, member, lo, hi);
          KeyNamesPeriod(w, at, t);
          SamePeriod(w, DayOf(t), DayOf(at));
        }
      case Cleared(m, ok) =>
        if ok {
          ClearEmptiesSum(Run(before), m, member, lo, hi);
        }
    }
  }

  /** The week counter is the sum of its seven day counters, Monday to Sunday. */
  lemma WeekIsSevenDays(events: seq<Event>, member: string, t: Instant)
    ensures var (u, mon) := (Run(events), DayOf(t) - DayOf(t) % 7);
            Reading(u, member, Weekly, t)
            == DayCounter(u, member, mon) + DayCounter(u, member, mon + 1) + DayCounter(u, member, mon + 2)
             + DayCounter(u, member, mon + 3) + DayCounter(u, member, mon + 4) + DayCounter(u, member, mon + 5)
             + DayCounter(u, member, mon + 6)
  {
    hide PeriodKey, Run, DayCounter;
    CountersBalance(events, member, Weekly, t);
    var (u, mon) := (Run(events), DayOf(t) - DayOf(t) % 7);
    assert ResetDay(Weekly, DayOf(t)) == mon + 7;
    assert SumDays(u, member, mon + 6, mon + 7) == DayCounter(u, member, mon + 6) + SumDays(u, member, mon + 7, mon + 7);
    assert SumDays(u, member, mon + 5, mon + 7) == DayCounter(u, member, mon + 5) + DayCounter(u, member, mon + 6);
    assert SumDays(u, member, mon + 3, mon + 7)
        == DayCounter(u, member, mon + 3) + DayCounter(u, member, mon + 4) + SumDays(u, member, mon + 5, mon + 7);
    assert SumDays(u, member, mon + 1, mon + 7)
        == DayCounter(u, member, mon + 1) + DayCounter(u, member, mon + 2) + SumDays(u, member, mon + 3, mon + 7);
  }

  // ---------- the reported reset time ----------

  ghost predicate NoneAfter(events: seq<Event>, now: Instant) {
    forall e | e in events :: e.Added? ==> e.at <= now
  }

  lemma {:induction false} NextPeriodReadsZero(events: seq<Event>, member: string, w: Window, now: Instant, u: Instant)
    requires NoneAfter(events, now) && ResetAfter(w, now) <= u
    ensures Reading(Run(events), member, w, u) == 0
  {
    KeyChangesExactlyAtReset(w, now, now);
    if events != [] {
      var (before, e) := (events[..|events| - 1], events[|events| - 1]);
      assert e in events;
      assert forall x | x in before :: x in events;
      NextPeriodReadsZero(before, member, w, now, u);
      if e.Added? && e.ok && e.tokens > 0 && e.member != "" {
        AddMovesReading(Run(before), e.member, e.tokens, e.at, member, w, u);
        KeyChangesExactlyAtReset(w, e.at, u);
        KeyChangesExactlyAtReset(w, e.at, now);
        KeyChangesExactlyAtReset(w, now, u);
      }
    }
  }

  /** When Check refuses, the reset time it reports is exact: with no further usage the refusing counter
      reads zero at u, for any u from now on, if and only if u is not before the reported reset. */
  lemma ReportedResetIsExact(events: seq<Event>, limits: Limits, member: string, now: Instant, r: Verdict, u: Instant)
    requires NoneAfter(events, now) && now <= u
    requires r.Exceeded? && Judges(r, Run(events), limits, member, now)
    ensures Reading(Run(events), member, r.window, u) == 0 <==> r.resetUtc <= u
  {
    KeyChangesExactlyAtReset(r.window, now, u);
    if r.resetUtc <= u {
      NextPeriodReadsZero(events, member, r.window, now, u);
    }
  }
}
