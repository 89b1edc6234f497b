/** The Redis circuit breaker (internal/platform/redis/circuit_breaker.go). Times are nanoseconds;
    the zero time is `None`. The mutex makes each call one event. */
module CircuitBreaker {
  import opened Common

  const THRESHOLD: nat := 5
  const COOLDOWN: nat := 5_000_000_000

  /** What a finished command reports: any reply the server wrote, a caller that hung up, or any
      other error. */
  datatype Outcome = Replied | Canceled | Failed

  datatype State = State(failures: nat, probing: bool, openUntil: Option<int>) {
    predicate Open() { openUntil.Some? }

    /** Would a call at `now` be let through? */
    predicate Admits(now: int) { openUntil.None? || openUntil.value <= now }
  }

  /** A name for each command, so that a run can say whose report arrives. The breaker is not
      told it. */
  type Call = nat

  datatype Event = Allow(call: Call, now: int) | Report(call: Call, outcome: Outcome, now: int)

  const NEW := State(0, false, None)

  function Allowed(s: State, now: int): State {
    if s.Open() && s.Admits(now) then s.(openUntil := Some(now + COOLDOWN), probing := true) else s
  }

  function Reported(s: State, outcome: Outcome, now: int): State {
    match outcome
    case Replied => State(0, false, if s.probing then None else s.openUntil)
    case Canceled => s
    case Failed =>
      if s.failures + 1 >= THRESHOLD then State(0, false, Some(now + COOLDOWN))
      else State(s.failures + 1, false, s.openUntil)
  }

  function Next(s: State, e: Event): State {
    match e
    case Allow(_, now) => Allowed(s, now)
    case Report(_, outcome, now) => Reported(s, outcome, now)
  }

  class CircuitBreaker {
    var failures: nat
    var probing: bool
    var openUntil: Option<int>

    function Value(): State
      reads this
    {
      State(failures, probing, openUntil)
    }

    constructor ()
      ensures Value() == NEW
    {
      failures, probing, openUntil := 0, false, None;
    }

    method Allow(now: int) returns (admitted: bool)
      modifies this
      ensures admitted == old(Value()).Admits(now)
      ensures Value() == Allowed(old(Value()), now)
    {
      if openUntil.None? {
        return true;
      }
      if now < openUntil.value {
        return false;
      }
      openUntil := Some(now + COOLDOWN);
      probing := true;
      return true;
    }

    method ReportResult(outcome: Outcome, now: int)
      modifies this
      ensures Value() == Reported(old(Value()), outcome, now)
    {
      if outcome.Replied? {
        failures := 0;
        if probing {
          openUntil := None;
          probing := false;
        }
        return;
      }
      if outcome.Canceled? {
        return;
      }
      probing := false;
      failures := failures + 1;
      if failures >= THRESHOLD {
        openUntil := Some(now + COOLDOWN);
        failures := 0;
      }
    }
  }

  // ---- runs ----

  function After(s: State, es: seq<Event>): State
    decreases |es|
  {
    if es == [] then s else After(Next(s, es[0]), es[1..])
  }

  /** The clock never steps back. */
  predicate Clocked(last: int, es: seq<Event>)
    decreases |es|
  {
    es == [] || (last <= es[0].now && Clocked(es[0].now, es[1..]))
  }

  predicate StaysOpen(s: State, es: seq<Event>)
    decreases |es|
  {
    s.Open() && (es == [] || StaysOpen(Next(s, es[0]), es[1..]))
  }

  /** The times at which a call was let through. */
  function Admissions(s: State, es: seq<Event>): seq<int>
    decreases |es|
  {
    if es == [] then []
    else
      (if es[0].Allow? && s.Admits(es[0].now) then [es[0].now] else []) + Admissions(Next(s, es[0]), es[1..])
  }

  lemma {:induction false} AfterSnoc(s: State, es: seq<Event>, e: Event)
    ensures After(s, es + [e]) == Next(After(s, es), e)
    decreases |es|
  {
    if es == [] {
      assert es + [e] == [e];
      assert After(Next(s, e), []) == Next(s, e);
    } else {
      assert (es + [e])[0] == es[0] && (es + [e])[1..] == es[1..] + [e];
      AfterSnoc(Next(s, es[0]), es[1..], e);
    }
  }

  // ---- at most one call per cooldown ----

  /** No gate reaches further than a cooldown past the clock. */
  predicate Near(s: State, last: int) {
    s.Open() ==> s.openUntil.value <= last + COOLDOWN
  }

  lemma {:induction false} NearAlways(s: State, last: int, es: seq<Event>)
    requires Near(s, last) && Clocked(last, es)
    ensures Near(After(s, es), Until(last, es))
    decreases |es|
  {
    if es != [] {
      NearAlways(Next(s, es[0]), es[0].now, es[1..]);
      assert |es| > 1 ==> es[1..][|es[1..]| - 1] == es[|es| - 1];
    }
  }

  /** While the breaker stays open the first call waits for the gate, and each further one at
      least a cooldown. */
  lemma {:induction false} AdmissionsApart(s: State, last: int, es: seq<Event>, i: nat, j: nat)
    requires Near(s, last) && Clocked(last, es) && StaysOpen(s, es)
    requires i <= j < |Admissions(s, es)|
    ensures Admissions(s, es)[i] >= s.openUntil.value
    ensures Admissions(s, es)[j] - Admissions(s, es)[i] >= (j - i) * COOLDOWN
    decreases |es|
  {
    var e, rest := es[0], Admissions(Next(s, es[0]), es[1..]);
    if e.Allow? && s.Admits(e.now) {
      assert Admissions(s, es) == [e.now] + rest;
      if j > 0 {
        AdmissionsApart(Next(s, e), e.now, es[1..], if i > 0 then i - 1 else 0, j - 1);
      }
      if i == 0 < j {
        assert rest[0] >= e.now + COOLDOWN by { AdmissionsApart(Next(s, e), e.now, es[1..], 0, 0); }
        assert (j - i) * COOLDOWN == (j - 1) * COOLDOWN + COOLDOWN;
      }
    } else {
      assert Admissions(s, es) == rest;
      AdmissionsApart(Next(s, e), e.now, es[1..], i, j);
    }
  }

  lemma {:induction false} AdmittedByClock(s: State, last: int, es: seq<Event>, k: nat)
    requires Clocked(last, es) && k < |Admissions(s, es)|
    ensures last <= Admissions(s, es)[k] <= es[|es| - 1].now
    decreases |es|
  {
    var e, rest := es[0], Admissions(Next(s, es[0]), es[1..]);
    ClockedBounds(last, es);
    var first := e.Allow? && s.Admits(e.now);
    assert Admissions(s, es) == (if first then [e.now] else []) + rest;
    if !(first && k == 0) {
      AdmittedByClock(Next(s, e), e.now, es[1..], if first then k - 1 else k);
      assert es[1..][|es[1..]| - 1] == es[|es| - 1];
    }
  }

  lemma {:induction false} ClockedBounds(last: int, es: seq<Event>)
    requires Clocked(last, es) && es != []
    ensures last <= es[0].now <= es[|es| - 1].now
    decreases |es|
  {
    if |es| > 1 {
      ClockedBounds(es[0].now, es[1..]);
      assert es[1..][|es[1..]| - 1] == es[|es| - 1];
    }
  }

  lemma FewAdmissions(s: State, last: int, es: seq<Event>)
    requires Near(s, last) && Clocked(last, es) && StaysOpen(s, es) && es != []
    ensures |Admissions(s, es)| <= 1 + (es[|es| - 1].now - last) / COOLDOWN
  {
    var n := |Admissions(s, es)|;
    ClockedBounds(last, es);
    if n > 0 {
      AdmissionsApart(s, last, es, 0, n - 1);
      AdmittedByClock(s, last, es, 0);
      AdmittedByClock(s, last, es, n - 1);
      assert (n - 1) * COOLDOWN <= es[|es| - 1].now - last;
      assert n - 1 <= (es[|es| - 1].now - last) / COOLDOWN;
    }
  }

  lemma {:induction false} ClockSplits(last: int, before: seq<Event>, es: seq<Event>)
    requires Clocked(last, before + es)
    ensures Clocked(last, before) && Clocked(Until(last, before), es)
    decreases |before|
  {
    if before == [] {
      assert before + es == es;
    } else {
      assert (before + es)[0] == before[0] && (before + es)[1..] == before[1..] + es;
      ClockSplits(before[0].now, before[1..], es);
    }
  }

  /** The time of the last event, or `last` when there is none. */
  function Until(last: int, es: seq<Event>): int {
    if es == [] then last else es[|es| - 1].now
  }

  /** Of a breaker that stays open after any run from the start, the calls let through are at
      least a cooldown apart, and over a span no more than one plus one for every cooldown in it. */
  lemma OpenAdmitsFew(start: int, before: seq<Event>, es: seq<Event>)
    requires Clocked(start, before + es) && StaysOpen(After(NEW, before), es) && es != []
    ensures var times := Admissions(After(NEW, before), es);
            && |times| <= 1 + (es[|es| - 1].now - Until(start, before)) / COOLDOWN
            && forall i, j | 0 <= i <= j < |times| :: times[j] - times[i] >= (j - i) * COOLDOWN
  {
    var s, last := After(NEW, before), Until(start, before);
    ClockSplits(start, before, es);
    NearAlways(NEW, start, before);
    FewAdmissions(s, last, es);
    forall i, j | 0 <= i <= j < |Admissions(s, es)|
      ensures Admissions(s, es)[j] - Admissions(s, es)[i] >= (j - i) * COOLDOWN
    {
      AdmissionsApart(s, last, es, i, j);
    }
  }

  // ---- opening and closing ----

  /** Failures reported since the server last replied. */
  function Streak(es: seq<Event>): nat {
    if es == [] then 0
    else
      var before, e := es[..|es| - 1], es[|es| - 1];
      if e.Allow? || e.outcome.Canceled? then Streak(before)
      else if e.outcome.Replied? then 0
      else Streak(before) + 1
  }

  /** The counter is the streak, counted from zero again after every fifth failure. */
  lemma {:induction false} CountsStreak(es: seq<Event>)
    ensures After(NEW, es).failures == Streak(es) % THRESHOLD
    decreases |es|
  {
    if es != [] {
      var before, e := es[..|es| - 1], es[|es| - 1];
      assert es == before + [e];
      CountsStreak(before);
      AfterSnoc(NEW, before, e);
    }
  }

  /** A report moves the gate in two cases only: a failure that brings the streak to a multiple of
      five starts a cooldown, and a reply while a probe is out closes the breaker. */
  lemma ReportsMoveGate(es: seq<Event>, e: Event)
    requires e.Report?
    ensures After(NEW, es + [e]).openUntil ==
            if e.outcome.Failed? && Streak(es + [e]) % THRESHOLD == 0 then Some(e.now + COOLDOWN)
            else if e.outcome.Replied? && exists i :: ProbeOut(es, i) then None
            else After(NEW, es).openUntil
  {
    CountsStreak(es);
    ProbingMeans(es);
    AfterSnoc(NEW, es, e);
    assert (es + [e])[..|es|] == es;
  }

  /** Event `i` let a call through an expired gate, and since then no failure or reply was reported. */
  predicate ProbeOut(es: seq<Event>, i: int) {
    0 <= i < |es| && es[i].Allow? &&
    After(NEW, es[..i]).Open() && After(NEW, es[..i]).Admits(es[i].now) &&
    forall k | i <= k < |es| :: es[k].Report? ==> es[k].outcome.Canceled?
  }

  lemma {:induction false} ProbingMeans(es: seq<Event>)
    ensures After(NEW, es).probing <==> exists i :: ProbeOut(es, i)
    ensures After(NEW, es).probing ==> After(NEW, es).Open()
    decreases |es|
  {
    if es != [] {
      var n := |es| - 1;
      var before, e := es[..n], es[n];
      assert es == before + [e];
      ProbingMeans(before);
      AfterSnoc(NEW, before, e);
      forall i | 0 <= i < n ensures es[..i] == before[..i] {}
      if i :| ProbeOut(before, i) && !(e.Report? && !e.outcome.Canceled?) {
        assert ProbeOut(es, i);
      }
      if e.Allow? && After(NEW, before).Open() && After(NEW, before).Admits(e.now) {
        assert ProbeOut(es, n);
      }
      if i :| ProbeOut(es, i) && i < n {
        assert ProbeOut(before, i);
      }
    }
  }

  /** After a trip, and until its gate is reached, nobody is let through and nothing closes the
      breaker: not even replies to calls let through before the trip. */
  lemma {:induction false} TripHolds(s: State, last: int, gate: int, es: seq<Event>)
    requires s.Open() && !s.probing && gate <= s.openUntil.value && gate <= last + COOLDOWN
    requires Clocked(last, es) && forall k | 0 <= k < |es| :: es[k].now < gate
    ensures StaysOpen(s, es) && Admissions(s, es) == []
    decreases |es|
  {
    if es != [] {
      TripHolds(Next(s, es[0]), es[0].now, gate, es[1..]);
    }
  }

  lemma Tripped(before: seq<Event>, f: Call, t: int)
    requires Streak(before + [Report(f, Failed, t)]) % THRESHOLD == 0
    ensures After(NEW, before + [Report(f, Failed, t)]) == State(0, false, Some(t + COOLDOWN))
  {
    hide Streak;
    var e := Report(f, Failed, t);
    CountsStreak(before + [e]);
    ReportsMoveGate(before, e);
    AfterSnoc(NEW, before, e);
  }

  /** TripHolds for the fifth failure of a run. */
  lemma TripHoldsAfterFifth(before: seq<Event>, call: Call, now: int, es: seq<Event>)
    requires Streak(before + [Report(call, Failed, now)]) % THRESHOLD == 0
    requires Clocked(now, es) && forall k | 0 <= k < |es| :: es[k].now < now + COOLDOWN
    ensures StaysOpen(After(NEW, before + [Report(call, Failed, now)]), es)
    ensures Admissions(After(NEW, before + [Report(call, Failed, now)]), es) == []
  {
    var e := Report(call, Failed, now);
    ReportsMoveGate(before, e);
    AfterSnoc(NEW, before, e);
    TripHolds(After(NEW, before + [e]), now, now + COOLDOWN, es);
  }

  /** Once a gate is set, and until a further failure or a probe's reply, calls before it are
      refused and the first call at or after it is let through. */
  lemma {:induction false} GateOpens(s: State, es: seq<Event>, gate: int, call: Call, now: int)
    requires s.openUntil == Some(gate)
    requires forall k | 0 <= k < |es| :: es[k].Report? ==> es[k].outcome.Canceled? || (es[k].outcome.Replied? && !s.probing)
    requires forall k | 0 <= k < |es| :: es[k].Allow? ==> es[k].now < gate
    ensures Admissions(s, es) == []
    ensures Admissions(After(s, es), [Allow(call, now)]) == if now >= gate then [now] else []
    decreases |es|
  {
    if es != [] {
      GateOpens(Next(s, es[0]), es[1..], gate, call, now);
    } else {
      OneCall(s, call, now);
    }
  }

  lemma OneCall(s: State, call: Call, now: int)
    ensures Admissions(s, [Allow(call, now)]) == if s.openUntil.None? || now >= s.openUntil.value then [now] else []
  {
    assert [Allow(call, now)][1..] == [];
  }

  /** A cooldown after the fifth failure, and not before, a call is let through again, whatever
      hung up, replied or was refused meanwhile. */
  lemma TripEnds(before: seq<Event>, f: Call, t: int, es: seq<Event>, call: Call, now: int)
    requires Streak(before + [Report(f, Failed, t)]) % THRESHOLD == 0
    requires forall k | 0 <= k < |es| :: if es[k].Report? then !es[k].outcome.Failed? else es[k].now < t + COOLDOWN
    ensures var s := After(NEW, before + [Report(f, Failed, t)]);
            && Admissions(s, es) == []
            && Admissions(After(s, es), [Allow(call, now)]) == if now >= t + COOLDOWN then [now] else []
  {
    hide After, Streak, Admissions;
    Tripped(before, f, t);
    GateOpens(State(0, false, Some(t + COOLDOWN)), es, t + COOLDOWN, call, now);
  }

  /** A cooldown after a probe that has not answered, and not before, the next call is let through. */
  lemma ProbeExpires(before: seq<Event>, probe: Call, t: int, es: seq<Event>, call: Call, now: int)
    requires After(NEW, before).Open() && Admissions(After(NEW, before), [Allow(probe, t)]) == [t]
    requires forall k | 0 <= k < |es| :: if es[k].Report? then es[k].outcome.Canceled? else es[k].now < t + COOLDOWN
    ensures var s := After(NEW, before + [Allow(probe, t)]);
            && Admissions(s, es) == []
            && Admissions(After(s, es), [Allow(call, now)]) == if now >= t + COOLDOWN then [now] else []
  {
    var e := Allow(probe, t);
    OneCall(After(NEW, before), probe, t);
    AfterSnoc(NEW, before, e);
    GateOpens(After(NEW, before + [e]), es, t + COOLDOWN, call, now);
  }

  /** While no streak reaches five the breaker is closed and lets every call through. */
  lemma {:induction false} ClosedAdmits(es: seq<Event>, call: Call, now: int)
    requires forall n | 0 <= n <= |es| :: Streak(es[..n]) < THRESHOLD
    ensures !After(NEW, es).Open() && Admissions(After(NEW, es), [Allow(call, now)]) == [now]
    decreases |es|
  {
    if es != [] {
      var before, e := es[..|es| - 1], es[|es| - 1];
      assert es == before + [e];
      forall n | 0 <= n <= |before| ensures before[..n] == es[..n] {
      }
      ClosedAdmits(before, call, now);
      AfterSnoc(NEW, before, e);
      CountsStreak(before);
      assert es[..|es|] == es;
    }
    OneCall(After(NEW, es), call, now);
  }

  /** A reply while a probe is out closes the breaker, and the next call is let through. */
  lemma ReplyReadmits(es: seq<Event>, i: int, reply: Call, t: int, call: Call, now: int)
    requires ProbeOut(es, i)
    ensures Admissions(After(NEW, es + [Report(reply, Replied, t)]), [Allow(call, now)]) == [now]
  {
    ReportsMoveGate(es, Report(reply, Replied, t));
    OneCall(After(NEW, es + [Report(reply, Replied, t)]), call, now);
  }

  // ---- hang-ups ----

  function WithoutCanceled(es: seq<Event>): seq<Event> {
    if es == [] then []
    else if es[0].Report? && es[0].outcome.Canceled? then WithoutCanceled(es[1..])
    else [es[0]] + WithoutCanceled(es[1..])
  }

  /** Callers that hang up change neither the state nor who is let through. */
  lemma {:induction false} CanceledIsNeutral(s: State, es: seq<Event>)
    ensures After(s, WithoutCanceled(es)) == After(s, es)
    ensures Admissions(s, WithoutCanceled(es)) == Admissions(s, es)
    decreases |es|
  {
    if es != [] {
      CanceledIsNeutral(Next(s, es[0]), es[1..]);
    }
  }

  // ---- whose reply closes the breaker ----

  /** The calls let through and not reported yet. */
  function Waiting(es: seq<Event>): set<Call> {
    if es == [] then {}
    else
      var before, e := es[..|es| - 1], es[|es| - 1];
      match e
      case Allow(call, now) => if After(NEW, before).Admits(now) then Waiting(before) + {call} else Waiting(before)
      case Report(call, _, _) => Waiting(before) - {call}
  }

  /** The probes of the current open spell: the calls let through since the breaker opened. */
  function Probes(es: seq<Event>): set<Call> {
    if es == [] || !After(NEW, es).Open() then {}
    else
      var before, e := es[..|es| - 1], es[|es| - 1];
      if e.Allow? && After(NEW, before).Admits(e.now) then Probes(before) + {e.call} else Probes(before)
  }

  function Called(es: seq<Event>): set<Call> {
    set i | 0 <= i < |es| && es[i].Allow? :: es[i].call
  }

  /** Every command asks once, and reports at most once, after it was let through. */
  predicate Legal(es: seq<Event>) {
    es != [] ==>
      var before, e := es[..|es| - 1], es[|es| - 1];
      Legal(before) && if e.Allow? then e.call !in Called(before) else e.call in Waiting(before)
  }

  /** The calls let through before the breaker opened that have not reported yet. */
  function Strays(es: seq<Event>): set<Call> {
    Waiting(es) - Probes(es)
  }

  predicate Closes(es: seq<Event>, e: Event) {
    After(NEW, es).Open() && !After(NEW, es + [e]).Open()
  }

  /** While a probe is out, only the reply of a probe can close the breaker if and only if no call
      from before it opened is still waiting: the reply of any such call closes it too. */
  lemma OnlyProbesClose(es: seq<Event>)
    requires Legal(es) && After(NEW, es).probing
    ensures (forall e: Event | Legal(es + [e]) && Closes(es, e) :: e.call in Probes(es)) <==> Strays(es) == {}
  {
    ProbingMeans(es);
    forall e: Event ensures (es + [e])[..|es|] == es && After(NEW, es + [e]) == Next(After(NEW, es), e) {
      AfterSnoc(NEW, es, e);
    }
    if Strays(es) != {} {
      var call :| call in Strays(es);
      var e := Report(call, Replied, 0);
      assert Legal(es + [e]) && Closes(es, e);
    }
    if Strays(es) == {} {
      forall e: Event | Legal(es + [e]) && Closes(es, e) ensures e.call in Probes(es) {
        assert e.Report?;
      }
    }
  }

  /** While the breaker stays open its strays only report: none are added. */
  lemma StraysShrink(es: seq<Event>, e: Event)
    requires After(NEW, es).Open() && After(NEW, es + [e]).Open()
    ensures Strays(es + [e]) <= Strays(es)
  {
    assert (es + [e])[..|es|] == es;
    AfterSnoc(NEW, es, e);
  }

  ghost predicate OpenFrom(es: seq<Event>, k: nat) {
    forall n | k <= n <= |es| :: After(NEW, es[..n]).Open()
  }

  lemma {:induction false} StraysStayGone(es: seq<Event>, k: nat)
    requires k <= |es| && OpenFrom(es, k)
    ensures Strays(es) <= Strays(es[..k])
    decreases |es|
  {
    if k == |es| {
      assert es[..k] == es;
    } else {
      var before, e := es[..|es| - 1], es[|es| - 1];
      assert es == before + [e] && before[..k] == es[..k];
      forall n | k <= n <= |before| ensures before[..n] == es[..n] {
      }
      assert After(NEW, es[..|before|]).Open() && After(NEW, es[..|es|]).Open();
      assert es[..|before|] == before && es[..|es|] == es;
      StraysStayGone(before, k);
      StraysShrink(before, e);
    }
  }

  /** When no older call is waiting at some moment of an open spell, the reply that ends the spell
      is a probe's. */
  lemma SpellEndsByProbe(es: seq<Event>, k: nat, e: Event)
    requires Legal(es + [e]) && k <= |es| && OpenFrom(es, k) && Strays(es[..k]) == {}
    requires Closes(es, e)
    ensures e.Report? && e.outcome.Replied? && e.call in Probes(es) && e.call in Waiting(es)
  {
    hide After, Waiting, Probes, Called, Legal, OpenFrom;
    Extend(es, e);
    StraysStayGone(es, k);
    assert e.call in Waiting(es) && e.call !in Strays(es);
  }

  /** One more event. */
  lemma Extend(es: seq<Event>, e: Event)
    ensures After(NEW, es + [e]) == Next(After(NEW, es), e)
    ensures Called(es + [e]) == Called(es) + if e.Allow? then {e.call} else {}
    ensures Waiting(es + [e]) ==
            if e.Report? then Waiting(es) - {e.call}
            else if After(NEW, es).Admits(e.now) then Waiting(es) + {e.call} else Waiting(es)
    ensures Probes(es + [e]) ==
            if !After(NEW, es + [e]).Open() then {}
            else if e.Allow? && After(NEW, es).Admits(e.now) then Probes(es) + {e.call} else Probes(es)
    ensures Legal(es + [e]) <==> Legal(es) && if e.Allow? then e.call !in Called(es) else e.call in Waiting(es)
  {
    AfterSnoc(NEW, es, e);
    assert (es + [e])[..|es|] == es;
    forall c ensures c in Called(es + [e]) <==> c in Called(es) || (e.Allow? && c == e.call) {
      if c in Called(es) {
        var i :| 0 <= i < |es| && es[i].Allow? && es[i].call == c;
        assert (es + [e])[i] == es[i];
      }
      if c in Called(es + [e]) {
        var i :| 0 <= i < |es + [e]| && (es + [e])[i].Allow? && (es + [e])[i].call == c;
        assert i < |es| ==> es[i] == (es + [e])[i];
      }
      if e.Allow? && c == e.call {
        assert (es + [e])[|es|] == e;
      }
    }
  }

  /** All that the witness below needs to know of a run. */
  ghost predicate Stage(es: seq<Event>, s: State, waiting: set<Call>, probes: set<Call>, next: Call, now: int) {
    && Legal(es) && After(NEW, es) == s && Waiting(es) == waiting && Probes(es) == probes
    && (forall c | c in Called(es) :: c < next)
    && Clocked(0, es) && Until(0, es) == now
  }

  lemma {:induction false} ClockSnoc(last: int, es: seq<Event>, e: Event)
    requires Clocked(last, es) && Until(last, es) <= e.now
    ensures Clocked(last, es + [e]) && Until(last, es + [e]) == e.now
    decreases |es|
  {
    if es == [] {
      assert es + [e] == [e];
    } else {
      assert (es + [e])[1..] == es[1..] + [e];
      ClockSnoc(es[0].now, es[1..], e);
    }
  }

  lemma Asks(es: seq<Event>, s: State, waiting: set<Call>, probes: set<Call>, call: Call, now: int, t: int)
    requires Stage(es, s, waiting, probes, call, now) && now <= t && s.Admits(t)
    ensures Stage(es + [Allow(call, t)], Allowed(s, t), waiting + {call}, if s.Open() then probes + {call} else {}, call + 1, t)
  {
    hide After, Waiting, Probes, Called, Legal, Clocked, Until;
    Extend(es, Allow(call, t));
    ClockSnoc(0, es, Allow(call, t));
  }

  lemma Tells(es: seq<Event>, s: State, waiting: set<Call>, probes: set<Call>, next: Call, now: int, call: Call, outcome: Outcome, t: int)
    requires Stage(es, s, waiting, probes, next, now) && now <= t && call in waiting
    ensures var s1 := Reported(s, outcome, t);
            Stage(es + [Report(call, outcome, t)], s1, waiting - {call}, if s1.Open() then probes else {}, next, t)
  {
    hide After, Waiting, Probes, Called, Legal, Clocked, Until;
    Extend(es, Report(call, outcome, t));
    ClockSnoc(0, es, Report(call, outcome, t));
  }

  lemma Begin()
    ensures Stage([], NEW, {}, {}, 0, 0)
  {
  }

  /** Six calls are let through and five of them fail: the breaker is open, call 0 still waits. */
  lemma Trip() returns (es: seq<Event>, waiting: set<Call>)
    ensures Stage(es, State(0, false, Some(COOLDOWN)), waiting, {}, 6, 0) && 0 in waiting
  {
    hide Stage;
    es, waiting := [], {};
    Begin();
    for i := 0 to 6
      invariant Stage(es, NEW, waiting, {}, i, 0) && forall c: Call | c < i :: c in waiting
    {
      Asks(es, NEW, waiting, {}, i, 0, 0);
      es, waiting := es + [Allow(i, 0)], waiting + {i};
    }
    var s := NEW;
    for i := 0 to 5
      invariant Stage(es, s, waiting, {}, 6, 0) && s == if i < 5 then State(i, false, None) else State(0, false, Some(COOLDOWN))
      invariant 0 in waiting && forall c: Call | i < c < 6 :: c in waiting
    {
      Tells(es, s, waiting, {}, 6, 0, i + 1, Failed, 0);
      s := Reported(s, Failed, 0);
      es, waiting := es + [Report(i + 1, Failed, 0)], waiting - {i + 1};
    }
  }

  /** A call let through before the trip whose reply comes while the probe is out ends the
      cooldown, with the probe still unanswered. */
  lemma LateReplyCloses() returns (es: seq<Event>, e: Event, probe: Call)
    ensures Legal(es + [e]) && Clocked(0, es + [e])
    ensures e.Report? && Closes(es, e) && e.call !in Probes(es)
    ensures probe in Probes(es) && probe in Waiting(es + [e])
  {
    hide After, Waiting, Probes, Called, Legal, Clocked, Until;
    var waiting;
    es, waiting := Trip();
    var s := State(0, false, Some(COOLDOWN));
    probe := 6;
    Asks(es, s, waiting, {}, probe, 0, COOLDOWN);
    es := es + [Allow(probe, COOLDOWN)];
    s := Allowed(s, COOLDOWN);
    e := Report(0, Replied, COOLDOWN);
    Tells(es, s, waiting + {probe}, {} + {probe}, 7, COOLDOWN, 0, Replied, COOLDOWN);
  }
}
