/** The in-process rate limiter used while Redis is down
    (internal/platform/web/middleware/ratelimit.go). The zero time is `None`: every clock reading
    is after it, by more than any window. The mutex makes each call one event. */
module FallbackLimiter {
  import opened Common

  const MAX_KEYS: nat := 10_000

  datatype Config = Config(limit: nat, window: nat)

  datatype Window = Window(count: nat, resetAt: int)

  datatype Limiter = Limiter(keys: map<string, Window>, overflow: Option<Window>, lastReclaim: Option<int>)

  datatype Verdict = Verdict(allowed: bool, saturated: bool, retryAfter: int)

  const NEW := Limiter(map[], None, None)

  // ---- one call ----

  predicate Expired(w: Option<Window>, now: int) {
    w.None? || now > w.value.resetAt
  }

  function Refreshed(w: Option<Window>, span: nat, now: int): Window {
    if Expired(w, now) then Window(0, now + span) else w.value
  }

  function Charged(w: Window, cap: nat): Window {
    if w.count >= cap then w else w.(count := w.count + 1)
  }

  function Judged(w: Window, cap: nat, saturated: bool, now: int): Verdict {
    if w.count >= cap then Verdict(false, saturated, w.resetAt - now) else Verdict(true, saturated, 0)
  }

  function Reclaimed(keys: map<string, Window>, now: int): map<string, Window> {
    map k | k in keys && now <= keys[k].resetAt :: keys[k]
  }

  predicate Reclaims(c: Config, l: Limiter, key: string, now: int) {
    key !in l.keys && |l.keys| >= MAX_KEYS && (l.lastReclaim.None? || now - l.lastReclaim.value >= c.window)
  }

  function Swept(c: Config, l: Limiter, key: string, now: int): Limiter {
    if Reclaims(c, l, key, now) then l.(keys := Reclaimed(l.keys, now), lastReclaim := Some(now)) else l
  }

  /** Is the call charged to the key's own window? Otherwise it is charged to the overflow. */
  predicate Tracks(c: Config, l: Limiter, key: string, now: int) {
    var s := Swept(c, l, key, now);
    key in s.keys || |s.keys| < MAX_KEYS
  }

  function Next(c: Config, l: Limiter, key: string, now: int): Limiter {
    var s := Swept(c, l, key, now);
    if key in s.keys then
      s.(keys := s.keys[key := Charged(Refreshed(Some(s.keys[key]), c.window, now), c.limit)])
    else if |s.keys| < MAX_KEYS then s.(keys := s.keys[key := Window(1, now + c.window)])
    else s.(overflow := Some(Charged(Refreshed(s.overflow, c.window, now), c.limit * MAX_KEYS)))
  }

  function Answer(c: Config, l: Limiter, key: string, now: int): Verdict {
    var s := Swept(c, l, key, now);
    if key in s.keys then Judged(Refreshed(Some(s.keys[key]), c.window, now), c.limit, false, now)
    else if |s.keys| < MAX_KEYS then Verdict(true, false, 0)
    else
      var w := Refreshed(s.overflow, c.window, now);
      Judged(w, c.limit * MAX_KEYS, w.count == 0, now)
  }

  class FallbackLimiter {
    var keys: map<string, Window>
    var overflow: Option<Window>
    var lastReclaim: Option<int>
    const limit: nat
    const window: nat

    function Value(): Limiter
      reads this
    {
      Limiter(keys, overflow, lastReclaim)
    }

    function Settings(): Config {
      Config(limit, window)
    }

    constructor (limit: nat, window: nat)
      ensures Value() == NEW && Settings() == Config(limit, window)
    {
      keys, overflow, lastReclaim := map[], None, None;
      this.limit, this.window := limit, window;
    }

    method Allow(key: string, now: int) returns (v: Verdict)
      modifies this
      ensures v == Answer(Settings(), old(Value()), key, now)
      ensures Value() == Next(Settings(), old(Value()), key, now)
    {
      if key in keys {
        var w := keys[key];
        if now > w.resetAt {
          w := w.(count := 0, resetAt := now + window);
        }
        if w.count >= limit {
          keys := keys[key := w];
          return Verdict(false, false, w.resetAt - now);
        }
        keys := keys[key := w.(count := w.count + 1)];
        return Verdict(true, false, 0);
      }
      if |keys| >= MAX_KEYS && (lastReclaim.None? || now - lastReclaim.value >= window) {
        ReclaimExpired(now);
        lastReclaim := Some(now);
      }
      if |keys| >= MAX_KEYS {
        v := AllowOverflow(now);
        return;
      }
      keys := keys[key := Window(1, now + window)];
      return Verdict(true, false, 0);
    }

    method AllowOverflow(now: int) returns (v: Verdict)
      modifies this`overflow
      ensures var w := Refreshed(old(overflow), window, now);
              v == Judged(w, limit * MAX_KEYS, w.count == 0, now) &&
              overflow == Some(Charged(w, limit * MAX_KEYS))
    {
      if overflow.None? || now > overflow.value.resetAt {
        overflow := Some(Window(0, now + window));
      }
      var saturated := overflow.value.count == 0;
      if overflow.value.count >= limit * MAX_KEYS {
        return Verdict(false, saturated, overflow.value.resetAt - now);
      }
      overflow := Some(overflow.value.(count := overflow.value.count + 1));
      return Verdict(true, saturated, 0);
    }

    method ReclaimExpired(now: int)
      modifies this`keys
      ensures keys == Reclaimed(old(keys), now)
    {
      var todo := keys.Keys;
      while todo != {}
        invariant todo <= keys.Keys <= old(keys).Keys
        invariant forall k | k in keys :: keys[k] == old(keys)[k]
        invariant forall k | k in old(keys) && k !in todo :: k in keys <==> now <= old(keys)[k].resetAt
        decreases |todo|
      {
        var k :| k in todo;
        if now > keys[k].resetAt {
          keys := keys - {k};
        }
        todo := todo - {k};
      }
    }
  }

  // ---- one window ----

  /** What can happen to one window: a call is charged to it, or it is reclaimed if expired. */
  datatype Touch = Hit(now: int) | Forget(now: int)

  function Touched(w: Option<Window>, t: Touch, cap: nat, span: nat): Option<Window> {
    match t
    case Hit(now) => Some(Charged(Refreshed(w, span, now), cap))
    case Forget(now) => if Expired(w, now) then None else w
  }

  /** The window after a history of touches, oldest first. */
  function Bucket(ts: seq<Touch>, cap: nat, span: nat): Option<Window> {
    if ts == [] then None else Touched(Bucket(ts[..|ts| - 1], cap, span), ts[|ts| - 1], cap, span)
  }

  predicate Granted(w: Option<Window>, cap: nat, span: nat, now: int) {
    Refreshed(w, span, now).count < cap
  }

  /** The times of the calls let through. */
  function Grants(ts: seq<Touch>, cap: nat, span: nat): seq<int> {
    if ts == [] then []
    else
      var before, t := ts[..|ts| - 1], ts[|ts| - 1];
      Grants(before, cap, span) +
      (if t.Hit? && Granted(Bucket(before, cap, span), cap, span, t.now) then [t.now] else [])
  }

  predicate Clocked(ts: seq<Touch>, until: int) {
    ts == [] ||
    (ts[|ts| - 1].now <= until && Clocked(ts[..|ts| - 1], ts[|ts| - 1].now))
  }

  /** Where the grants `g` lie when the window is `w` and the clock has reached `now`: the last
      `count` of them inside the window, all others before it, and all but another `cap` of those
      more than a span before it. */
  predicate Laid(g: seq<int>, w: Option<Window>, cap: nat, span: nat, now: int) {
    match w
    case None =>
      (forall i | 0 <= i < |g| :: g[i] < now) &&
      (forall i | 0 <= i < |g| - cap :: g[i] < now - span)
    case Some(v) =>
      v.count <= cap && v.count <= |g| && v.resetAt - span <= now &&
      (forall i | |g| - v.count <= i < |g| :: v.resetAt - span <= g[i] <= v.resetAt && g[i] <= now) &&
      (forall i | 0 <= i < |g| - v.count :: g[i] < v.resetAt - span) &&
      (forall i | 0 <= i < |g| - v.count - cap :: g[i] < v.resetAt - span - span)
  }

  lemma LaidLater(g: seq<int>, w: Option<Window>, cap: nat, span: nat, now: int, later: int)
    requires Laid(g, w, cap, span, now) && now <= later
    ensures Laid(g, w, cap, span, later)
  {
  }

  lemma LaidFresh(g: seq<int>, w: Option<Window>, cap: nat, span: nat, now: int)
    requires Laid(g, w, cap, span, now) && Expired(w, now)
    ensures Laid(g, None, cap, span, now)
  {
  }

  lemma LaidHit(g: seq<int>, w: Option<Window>, cap: nat, span: nat, now: int)
    requires Laid(g, w, cap, span, now)
    ensures Laid(g, Some(Refreshed(w, span, now)), cap, span, now)
    ensures var f := Refreshed(w, span, now);
            Laid(if f.count < cap then g + [now] else g, Some(Charged(f, cap)), cap, span, now)
  {
    if Expired(w, now) {
      LaidFresh(g, w, cap, span, now);
    }
  }

  lemma {:induction false} BucketLaid(ts: seq<Touch>, cap: nat, span: nat, now: int)
    requires Clocked(ts, now)
    ensures Laid(Grants(ts, cap, span), Bucket(ts, cap, span), cap, span, now)
    decreases |ts|
  {
    if ts != [] {
      var before, t := ts[..|ts| - 1], ts[|ts| - 1];
      var g, w := Grants(before, cap, span), Bucket(before, cap, span);
      BucketLaid(before, cap, span, t.now);
      if t.Hit? {
        LaidHit(g, w, cap, span, t.now);
      } else if Expired(w, t.now) {
        LaidFresh(g, w, cap, span, t.now);
      }
      assert Laid(Grants(ts, cap, span), Bucket(ts, cap, span), cap, span, t.now);
      LaidLater(Grants(ts, cap, span), Bucket(ts, cap, span), cap, span, t.now, now);
    }
  }

  /** At most twice the cap in any span: of any `2 * cap + 1` grants in a row the last comes more
      than a span after the first, across resets and reclaims. */
  lemma {:induction false} TwiceTheCap(ts: seq<Touch>, cap: nat, span: nat, now: int, j: nat)
    requires Clocked(ts, now) && j + 2 * cap < |Grants(ts, cap, span)|
    ensures Grants(ts, cap, span)[j + 2 * cap] > Grants(ts, cap, span)[j] + span
    decreases |ts|
  {
    var before, t := ts[..|ts| - 1], ts[|ts| - 1];
    var g, w := Grants(before, cap, span), Bucket(before, cap, span);
    if j + 2 * cap < |g| {
      TwiceTheCap(before, cap, span, t.now, j);
    } else {
      BucketLaid(before, cap, span, t.now);
      LaidHit(g, w, cap, span, t.now);
      assert Grants(ts, cap, span) == g + [t.now];
    }
  }

  /** No stricter than announced: a refused call was preceded, within one span, by `cap` grants. */
  lemma RefusedMeansFull(ts: seq<Touch>, cap: nat, span: nat, now: int)
    requires Clocked(ts, now) && !Granted(Bucket(ts, cap, span), cap, span, now)
    ensures var g := Grants(ts, cap, span);
            |g| >= cap && forall i | |g| - cap <= i < |g| :: now - span <= g[i] <= now
  {
    BucketLaid(ts, cap, span, now);
    LaidHit(Grants(ts, cap, span), Bucket(ts, cap, span), cap, span, now);
  }

  // ---- runs ----

  datatype Ask = Ask(key: string, now: int)

  predicate Timed(es: seq<Ask>, until: int) {
    es == [] || (es[|es| - 1].now <= until && Timed(es[..|es| - 1], es[|es| - 1].now))
  }

  function After(c: Config, es: seq<Ask>): Limiter {
    if es == [] then NEW
    else
      var e := es[|es| - 1];
      Next(c, After(c, es[..|es| - 1]), e.key, e.now)
  }

  lemma ReclaimedSubset(keys: map<string, Window>, now: int)
    ensures |Reclaimed(keys, now)| <= |keys|
  {
    Subset(Reclaimed(keys, now).Keys, keys.Keys);
  }

  lemma {:induction false} Subset(a: set<string>, b: set<string>)
    requires a <= b
    ensures |a| <= |b|
  {
    if a != {} {
      var x :| x in a;
      Subset(a - {x}, b - {x});
    }
  }

  /** The map never holds more than its fixed number of keys. */
  lemma {:induction false} MapIsBounded(c: Config, es: seq<Ask>)
    ensures |After(c, es).keys| <= MAX_KEYS
    decreases |es|
  {
    if es != [] {
      var before, e := es[..|es| - 1], es[|es| - 1];
      MapIsBounded(c, before);
      ReclaimedSubset(After(c, before).keys, e.now);
    }
  }

  /** The touches of `key`'s window in a run. */
  function Touches(c: Config, es: seq<Ask>, key: string): seq<Touch> {
    if es == [] then []
    else
      var before, e := es[..|es| - 1], es[|es| - 1];
      var l := After(c, before);
      Touches(c, before, key) +
      (if Reclaims(c, l, e.key, e.now) then [Forget(e.now)] else []) +
      (if e.key == key && Tracks(c, l, key, e.now) then [Hit(e.now)] else [])
  }

  /** The touches of the overflow window in a run. */
  function Overflows(c: Config, es: seq<Ask>): seq<Touch> {
    if es == [] then []
    else
      var before, e := es[..|es| - 1], es[|es| - 1];
      Overflows(c, before) + (if Tracks(c, After(c, before), e.key, e.now) then [] else [Hit(e.now)])
  }

  /** When a call by `key` was let through on its own window. */
  function KeyGrants(c: Config, es: seq<Ask>, key: string): seq<int> {
    if es == [] then []
    else
      var before, e := es[..|es| - 1], es[|es| - 1];
      var l := After(c, before);
      KeyGrants(c, before, key) +
      (if e.key == key && Tracks(c, l, key, e.now) && Answer(c, l, key, e.now).allowed then [e.now] else [])
  }

  /** When a call was let through on the overflow window. */
  function OverflowGrants(c: Config, es: seq<Ask>): seq<int> {
    if es == [] then []
    else
      var before, e := es[..|es| - 1], es[|es| - 1];
      var l := After(c, before);
      OverflowGrants(c, before) +
      (if !Tracks(c, l, e.key, e.now) && Answer(c, l, e.key, e.now).allowed then [e.now] else [])
  }

  function WindowOf(l: Limiter, key: string): Option<Window> {
    if key in l.keys then Some(l.keys[key]) else None
  }

  lemma Snoc(ts: seq<Touch>, t: Touch, cap: nat, span: nat)
    ensures Bucket(ts + [t], cap, span) == Touched(Bucket(ts, cap, span), t, cap, span)
    ensures Grants(ts + [t], cap, span) == Grants(ts, cap, span) +
            (if t.Hit? && Granted(Bucket(ts, cap, span), cap, span, t.now) then [t.now] else [])
    ensures forall until | t.now <= until :: Clocked(ts, t.now) ==> Clocked(ts + [t], until)
  {
    assert (ts + [t])[..|ts|] == ts;
  }

  lemma {:induction false} ClockedLater(ts: seq<Touch>, a: int, b: int)
    requires Clocked(ts, a) && a <= b
    ensures Clocked(ts, b)
  {
  }

  lemma EmptyProjects(c: Config, key: string)
    ensures Bucket([], c.limit, c.window) == WindowOf(After(c, []), key)
    ensures Grants([], c.limit, c.window) == []
  {
  }

  lemma SweptWindow(c: Config, l: Limiter, e: Ask, key: string)
    ensures WindowOf(Swept(c, l, e.key, e.now), key) ==
            if Reclaims(c, l, e.key, e.now) then Touched(WindowOf(l, key), Forget(e.now), c.limit, c.window)
            else WindowOf(l, key)
  {
  }

  lemma NextWindow(c: Config, l: Limiter, e: Ask, key: string)
    requires c.limit >= 1
    ensures var w := WindowOf(Swept(c, l, e.key, e.now), key);
            var hit := e.key == key && Tracks(c, l, key, e.now);
            WindowOf(Next(c, l, e.key, e.now), key) ==
              (if hit then Touched(w, Hit(e.now), c.limit, c.window) else w) &&
            (hit ==> (Answer(c, l, key, e.now).allowed <==> Granted(w, c.limit, c.window, e.now)))
  {
  }

  /** A run acts on one key's window exactly as its touches do. */
  lemma {:induction false} KeyProjects(c: Config, es: seq<Ask>, key: string, now: int)
    requires c.limit >= 1 && Timed(es, now)
    ensures Clocked(Touches(c, es, key), now)
    ensures Bucket(Touches(c, es, key), c.limit, c.window) == WindowOf(After(c, es), key)
    ensures Grants(Touches(c, es, key), c.limit, c.window) == KeyGrants(c, es, key)
    decreases |es|
  {
    hide Swept, Next, Answer, Tracks, Reclaims, Touched, Granted, WindowOf, Bucket, Grants;
    if es == [] {
      EmptyProjects(c, key);
    } else {
      var before, e := es[..|es| - 1], es[|es| - 1];
      var l := After(c, before);
      SweptWindow(c, l, e, key);
      NextWindow(c, l, e, key);
      KeyProjects(c, before, key, e.now);
      var ts := Touches(c, before, key);
      ClockedLater(ts, e.now, now);
      if Reclaims(c, l, e.key, e.now) {
        Snoc(ts, Forget(e.now), c.limit, c.window);
        ts := ts + [Forget(e.now)];
      }
      assert Clocked(ts, e.now) && Clocked(ts, now);
      assert Bucket(ts, c.limit, c.window) == WindowOf(Swept(c, l, e.key, e.now), key);
      assert Grants(ts, c.limit, c.window) == KeyGrants(c, before, key);
      if e.key == key && Tracks(c, l, key, e.now) {
        Snoc(ts, Hit(e.now), c.limit, c.window);
        assert Touches(c, es, key) == ts + [Hit(e.now)];
      } else {
        assert Touches(c, es, key) == ts;
      }
    }
  }

  lemma {:induction false} OverflowProjects(c: Config, es: seq<Ask>, now: int)
    requires Timed(es, now)
    ensures Clocked(Overflows(c, es), now)
    ensures Bucket(Overflows(c, es), c.limit * MAX_KEYS, c.window) == After(c, es).overflow
    ensures Grants(Overflows(c, es), c.limit * MAX_KEYS, c.window) == OverflowGrants(c, es)
    decreases |es|
  {
    if es != [] {
      var before, e := es[..|es| - 1], es[|es| - 1];
      var l, ts := After(c, before), Overflows(c, before);
      OverflowProjects(c, before, e.now);
      ClockedLater(ts, e.now, now);
      if Tracks(c, l, e.key, e.now) {
        assert Overflows(c, es) == ts;
      } else {
        Snoc(ts, Hit(e.now), c.limit * MAX_KEYS, c.window);
        assert Overflows(c, es) == ts + [Hit(e.now)];
      }
    }
  }

  // ---- what the limiter promises ----

  /** A key is let through on its own window at most `2 * limit` times in any one window's length,
      and a tracked key is refused only after `limit` grants within the last window. */
  lemma KeyIsLimited(c: Config, es: seq<Ask>, key: string, now: int)
    requires c.limit >= 1 && Timed(es, now)
    ensures var g := KeyGrants(c, es, key);
            forall j | 0 <= j < |g| - 2 * c.limit :: g[j + 2 * c.limit] > g[j] + c.window
    ensures var g, l := KeyGrants(c, es, key), After(c, es);
            Tracks(c, l, key, now) && !Answer(c, l, key, now).allowed ==>
              |g| >= c.limit && forall i | |g| - c.limit <= i < |g| :: now - c.window <= g[i] <= now
  {
    var g, l := KeyGrants(c, es, key), After(c, es);
    var ts := Touches(c, es, key);
    KeyProjects(c, es, key, now);
    forall j | 0 <= j < |g| - 2 * c.limit ensures g[j + 2 * c.limit] > g[j] + c.window {
      TwiceTheCap(ts, c.limit, c.window, now, j);
    }
    if Tracks(c, l, key, now) && !Answer(c, l, key, now).allowed {
      RefusedMeansFull(ts, c.limit, c.window, now);
    }
  }

  lemma RefusedKey(c: Config, l: Limiter, key: string, now: int)
    requires c.limit >= 1 && Tracks(c, l, key, now) && !Answer(c, l, key, now).allowed
    ensures key in l.keys && key in Next(c, l, key, now).keys
    ensures var f := Refreshed(Some(l.keys[key]), c.window, now);
            && f.count >= c.limit && Next(c, l, key, now).keys[key] == f
            && Answer(c, l, key, now).retryAfter == f.resetAt - now >= 0
  {
    hide Reclaimed;
    SweepFindsNone(c, l, key, now);
  }

  /** A sweep is never made for a key that has a window, and gives no key one. */
  lemma SweepFindsNone(c: Config, l: Limiter, key: string, now: int)
    ensures key in Swept(c, l, key, now).keys <==> key in l.keys
    ensures key in l.keys ==> Swept(c, l, key, now) == l
  {
  }

  lemma FullKey(c: Config, l: Limiter, key: string, later: int)
    requires c.limit >= 1 && key in l.keys && l.keys[key].count >= c.limit
    ensures Answer(c, l, key, later).allowed <==> later > l.keys[key].resetAt
  {
  }

  /** A refused key is told exactly how long: it stays refused up to and including that moment,
      and is let through at any later one. */
  lemma RetryAfterIsExact(c: Config, es: seq<Ask>, key: string, now: int, later: int)
    requires c.limit >= 1 && Timed(es, now) && now <= later
    requires Tracks(c, After(c, es), key, now) && !Answer(c, After(c, es), key, now).allowed
    ensures var l := After(c, es);
            var v := Answer(c, l, key, now);
            0 <= v.retryAfter <= c.window &&
            (Answer(c, Next(c, l, key, now), key, later).allowed <==> later > now + v.retryAfter)
  {
    hide Answer, Next, Tracks, After, Touches, KeyGrants, Bucket, Grants;
    RefusedKey(c, After(c, es), key, now);
    FullKey(c, Next(c, After(c, es), key, now), key, later);
    KeyProjects(c, es, key, now);
    BucketLaid(Touches(c, es, key), c.limit, c.window, now);
  }

  lemma ExpiredLeave(keys: map<string, Window>, now: int)
    ensures |Reclaimed(keys, now)| < |keys| <==> exists k | k in keys :: keys[k].resetAt < now
  {
    var left := Reclaimed(keys, now);
    if k :| k in keys && keys[k].resetAt < now {
      Subset(left.Keys, keys.Keys - {k});
      assert keys.Keys == (keys.Keys - {k}) + {k};
    } else {
      assert left == keys;
    }
  }

  /** A caller gets a window of its own exactly when it has one, the map has room, or a scan is due
      and finds an expired key; a new window always lets its first call through. */
  lemma TracksExactly(c: Config, es: seq<Ask>, key: string, now: int)
    ensures var l := After(c, es);
            Tracks(c, l, key, now) <==>
            || key in l.keys
            || |l.keys| < MAX_KEYS
            || ((l.lastReclaim.None? || l.lastReclaim.value + c.window <= now) && exists k | k in l.keys :: l.keys[k].resetAt < now)
    ensures var l := After(c, es);
            key !in l.keys && Tracks(c, l, key, now) ==>
              Answer(c, l, key, now).allowed && key in Next(c, l, key, now).keys && Next(c, l, key, now).keys[key] == Window(1, now + c.window)
  {
    hide After;
    MapIsBounded(c, es);
    SweepFindsNone(c, After(c, es), key, now);
    ExpiredLeave(After(c, es).keys, now);
  }

  /** Callers without a window of their own share one that lets at most `limit * 10 000` of them
      through before it ends, and the next begins more than a window after it did. */
  lemma OverflowIsLimited(c: Config, es: seq<Ask>, now: int)
    requires Timed(es, now)
    ensures var g, cap := OverflowGrants(c, es), c.limit * MAX_KEYS;
            forall j | 0 <= j < |g| - 2 * cap :: g[j + 2 * cap] > g[j] + c.window
    ensures Laid(OverflowGrants(c, es), After(c, es).overflow, c.limit * MAX_KEYS, c.window, now)
    ensures forall key |
              !Tracks(c, After(c, es), key, now) && !Answer(c, After(c, es), key, now).allowed ::
              var g, cap := OverflowGrants(c, es), c.limit * MAX_KEYS;
              |g| >= cap && forall i | |g| - cap <= i < |g| :: now - c.window <= g[i] <= now
  {
    var g, cap := OverflowGrants(c, es), c.limit * MAX_KEYS;
    OverflowProjects(c, es, now);
    BucketLaid(Overflows(c, es), cap, c.window, now);
    forall j | 0 <= j < |g| - 2 * cap ensures g[j + 2 * cap] > g[j] + c.window {
      TwiceTheCap(Overflows(c, es), cap, c.window, now, j);
    }
  }

  // ---- saturation and reclaiming ----

  lemma {:induction false} OverflowIsUsed(c: Config, es: seq<Ask>)
    requires c.limit >= 1
    ensures After(c, es).overflow.Some? ==> After(c, es).overflow.value.count >= 1
    decreases |es|
  {
    if es != [] {
      OverflowIsUsed(c, es[..|es| - 1]);
    }
  }

  /** Saturation is reported by the calls that begin an overflow window, and by no others. */
  lemma SaturatedExactly(c: Config, es: seq<Ask>, key: string, now: int)
    requires c.limit >= 1
    ensures var l := After(c, es);
            Answer(c, l, key, now).saturated <==> !Tracks(c, l, key, now) && Expired(l.overflow, now)
  {
    OverflowIsUsed(c, es);
  }

  /** When the expired keys were reclaimed. */
  function Sweeps(c: Config, es: seq<Ask>): seq<int> {
    if es == [] then []
    else
      var before, e := es[..|es| - 1], es[|es| - 1];
      Sweeps(c, before) + (if Reclaims(c, After(c, before), e.key, e.now) then [e.now] else [])
  }

  /** The full scan of the map runs at most once per window. */
  lemma {:induction false} SweepsApart(c: Config, es: seq<Ask>)
    ensures var r := Sweeps(c, es);
            After(c, es).lastReclaim == (if r == [] then None else Some(r[|r| - 1])) &&
            forall i | 0 <= i < |r| - 1 :: r[i + 1] - r[i] >= c.window
    decreases |es|
  {
    if es != [] {
      SweepsApart(c, es[..|es| - 1]);
    }
  }

  /** When saturation was reported. */
  function Alarms(c: Config, es: seq<Ask>): seq<int> {
    if es == [] then []
    else
      var before, e := es[..|es| - 1], es[|es| - 1];
      Alarms(c, before) + (if Answer(c, After(c, before), e.key, e.now).saturated then [e.now] else [])
  }

  /** Reports of saturation are more than a window apart, and the last one is when the current
      overflow window began. */
  lemma {:induction false} AlarmsApart(c: Config, es: seq<Ask>)
    requires c.limit >= 1
    ensures var a, w := Alarms(c, es), After(c, es).overflow;
            (w.None? <==> a == []) && (w.Some? ==> w.value.resetAt == a[|a| - 1] + c.window) &&
            forall i | 0 <= i < |a| - 1 :: a[i + 1] > a[i] + c.window
    decreases |es|
  {
    if es != [] {
      var before, e := es[..|es| - 1], es[|es| - 1];
      AlarmsApart(c, before);
      SaturatedExactly(c, before, e.key, e.now);
    }
  }
}
