/** The in-memory fixed-window rate limiter. Times are readings of one monotonic clock. */
module RateLimiter {
  import opened Basics

  datatype Entry = Entry(windowStart: int, count: nat)

  /** One attempt: the clock as read on entry, and as read again if the entry has to be created. */
  datatype Attempt = Attempt(now: int, created: int)

  /** What one attempt makes of its key's entry. */
  function Touch(window: int, entry: Option<Entry>, a: Attempt): Entry {
    var e := if entry.Some? then entry.value else Entry(a.created, 0);
    if a.now - e.windowStart > window then Entry(a.now, 1) else Entry(e.windowStart, e.count + 1)
  }

  predicate Within(maxAttempts: int, e: Entry) {
    e.count <= maxAttempts
  }

  function EntryOf(entries: map<string, Entry>, key: string): Option<Entry> {
    if key in entries then Some(entries[key]) else None
  }

  class Limiter {
    const maxAttempts: int
    const window: int
    var attempts: map<string, Entry>

    constructor (maxAttempts: int, window: int)
      ensures this.maxAttempts == maxAttempts && this.window == window && attempts == map[]
    {
      this.maxAttempts := maxAttempts;
      this.window := window;
      attempts := map[];
    }

    /** Records the attempt, allowed or not, and says whether it is within the limit. */
    method Allow(key: string, a: Attempt) returns (allowed: bool)
      modifies this
      ensures attempts == old(attempts)[key := Touch(window, EntryOf(old(attempts), key), a)]
      ensures allowed == Within(maxAttempts, attempts[key])
    {
      var entry := if key in attempts then attempts[key] else Entry(a.created, 0);
      if a.now - entry.windowStart > window {
        entry := Entry(a.now, 0);
      }
      entry := entry.(count := entry.count + 1);
      attempts := attempts[key := entry];
      allowed := entry.count <= maxAttempts;
    }
  }

  // ---- one key over time ----

  /** The key's entry after all of these attempts. */
  function After(window: int, s: seq<Attempt>): Option<Entry> {
    if s == [] then None else Some(Touch(window, After(window, s[..|s| - 1]), s[|s| - 1]))
  }

  /** How many of the attempts made at a time in [a, b] were allowed. */
  function AllowedIn(maxAttempts: int, window: int, s: seq<Attempt>, a: int, b: int): nat {
    if s == [] then 0
    else
      AllowedIn(maxAttempts, window, s[..|s| - 1], a, b)
      + (if a <= s[|s| - 1].now <= b && Within(maxAttempts, After(window, s).value) then 1 else 0)
  }

  /** An entry is created no earlier than the attempt that needs it, and no attempt is counted after
      one made more than d later: the clock is read before the lock is taken, so attempts can overtake
      each other in between. */
  predicate Ordered(s: seq<Attempt>, d: nat) {
    && (forall i :: 0 <= i < |s| ==> s[i].now <= s[i].created)
    && (forall i, j :: 0 <= i < j < |s| ==> s[i].now <= s[j].now + d)
  }

  function Min(a: int, b: int): int {
    if a < b then a else b
  }

  /** All n attempts allowed in [a, b] so far are in the current window, its first attempt among them
      only if the window starts in the interval. */
  predicate InOneWindow(maxAttempts: int, window: int, e: Entry, n: nat, a: int) {
    && n <= Min(e.count, maxAttempts)
    && (n > 0 ==> a <= e.windowStart + window)
    && (n > 0 && n == Min(e.count, maxAttempts) ==> a <= e.windowStart)
  }

  /** Some are in the window before: then that one's first attempt or the current one's is missing. */
  predicate InTwoWindows(maxAttempts: int, e: Entry, n: nat, a: int) {
    e.windowStart > a && n <= maxAttempts - 1 + Min(e.count, maxAttempts)
  }

  /** A third window has started, so late that no attempt still to come is in the interval. */
  predicate IntervalOver(maxAttempts: int, s: seq<Attempt>, n: nat, b: int) {
    n <= 2 * maxAttempts - 1 && exists i :: 0 <= i < |s| && s[i].now > b + 1
  }

  predicate Tally(maxAttempts: int, window: int, s: seq<Attempt>, e: Entry, n: nat, a: int, b: int) {
    InOneWindow(maxAttempts, window, e, n, a) || InTwoWindows(maxAttempts, e, n, a) || IntervalOver(maxAttempts, s, n, b)
  }

  /** The attempt x counted after s, as far as the tally is concerned. */
  lemma TallyStep(maxAttempts: int, window: int, s: seq<Attempt>, e: Entry, n: nat, a: int, b: int, x: Attempt)
    requires maxAttempts >= 1 && a <= b <= a + window && e.count >= 1
    requires forall i :: 0 <= i < |s| ==> s[i].now <= x.now + 1
    requires Tally(maxAttempts, window, s, e, n, a, b)
    ensures var e' := Touch(window, Some(e), x);
      var n' := n + if a <= x.now <= b && Within(maxAttempts, e') then 1 else 0;
      Tally(maxAttempts, window, s + [x], e', n', a, b)
  {
    var t := s + [x];
    assert t[|s|] == x;
    if IntervalOver(maxAttempts, s, n, b) {
      var i :| 0 <= i < |s| && s[i].now > b + 1;
      assert t[i] == s[i];
    }
  }

  lemma FrontOrdered(s: seq<Attempt>, d: nat, x: Attempt)
    requires Ordered(s + [x], d)
    ensures Ordered(s, d) && x.now <= x.created && forall i :: 0 <= i < |s| ==> s[i].now <= x.now + d
  {
    var t := s + [x];
    assert t[|s|] == x;
    forall i | 0 <= i < |s| ensures t[i] == s[i] {}
  }

  lemma TallyStart(maxAttempts: int, window: int, x: Attempt, a: int, b: int)
    requires maxAttempts >= 1 && a <= b <= a + window && x.now <= x.created
    ensures After(window, [x]) == Some(Entry(x.created, 1))
    ensures Tally(maxAttempts, window, [x], Entry(x.created, 1), AllowedIn(maxAttempts, window, [x], a, b), a, b)
  {
    assert [] + [x] == [x];
    Push(maxAttempts, window, [], x, a, b);
  }

  /** The tally of a history, stated of its entry and its count. */
  ghost predicate Tallied(maxAttempts: int, window: int, s: seq<Attempt>, a: int, b: int) {
    var e := After(window, s);
    e.Some? && e.value.count >= 1 && Tally(maxAttempts, window, s, e.value, AllowedIn(maxAttempts, window, s, a, b), a, b)
  }

  lemma TalliedNext(maxAttempts: int, window: int, s: seq<Attempt>, a: int, b: int, x: Attempt)
    requires maxAttempts >= 1 && a <= b <= a + window && forall i :: 0 <= i < |s| ==> s[i].now <= x.now + 1
    requires Tallied(maxAttempts, window, s, a, b)
    ensures Tallied(maxAttempts, window, s + [x], a, b)
  {
    var e, n := After(window, s).value, AllowedIn(maxAttempts, window, s, a, b);
    TallyStep(maxAttempts, window, s, e, n, a, b, x);
    Push(maxAttempts, window, s, x, a, b);
  }

  lemma {:induction false} TallyHolds(maxAttempts: int, window: int, s: seq<Attempt>, a: int, b: int)
    requires maxAttempts >= 1 && Ordered(s, 1) && a <= b <= a + window && s != []
    ensures Tallied(maxAttempts, window, s, a, b)
  {
    var front, last := s[..|s| - 1], s[|s| - 1];
    assert s == front + [last];
    FrontOrdered(front, 1, last);
    if front == [] {
      TallyStart(maxAttempts, window, last, a, b);
    } else {
      TallyHolds(maxAttempts, window, front, a, b);
      TalliedNext(maxAttempts, window, front, a, b, last);
    }
  }

  /** In no interval as long as the window or shorter are more than 2 * maxAttempts - 1 of a key's
      attempts allowed (none, if maxAttempts is not positive), wherever the windows fall and even if
      attempts overtake each other by one tick. */
  lemma AtMostTwiceTheLimit(maxAttempts: int, window: int, s: seq<Attempt>, a: int, b: int)
    requires Ordered(s, 1) && b <= a + window
    ensures AllowedIn(maxAttempts, window, s, a, b) <= Max(2 * maxAttempts - 1, 0)
  {
    if maxAttempts <= 0 {
      NoneAllowed(maxAttempts, window, s, a, b);
    } else if a > b {
      NoneBetween(maxAttempts, window, s, a, b);
    } else if s != [] {
      TallyHolds(maxAttempts, window, s, a, b);
    }
  }

  lemma {:induction false} NoneAllowed(maxAttempts: int, window: int, s: seq<Attempt>, a: int, b: int)
    requires maxAttempts <= 0
    ensures AllowedIn(maxAttempts, window, s, a, b) == 0
  {
    if s != [] { NoneAllowed(maxAttempts, window, s[..|s| - 1], a, b); }
  }

  lemma {:induction false} NoneBetween(maxAttempts: int, window: int, s: seq<Attempt>, a: int, b: int)
    requires a > b
    ensures AllowedIn(maxAttempts, window, s, a, b) == 0
  {
    if s != [] { NoneBetween(maxAttempts, window, s[..|s| - 1], a, b); }
  }

  // ---- the bound is attained ----

  /** One attempt at 0, the rest of a window's worth at its very end, a full one right after it. */
  function Burst(maxAttempts: nat, window: nat, n: nat): seq<Attempt>
    requires maxAttempts >= 1
  {
    seq(n, i => if i == 0 then Attempt(0, 0)
                else if i < maxAttempts then Attempt(window, window)
                else Attempt(window + 1, window + 1))
  }

  lemma {:induction false} BurstRuns(maxAttempts: nat, window: nat, n: nat)
    requires maxAttempts >= 1 && 1 <= n <= 2 * maxAttempts
    requires window >= 1
    ensures After(window, Burst(maxAttempts, window, n)) ==
            Some(if n <= maxAttempts then Entry(0, n) else Entry(window + 1, n - maxAttempts))
    ensures AllowedIn(maxAttempts, window, Burst(maxAttempts, window, n), window, window + 1) == n - 1
  {
    var s := Burst(maxAttempts, window, n);
    assert s[..n - 1] == Burst(maxAttempts, window, n - 1);
    if n > 1 {
      BurstRuns(maxAttempts, window, n - 1);
    } else {
      assert s[..0] == [];
    }
  }

  /** The limit cannot be lowered: for every positive limit and window some attempts in order have
      2 * maxAttempts - 1 allowed inside one tick. */
  lemma TwiceTheLimitIsReached(maxAttempts: nat, window: nat)
    requires maxAttempts >= 1 && window >= 1
    ensures exists s :: Ordered(s, 0) && AllowedIn(maxAttempts, window, s, window, window + 1) == 2 * maxAttempts - 1
  {
    var s := Burst(maxAttempts, window, 2 * maxAttempts);
    BurstRuns(maxAttempts, window, 2 * maxAttempts);
    assert Ordered(s, 0);
  }

  lemma Push(maxAttempts: int, window: int, s: seq<Attempt>, x: Attempt, a: int, b: int)
    ensures After(window, s + [x]) == Some(Touch(window, After(window, s), x))
    ensures AllowedIn(maxAttempts, window, s + [x], a, b) == AllowedIn(maxAttempts, window, s, a, b)
              + if a <= x.now <= b && Within(maxAttempts, Touch(window, After(window, s), x)) then 1 else 0
  {
    assert (s + [x])[..|s|] == s;
  }

  // ---- how far out of order attempts may be ----

  /** The bound holds for every key's attempts that overtake each other by at most d ticks. */
  ghost predicate BoundHolds(maxAttempts: int, window: int, d: nat) {
    forall s, a, b :: Ordered(s, d) && b <= a + window ==>
      AllowedIn(maxAttempts, window, s, a, b) <= Max(2 * maxAttempts - 1, 0)
  }

  /** Under a limit of one only the attempts that start a window are allowed, and those are more than a
      window apart in whatever order the others come. */
  lemma {:induction false} OneAtATime(window: int, s: seq<Attempt>, a: int, b: int)
    requires a <= b <= a + window && s != [] && forall i :: 0 <= i < |s| ==> s[i].now <= s[i].created
    ensures After(window, s).value.count >= 1 && AllowedIn(1, window, s, a, b) <= 1
    ensures AllowedIn(1, window, s, a, b) == 1 ==> a <= After(window, s).value.windowStart
  {
    var front := s[..|s| - 1];
    if front != [] { OneAtATime(window, front, a, b); }
  }

  function Many(t: int, n: nat): seq<Attempt> {
    seq(n, _ => Attempt(t, t))
  }

  /** These attempts, none later than m and in order up to d, leave entry e and n allowed in [a, b]. */
  predicate Leaves(maxAttempts: int, window: int, s: seq<Attempt>, d: nat, m: int, e: Entry, n: nat, a: int, b: int) {
    && s != [] && Ordered(s, d) && (forall i :: 0 <= i < |s| ==> s[i].now <= m)
    && After(window, s) == Some(e) && AllowedIn(maxAttempts, window, s, a, b) == n
  }

  function Counted(t: int, n: nat, a: int, b: int): nat {
    if a <= t <= b then n else 0
  }

  /** One more at time t, within the window and the limit. */
  lemma Again(maxAttempts: int, window: int, s: seq<Attempt>, d: nat, m: int, e: Entry, n: nat, a: int, b: int, t: int)
    requires Leaves(maxAttempts, window, s, d, m, e, n, a, b)
    requires t - e.windowStart <= window && e.count + 1 <= maxAttempts && m <= t + d
    ensures Leaves(maxAttempts, window, s + [Attempt(t, t)], d, Max(m, t), Entry(e.windowStart, e.count + 1),
                   n + Counted(t, 1, a, b), a, b)
  {
    Push(maxAttempts, window, s, Attempt(t, t), a, b);
  }

  lemma ManyMore(s: seq<Attempt>, t: int, k: nat)
    requires k > 0
    ensures s + Many(t, k) == s + Many(t, k - 1) + [Attempt(t, t)]
  {
    assert Many(t, k) == Many(t, k - 1) + [Attempt(t, t)];
  }

  /** k more. */
  lemma {:induction false} Stay(maxAttempts: int, window: int, s: seq<Attempt>, d: nat, m: int, e: Entry, n: nat, a: int, b: int,
                                t: int, k: nat)
    requires Leaves(maxAttempts, window, s, d, m, e, n, a, b)
    requires t - e.windowStart <= window && e.count + k <= maxAttempts && m <= t + d
    ensures Leaves(maxAttempts, window, s + Many(t, k), d, Max(m, t), Entry(e.windowStart, e.count + k),
                   n + Counted(t, k, a, b), a, b)
  {
    if k == 0 {
      assert s + Many(t, 0) == s;
      LaterBound(maxAttempts, window, s, d, m, Max(m, t), e, n, a, b);
    } else {
      Stay(maxAttempts, window, s, d, m, e, n, a, b, t, k - 1);
      ManyMore(s, t, k);
      Again(maxAttempts, window, s + Many(t, k - 1), d, Max(m, t), Entry(e.windowStart, e.count + k - 1),
            n + Counted(t, k - 1, a, b), a, b, t);
    }
  }

  lemma LaterBound(maxAttempts: int, window: int, s: seq<Attempt>, d: nat, m: int, m': int, e: Entry, n: nat, a: int, b: int)
    requires Leaves(maxAttempts, window, s, d, m, e, n, a, b) && m <= m'
    ensures Leaves(maxAttempts, window, s, d, m', e, n, a, b)
  {
  }

  /** One attempt late enough to start a new window. */
  lemma Renew(maxAttempts: int, window: int, s: seq<Attempt>, d: nat, m: int, e: Entry, n: nat, a: int, b: int, t: int)
    requires Leaves(maxAttempts, window, s, d, m, e, n, a, b)
    requires t - e.windowStart > window && maxAttempts >= 1 && m <= t + d
    ensures Leaves(maxAttempts, window, s + [Attempt(t, t)], d, Max(m, t), Entry(t, 1), n + Counted(t, 1, a, b), a, b)
  {
    Push(maxAttempts, window, s, Attempt(t, t), a, b);
  }

  lemma StartAtZero(maxAttempts: int, window: nat, d: nat, a: int, b: int)
    requires maxAttempts >= 1
    ensures Leaves(maxAttempts, window, [Attempt(0, 0)], d, 0, Entry(0, 1), Counted(0, 1, a, b), a, b)
  {
    Push(maxAttempts, window, [], Attempt(0, 0), a, b);
    assert [] + [Attempt(0, 0)] == [Attempt(0, 0)];
  }

  /** All but one of a window at its very end. */
  function FirstWindow(maxAttempts: int, window: nat): seq<Attempt>
    requires maxAttempts >= 1
  {
    [Attempt(0, 0)] + Many(window, maxAttempts - 1)
  }

  lemma FirstWindowLeaves(k: int, w: nat)
    requires k >= 1 && w >= 1
    ensures Leaves(k, w, FirstWindow(k, w), 2, w, Entry(0, k), k - 1, w, 2 * w)
  {
    StartAtZero(k, w, 2, w, 2 * w);
    Stay(k, w, [Attempt(0, 0)], 2, 0, Entry(0, 1), 0, w, 2 * w, w, k - 1);
  }

  /** The next one started right after it. */
  function SecondStarted(maxAttempts: int, window: nat): seq<Attempt>
    requires maxAttempts >= 1
  {
    FirstWindow(maxAttempts, window) + [Attempt(window + 1, window + 1)]
  }

  lemma SecondStartedLeaves(k: int, w: nat)
    requires k >= 1 && w >= 1
    ensures Leaves(k, w, SecondStarted(k, w), 2, w + 1, Entry(w + 1, 1), k, w, 2 * w)
  {
    FirstWindowLeaves(k, w);
    Renew(k, w, FirstWindow(k, w), 2, w, Entry(0, k), k - 1, w, 2 * w, w + 1);
  }

  /** And filled. */
  function TwoWindows(maxAttempts: int, window: nat): seq<Attempt>
    requires maxAttempts >= 1
  {
    SecondStarted(maxAttempts, window) + Many(window + 1, maxAttempts - 1)
  }

  lemma TwoWindowsLeave(k: int, w: nat)
    requires k >= 1 && w >= 1
    ensures Leaves(k, w, TwoWindows(k, w), 2, w + 1, Entry(w + 1, k), 2 * k - 1, w, 2 * w)
  {
    SecondStartedLeaves(k, w);
    Stay(k, w, SecondStarted(k, w), 2, w + 1, Entry(w + 1, 1), k, w, 2 * w, w + 1, k - 1);
  }

  /** After that, one attempt that a third window's first has overtaken by two ticks. */
  lemma TwoTicksBreakIt(maxAttempts: int, window: nat)
    requires maxAttempts >= 2 && window >= 1
    ensures exists s :: Ordered(s, 2) && AllowedIn(maxAttempts, window, s, window, 2 * window) == 2 * maxAttempts
  {
    var a, b, w, k := window, 2 * window, window, maxAttempts;
    TwoWindowsLeave(k, w);
    var s := TwoWindows(k, w);
    Renew(k, w, s, 2, w + 1, Entry(w + 1, k), 2 * k - 1, a, b, 2 * w + 2);
    s := s + [Attempt(2 * w + 2, 2 * w + 2)];
    Stay(k, w, s, 2, 2 * w + 2, Entry(2 * w + 2, 1), 2 * k - 1, a, b, 2 * w, 1);
  }

  /** With a window of no length: a full one at time 0, and the next one started. */
  function Full(maxAttempts: int): seq<Attempt>
    requires maxAttempts >= 1
  {
    [Attempt(0, 0)] + Many(0, maxAttempts - 1)
  }

  lemma FullLeaves(k: int)
    requires k >= 1
    ensures Leaves(k, 0, Full(k), 2, 0, Entry(0, k), k, 0, 0)
  {
    StartAtZero(k, 0, 2, 0, 0);
    Stay(k, 0, [Attempt(0, 0)], 2, 0, Entry(0, 1), 1, 0, 0, 0, k - 1);
  }

  /** And all but one of the next still at 0. */
  function Straddling(maxAttempts: int): seq<Attempt>
    requires maxAttempts >= 1
  {
    Full(maxAttempts) + [Attempt(1, 1)] + Many(0, maxAttempts - 1)
  }

  lemma StraddlingLeaves(k: int)
    requires k >= 1
    ensures Leaves(k, 0, Straddling(k), 2, 1, Entry(1, k), 2 * k - 1, 0, 0)
  {
    FullLeaves(k);
    Renew(k, 0, Full(k), 2, 0, Entry(0, k), k, 0, 0, 1);
    Stay(k, 0, Full(k) + [Attempt(1, 1)], 2, 1, Entry(1, 1), k, 0, 0, 0, k - 1);
  }

  /** Then again one attempt overtaken by two ticks. */
  lemma TwoTicksBreakNoWindow(maxAttempts: int)
    requires maxAttempts >= 2
    ensures exists s :: Ordered(s, 2) && AllowedIn(maxAttempts, 0, s, 0, 0) == 2 * maxAttempts
  {
    var k, s := maxAttempts, Straddling(maxAttempts);
    StraddlingLeaves(k);
    Renew(k, 0, s, 2, 1, Entry(1, k), 2 * k - 1, 0, 0, 2);
    s := s + [Attempt(2, 2)];
    Stay(k, 0, s, 2, 2, Entry(2, 1), 2 * k - 1, 0, 0, 0, 1);
  }

  lemma OrderedMore(s: seq<Attempt>, d: nat, d': nat)
    requires Ordered(s, d) && d <= d'
    ensures Ordered(s, d')
  {
  }

  lemma BoundHoldsFor(maxAttempts: int, window: int, d: nat, s: seq<Attempt>, a: int, b: int)
    requires maxAttempts <= 1 || d <= 1 || window < 0
    requires Ordered(s, d) && b <= a + window
    ensures AllowedIn(maxAttempts, window, s, a, b) <= Max(2 * maxAttempts - 1, 0)
  {
    if a > b {
      NoneBetween(maxAttempts, window, s, a, b);
    } else if maxAttempts <= 0 {
      NoneAllowed(maxAttempts, window, s, a, b);
    } else if d <= 1 {
      OrderedMore(s, d, 1);
      AtMostTwiceTheLimit(maxAttempts, window, s, a, b);
    } else if s != [] {
      OneAtATime(window, s, a, b);
    }
  }

  /** Exactly how much disorder the bound stands: for a limit of two or more, attempts counted up to one
      tick out of order; from two ticks on it fails for every such limit and every window. */
  lemma DisorderThreshold(maxAttempts: int, window: int, d: nat)
    ensures BoundHolds(maxAttempts, window, d) <==> maxAttempts <= 1 || d <= 1 || window < 0
  {
    if maxAttempts <= 1 || d <= 1 || window < 0 {
      forall s, a, b | Ordered(s, d) && b <= a + window
        ensures AllowedIn(maxAttempts, window, s, a, b) <= Max(2 * maxAttempts - 1, 0)
      {
        BoundHoldsFor(maxAttempts, window, d, s, a, b);
      }
    } else {
      if window == 0 { TwoTicksBreakNoWindow(maxAttempts); } else { TwoTicksBreakIt(maxAttempts, window); }
      var s :| Ordered(s, 2) && AllowedIn(maxAttempts, window, s, window, 2 * window) == 2 * maxAttempts;
      OrderedMore(s, 2, d);
    }
  }

  // ---- keys are independent ----

  datatype Call = Call(key: string, attempt: Attempt)

  /** The whole table after these calls, as Limiter.Allow leaves it. */
  function TableAfter(window: int, calls: seq<Call>): map<string, Entry> {
    if calls == [] then map[]
    else
      var front, last := TableAfter(window, calls[..|calls| - 1]), calls[|calls| - 1];
      front[last.key := Touch(window, EntryOf(front, last.key), last.attempt)]
  }

  function OnlyFor(calls: seq<Call>, key: string): seq<Attempt> {
    if calls == [] then []
    else
      var front, last := OnlyFor(calls[..|calls| - 1], key), calls[|calls| - 1];
      if last.key == key then front + [last.attempt] else front
  }

  /** A key's entry, and with it every verdict on the key, depends on that key's attempts alone. */
  lemma {:induction false} KeysAreIndependent(window: int, calls: seq<Call>, key: string)
    ensures EntryOf(TableAfter(window, calls), key) == After(window, OnlyFor(calls, key))
  {
    if calls != [] {
      var front, last := calls[..|calls| - 1], calls[|calls| - 1];
      KeysAreIndependent(window, front, key);
      if last.key == key {
        assert OnlyFor(calls, key)[..|OnlyFor(calls, key)| - 1] == OnlyFor(front, key);
      }
    }
  }
}
