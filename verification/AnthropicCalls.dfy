/** Calling the provider: retries with backoff, the single rescan, and the startup check that a call
    cannot outlive the reclaim window. Times are in seconds. */
module AnthropicCalls {
  import opened Basics
  import opened AnthropicReply

  /** The retry-after header: none, not a number (an HTTP date), or a number of seconds. */
  datatype RetryAfter = NoHeader | NotANumber | Seconds(value: real)

  datatype Response = Broken | Answered(status: int, retryAfter: RetryAfter, reply: Reply)

  /** One attempt as the network will have it: how long it takes, and what comes back. */
  datatype Attempt = Attempt(duration: real, response: Response)

  /** The network's behaviour towards one send: what attempt n meets. */
  type Network = nat -> Attempt

  ghost predicate Timed(net: Network, timeout: real) {
    forall n: nat :: 0.0 <= net(n).duration <= timeout
  }

  datatype Sent = Body(reply: Reply) | Refused | Unreachable

  predicate Retryable(status: int) {
    status == 408 || status == 429 || status >= 500
  }

  predicate Retryworthy(r: Response) {
    r.Answered? && r.status != 200 && Retryable(r.status)
  }

  function Pow2(n: nat): nat {
    if n == 0 then 1 else 2 * Pow2(n - 1)
  }

  function Clamp(x: real, low: real, high: real): real
    requires low <= high
  {
    if x < low then low else if x > high then high else x
  }

  /** The pause after attempt n: the server's wish within half a minute, otherwise 2, 4, 8... seconds. */
  function Pause(r: Response, n: nat): real {
    if r.Answered? && r.retryAfter.Seconds? then Clamp(r.retryAfter.value, 0.0, 30.0) else Pow2(n + 1) as real
  }

  /** Time taken by the first n attempts and the pauses after them. */
  function TimeBefore(net: Network, n: nat): real {
    if n == 0 then 0.0 else TimeBefore(net, n - 1) + net(n - 1).duration + Pause(net(n - 1).response, n - 1)
  }

  // ---- send ----

  /** Send stops at attempt n: the first not worth retrying, or the last one allowed. */
  ghost predicate StopsAt(net: Network, maxRetries: int, n: nat) {
    && (forall a: nat :: a < n ==> Retryworthy(net(a).response))
    && (n == 0 || n <= maxRetries)
    && (!Retryworthy(net(n).response) || n >= maxRetries)
  }

  function OutcomeOf(r: Response): Sent {
    if r.Broken? then Unreachable
    else if r.status == 200 then Body(r.reply)
    else if Retryable(r.status) then Unreachable
    else Refused
  }

  /** What a send that stops at attempt n returns, and how long it takes. */
  ghost predicate Sends(net: Network, maxRetries: int, n: nat, sent: Sent, elapsed: real) {
    StopsAt(net, maxRetries, n) && sent == OutcomeOf(net(n).response) && elapsed == SendTime(net, n)
  }

  method Send(net: Network, maxRetries: int) returns (sent: Sent, elapsed: real)
    ensures exists n: nat :: Sends(net, maxRetries, n, sent, elapsed)
  {
    var attempt: nat := 0;
    elapsed := 0.0;
    while true
      invariant forall a: nat :: a < attempt ==> Retryworthy(net(a).response)
      invariant attempt == 0 || attempt <= maxRetries
      invariant elapsed == TimeBefore(net, attempt)
      decreases maxRetries - attempt
    {
      var response := net(attempt).response;
      elapsed := elapsed + net(attempt).duration;
      if response.Broken? {
        assert Sends(net, maxRetries, attempt, Unreachable, elapsed);
        return Unreachable, elapsed;
      }
      if response.status == 200 {
        assert Sends(net, maxRetries, attempt, Body(response.reply), elapsed);
        return Body(response.reply), elapsed;
      }
      if !Retryable(response.status) {
        assert Sends(net, maxRetries, attempt, Refused, elapsed);
        return Refused, elapsed;
      }
      if attempt >= maxRetries {
        assert Sends(net, maxRetries, attempt, Unreachable, elapsed);
        return Unreachable, elapsed;
      }
      var delay := Pow2(attempt + 1) as real;
      if response.retryAfter.Seconds? {
        delay := Clamp(response.retryAfter.value, 0.0, 30.0);
      }
      elapsed := elapsed + delay;
      attempt := attempt + 1;
    }
  }

  /** A receipt is blamed (its scan_attempts spent) exactly for an answer below 500 that is not 200, 408 or
      429; a broken connection, an overload or an outage never counts against it. Every attempt before the
      last was answered with an overload or an outage, and the last one also, unless the answer is final
      or the retries are used up. */
  lemma OnlyFinalAnswersAreRefused(net: Network, maxRetries: int, n: nat)
    requires StopsAt(net, maxRetries, n)
    ensures OutcomeOf(net(n).response) == Refused <==>
            && net(n).response.Answered? && net(n).response.status < 500
            && net(n).response.status != 200 && net(n).response.status != 408 && net(n).response.status != 429
    ensures OutcomeOf(net(n).response) == Unreachable <==>
            || net(n).response.Broken?
            || net(n).response.status == 408 || net(n).response.status == 429 || net(n).response.status >= 500
    ensures OutcomeOf(net(n).response).Body? <==> net(n).response.Answered? && net(n).response.status == 200
    ensures OutcomeOf(net(n).response).Body? ==> OutcomeOf(net(n).response).reply == net(n).response.reply
    ensures forall m: nat :: m < n ==>
      && net(m).response.Answered?
      && (net(m).response.status == 408 || net(m).response.status == 429 || net(m).response.status >= 500)
    ensures net(n).response.Answered?
            && (net(n).response.status == 408 || net(n).response.status == 429 || net(n).response.status >= 500)
            ==> n >= maxRetries
    ensures n == 0 || n <= maxRetries
    ensures forall m: nat :: StopsAt(net, maxRetries, m) ==> m == n
  {
    forall m: nat | m < n
      ensures net(m).response.Answered?
      ensures net(m).response.status == 408 || net(m).response.status == 429 || net(m).response.status >= 500
    {
      assert Retryworthy(net(m).response);
    }
    forall m: nat | StopsAt(net, maxRetries, m) ensures m == n {
      StopsOnce(net, maxRetries, m, n);
      StopsOnce(net, maxRetries, n, m);
    }
  }

  /** Where the first of the attempts stops: any attempt at which these statuses allow it. */
  lemma StopMeaning(net: Network, maxRetries: int, n: nat)
    ensures StopsAt(net, maxRetries, n) <==>
            && (forall m: nat :: m < n ==>
                  && net(m).response.Answered?
                  && (net(m).response.status == 408 || net(m).response.status == 429 || net(m).response.status >= 500))
            && (n == 0 || n <= maxRetries)
            && (n >= maxRetries || net(n).response.Broken?
                || (net(n).response.status < 500 && net(n).response.status != 408 && net(n).response.status != 429))
  {
    forall m: nat
      ensures Retryworthy(net(m).response) <==>
              && net(m).response.Answered?
              && (net(m).response.status == 408 || net(m).response.status == 429 || net(m).response.status >= 500)
    {
    }
  }

  /** The pause after an overload: the seconds the server asks for, between none and thirty, or else 2, 4,
      8 and so on. */
  lemma PauseMeaning(r: Response, n: nat)
    ensures r.Answered? && r.retryAfter.Seconds? ==>
            Pause(r, n) == (if r.retryAfter.value < 0.0 then 0.0 else if r.retryAfter.value > 30.0 then 30.0 else r.retryAfter.value)
    ensures !(r.Answered? && r.retryAfter.Seconds?) ==>
            Pause(r, 0) == 2.0 && Pause(r, 1) == 4.0 && Pause(r, n + 1) == 2.0 * Pause(r, n)
  {
    assert Pow2(1) == 2 && Pow2(2) == 4;
    assert Pow2(n + 2) == 2 * Pow2(n + 1);
  }

  lemma StopsOnce(net: Network, maxRetries: int, m: nat, n: nat)
    requires StopsAt(net, maxRetries, m) && StopsAt(net, maxRetries, n)
    ensures m >= n
  {
  }

  // ---- how long a send can take ----

  function SendTime(net: Network, n: nat): real {
    TimeBefore(net, n) + net(n).duration
  }

  function LongestPause(n: nat): real {
    if Pow2(n + 1) > 30 then Pow2(n + 1) as real else 30.0
  }

  lemma PauseAtMost(r: Response, n: nat)
    ensures 0.0 <= Pause(r, n) <= LongestPause(n)
  {
  }

  /** Every attempt at its timeout, every pause as long as it can be. */
  function Longest(timeout: real, n: nat): real {
    if n == 0 then 0.0 else Longest(timeout, n - 1) + timeout + LongestPause(n - 1)
  }

  lemma {:induction false} TimeAtMost(net: Network, timeout: real, n: nat)
    requires Timed(net, timeout)
    ensures TimeBefore(net, n) <= Longest(timeout, n)
  {
    if n > 0 {
      TimeAtMost(net, timeout, n - 1);
      PauseAtMost(net(n - 1).response, n - 1);
      assert net(n - 1).duration <= timeout;
    }
  }

  lemma LongestUpToFive(timeout: real)
    ensures Longest(timeout, 0) == 0.0 && Longest(timeout, 1) == timeout + 30.0
    ensures Longest(timeout, 2) == 2.0 * timeout + 60.0 && Longest(timeout, 3) == 3.0 * timeout + 90.0
    ensures Longest(timeout, 4) == 4.0 * timeout + 120.0 && Longest(timeout, 5) == 5.0 * timeout + 152.0
  {
    assert Pow2(1) == 2 && Pow2(2) == 4 && Pow2(3) == 8 && Pow2(4) == 16 && Pow2(5) == 32;
  }

  /** What the startup check allows one send: every attempt at its timeout plus half a minute each. */
  function Allowance(timeout: real, maxRetries: nat): real {
    (timeout + 30.0) * (maxRetries + 1) as real
  }

  /** Always overloaded, always slow; asks for half a minute except after attempts 4 and 5. */
  function SlowNetwork(timeout: real): Network {
    n => Attempt(timeout, Answered(429, if n == 4 || n == 5 then NoHeader else Seconds(30.0), NotAnObject))
  }

  lemma SlowStep(timeout: real, n: nat)
    ensures TimeBefore(SlowNetwork(timeout), n + 1)
         == TimeBefore(SlowNetwork(timeout), n) + timeout + (if n == 4 then 32.0 else if n == 5 then 64.0 else 30.0)
  {
    if n == 4 || n == 5 { assert Pow2(5) == 32 && Pow2(6) == 64; }
  }

  lemma SlowStart(timeout: real)
    ensures TimeBefore(SlowNetwork(timeout), 6) == 6.0 * timeout + 216.0
  {
    SlowStep(timeout, 0);
    SlowStep(timeout, 1);
    SlowStep(timeout, 2);
    SlowStep(timeout, 3);
    SlowStep(timeout, 4);
    SlowStep(timeout, 5);
  }

  function Times(t: real, n: nat): real {
    if n == 0 then 0.0 else Times(t, n - 1) + t
  }

  lemma {:induction false} TimesIsProduct(t: real, n: nat)
    ensures Times(t, n) == t * n as real
  {
    if n > 0 { TimesIsProduct(t, n - 1); }
  }

  /** Its first six attempts already cost 36 seconds more than half a minute of pause each. */
  lemma {:induction false} SlowTime(timeout: real, n: nat)
    requires n >= 6
    ensures TimeBefore(SlowNetwork(timeout), n) == Times(timeout + 30.0, n) + 36.0
  {
    if n == 6 {
      SlowStart(timeout);
      TimesIsProduct(timeout + 30.0, 6);
    } else {
      SlowTime(timeout, n - 1);
      SlowStep(timeout, n - 1);
    }
  }

  lemma SlowStopsLate(timeout: real, maxRetries: nat)
    requires timeout >= 0.0
    ensures StopsAt(SlowNetwork(timeout), maxRetries, maxRetries) && Timed(SlowNetwork(timeout), timeout)
  {
  }

  lemma AllowanceCovers(timeout: real, maxRetries: nat, net: Network, n: nat)
    requires Timed(net, timeout) && StopsAt(net, maxRetries, n) && maxRetries <= 5
    ensures SendTime(net, n) <= Allowance(timeout, maxRetries)
  {
    assert 0.0 <= net(n).duration <= timeout;
    TimeAtMost(net, timeout, n);
    FiveRetriesFit(timeout, n, maxRetries);
  }

  lemma AllowanceExceeded(timeout: real, maxRetries: nat)
    requires timeout >= 0.0 && maxRetries >= 6
    ensures SendTime(SlowNetwork(timeout), maxRetries) == Allowance(timeout, maxRetries) + 6.0
  {
    SlowTime(timeout, maxRetries);
    TimesIsProduct(timeout + 30.0, maxRetries + 1);
    assert SlowNetwork(timeout)(maxRetries).duration == timeout;
  }

  ghost predicate Covers(timeout: real, maxRetries: nat) {
    forall net, n: nat :: Timed(net, timeout) && StopsAt(net, maxRetries, n) ==>
      SendTime(net, n) <= Allowance(timeout, maxRetries)
  }

  /** The startup check's formula covers every behaviour of the network exactly when at most five
      retries are configured; from six on, backing off outgrows the half minute it allows for. */
  lemma AllowanceCoversIff(timeout: real, maxRetries: nat)
    requires timeout >= 0.0
    ensures Covers(timeout, maxRetries) <==> maxRetries <= 5
  {
    if maxRetries <= 5 {
      forall net, n: nat | Timed(net, timeout) && StopsAt(net, maxRetries, n)
        ensures SendTime(net, n) <= Allowance(timeout, maxRetries)
      {
        AllowanceCovers(timeout, maxRetries, net, n);
      }
    } else {
      SlowStopsLate(timeout, maxRetries);
      AllowanceExceeded(timeout, maxRetries);
    }
  }

  lemma FiveRetriesFit(timeout: real, n: nat, m: nat)
    requires timeout >= 0.0 && n <= m <= 5
    ensures Longest(timeout, n) + timeout <= Allowance(timeout, m)
  {
    LongestUpToFive(timeout);
    assert n in {0, 1, 2, 3, 4, 5} && m in {0, 1, 2, 3, 4, 5};
  }

  // ---- scanning a receipt ----

  datatype Settings = Settings(timeout: real, maxRetries: nat, rescans: bool)

  datatype Scan = Result(parsed: Parsed) | ScanErrorRaised | OtherRaised

  /** checkedAnthropicConfig lets the settings through. */
  predicate Accepted(s: Settings, reclaimAfter: int) {
    Allowance(s.timeout, s.maxRetries) + (if s.rescans then s.timeout else 0.0) < reclaimAfter as real
  }

  /** The startup check in numbers; with the defaults it lets through every reclaim window above 570
      seconds, and so the default of 600. */
  lemma AcceptedMeaning(s: Settings, reclaimAfter: int)
    ensures Accepted(s, reclaimAfter) <==>
            (s.timeout + 30.0) * (s.maxRetries as real + 1.0) + (if s.rescans then s.timeout else 0.0) < reclaimAfter as real
    ensures Accepted(Settings(120.0, 2, true), reclaimAfter) <==> reclaimAfter > 570
  {
    assert (s.maxRetries + 1) as real == s.maxRetries as real + 1.0;
  }

  function Parse(fl: Rounding, sent: Sent, knownKind: Option<string>): Scan {
    match sent
    case Refused => ScanErrorRaised
    case Unreachable => OtherRaised
    case Body(reply) => if Read(fl, reply, knownKind).None? then ScanErrorRaised else Result(Read(fl, reply, knownKind).value)
  }

  /** A scan whose first send stops at attempt n: it rescans exactly when the first reading does not add
      up and rescans are on, in one attempt, and the second reading wins if there is one. */
  ghost predicate Scans(fl: Rounding, s: Settings, first: Network, second: Network, knownKind: Option<string>,
                        n: nat, rescanned: bool, scan: Scan, elapsed: real)
  {
    && StopsAt(first, s.maxRetries, n)
    && (var one := Parse(fl, OutcomeOf(first(n).response), knownKind);
        var two := Parse(fl, OutcomeOf(second(0).response), knownKind);
        && (rescanned <==> one.Result? && !AddUp(fl, one.parsed) && s.rescans)
        && scan == (if rescanned && two.Result? then two else one))
    && elapsed == SendTime(first, n) + if rescanned then second(0).duration else 0.0
  }

  /** scanReceipt on the networks its two sends will meet. */
  method ScanReceipt(fl: Rounding, s: Settings, first: Network, second: Network, knownKind: Option<string>)
    returns (scan: Scan, elapsed: real)
    ensures exists n: nat, rescanned :: Scans(fl, s, first, second, knownKind, n, rescanned, scan, elapsed)
  {
    var sent;
    sent, elapsed := Send(first, s.maxRetries);
    ghost var n: nat :| Sends(first, s.maxRetries, n, sent, elapsed);
    if !sent.Body? {
      scan := if sent.Refused? then ScanErrorRaised else OtherRaised;
      assert Scans(fl, s, first, second, knownKind, n, false, scan, elapsed);
      return;
    }
    var one := ParseResponse(fl, sent.reply, knownKind);
    if one.None? {
      assert Scans(fl, s, first, second, knownKind, n, false, ScanErrorRaised, elapsed);
      return ScanErrorRaised, elapsed;
    }
    scan := Result(one.value);
    var addsUp := ItemsAddUp(fl, one.value);
    if addsUp || !s.rescans {
      assert Scans(fl, s, first, second, knownKind, n, false, scan, elapsed);
      return;
    }
    var again, extra := Send(second, 0);
    assert Sends(second, 0, 0, again, extra);
    elapsed := elapsed + extra;
    if again.Body? {
      var two := ParseResponse(fl, again.reply, knownKind);
      if two.Some? {
        scan := Result(two.value);
      }
    }
    assert Scans(fl, s, first, second, knownKind, n, true, scan, elapsed);
  }

  /** Once startup accepts the settings (with up to five retries), the calls and pauses of every scan,
      however it ends, take less than the reclaim window. */
  lemma CallsFitReclaimWindow(fl: Rounding, s: Settings, reclaimAfter: int, first: Network, second: Network,
                              knownKind: Option<string>, n: nat, rescanned: bool, scan: Scan, elapsed: real)
    requires Accepted(s, reclaimAfter) && s.maxRetries <= 5
    requires Timed(first, s.timeout) && Timed(second, s.timeout)
    requires Scans(fl, s, first, second, knownKind, n, rescanned, scan, elapsed)
    ensures elapsed < reclaimAfter as real
  {
    assert first(0).duration <= s.timeout;
    AllowanceCovers(s.timeout, s.maxRetries, first, n);
    assert second(0).duration <= s.timeout;
  }

  /** How a scan ends, in statuses: with a ScanError exactly if its first answer is final and not OK or
      cannot be read, with another exception exactly if the provider cannot be reached. */
  lemma ScanOutcomeMeaning(fl: Rounding, s: Settings, first: Network, second: Network, knownKind: Option<string>,
                           n: nat, rescanned: bool, scan: Scan, elapsed: real)
    requires Scans(fl, s, first, second, knownKind, n, rescanned, scan, elapsed)
    ensures var r := first(n).response;
      && (scan == OtherRaised <==> r.Broken? || r.status == 408 || r.status == 429 || r.status >= 500)
      && (scan == ScanErrorRaised <==>
            r.Answered? && r.status != 408 && r.status != 429 && r.status < 500
            && (r.status == 200 ==> Read(fl, r.reply, knownKind) == None))
      && (scan.Result? <==> r.Answered? && r.status == 200 && Read(fl, r.reply, knownKind).Some?)
      && (scan.Result? && !rescanned ==> Read(fl, r.reply, knownKind) == Some(scan.parsed))
  {
    OnlyFinalAnswersAreRefused(first, s.maxRetries, n);
  }

  /** A rescan never costs a result: if the first reply could be read there is one, and the first
      stands unless the second could be read as well. */
  lemma RescanIsBestEffort(fl: Rounding, s: Settings, first: Network, second: Network, knownKind: Option<string>,
                           n: nat, rescanned: bool, scan: Scan, elapsed: real)
    requires Scans(fl, s, first, second, knownKind, n, rescanned, scan, elapsed)
    ensures scan.Result? <==> Parse(fl, OutcomeOf(first(n).response), knownKind).Result?
    ensures scan.Result? && !AddUp(fl, scan.parsed) && s.rescans ==> rescanned
  {
  }
}
