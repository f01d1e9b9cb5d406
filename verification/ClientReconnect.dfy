/**
 * The reconnect loop and its delays (client/client.go).
 *
 * run keeps two counters across a nested loop with several resets. They are
 * specified here by the history alone: what has happened to the client's
 * connections so far decides whether it stops, and how long it waits. The
 * server may change the back-off settings at any time, and the context may end
 * at any point.
 */
module ClientReconnect {
  import opened Common

  const TWO_63 := 0x8000_0000_0000_0000
  const TWO_64 := 0x1_0000_0000_0000_0000

  /** Two's complement int64, as Go's multiplication leaves it. */
  function Wrap64(x: int): (r: int)
    ensures -TWO_63 <= r < TWO_63
    ensures -TWO_63 <= x < TWO_63 ==> r == x
  {
    (x + TWO_63) % TWO_64 - TWO_63
  }

  /** backoff.delay. */
  function Delay(interval: int, maxInterval: int, attempt: int): int {
    var d := Wrap64(interval * attempt);
    if d > maxInterval || d <= 0 then maxInterval else d
  }

  function Min(a: int, b: int): int { if a < b then a else b }

  /**
   * A delay is positive and at most maxInterval whatever the product does. It is the
   * linear back-off, capped, exactly unless a wrapped product lands below the cap.
   */
  lemma DelayIsCappedLinear(interval: int, maxInterval: int, attempt: int)
    requires 0 < interval < TWO_63 && 0 < maxInterval < TWO_63 && 0 < attempt
    ensures 0 < Delay(interval, maxInterval, attempt) <= maxInterval
    ensures Delay(interval, maxInterval, attempt) == Min(interval * attempt, maxInterval)
            <==> interval * attempt < TWO_63 || !(0 < Wrap64(interval * attempt) < maxInterval)
  {
    assert interval * attempt > 0;
  }

  /** It is positive exactly if the cap is. */
  lemma DelayIsPositive(interval: int, maxInterval: int, attempt: int)
    ensures 0 < Delay(interval, maxInterval, attempt) <==> 0 < maxInterval
  {
  }

  /** The cap a config frame sets, given in milliseconds and kept in nanoseconds, may be negative: applyConfig. */
  lemma ConfiguredCapMayBeNegative()
    ensures Wrap64(9_223_372_036_855 * 1_000_000) < 0
  {
  }

  /** The wrap does happen below the cap: 2^62 + 1 nanoseconds, fourth attempt, comes to 4. */
  lemma WrappedDelayExists()
    ensures Delay(TWO_63 / 2 + 1, TWO_63 - 1, 4) == 4
  {
  }

  // ---------------------------------------------------------------------------
  // The history and what it demands
  // ---------------------------------------------------------------------------

  datatype Event =
    | Dropped(rejected: bool)  // the live connection ended, with a rejection frame or without
    | Connected                // a reconnect attempt succeeded
    | Rejected                 // the server refused a reconnect attempt
    | Failed                   // a reconnect attempt failed in the network
    | Cancelled                // the context ended: while connected, waiting or dialling

  datatype Retry = Retry(delay: int, maxAttempts: nat)

  datatype Options = Options(noReconnect: bool, retry: Option<Retry>)

  /** The settings in force once an event has been seen. */
  datatype Backoff = Backoff(interval: int, maxInterval: int, maxAttempts: nat)

  datatype Why = ByRejection | Lost | AttemptsUsedUp | ByContext

  datatype Outcome = Running | Stopped(at: nat, why: Why)

  const DEFAULT_REJECTED_RETRY_DELAY := 2_000_000_000

  predicate IsRejection(e: Event) { e.Rejected? || (e.Dropped? && e.rejected) }

  /** Rejections since the last non-rejection drop or network failure, after the first n events. */
  function RejectionRun(events: seq<Event>, n: nat): nat
    requires n <= |events|
  {
    if n == 0 then 0
    else if IsRejection(events[n - 1]) then RejectionRun(events, n - 1) + 1
    else if events[n - 1].Connected? then RejectionRun(events, n - 1)
    else 0
  }

  /** Which back-off attempt is due: drops start over at 1 and rejections at 0, each failure adds one. */
  function Attempt(events: seq<Event>, n: nat): nat
    requires n <= |events|
  {
    if n == 0 then 0
    else if events[n - 1] == Dropped(false) then 1
    else if events[n - 1].Failed? then Attempt(events, n - 1) + 1
    else 0
  }

  /** Whether the client stops on the n-th event, had it gone on until then. */
  function StopReason(events: seq<Event>, bs: seq<Backoff>, n: nat, o: Options): Option<Why>
    requires 0 < n <= |events| == |bs|
  {
    var e := events[n - 1];
    if e.Cancelled? then Some(ByContext)
    else if e.Dropped? && o.noReconnect then Some(if e.rejected then ByRejection else Lost)
    else if IsRejection(e) then
      if o.retry.None? || (o.retry.value.maxAttempts > 0 && RejectionRun(events, n) > o.retry.value.maxAttempts)
      then Some(ByRejection) else None
    else if !e.Connected? && bs[n - 1].maxAttempts > 0 && Attempt(events, n) > bs[n - 1].maxAttempts
      then Some(AttemptsUsedUp) else None
  }

  /** How long it waits after the n-th event if it goes on. */
  function Wait(events: seq<Event>, bs: seq<Backoff>, n: nat, o: Options): int
    requires 0 < n <= |events| == |bs|
  {
    if IsRejection(events[n - 1]) then
      if o.retry.Some? && o.retry.value.delay > 0 then o.retry.value.delay else DEFAULT_REJECTED_RETRY_DELAY
    else Delay(bs[n - 1].interval, bs[n - 1].maxInterval, Attempt(events, n))
  }

  /** The waits of a client that goes on after each of the first n events. */
  function Waits(events: seq<Event>, bs: seq<Backoff>, n: nat, o: Options): seq<int>
    requires n <= |events| == |bs|
  {
    if n == 0 then []
    else Waits(events, bs, n - 1, o) + if events[n - 1].Connected? then [] else [Wait(events, bs, n, o)]
  }

  ghost predicate GoesOn(events: seq<Event>, bs: seq<Backoff>, n: nat, o: Options)
    requires n <= |events| == |bs|
  {
    forall j :: 0 < j <= n ==> StopReason(events, bs, j, o).None?
  }

  /** Only a live connection drops, and only a dropped one is redialled. */
  predicate Fits(events: seq<Event>, j: nat)
    requires j < |events|
  {
    events[j].Cancelled? || (events[j].Dropped? <==> j == 0 || events[j - 1].Connected?)
  }

  ghost predicate Alternates(events: seq<Event>) { forall j :: 0 <= j < |events| ==> Fits(events, j) }

  /** The client backs off after the event, by the settings in force. */
  predicate BacksOff(e: Event) { !e.Connected? && !IsRejection(e) }

  /** It always waits, exactly if it never backs off under a cap that is not positive. */
  lemma {:induction false} WaitsArePositive(events: seq<Event>, bs: seq<Backoff>, n: nat, o: Options)
    requires n <= |events| == |bs|
    ensures (forall w :: w in Waits(events, bs, n, o) ==> 0 < w) <==>
            (forall j :: 0 <= j < n && BacksOff(events[j]) ==> 0 < bs[j].maxInterval)
  {
    if n > 0 {
      WaitsArePositive(events, bs, n - 1, o);
      DelayIsPositive(bs[n - 1].interval, bs[n - 1].maxInterval, Attempt(events, n));
      var before := Waits(events, bs, n - 1, o);
      if !events[n - 1].Connected? {
        assert Waits(events, bs, n, o) == before + [Wait(events, bs, n, o)];
        assert Wait(events, bs, n, o) in Waits(events, bs, n, o);
      } else {
        assert Waits(events, bs, n, o) == before;
      }
      assert forall w :: w in before ==> w in Waits(events, bs, n, o);
    }
  }

  lemma {:induction false} GoingOnIsWithinLimit(events: seq<Event>, bs: seq<Backoff>, n: nat, o: Options)
    requires n <= |events| == |bs| && GoesOn(events, bs, n, o) && o.retry.Some? && o.retry.value.maxAttempts > 0
    ensures RejectionRun(events, n) <= o.retry.value.maxAttempts
  {
    if n > 0 {
      GoingOnIsWithinLimit(events, bs, n - 1, o);
      assert StopReason(events, bs, n, o).None?;
    }
  }

  /** A client that reconnects on rejection closes on exactly the (MaxAttempts + 1)th of a run of them, never before. */
  lemma StopsRightAfterTheLimit(events: seq<Event>, bs: seq<Backoff>, n: nat, o: Options)
    requires 0 < n <= |events| == |bs| && GoesOn(events, bs, n - 1, o) && !o.noReconnect && o.retry.Some?
    ensures StopReason(events, bs, n, o) == Some(ByRejection) <==>
            o.retry.value.maxAttempts > 0 && IsRejection(events[n - 1])
            && RejectionRun(events, n) == o.retry.value.maxAttempts + 1
  {
    if o.retry.value.maxAttempts > 0 { GoingOnIsWithinLimit(events, bs, n - 1, o); }
  }

  /** The head of run's inner loop: whether to stop after the n-th event, or how long to wait. */
  method StopOrWait(events: seq<Event>, bs: seq<Backoff>, n: nat, o: Options, rejected: bool, rejections0: nat,
                    attempt0: nat)
    returns (why: Option<Why>, delay: int, rejections: nat, attempt: nat)
    requires 0 < n <= |events| == |bs| && !events[n - 1].Connected? && !events[n - 1].Cancelled? && !o.noReconnect
    requires rejected <==> IsRejection(events[n - 1])
    requires if rejected then RejectionRun(events, n) == rejections0 + 1 else Attempt(events, n) == attempt0 + 1
    ensures why == StopReason(events, bs, n, o)
    ensures why.None? ==> delay == Wait(events, bs, n, o) && rejections == RejectionRun(events, n)
    ensures attempt == if rejected then attempt0 else Attempt(events, n)
  {
    why, delay, rejections, attempt := None, 0, rejections0, attempt0;
    if rejected {
      if o.retry.None? || (o.retry.value.maxAttempts > 0 && rejections >= o.retry.value.maxAttempts) {
        why := Some(ByRejection);
        return;
      }
      rejections := rejections + 1;
      delay := if o.retry.value.delay > 0 then o.retry.value.delay else DEFAULT_REJECTED_RETRY_DELAY;
    } else {
      rejections, attempt := 0, attempt + 1;
      var b := bs[n - 1];
      if b.maxAttempts > 0 && attempt > b.maxAttempts {
        why := Some(AttemptsUsedUp);
        return;
      }
      delay := Delay(b.interval, b.maxInterval, attempt);
    }
  }

  /** run, over the events it observes. */
  method Run(events: seq<Event>, bs: seq<Backoff>, o: Options) returns (outcome: Outcome, waits: seq<int>)
    requires |events| == |bs| && Alternates(events)
    ensures outcome.Running? ==> GoesOn(events, bs, |events|, o) && waits == Waits(events, bs, |events|, o)
    ensures outcome.Stopped? ==>
              && outcome.at < |events| && StopReason(events, bs, outcome.at + 1, o) == Some(outcome.why)
              && GoesOn(events, bs, outcome.at, o) && waits == Waits(events, bs, outcome.at, o)
  {
    var rejections, i := 0, 0;
    waits := [];
    while i < |events|
      invariant 0 <= i <= |events| && (i > 0 ==> events[i - 1].Connected?)
      invariant GoesOn(events, bs, i, o) && waits == Waits(events, bs, i, o)
      invariant rejections == RejectionRun(events, i)
      decreases |events| - i, 0
    {
      assert Fits(events, i);
      if events[i].Cancelled? { return Stopped(i, ByContext), waits; }
      var rejected := events[i].rejected;
      i := i + 1;
      if o.noReconnect { return Stopped(i - 1, if rejected then ByRejection else Lost), waits; }
      if !rejected { rejections := 0; }

      var attempt, connected := 0, false;
      while !connected
        invariant 0 < i <= |events| && (connected <==> events[i - 1].Connected?)
        invariant GoesOn(events, bs, i - 1, o) && (connected ==> StopReason(events, bs, i, o).None?)
        invariant waits == Waits(events, bs, if connected then i else i - 1, o)
        invariant connected ==> rejections == RejectionRun(events, i)
        invariant !connected ==> (rejected <==> IsRejection(events[i - 1]))
        invariant !connected && rejected ==> attempt == 0 && RejectionRun(events, i) == rejections + 1
        invariant !connected && !rejected ==> Attempt(events, i) == attempt + 1
        decreases |events| - i, if connected then 0 else 1
      {
        var why, delay;
        why, delay, rejections, attempt := StopOrWait(events, bs, i, o, rejected, rejections, attempt);
        if why.Some? { return Stopped(i - 1, why.value), waits; }
        waits := waits + [delay];
        if i == |events| { return Running, waits; }
        assert Fits(events, i);
        var e := events[i];
        i := i + 1;
        match e
        case Connected => connected := true;
        case Rejected => rejected, attempt := true, 0;
        case Cancelled => return Stopped(i - 1, ByContext), waits;
        case _ => rejected := false;
      }
    }
    outcome := Running;
  }
}
