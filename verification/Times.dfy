/** Durations and instants, in nanoseconds: boot times as the host reports them, and the sleeps
    between failed attempts to take the lock. */
module Times {

  const MILLISECOND: nat := 1_000_000
  const SECOND: nat := 1_000_000_000
  const MINUTE: nat := 60 * SECOND

  /** Go's zero `time.Time` (year 1) on the Unix scale: the boot time when /proc/stat is unread. */
  const ZERO_TIME: int := -62_135_596_800 * SECOND

  /** The `btime` field of /proc/stat: the boot instant in whole seconds. */
  function BootTime(boot: nat): (t: nat) {
    boot / SECOND * SECOND
  }

  /** What the process believes its boot time to be. */
  function SeenBootTime(boot: nat, read: bool): int {
    if read then BootTime(boot) else ZERO_TIME
  }

  /** `BootTime.After(rebootTime)`, the test that lets a restarted process go on: it passes exactly
      when the boot time was read and falls in a later whole second than the mark. So it never
      passes on the boot that set the mark, and always for a boot at least a second later. */
  lemma RebootDetection(boot: nat, mark: nat, read: bool)
    ensures SeenBootTime(boot, read) > mark ==> read && boot > mark
    ensures read && boot >= mark + 1_000_000_000 ==> SeenBootTime(boot, read) > mark
    ensures SeenBootTime(boot, read) > mark <==> read && boot / 1_000_000_000 > mark / 1_000_000_000
  {
    assert boot - SECOND < BootTime(boot) <= boot;
  }

  // ---------------------------------------------------------------- backoff

  function Pow2(k: nat): (p: nat)
    ensures p >= 1
  {
    if k == 0 then 1 else 2 * Pow2(k - 1)
  }

  function Min(a: nat, b: nat): nat { if a < b then a else b }

  /** The wait variable after k failed attempts. */
  function Wait(k: nat): nat {
    if k == 0 then SECOND else Min(2 * Wait(k - 1), MINUTE)
  }

  /** The waits of an `AcquireLock` call that has failed |waits| times. */
  ghost predicate IsBackoff(waits: seq<nat>) {
    forall j :: 0 <= j < |waits| ==> waits[j] == Wait(j)
  }

  function Sum(waits: seq<nat>): nat {
    if waits == [] then 0 else Sum(waits[..|waits| - 1]) + waits[|waits| - 1]
  }

  lemma {:induction false} WaitIs(k: nat)
    ensures Wait(k) == Min(Pow2(k) * 1_000_000_000, 60_000_000_000)
  {
    if k > 0 {
      WaitIs(k - 1);
    }
  }

  lemma Powers()
    ensures Pow2(1) == 2 && Pow2(2) == 4 && Pow2(3) == 8 && Pow2(4) == 16 && Pow2(5) == 32 && Pow2(6) == 64
  {
    assert Pow2(2) == 4;
    assert Pow2(3) == 8;
    assert Pow2(4) == 16;
    assert Pow2(5) == 32;
  }

  lemma {:induction false} Pow2Grows(k: nat)
    requires k >= 6
    ensures Pow2(k) >= 64
  {
    Powers();
    if k > 6 { Pow2Grows(k - 1); }
  }

  lemma WaitEarly(k: nat)
    requires k < 6
    ensures Wait(k) == Pow2(k) * SECOND
  {
    Powers();
    WaitIs(k);
    assert Pow2(0) == 1;
    assert k == 0 || k == 1 || k == 2 || k == 3 || k == 4 || k == 5;
  }

  lemma WaitLate(k: nat)
    requires k >= 6
    ensures Wait(k) == MINUTE
  {
    WaitIs(k);
    Pow2Grows(k);
  }

  /** Total time slept after k failures: 2^k - 1 seconds, then a minute each from the seventh on. */
  lemma {:induction false} TotalSleep(waits: seq<nat>)
    requires IsBackoff(waits)
    ensures Sum(waits) ==
      1_000_000_000 * (if |waits| <= 6 then Pow2(|waits|) - 1 else 63 + 60 * (|waits| - 6))
  {
    var k := |waits|;
    if k > 0 {
      TotalSleep(waits[..k - 1]);
      if k <= 6 {
        WaitEarly(k - 1);
        var p := Pow2(k - 1);
        assert (2 * p - 1) * SECOND == (p - 1) * SECOND + p * SECOND;
      } else {
        WaitLate(k - 1);
        Powers();
      }
    }
  }

  // ---------------------------------------------------------------- sleeps and deadlines

  datatype Context = Background | Deadline(at: int)

  predicate Past(ctx: Context, now: nat) {
    ctx.Deadline? && now >= ctx.at
  }

  /** An attempt to take the lock: with which context, and when it began. */
  datatype Try = Try(ctx: Context, from: nat)

  /** All further attempts were made with this context, and began before its deadline. */
  ghost predicate TriedWith(ctx: Context, before: seq<Try>, after: seq<Try>) {
    && before <= after
    && forall k :: |before| <= k < |after| ==> after[k].ctx == ctx && (ctx.Deadline? ==> after[k].from < ctx.at)
  }

  lemma TriedNext(ctx: Context, first: seq<Try>, before: seq<Try>, now: nat)
    requires TriedWith(ctx, first, before) && (ctx.Deadline? ==> now < ctx.at)
    ensures TriedWith(ctx, first, before + [Try(ctx, now)])
  {
  }

  datatype Pause = Retry | Backoff | Shutdown | Channel

  /** A sleep of the process: when it began, how long it was, and what it waited for. */
  datatype Nap = Nap(from: nat, length: nat, why: Pause)

  const RETRY := 10 * MILLISECOND

  /** Jitter at least keeps and at most doubles the pause between two rounds of `modify`. */
  predicate IsRetry(nap: Nap) {
    nap.why.Retry? && 10_000_000 <= nap.length < 20_000_000
  }

  ghost predicate Retries(naps: seq<Nap>) {
    forall k :: 0 <= k < |naps| ==> IsRetry(naps[k])
  }

  /** The sleeps between two points of the record. */
  function Added(before: seq<Nap>, after: seq<Nap>): seq<Nap>
    requires |before| <= |after|
  {
    after[|before|..]
  }

  /** The sleeps of one `modify`: retries, of which only the last may begin after the deadline. */
  ghost predicate RetriesBy(ctx: Context, naps: seq<Nap>, now: nat) {
    && Retries(naps)
    && (forall k :: 0 <= k < |naps| ==> naps[k].from <= now)
    && (forall k :: 0 <= k < |naps| - 1 ==> !Past(ctx, naps[k].from))
  }

  /** One more retry, begun since the deadline was last looked at. */
  lemma RetriesNext(ctx: Context, first: seq<Nap>, before: seq<Nap>, after: seq<Nap>, checked: nat, now: nat)
    requires first <= before && |after| == |before| + 1 && before <= after
    requires RetriesBy(ctx, Added(first, before), checked) && !Past(ctx, checked)
    requires IsRetry(after[|before|]) && after[|before|].from <= now && checked <= now
    ensures RetriesBy(ctx, Added(first, after), now)
  {
    assert Added(first, after) == Added(first, before) + [after[|before|]];
  }

  /** The lengths of the sleeps between failed attempts, in order. */
  function Backoffs(naps: seq<Nap>): seq<nat> {
    if naps == [] then []
    else
      var last := naps[|naps| - 1];
      Backoffs(naps[..|naps| - 1]) + (if last.why.Backoff? then [last.length] else [])
  }

  lemma BackoffsAppend(naps: seq<Nap>, nap: Nap)
    ensures Backoffs(naps + [nap]) == Backoffs(naps) + (if nap.why.Backoff? then [nap.length] else [])
  {
    assert (naps + [nap])[..|naps|] == naps;
  }

  lemma {:induction false} BackoffsRetries(naps: seq<Nap>, more: seq<Nap>)
    requires Retries(more)
    ensures Backoffs(naps + more) == Backoffs(naps)
  {
    if more == [] {
      assert naps + more == naps;
    } else {
      var init, last := more[..|more| - 1], more[|more| - 1];
      BackoffsRetries(naps, init);
      BackoffsAppend(naps + init, last);
      assert naps + more == (naps + init) + [last];
    }
  }

  /** The sleeps of one `AcquireLock` call: the backoff sequence, with retries in between. */
  ghost predicate Sleeps(naps: seq<Nap>) {
    && IsBackoff(Backoffs(naps))
    && forall k :: 0 <= k < |naps| ==> naps[k].why.Backoff? || IsRetry(naps[k])
  }

  /** No sleep begins after the deadline, but for one retry at the end, or one backoff at the end, or
      the two of them in this order. */
  ghost predicate Timely(ctx: Context, naps: seq<Nap>) {
    && (forall k :: 0 <= k < |naps| - 2 ==> !Past(ctx, naps[k].from))
    && (|naps| >= 2 && Past(ctx, naps[|naps| - 2].from) ==>
          naps[|naps| - 2].why.Retry? && naps[|naps| - 1].why.Backoff?)
  }

  ghost predicate AllBefore(ctx: Context, naps: seq<Nap>) {
    forall k :: 0 <= k < |naps| ==> !Past(ctx, naps[k].from)
  }

  /** The time spent in sleeps that began after the deadline. */
  function Overslept(ctx: Context, naps: seq<Nap>): nat {
    if naps == [] then 0
    else
      var last := naps[|naps| - 1];
      Overslept(ctx, naps[..|naps| - 1]) + (if Past(ctx, last.from) then last.length else 0)
  }

  lemma {:induction false} NothingOverslept(ctx: Context, naps: seq<Nap>)
    requires AllBefore(ctx, naps)
    ensures Overslept(ctx, naps) == 0
  {
    if naps != [] {
      NothingOverslept(ctx, naps[..|naps| - 1]);
    }
  }

  lemma WaitBounded(k: nat)
    ensures Wait(k) <= MINUTE
  {
  }

  lemma {:induction false} BackoffsContain(naps: seq<Nap>, k: nat)
    requires k < |naps| && naps[k].why.Backoff?
    ensures naps[k].length in Backoffs(naps)
  {
    if k < |naps| - 1 {
      BackoffsContain(naps[..|naps| - 1], k);
    }
  }

  lemma NapBounded(naps: seq<Nap>, k: nat)
    requires Sleeps(naps) && k < |naps|
    ensures naps[k].length <= if naps[k].why.Retry? then 20_000_000 else 60_000_000_000
  {
    if naps[k].why.Backoff? {
      BackoffsContain(naps, k);
      var j :| 0 <= j < |Backoffs(naps)| && Backoffs(naps)[j] == naps[k].length;
      WaitBounded(j);
    }
  }

  /** Acquiring sleeps past its deadline for at most a minute and one retry. */
  lemma OversleptBounded(ctx: Context, naps: seq<Nap>)
    requires Sleeps(naps) && Timely(ctx, naps)
    ensures Overslept(ctx, naps) <= 60_020_000_000
  {
    var n := |naps|;
    if n > 0 {
      NapBounded(naps, n - 1);
      if n > 1 {
        NapBounded(naps, n - 2);
        assert naps[..n - 1][..n - 2] == naps[..n - 2];
        NothingOverslept(ctx, naps[..n - 2]);
      } else {
        NothingOverslept(ctx, naps[..n - 1]);
      }
    }
  }

  /** What AcquireLock has slept up to some point, at which no sleep has begun in the future. */
  ghost predicate SleptUntil(ctx: Context, naps: seq<Nap>, now: nat) {
    Sleeps(naps) && Timely(ctx, naps) && forall k :: 0 <= k < |naps| ==> naps[k].from <= now
  }

  /** The last sleep so far may have begun after the deadline only if it was a retry. */
  ghost predicate Attempted(ctx: Context, naps: seq<Nap>) {
    && (forall k :: 0 <= k < |naps| - 1 ==> !Past(ctx, naps[k].from))
    && (naps != [] && Past(ctx, naps[|naps| - 1].from) ==> naps[|naps| - 1].why.Retry?)
  }

  /** An attempt begun before the deadline adds its retries. */
  lemma SleptAttempt(ctx: Context, first: seq<Nap>, before: seq<Nap>, after: seq<Nap>, checked: nat, now: nat)
    requires first <= before <= after && checked <= now && !Past(ctx, checked)
    requires SleptUntil(ctx, Added(first, before), checked) && RetriesBy(ctx, Added(before, after), now)
    ensures SleptUntil(ctx, Added(first, after), now) && Backoffs(Added(first, after)) == Backoffs(Added(first, before))
    ensures Attempted(ctx, Added(first, after))
  {
    var x, y := Added(first, before), Added(before, after);
    assert Added(first, after) == x + y;
    BackoffsRetries(x, y);
  }

  lemma SleepsNext(naps: seq<Nap>, nap: Nap)
    requires Sleeps(naps) && nap.why.Backoff? && nap.length == Wait(|Backoffs(naps)|)
    ensures Sleeps(naps + [nap])
    ensures Backoffs(naps + [nap]) == Backoffs(naps) + [nap.length]
    ensures Sum(Backoffs(naps + [nap])) == Sum(Backoffs(naps)) + nap.length
  {
    BackoffsAppend(naps, nap);
    assert (Backoffs(naps) + [nap.length])[..|Backoffs(naps)|] == Backoffs(naps);
  }

  lemma TimelyNext(ctx: Context, naps: seq<Nap>, nap: Nap)
    requires Attempted(ctx, naps) && nap.why.Backoff?
    ensures Timely(ctx, naps + [nap])
  {
  }

  lemma NextWaitIs(n: nat)
    ensures Wait(n + 1) == Min(2 * Wait(n), MINUTE)
  {
  }

  lemma SleptNext(ctx: Context, naps: seq<Nap>, nap: Nap, now: nat)
    requires SleptUntil(ctx, naps, nap.from) && Attempted(ctx, naps) && nap.from <= now
    requires nap.why.Backoff? && nap.length == Wait(|Backoffs(naps)|)
    ensures SleptUntil(ctx, naps + [nap], now)
    ensures |Backoffs(naps + [nap])| == |Backoffs(naps)| + 1
    ensures Wait(|Backoffs(naps + [nap])|) == Min(2 * nap.length, MINUTE)
    ensures Sum(Backoffs(naps + [nap])) == Sum(Backoffs(naps)) + nap.length
  {
    SleepsNext(naps, nap);
    TimelyNext(ctx, naps, nap);
    NextWaitIs(|Backoffs(naps)|);
  }

  /** Then the backoff follows. */
  lemma SleptBackoff(ctx: Context, first: seq<Nap>, before: seq<Nap>, nap: Nap, now: nat)
    requires first <= before && nap.from <= now
    requires SleptUntil(ctx, Added(first, before), nap.from) && Attempted(ctx, Added(first, before))
    requires nap.why.Backoff? && nap.length == Wait(|Backoffs(Added(first, before))|)
    ensures first <= before + [nap]
    ensures SleptUntil(ctx, Added(first, before + [nap]), now)
    ensures |Backoffs(Added(first, before + [nap]))| == |Backoffs(Added(first, before))| + 1
    ensures Wait(|Backoffs(Added(first, before + [nap]))|) == Min(2 * nap.length, MINUTE)
    ensures Sum(Backoffs(Added(first, before + [nap]))) == Sum(Backoffs(Added(first, before))) + nap.length
  {
    var naps, more := Added(first, before), Added(first, before + [nap]);
    assert more == naps + [nap];
    SleptNext(ctx, naps, nap, now);
  }
}
