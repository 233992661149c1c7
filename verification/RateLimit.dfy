/** The fixed-window rate limiter: one shared counter per key and aligned window, and what
    that guarantees over a window that is not aligned. */
module RateLimit {

  type Time = nat

  /** A request as the limiter sees it: whose it is, and when its server read the clock. */
  datatype Request = Request(key: string, time: Time)

  datatype Bucket = Bucket(key: string, window: Time)

  /** What a request is told: go on, 429, or 503 when the counter cannot be reached. */
  datatype Verdict = Passed | Limited | Unavailable

  /** Start of the aligned window a moment falls into. */
  function Truncate(time: Time, width: nat): Time
    requires width > 0
  {
    time - time % width
  }

  function BucketOf(r: Request, width: nat): Bucket
    requires width > 0
  {
    Bucket(r.key, Truncate(r.time, width))
  }

  /** The shared counters. Requests of any number of servers reach them one at a time, in
      whatever order; a request's window may lag behind. */
  class Buckets {
    var counts: map<Bucket, nat>

    function Count(b: Bucket): nat
      reads this
    {
      if b in counts then counts[b] else 0
    }

    constructor ()
      ensures counts == map[]
    {
      counts := map[];
    }

    /** Insert with count 1, or add one to the row that is there; returns the new count.
        A call that fails has counted nothing. */
    method Increment(b: Bucket) returns (failed: bool, count: nat)
      modifies this
      ensures failed ==> counts == old(counts)
      ensures !failed ==> count == old(Count(b)) + 1 && Count(b) == count
      ensures !failed ==> forall other :: other != b ==> Count(other) == old(Count(other))
    {
      if * {
        return true, 0;
      }
      if b in counts {
        counts := counts[b := counts[b] + 1];
      } else {
        counts := counts[b := 1];
      }
      return false, counts[b];
    }

    /** Deletes the rows of windows that started before the cutoff. */
    method Cleanup(cutoff: Time)
      modifies this
      ensures counts == Cleaned(old(counts), cutoff)
      ensures forall b: Bucket :: b.window >= cutoff ==> Count(b) == old(Count(b))
    {
      counts := map b | b in counts && b.window >= cutoff :: counts[b];
    }

    /** Counts the request and lets it through while the count is within the limit. */
    method Admit(r: Request, limit: int, width: nat) returns (verdict: Verdict)
      requires width > 0
      modifies this
      ensures verdict == Unavailable ==> counts == old(counts)
      ensures verdict != Unavailable ==>
                && (verdict == Passed <==> old(Count(BucketOf(r, width))) + 1 <= limit)
                && Count(BucketOf(r, width)) == old(Count(BucketOf(r, width))) + 1
                && forall other :: other != BucketOf(r, width) ==> Count(other) == old(Count(other))
    {
      var failed, count := Increment(BucketOf(r, width));
      verdict := if failed then Unavailable else if count > limit then Limited else Passed;
    }

    /** A whole sequence of requests, in the order they reach the counters: those that do
        get there are decided as if the others had never been made. */
    method AdmitAll(rs: seq<Request>, limit: int, width: nat) returns (verdicts: seq<Verdict>)
      requires width > 0 && counts == map[]
      modifies this
      ensures |verdicts| == |rs|
      ensures Answers(verdicts) == Decisions(Reached(rs, verdicts), limit, width)
      ensures forall b :: Count(b) == Hits(Reached(rs, verdicts), b, width)
    {
      verdicts := [];
      ghost var done: seq<Request> := [];
      for i := 0 to |rs|
        invariant done == rs[..i] && |verdicts| == |done|
        invariant Tracks(done, verdicts, limit, width)
        invariant forall b :: Count(b) == Hits(Reached(done, verdicts), b, width)
      {
        var verdict := Admit(rs[i], limit, width);
        TracksOneMore(done, verdicts, rs[i], verdict, limit, width);
        done, verdicts := done + [rs[i]], verdicts + [verdict];
      }
      assert done == rs;
    }
  }

  /** The requests that reached the counters. */
  function Reached(rs: seq<Request>, verdicts: seq<Verdict>): seq<Request>
    requires |rs| == |verdicts|
  {
    if rs == [] then []
    else
      var n := |rs| - 1;
      Reached(rs[..n], verdicts[..n]) + (if verdicts[n] == Unavailable then [] else [rs[n]])
  }

  /** How they were answered. */
  function Answers(verdicts: seq<Verdict>): seq<bool> {
    if verdicts == [] then []
    else
      var n := |verdicts| - 1;
      Answers(verdicts[..n]) + (if verdicts[n] == Unavailable then [] else [verdicts[n] == Passed])
  }

  ghost predicate Tracks(rs: seq<Request>, verdicts: seq<Verdict>, limit: int, width: nat)
    requires width > 0 && |rs| == |verdicts|
  {
    Answers(verdicts) == Decisions(Reached(rs, verdicts), limit, width)
  }

  lemma TracksOneMore(rs: seq<Request>, verdicts: seq<Verdict>, r: Request, v: Verdict, limit: int, width: nat)
    requires width > 0 && |rs| == |verdicts| && Tracks(rs, verdicts, limit, width)
    requires v != Unavailable ==> (v == Passed <==> Hits(Reached(rs, verdicts), BucketOf(r, width), width) + 1 <= limit)
    ensures Tracks(rs + [r], verdicts + [v], limit, width)
    ensures forall b :: Hits(Reached(rs + [r], verdicts + [v]), b, width)
                        == Hits(Reached(rs, verdicts), b, width)
                           + (if v != Unavailable && BucketOf(r, width) == b then 1 else 0)
  {
    OneMoreVerdict(rs, verdicts, r, v);
    if v == Unavailable {
      assert Reached(rs, verdicts) + [] == Reached(rs, verdicts) && Answers(verdicts) + [] == Answers(verdicts);
    } else {
      OneMoreDecision(Reached(rs, verdicts), r, limit, width);
    }
  }

  lemma OneMoreDecision(rs: seq<Request>, r: Request, limit: int, width: nat)
    requires width > 0
    ensures Decisions(rs + [r], limit, width)
            == Decisions(rs, limit, width) + [Hits(rs, BucketOf(r, width), width) + 1 <= limit]
    ensures forall b :: Hits(rs + [r], b, width) == Hits(rs, b, width) + (if BucketOf(r, width) == b then 1 else 0)
  {
    assert (rs + [r])[..|rs|] == rs;
  }

  lemma OneMoreVerdict(rs: seq<Request>, verdicts: seq<Verdict>, r: Request, v: Verdict)
    requires |rs| == |verdicts|
    ensures Reached(rs + [r], verdicts + [v]) == Reached(rs, verdicts) + (if v == Unavailable then [] else [r])
    ensures Answers(verdicts + [v]) == Answers(verdicts) + (if v == Unavailable then [] else [v == Passed])
  {
    assert (rs + [r])[..|rs|] == rs && (verdicts + [v])[..|verdicts|] == verdicts;
  }

  // ---- Decisions over a sequence of requests ---------------------------------------

  /** How many of the requests fall into a bucket. */
  function Hits(rs: seq<Request>, b: Bucket, width: nat): nat
    requires width > 0
  {
    if rs == [] then 0
    else Hits(rs[..|rs| - 1], b, width) + (if BucketOf(rs[|rs| - 1], width) == b then 1 else 0)
  }

  function Decisions(rs: seq<Request>, limit: int, width: nat): (d: seq<bool>)
    requires width > 0
    ensures |d| == |rs|
  {
    if rs == [] then []
    else
      var n := |rs| - 1;
      Decisions(rs[..n], limit, width) + [Hits(rs[..n], BucketOf(rs[n], width), width) + 1 <= limit]
  }

  function Min(a: int, b: int): int {
    if a < b then a else b
  }

  function Positive(limit: int): nat {
    if limit < 0 then 0 else limit
  }

  /** How many requests of a bucket are let through. */
  function Admitted(rs: seq<Request>, b: Bucket, limit: int, width: nat): nat
    requires width > 0
  {
    if rs == [] then 0
    else
      var n := |rs| - 1;
      Admitted(rs[..n], b, limit, width)
      + (if BucketOf(rs[n], width) == b && Decisions(rs, limit, width)[n] then 1 else 0)
  }

  /** Each aligned window lets through exactly the smaller of its requests and the limit,
      in whatever order concurrent requests reach the counter. */
  lemma {:induction false} WindowAdmitsExactly(rs: seq<Request>, b: Bucket, limit: int, width: nat)
    requires width > 0
    ensures Admitted(rs, b, limit, width) == Min(Hits(rs, b, width), Positive(limit))
  {
    if rs != [] {
      var n := |rs| - 1;
      WindowAdmitsExactly(rs[..n], b, limit, width);
      assert Decisions(rs, limit, width)[n] <==> Hits(rs[..n], BucketOf(rs[n], width), width) + 1 <= limit;
    }
  }

  // ---- Sliding intervals -----------------------------------------------------------

  predicate Within(r: Request, key: string, start: Time, width: nat) {
    r.key == key && start <= r.time < start + width
  }

  /** How many of a key's requests read the clock within `width` of `start` and are let through. */
  function AdmittedWithin(rs: seq<Request>, key: string, start: Time, limit: int, width: nat): nat
    requires width > 0
  {
    if rs == [] then 0
    else
      var n := |rs| - 1;
      AdmittedWithin(rs[..n], key, start, limit, width)
      + (if Within(rs[n], key, start, width) && Decisions(rs, limit, width)[n] then 1 else 0)
  }

  lemma TruncateNear(time: Time, start: Time, width: nat)
    requires width > 0 && start <= time < start + width
    ensures Truncate(time, width) == Truncate(start, width) || Truncate(time, width) == Truncate(start, width) + width
  {
    var q, r := start / width, start % width;
    assert start == q * width + r;
    var t := time - q * width;
    assert 0 <= t < 2 * width;
    if t < width {
      DivisionUnique(time, q, t, width);
    } else {
      assert (q + 1) * width == q * width + width;
      DivisionUnique(time, q + 1, t - width, width);
    }
  }

  /** A multiple is at least the width in the direction of its factor's sign. */
  lemma MultipleBound(k: int, width: int)
    requires width > 0
    ensures k >= 1 ==> k * width >= width
    ensures k == 0 ==> k * width == 0
    ensures k <= -1 ==> k * width <= -width
  {
    if k >= 1 {
      assert (k - 1) * width >= 0;
    } else if k <= -1 {
      assert (-k - 1) * width >= 0;
    }
  }

  lemma DivisionUnique(time: nat, q: nat, r: nat, width: nat)
    requires r < width && time == q * width + r
    ensures time % width == r
  {
    var p := time / width;
    var k := p - q;
    assert k * width == p * width - q * width;
    MultipleBound(k, width);
  }

  lemma {:induction false} WithinTwoWindows(rs: seq<Request>, key: string, start: Time, limit: int, width: nat)
    requires width > 0
    ensures AdmittedWithin(rs, key, start, limit, width)
            <= Admitted(rs, Bucket(key, Truncate(start, width)), limit, width)
               + Admitted(rs, Bucket(key, Truncate(start, width) + width), limit, width)
  {
    if rs != [] {
      var n := |rs| - 1;
      WithinTwoWindows(rs[..n], key, start, limit, width);
      if Within(rs[n], key, start, width) {
        TruncateNear(rs[n].time, start, width);
      }
    }
  }

  /** Any interval of one window's length lets through at most twice the limit. */
  lemma SlidingBound(rs: seq<Request>, key: string, start: Time, limit: int, width: nat)
    requires width > 0
    ensures AdmittedWithin(rs, key, start, limit, width) <= 2 * Positive(limit)
  {
    WithinTwoWindows(rs, key, start, limit, width);
    WindowAdmitsExactly(rs, Bucket(key, Truncate(start, width)), limit, width);
    WindowAdmitsExactly(rs, Bucket(key, Truncate(start, width) + width), limit, width);
  }

  // ---- When the bound is reached ------------------------------------------------------

  /** `n` requests at one moment. */
  function Burst(key: string, time: Time, n: nat): seq<Request> {
    seq(n, _ => Request(key, time))
  }

  lemma {:induction false} BurstHits(key: string, time: Time, n: nat, b: Bucket, width: nat)
    requires width > 0
    ensures Hits(Burst(key, time, n), b, width) == if BucketOf(Request(key, time), width) == b then n else 0
  {
    if n > 0 {
      assert Burst(key, time, n)[..n - 1] == Burst(key, time, n - 1);
      BurstHits(key, time, n - 1, b, width);
    }
  }

  lemma {:induction false} HitsConcat(xs: seq<Request>, ys: seq<Request>, b: Bucket, width: nat)
    requires width > 0
    ensures Hits(xs + ys, b, width) == Hits(xs, b, width) + Hits(ys, b, width)
  {
    if ys == [] {
      assert xs + ys == xs;
    } else {
      var n := |ys| - 1;
      assert (xs + ys)[..|xs + ys| - 1] == xs + ys[..n];
      HitsConcat(xs, ys[..n], b, width);
    }
  }

  lemma {:induction false} AllWithin(rs: seq<Request>, key: string, start: Time, limit: int, width: nat, a: Bucket,
      b: Bucket)
    requires width > 0 && a != b
    requires forall i :: 0 <= i < |rs| ==> Within(rs[i], key, start, width) && BucketOf(rs[i], width) in {a, b}
    ensures AdmittedWithin(rs, key, start, limit, width)
            == Admitted(rs, a, limit, width) + Admitted(rs, b, limit, width)
  {
    if rs != [] {
      var n := |rs| - 1;
      AllWithin(rs[..n], key, start, limit, width, a, b);
    }
  }

  /** The aligned window after the one `start` falls into. */
  function NextWindow(start: Time, width: nat): Time
    requires width > 0
  {
    Truncate(start, width) + width
  }

  lemma NextWindowIsAligned(start: Time, width: nat)
    requires width > 0
    ensures Truncate(NextWindow(start, width), width) == NextWindow(start, width)
    ensures start < NextWindow(start, width) <= start + width
    ensures start % width != 0 ==> NextWindow(start, width) < start + width
  {
    var q := start / width;
    assert (q + 1) * width == q * width + width;
    assert start == q * width + start % width;
    DivisionUnique(NextWindow(start, width), q + 1, 0, width);
  }

  /** From any moment that does not start a window, twice the limit really does get
      through: one burst there and then, and one at the start of the next window. */
  lemma UnalignedReachesTwice(key: string, start: Time, limit: nat, width: nat) returns (rs: seq<Request>)
    requires width > 0 && start % width != 0
    ensures AdmittedWithin(rs, key, start, limit, width) == 2 * limit
  {
    var next := NextWindow(start, width);
    NextWindowIsAligned(start, width);
    rs := Burst(key, start, limit) + Burst(key, next, limit);
    var a, b := Bucket(key, Truncate(start, width)), Bucket(key, next);
    assert BucketOf(Request(key, start), width) == a && BucketOf(Request(key, next), width) == b;
    BurstHits(key, start, limit, a, width);
    BurstHits(key, start, limit, b, width);
    BurstHits(key, next, limit, a, width);
    BurstHits(key, next, limit, b, width);
    HitsConcat(Burst(key, start, limit), Burst(key, next, limit), a, width);
    HitsConcat(Burst(key, start, limit), Burst(key, next, limit), b, width);
    AllWithin(rs, key, start, limit, width, a, b);
    WindowAdmitsExactly(rs, a, limit, width);
    WindowAdmitsExactly(rs, b, limit, width);
  }

  lemma {:induction false} AlignedIsOneWindow(rs: seq<Request>, key: string, start: Time, limit: int, width: nat)
    requires width > 0 && start % width == 0
    ensures AdmittedWithin(rs, key, start, limit, width) == Admitted(rs, Bucket(key, start), limit, width)
  {
    if rs != [] {
      var n := |rs| - 1;
      AlignedIsOneWindow(rs[..n], key, start, limit, width);
      AlignedBucket(rs[n], key, start, width);
    }
  }

  lemma AlignedBucket(r: Request, key: string, start: Time, width: nat)
    requires width > 0 && start % width == 0
    ensures Within(r, key, start, width) <==> BucketOf(r, width) == Bucket(key, start)
  {
    if start <= r.time < start + width {
      var q := start / width;
      assert start == q * width;
      DivisionUnique(r.time, q, r.time - start, width);
    }
  }

  /** How many requests of a key read the clock within `width` of `start`. */
  function RequestsWithin(rs: seq<Request>, key: string, start: Time, width: nat): nat {
    if rs == [] then 0
    else
      var r := rs[|rs| - 1];
      RequestsWithin(rs[..|rs| - 1], key, start, width)
      + (if r.key == key && start <= r.time < start + width then 1 else 0)
  }

  lemma {:induction false} HitsAreRequests(rs: seq<Request>, key: string, start: Time, width: nat)
    requires width > 0 && start % width == 0
    ensures Hits(rs, Bucket(key, start), width) == RequestsWithin(rs, key, start, width)
  {
    if rs != [] {
      HitsAreRequests(rs[..|rs| - 1], key, start, width);
      AlignedBucket(rs[|rs| - 1], key, start, width);
    }
  }

  /** Of the requests a key makes in an aligned window, the limit are let through, or all
      of them if they are fewer, whatever other keys and windows do. */
  lemma AlignedAdmitsExactly(rs: seq<Request>, key: string, start: Time, limit: int, width: nat)
    requires width > 0 && start % width == 0
    ensures AdmittedWithin(rs, key, start, limit, width)
            == Min(RequestsWithin(rs, key, start, width), Positive(limit))
  {
    AlignedIsOneWindow(rs, key, start, limit, width);
    WindowAdmitsExactly(rs, Bucket(key, start), limit, width);
    HitsAreRequests(rs, key, start, width);
  }

  /** The limit holds over an interval of one window's length if and only if the interval
      starts with a window, or nothing is let through at all. */
  lemma LimitHoldsIffAligned(start: Time, limit: int, width: nat)
    requires width > 0
    ensures (forall rs, key :: AdmittedWithin(rs, key, start, limit, width) <= Positive(limit))
            <==> start % width == 0 || limit <= 0
  {
    if start % width == 0 {
      forall rs, key
        ensures AdmittedWithin(rs, key, start, limit, width) <= Positive(limit)
      {
        AlignedIsOneWindow(rs, key, start, limit, width);
        WindowAdmitsExactly(rs, Bucket(key, start), limit, width);
      }
    } else if limit <= 0 {
      forall rs, key
        ensures AdmittedWithin(rs, key, start, limit, width) <= Positive(limit)
      {
        SlidingBound(rs, key, start, limit, width);
      }
    } else {
      var rs := UnalignedReachesTwice("", start, limit, width);
      assert AdmittedWithin(rs, "", start, limit, width) > Positive(limit);
    }
  }

  // ---- Cleaning up -----------------------------------------------------------------

  /** Decisions on `later` when the counters start from `base`. */
  function DecisionsFrom(base: map<Bucket, nat>, later: seq<Request>, limit: int, width: nat): (d: seq<bool>)
    requires width > 0
    ensures |d| == |later|
  {
    if later == [] then []
    else
      var n := |later| - 1;
      var b := BucketOf(later[n], width);
      DecisionsFrom(base, later[..n], limit, width)
      + [(if b in base then base[b] else 0) + Hits(later[..n], b, width) + 1 <= limit]
  }

  /** The counters a sequence of requests leaves behind. */
  ghost predicate Counts(base: map<Bucket, nat>, earlier: seq<Request>, width: nat)
    requires width > 0
  {
    forall b :: (if b in base then base[b] else 0) == Hits(earlier, b, width)
  }

  lemma {:induction false} DecisionsContinue(base: map<Bucket, nat>, earlier: seq<Request>, later: seq<Request>,
      limit: int, width: nat)
    requires width > 0 && Counts(base, earlier, width)
    ensures Decisions(earlier + later, limit, width)
            == Decisions(earlier, limit, width) + DecisionsFrom(base, later, limit, width)
  {
    if later == [] {
      assert earlier + later == earlier;
    } else {
      var n := |later| - 1;
      assert (earlier + later)[..|earlier + later| - 1] == earlier + later[..n];
      DecisionsContinue(base, earlier, later[..n], limit, width);
      HitsConcat(earlier, later[..n], BucketOf(later[n], width), width);
    }
  }

  /** The counters that a cleanup leaves. */
  function Cleaned(base: map<Bucket, nat>, cutoff: Time): map<Bucket, nat> {
    map b | b in base && b.window >= cutoff :: base[b]
  }

  /** No request is for a window that the cleanup has removed. */
  predicate NoneLags(later: seq<Request>, cutoff: Time, width: nat)
    requires width > 0
  {
    forall i :: 0 <= i < |later| ==> BucketOf(later[i], width).window >= cutoff
  }

  lemma {:induction false} CleanedCounts(base: map<Bucket, nat>, later: seq<Request>, cutoff: Time, limit: int,
      width: nat)
    requires width > 0 && NoneLags(later, cutoff, width)
    ensures DecisionsFrom(Cleaned(base, cutoff), later, limit, width) == DecisionsFrom(base, later, limit, width)
  {
    if later != [] {
      var n := |later| - 1;
      CleanedCounts(base, later[..n], cutoff, limit, width);
    }
  }

  lemma {:induction false} DecisionAt(base: map<Bucket, nat>, later: seq<Request>, i: nat, limit: int, width: nat)
    requires width > 0 && i < |later|
    ensures var b := BucketOf(later[i], width);
            DecisionsFrom(base, later, limit, width)[i]
            <==> (if b in base then base[b] else 0) + Hits(later[..i], b, width) + 1 <= limit
    decreases |later|
  {
    var n := |later| - 1;
    if i < n {
      DecisionAt(base, later[..n], i, limit, width);
      assert later[..n][..i] == later[..i];
    }
  }

  lemma {:induction false} NoHits(rs: seq<Request>, b: Bucket, width: nat)
    requires width > 0 && forall i :: 0 <= i < |rs| ==> BucketOf(rs[i], width) != b
    ensures Hits(rs, b, width) == 0
  {
    if rs != [] {
      NoHits(rs[..|rs| - 1], b, width);
    }
  }

  lemma {:induction false} FirstLagging(later: seq<Request>, cutoff: Time, width: nat) returns (i: nat)
    requires width > 0 && !NoneLags(later, cutoff, width)
    ensures i < |later| && BucketOf(later[i], width).window < cutoff && NoneLags(later[..i], cutoff, width)
  {
    var n := |later| - 1;
    if NoneLags(later[..n], cutoff, width) {
      assert forall j :: 0 <= j < n ==> later[..n][j] == later[j];
      i := n;
    } else {
      i := FirstLagging(later[..n], cutoff, width);
      assert later[..n][..i] == later[..i];
    }
  }

  /** A request that read the clock in a removed window, but reaches the counter only after
      the cleanup, gets through although its window had been used up. */
  lemma LaggingRequestGetsThrough(later: seq<Request>, cutoff: Time, limit: nat, width: nat)
    returns (base: map<Bucket, nat>)
    requires width > 0 && limit > 0 && !NoneLags(later, cutoff, width)
    ensures DecisionsFrom(Cleaned(base, cutoff), later, limit, width) != DecisionsFrom(base, later, limit, width)
  {
    var i := FirstLagging(later, cutoff, width);
    var b := BucketOf(later[i], width);
    base := map[b := limit];
    NoHits(later[..i], b, width);
    DecisionAt(base, later, i, limit, width);
    DecisionAt(Cleaned(base, cutoff), later, i, limit, width);
  }

  lemma {:induction false} NothingPasses(base: map<Bucket, nat>, later: seq<Request>, cutoff: Time, limit: int,
      width: nat)
    requires width > 0 && limit <= 0
    ensures DecisionsFrom(Cleaned(base, cutoff), later, limit, width) == DecisionsFrom(base, later, limit, width)
  {
    if later != [] {
      NothingPasses(base, later[..|later| - 1], cutoff, limit, width);
    }
  }

  /** Cleaning out the windows before a cutoff changes no decision on the requests that
      reach the counters afterwards, whatever the counters were, if and only if none of
      them is for a removed window, or nothing is let through at all. */
  lemma CleanupHarmlessIff(later: seq<Request>, cutoff: Time, limit: int, width: nat)
    requires width > 0
    ensures (forall base: map<Bucket, nat> ::
               DecisionsFrom(Cleaned(base, cutoff), later, limit, width) == DecisionsFrom(base, later, limit, width))
            <==> NoneLags(later, cutoff, width) || limit <= 0
  {
    if NoneLags(later, cutoff, width) || limit <= 0 {
      forall base: map<Bucket, nat>
        ensures DecisionsFrom(Cleaned(base, cutoff), later, limit, width) == DecisionsFrom(base, later, limit, width)
      {
        if limit <= 0 {
          NothingPasses(base, later, cutoff, limit, width);
        } else {
          CleanedCounts(base, later, cutoff, limit, width);
        }
      }
    } else {
      var base := LaggingRequestGetsThrough(later, cutoff, limit, width);
    }
  }

  /** Cleaning out every window before the current one, in the middle of any sequence of
      requests, changes no decision if all that follow read the clock from then on. */
  lemma CleanupChangesNoDecision(base: map<Bucket, nat>, earlier: seq<Request>, later: seq<Request>, now: Time,
      limit: int, width: nat)
    requires width > 0 && Counts(base, earlier, width)
    requires forall i :: 0 <= i < |later| ==> now <= later[i].time
    ensures Decisions(earlier + later, limit, width)
            == Decisions(earlier, limit, width)
               + DecisionsFrom(Cleaned(base, Truncate(now, width)), later, limit, width)
  {
    forall i | 0 <= i < |later|
      ensures BucketOf(later[i], width).window >= Truncate(now, width)
    {
      TruncateMonotone(now, later[i].time, width);
    }
    DecisionsContinue(base, earlier, later, limit, width);
    CleanedCounts(base, later, Truncate(now, width), limit, width);
  }

  lemma TruncateMonotone(a: Time, b: Time, width: nat)
    requires width > 0 && a <= b
    ensures Truncate(a, width) <= Truncate(b, width)
  {
    var p, q := a / width, b / width;
    var x, y := p * width, q * width;
    assert a == x + a % width && b == y + b % width;
    var k := q - p;
    assert k * width == y - x;
    MultipleBound(k, width);
  }
}
