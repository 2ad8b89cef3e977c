/**
 * urlTest: a pool of workers sharing one counter, and the ranking of what they measured.
 *
 * A worker runs without interruption from the settling of one probe to the start of its next,
 * so one step is one probe settling. Which probe settles next is up to the schedule; what the
 * probe of server i measures is latencies[i].
 */
module UrlTest {
  import opened Options

  /** Milliseconds, or None for a server that timed out. */
  type Latency = Option<nat>

  datatype WorkerState = Probing(index: nat) | Done

  datatype Pool = Pool(next: nat, results: seq<Option<Latency>>, workers: seq<WorkerState>, probes: seq<nat>)

  function Max(a: int, b: int): int {
    if a < b then b else a
  }

  function Min(a: int, b: int): int {
    if a < b then a else b
  }

  /** The number of workers urlTest creates. */
  function PoolSize(n: nat, concurrency: int): nat {
    Min(Max(1, concurrency), n)
  }

  /** One turn of a worker's loop: take the next server if there is one. */
  function Take(p: Pool): (Pool, WorkerState) {
    if p.next < |p.results| then (p.(next := p.next + 1, probes := p.probes + [p.next]), Probing(p.next))
    else (p, Done)
  }

  function Spawn(p: Pool, k: nat): Pool {
    if k == 0 then p
    else
      var before := Spawn(p, k - 1);
      var (after, w) := Take(before);
      after.(workers := before.workers + [w])
  }

  function Start(n: nat, concurrency: int): Pool {
    Spawn(Pool(0, NoResults(n), [], []), PoolSize(n, concurrency))
  }

  predicate CanSettle(p: Pool, w: nat) {
    w < |p.workers| && p.workers[w].Probing? && p.workers[w].index < |p.results|
  }

  /** The probe of worker `w` settles: its result is stored and the worker takes another server. */
  function Settle(p: Pool, w: nat, latencies: seq<Latency>): Pool
    requires CanSettle(p, w) && |latencies| == |p.results|
  {
    var i := p.workers[w].index;
    var (after, next) := Take(p.(results := p.results[i := Some(latencies[i])]));
    after.(workers := after.workers[w := next])
  }

  predicate Runs(p: Pool, schedule: seq<nat>, latencies: seq<Latency>)
    decreases |schedule|
  {
    schedule == [] ||
    (CanSettle(p, schedule[0]) && |latencies| == |p.results|
     && Runs(Settle(p, schedule[0], latencies), schedule[1..], latencies))
  }

  function After(p: Pool, schedule: seq<nat>, latencies: seq<Latency>): Pool
    requires Runs(p, schedule, latencies)
    decreases |schedule|
  {
    if schedule == [] then p else After(Settle(p, schedule[0], latencies), schedule[1..], latencies)
  }

  predicate AllDone(p: Pool) {
    forall w :: 0 <= w < |p.workers| ==> p.workers[w].Done?
  }

  function InFlight(ws: seq<WorkerState>): (k: nat)
    ensures k <= |ws|
    ensures (forall w :: 0 <= w < |ws| ==> ws[w].Done?) <==> k == 0
  {
    if ws == [] then 0 else InFlight(ws[..|ws| - 1]) + if ws[|ws| - 1].Probing? then 1 else 0
  }

  function Stored(rs: seq<Option<Latency>>): (k: nat)
    ensures k <= |rs|
    ensures k == |rs| <==> forall i :: 0 <= i < |rs| ==> rs[i].Some?
  {
    if rs == [] then 0 else Stored(rs[..|rs| - 1]) + if rs[|rs| - 1].Some? then 1 else 0
  }

  // --- the invariant -------------------------------------------------------

  ghost predicate Probed(p: Pool, i: nat) {
    exists w :: 0 <= w < |p.workers| && p.workers[w] == Probing(i)
  }

  ghost predicate PoolInv(p: Pool, latencies: seq<Latency>) {
    && |p.results| == |latencies|
    && p.next <= |latencies|
    // the servers probed so far are exactly the first `next`, each once and in order
    && |p.probes| == p.next
    && (forall i :: 0 <= i < p.next ==> p.probes[i] == i)
    // each of them has its result or exactly one worker at it
    && (forall i :: 0 <= i < p.next ==> p.results[i] == Some(latencies[i]) || (p.results[i].None? && Probed(p, i)))
    && (forall i :: p.next <= i < |p.results| ==> p.results[i].None?)
    && (forall w :: 0 <= w < |p.workers| && p.workers[w].Probing? ==>
          p.workers[w].index < p.next && p.results[p.workers[w].index].None?)
    && (forall v, w :: 0 <= v < w < |p.workers| && p.workers[v].Probing? ==> p.workers[v] != p.workers[w])
    // a worker stops only when there is nothing left to take
    && (forall w :: 0 <= w < |p.workers| && p.workers[w].Done? ==> p.next == |p.results|)
  }

  function NoResults(n: nat): seq<Option<Latency>> {
    seq(n, _ => None)
  }

  function FirstProbing(k: nat): seq<WorkerState> {
    seq(k, i requires 0 <= i => Probing(i))
  }

  function UpTo(n: nat): seq<nat> {
    seq(n, i requires 0 <= i => i)
  }

  lemma {:induction false} SpawnTakesInOrder(n: nat, k: nat)
    requires k <= n
    ensures Spawn(Pool(0, NoResults(n), [], []), k)
         == Pool(k, NoResults(n), FirstProbing(k), UpTo(k))
  {
    if k > 0 {
      SpawnTakesInOrder(n, k - 1);
      assert FirstProbing(k) == FirstProbing(k - 1) + [Probing(k - 1)];
      assert UpTo(k) == UpTo(k - 1) + [k - 1];
    }
  }

  lemma StartInv(latencies: seq<Latency>, concurrency: int)
    ensures var p := Start(|latencies|, concurrency);
      PoolInv(p, latencies) && |p.workers| == PoolSize(|latencies|, concurrency) && Stored(p.results) == 0
  {
    var n, k := |latencies|, PoolSize(|latencies|, concurrency);
    SpawnTakesInOrder(n, k);
    NothingStored(n);
    var p := Start(n, concurrency);
    forall i | 0 <= i < k ensures Probed(p, i) {
      assert p.workers[i] == Probing(i);
    }
  }

  lemma {:induction false} NothingStored(n: nat)
    ensures Stored(NoResults(n)) == 0
  {
    if n > 0 {
      assert NoResults(n)[..n - 1] == NoResults(n - 1);
      NothingStored(n - 1);
    }
  }

  lemma SettleKeeps(p: Pool, w: nat, latencies: seq<Latency>)
    requires PoolInv(p, latencies) && CanSettle(p, w)
    ensures PoolInv(Settle(p, w, latencies), latencies)
    ensures |Settle(p, w, latencies).workers| == |p.workers|
  {
    var p' := Settle(p, w, latencies);
    var done := p.workers[w].index;
    forall i | 0 <= i < p'.next
      ensures p'.results[i] == Some(latencies[i]) || (p'.results[i].None? && Probed(p', i))
    {
      if i == p.next {
        assert p'.workers[w] == Probing(i);
      } else if i != done && p.results[i].None? {
        var v :| 0 <= v < |p.workers| && p.workers[v] == Probing(i);
        assert p'.workers[v] == Probing(i);
      }
    }
  }

  lemma StoredGrows(rs: seq<Option<Latency>>, i: nat, latency: Latency)
    requires i < |rs| && rs[i].None?
    ensures Stored(rs[i := Some(latency)]) == Stored(rs) + 1
  {
    var rs' := rs[i := Some(latency)];
    if i == |rs| - 1 {
      assert rs'[..|rs| - 1] == rs[..|rs| - 1];
    } else {
      assert rs'[..|rs| - 1] == rs[..|rs| - 1][i := Some(latency)];
      StoredGrows(rs[..|rs| - 1], i, latency);
    }
  }

  lemma {:induction false} RunKeeps(p: Pool, schedule: seq<nat>, latencies: seq<Latency>)
    requires PoolInv(p, latencies) && Runs(p, schedule, latencies)
    ensures var p' := After(p, schedule, latencies);
      && PoolInv(p', latencies) && |p'.workers| == |p.workers|
      && Stored(p'.results) == Stored(p.results) + |schedule|
    decreases |schedule|
  {
    if schedule != [] {
      var w := schedule[0];
      SettleKeeps(p, w, latencies);
      StoredGrows(p.results, p.workers[w].index, latencies[p.workers[w].index]);
      RunKeeps(Settle(p, w, latencies), schedule[1..], latencies);
    }
  }

  lemma Reached(concurrency: int, schedule: seq<nat>, latencies: seq<Latency>)
    requires Runs(Start(|latencies|, concurrency), schedule, latencies)
    ensures var p := After(Start(|latencies|, concurrency), schedule, latencies);
      && PoolInv(p, latencies) && |p.workers| == PoolSize(|latencies|, concurrency)
      && Stored(p.results) == |schedule|
  {
    StartInv(latencies, concurrency);
    RunKeeps(Start(|latencies|, concurrency), schedule, latencies);
  }

  lemma {:induction false} AllInFlight(ws: seq<WorkerState>)
    requires forall w :: 0 <= w < |ws| ==> ws[w].Probing?
    ensures InFlight(ws) == |ws|
  {
    if ws != [] {
      AllInFlight(ws[..|ws| - 1]);
    }
  }

  /** Every worker is at a server as long as there is one left to take. */
  lemma FullWhileMore(p: Pool, latencies: seq<Latency>)
    requires PoolInv(p, latencies) && p.next < |latencies|
    ensures InFlight(p.workers) == |p.workers|
  {
    AllInFlight(p.workers);
  }

  lemma InOrder(p: Pool, latencies: seq<Latency>)
    requires PoolInv(p, latencies)
    ensures p.probes == UpTo(p.next)
  {
  }

  /** As many workers as asked for, one at least, and none without a server to probe. */
  predicate IsWidth(k: nat, n: nat, concurrency: int) {
    k <= n && if n == 0 || concurrency >= n then k == n else if concurrency >= 1 then k == concurrency else k == 1
  }

  /** Exactly min(max(1, concurrency), n) workers start, and each begins with a probe. */
  lemma PoolStartsFull(n: nat, concurrency: int)
    ensures var ws := Start(n, concurrency).workers; InFlight(ws) == |ws| && IsWidth(|ws|, n, concurrency)
  {
    SpawnTakesInOrder(n, PoolSize(n, concurrency));
    AllInFlight(Start(n, concurrency).workers);
  }

  /**
   * Under every schedule the servers probed so far are the first ones of the input, each probed
   * once. Exactly min(max(1, concurrency), n) probes are in flight until the last server has been
   * taken, and never more.
   */
  lemma EachProbedOnce(concurrency: int, schedule: seq<nat>, latencies: seq<Latency>)
    requires Runs(Start(|latencies|, concurrency), schedule, latencies)
    ensures var n, p := |latencies|, After(Start(|latencies|, concurrency), schedule, latencies);
      && p.next <= n && p.probes == UpTo(p.next)
      && InFlight(p.workers) <= |p.workers| && IsWidth(|p.workers|, n, concurrency)
      && (p.next < n ==> InFlight(p.workers) == |p.workers|)
  {
    Reached(concurrency, schedule, latencies);
    var p := After(Start(|latencies|, concurrency), schedule, latencies);
    InOrder(p, latencies);
    if p.next < |latencies| {
      FullWhileMore(p, latencies);
    }
  }

  /**
   * The pool refines a sequential map: it never gets stuck, it is done after exactly as many
   * settled probes as there are servers, and then every server was probed and the results are,
   * position by position, what its probe measured.
   */
  lemma PoolRefinesMap(concurrency: int, schedule: seq<nat>, latencies: seq<Latency>)
    requires Runs(Start(|latencies|, concurrency), schedule, latencies)
    ensures var n, p := |latencies|, After(Start(|latencies|, concurrency), schedule, latencies);
      && |p.results| == n
      && (if AllDone(p) then
            |schedule| == n && p.next == n && forall i :: 0 <= i < n ==> p.results[i] == Some(latencies[i])
          else
            |schedule| < n && exists w :: CanSettle(p, w))
  {
    Reached(concurrency, schedule, latencies);
    var p := After(Start(|latencies|, concurrency), schedule, latencies);
    if AllDone(p) {
      DoneMeansStored(p, latencies, PoolSize(|latencies|, concurrency));
    } else {
      var w :| 0 <= w < |p.workers| && p.workers[w].Probing?;
      assert CanSettle(p, w) && p.results[p.workers[w].index].None?;
    }
  }

  lemma DoneMeansStored(p: Pool, latencies: seq<Latency>, k: nat)
    requires PoolInv(p, latencies) && AllDone(p)
    requires |p.workers| == k && (k == 0 ==> |latencies| == 0)
    ensures p.next == |latencies| && forall i :: 0 <= i < |latencies| ==> p.results[i] == Some(latencies[i])
  {
    if k > 0 {
      assert p.workers[0].Done?;
    }
  }

  // --- ranking -------------------------------------------------------------

  /** One measured server: its position in the input and its latency. */
  datatype Entry = Entry(i: nat, latency: Latency)

  /** The comparator handed to Array.prototype.sort. */
  function Compare(a: Entry, b: Entry): int {
    if a.latency.None? && b.latency.None? then a.i - b.i
    else if a.latency.None? then 1
    else if b.latency.None? then -1
    else if a.latency.value != b.latency.value then a.latency.value - b.latency.value
    else a.i - b.i
  }

  /** What sorting must achieve: faster first, unreachable last, ties in input order. */
  predicate Before(a: Entry, b: Entry) {
    match (a.latency, b.latency)
    case (Some(x), Some(y)) => x < y || (x == y && a.i < b.i)
    case (Some(_), None) => true
    case (None, Some(_)) => false
    case (None, None) => a.i < b.i
  }

  /** The comparator is a consistent strict order on distinct positions, so sorting with it is well defined. */
  lemma ComparatorIsConsistent(a: Entry, b: Entry, c: Entry)
    ensures Compare(a, b) < 0 <==> Before(a, b)
    ensures Compare(a, b) < 0 <==> Compare(b, a) > 0
    ensures Compare(a, b) < 0 && Compare(b, c) < 0 ==> Compare(a, c) < 0
    ensures Compare(a, b) == 0 <==> a.i == b.i && a.latency == b.latency
  {
  }

  /** What Array.prototype.sort may return for a consistent comparator. */
  predicate SortedCopy(out: seq<Entry>, xs: seq<Entry>) {
    multiset(out) == multiset(xs) && forall j, k :: 0 <= j < k < |out| ==> Compare(out[j], out[k]) <= 0
  }

  function Entries(latencies: seq<Latency>): (xs: seq<Entry>)
    ensures |xs| == |latencies|
    ensures forall i :: 0 <= i < |xs| ==> xs[i] == Entry(i, latencies[i])
  {
    seq(|latencies|, i requires 0 <= i < |latencies| => Entry(i, latencies[i]))
  }

  /** Reference: insert one entry after another, each behind all that are not slower. */
  function InsertEntry(x: Entry, sorted: seq<Entry>): seq<Entry> {
    if sorted == [] || Before(x, sorted[0]) then [x] + sorted
    else [sorted[0]] + InsertEntry(x, sorted[1..])
  }

  function Rank(xs: seq<Entry>): seq<Entry> {
    if xs == [] then [] else InsertEntry(xs[|xs| - 1], Rank(xs[..|xs| - 1]))
  }

  lemma {:induction false} InsertKeepsAll(x: Entry, sorted: seq<Entry>)
    ensures multiset(InsertEntry(x, sorted)) == multiset(sorted) + multiset{x}
  {
    if sorted != [] {
      assert sorted == [sorted[0]] + sorted[1..];
      InsertKeepsAll(x, sorted[1..]);
    }
  }

  predicate Ordered(xs: seq<Entry>) {
    forall j, k :: 0 <= j < k < |xs| ==> Compare(xs[j], xs[k]) <= 0
  }

  lemma FrontKeepsOrder(first: Entry, rest: seq<Entry>)
    requires Ordered(rest) && forall k :: 0 <= k < |rest| ==> Compare(first, rest[k]) <= 0
    ensures Ordered([first] + rest)
  {
  }

  lemma {:induction false} InsertKeepsOrder(x: Entry, sorted: seq<Entry>)
    requires Ordered(sorted)
    ensures Ordered(InsertEntry(x, sorted))
  {
    if sorted != [] && !Before(x, sorted[0]) {
      InsertKeepsOrder(x, sorted[1..]);
      InsertKeepsAll(x, sorted[1..]);
      var rest := InsertEntry(x, sorted[1..]);
      forall k | 0 <= k < |rest| ensures Compare(sorted[0], rest[k]) <= 0 {
        assert rest[k] in multiset(rest);
        assert rest[k] == x || rest[k] in sorted[1..];
      }
      FrontKeepsOrder(sorted[0], rest);
    }
  }

  lemma {:induction false} RankSorts(xs: seq<Entry>)
    ensures SortedCopy(Rank(xs), xs)
  {
    if xs != [] {
      var front := xs[..|xs| - 1];
      assert xs == front + [xs[|xs| - 1]];
      RankSorts(front);
      InsertKeepsAll(xs[|xs| - 1], Rank(front));
      InsertKeepsOrder(xs[|xs| - 1], Rank(front));
    }
  }

  lemma SameFirst(a: seq<Entry>, b: seq<Entry>)
    requires multiset(a) == multiset(b) && Ordered(a) && Ordered(b) && a != [] && b != []
    ensures a[0] == b[0]
  {
    assert a[0] in multiset(b) && b[0] in multiset(a);
    var k :| 0 <= k < |b| && b[k] == a[0];
    var j :| 0 <= j < |a| && a[j] == b[0];
    ComparatorIsConsistent(a[0], b[0], a[0]);
    assert Compare(a[0], b[0]) <= 0 && Compare(b[0], a[0]) <= 0;
  }

  /** Sorting leaves no choice: two sorted copies of the same entries are equal. */
  lemma {:induction false} SortIsDetermined(a: seq<Entry>, b: seq<Entry>)
    requires multiset(a) == multiset(b) && Ordered(a) && Ordered(b)
    ensures a == b
  {
    assert |a| == |multiset(a)| == |multiset(b)| == |b|;
    if a != [] {
      SameFirst(a, b);
      assert a == [a[0]] + a[1..] && b == [b[0]] + b[1..];
      assert multiset(a[1..]) == multiset(a) - multiset{a[0]} == multiset(b[1..]);
      SortIsDetermined(a[1..], b[1..]);
    }
  }

  /** The pairs urlTest hands to the sort once all workers are done. */
  function MeasuredEntries(p: Pool): seq<Entry>
    requires forall i :: 0 <= i < |p.results| ==> p.results[i].Some?
  {
    seq(|p.results|, i requires 0 <= i < |p.results| => Entry(i, p.results[i].value))
  }

  /**
   * urlTest as a whole: whatever the schedule and whatever the sorting algorithm, once the workers
   * are done the output is the reference ranking of the measured latencies: every server exactly
   * once, faster before slower, unreachable last, ties in input order.
   */
  lemma UrlTestRanks(concurrency: int, schedule: seq<nat>, latencies: seq<Latency>, out: seq<Entry>)
    requires Runs(Start(|latencies|, concurrency), schedule, latencies)
    requires AllDone(After(Start(|latencies|, concurrency), schedule, latencies))
    ensures var p := After(Start(|latencies|, concurrency), schedule, latencies);
      && (forall i :: 0 <= i < |p.results| ==> p.results[i].Some?)
      && (SortedCopy(out, MeasuredEntries(p)) <==> out == Rank(Entries(latencies)))
    ensures multiset(Rank(Entries(latencies))) == multiset(Entries(latencies))
    ensures var r := Rank(Entries(latencies)); forall j, k :: 0 <= j < k < |r| ==> Before(r[j], r[k])
  {
    PoolRefinesMap(concurrency, schedule, latencies);
    var p := After(Start(|latencies|, concurrency), schedule, latencies);
    assert MeasuredEntries(p) == Entries(latencies);
    RankSorts(Entries(latencies));
    if SortedCopy(out, MeasuredEntries(p)) {
      SortIsDetermined(out, Rank(Entries(latencies)));
    }
    RankIsStrict(latencies);
  }

  /** Positions are distinct, so the order of the ranking is strict. */
  lemma RankIsStrict(latencies: seq<Latency>)
    ensures var r := Rank(Entries(latencies)); forall j, k :: 0 <= j < k < |r| ==> Before(r[j], r[k])
  {
    var xs, r := Entries(latencies), Rank(Entries(latencies));
    RankSorts(xs);
    forall j, k | 0 <= j < k < |r| ensures Before(r[j], r[k]) {
      ComparatorIsConsistent(r[j], r[k], r[j]);
      if r[j] == r[k] {
        OnceEach(xs, r[j]);
        TwiceInSeq(r, j, k);
      }
      assert r[j] in multiset(xs) && r[k] in multiset(xs);
    }
  }

  lemma {:induction false} OnceEach(xs: seq<Entry>, e: Entry)
    requires forall i :: 0 <= i < |xs| ==> xs[i].i == i
    ensures multiset(xs)[e] <= 1
  {
    if xs != [] {
      var front := xs[..|xs| - 1];
      assert xs == front + [xs[|xs| - 1]];
      OnceEach(front, e);
      if xs[|xs| - 1] == e {
        assert e !in front;
      }
    }
  }

  lemma TwiceInSeq(xs: seq<Entry>, j: nat, k: nat)
    requires j < k < |xs| && xs[j] == xs[k]
    ensures multiset(xs)[xs[j]] >= 2
  {
    assert xs == xs[..k] + xs[k..];
    assert xs[j] in xs[..k] && xs[j] in xs[k..] by {
      assert xs[..k][j] == xs[j] && xs[k..][0] == xs[k];
    }
    assert multiset(xs) == multiset(xs[..k]) + multiset(xs[k..]);
  }

  // --- the object ----------------------------------------------------------

  /** The closure variables the workers share. */
  class ProbePool {
    const latencies: seq<Latency>
    var next: nat
    var results: array<Option<Latency>>
    var workers: seq<WorkerState>
    ghost var probes: seq<nat>

    ghost function View(): Pool
      reads this, results
    {
      Pool(next, results[..], workers, probes)
    }

    /** Array.from calls the workers one after another, and each runs until its first await. */
    constructor (latencies: seq<Latency>, concurrency: int)
      ensures this.latencies == latencies
      ensures View() == Start(|latencies|, concurrency) && fresh(results)
    {
      this.latencies := latencies;
      next := 0;
      results := new Option<Latency>[|latencies|](_ => None);
      workers, probes := [], [];
      new;
      var n := |latencies|;
      assert results[..] == NoResults(n);
      for k := 0 to PoolSize(n, concurrency)
        invariant results.Length == n && fresh(results)
        invariant View() == Spawn(Pool(0, NoResults(n), [], []), k)
      {
        var w := TakeNext();
        workers := workers + [w];
      }
    }

    method TakeNext() returns (w: WorkerState)
      modifies `next, `probes
      ensures (View(), w) == Take(old(View()))
    {
      if next < results.Length {
        w := Probing(next);
        probes := probes + [next];
        next := next + 1;
      } else {
        w := Done;
      }
    }

    method ProbeSettles(w: nat)
      requires CanSettle(View(), w) && |latencies| == results.Length
      modifies this, results
      ensures View() == Settle(old(View()), w, latencies) && results == old(results)
    {
      var index := workers[w].index;
      results[index] := Some(latencies[index]);
      var state := TakeNext();
      workers := workers[w := state];
    }
  }
}
