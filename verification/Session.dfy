/**
 * Session traffic totals over engine instances whose counters restart at zero.
 */
module Session {
  import opened Options
  import Protocol

  datatype Traffic = Traffic(uplink: nat, downlink: nat)

  const ZERO := Traffic(0, 0)

  function Plus(a: Traffic, b: Traffic): Traffic {
    Traffic(a.uplink + b.uplink, a.downlink + b.downlink)
  }

  predicate AtMost(a: Traffic, b: Traffic) {
    a.uplink <= b.uplink && a.downlink <= b.downlink
  }

  datatype State = State(baseline: Traffic, lastRaw: Traffic, suspended: bool)

  const FRESH := State(ZERO, ZERO, false)

  function Total(s: State): Traffic {
    Plus(s.baseline, s.lastRaw)
  }

  /** A sample comes from engine instance `generation`, which the session is never told. */
  datatype Event = Update(raw: Traffic, generation: nat) | Suspend | CommitRestart

  /** A counter went backwards in either direction. */
  predicate Dips(raw: Traffic, last: Traffic) {
    raw.uplink < last.uplink || raw.downlink < last.downlink
  }

  function Feed(s: State, raw: Traffic): State {
    if s.suspended then s
    else State(if Dips(raw, s.lastRaw) then Plus(s.baseline, s.lastRaw) else s.baseline, raw, false)
  }

  function Commit(s: State): State {
    State(Plus(s.baseline, s.lastRaw), ZERO, false)
  }

  function Step(s: State, e: Event): State {
    match e
    case Update(raw, _) => Feed(s, raw)
    case Suspend => s.(suspended := true)
    case CommitRestart => Commit(s)
  }

  function Run(es: seq<Event>): State {
    if es == [] then FRESH else Step(Run(es[..|es| - 1]), es[|es| - 1])
  }

  // --- totals only grow ----------------------------------------------------

  /** Within a session the totals never decrease, whatever the engine reports. */
  lemma {:induction false} TotalsNeverDecrease(es: seq<Event>, more: seq<Event>)
    ensures AtMost(Total(Run(es)), Total(Run(es + more)))
    decreases |more|
  {
    if more == [] {
      assert es + more == es;
    } else {
      var front := more[..|more| - 1];
      TotalsNeverDecrease(es, front);
      assert (es + more)[..|es + more| - 1] == es + front;
    }
  }

  // --- what the totals add up to -------------------------------------------

  /** The samples that were not ignored because a restart was in progress. */
  function Accepted(es: seq<Event>): (samples: seq<Event>)
    ensures forall e :: e in samples ==> e.Update?
  {
    if es == [] then []
    else
      var front, e := es[..|es| - 1], es[|es| - 1];
      Accepted(front) + if e.Update? && !Run(front).suspended then [e] else []
  }

  function Larger(a: Traffic, b: Traffic): Traffic {
    Traffic(if a.uplink < b.uplink then b.uplink else a.uplink,
            if a.downlink < b.downlink then b.downlink else a.downlink)
  }

  function Smaller(a: Traffic, b: Traffic): Traffic {
    Traffic(if a.uplink < b.uplink then a.uplink else b.uplink,
            if a.downlink < b.downlink then a.downlink else b.downlink)
  }

  /** What `a` has in excess of `b`. */
  function Minus(a: Traffic, b: Traffic): Traffic {
    Traffic(if a.uplink < b.uplink then 0 else a.uplink - b.uplink,
            if a.downlink < b.downlink then 0 else a.downlink - b.downlink)
  }

  /** The most that an accepted sample of a generation has shown: what is known to have gone through that instance. */
  function Shown(samples: seq<Event>, generation: nat): Traffic
    requires forall e :: e in samples ==> e.Update?
  {
    if samples == [] then ZERO
    else
      var front, e := samples[..|samples| - 1], samples[|samples| - 1];
      if e.generation == generation then Larger(Shown(front, generation), e.raw) else Shown(front, generation)
  }

  /** The sum over the generations below `n` of what each one has shown. */
  function TrueSum(samples: seq<Event>, n: nat): Traffic
    requires forall e :: e in samples ==> e.Update?
  {
    if n == 0 then ZERO else Plus(TrueSum(samples, n - 1), Shown(samples, n - 1))
  }

  predicate GenerationsBelow(samples: seq<Event>, n: nat)
    requires forall e :: e in samples ==> e.Update?
  {
    forall i :: 0 <= i < |samples| ==> samples[i].generation < n
  }

  /** Generations follow one another, counters only grow within one, and all are below `n`. */
  predicate PerGeneration(samples: seq<Event>, n: nat)
    requires forall e :: e in samples ==> e.Update?
  {
    && GenerationsBelow(samples, n)
    && (forall i, j :: 0 <= i < j < |samples| ==> Follows(samples[i], samples[j]))
  }

  /** `e` can have been read after `d`. */
  predicate Follows(d: Event, e: Event)
    requires d.Update? && e.Update?
  {
    d.generation <= e.generation && (d.generation == e.generation ==> AtMost(d.raw, e.raw))
  }

  /**
   * What the session cannot know. `prev` is the last accepted sample, `committed` whether a commit
   * has followed it, `missed` and `recounted` what the total lacks and what it has counted again.
   */
  datatype Ledger = Ledger(prev: Option<Event>, committed: bool, missed: Traffic, recounted: Traffic,
                           overtaken: nat, idleCommits: nat)

  const EMPTY_LEDGER := Ledger(None, false, ZERO, ZERO, 0, 0)

  predicate FitsLedger(l: Ledger) {
    l.prev.Some? ==> l.prev.value.Update?
  }

  /** A restart that no commit and no counter going backwards betrays. */
  predicate IsOvertaken(l: Ledger, e: Event)
    requires FitsLedger(l) && e.Update?
  {
    l.prev.Some? && l.prev.value.generation != e.generation && !l.committed && !Dips(e.raw, l.prev.value.raw)
  }

  /** A commit without a restart. */
  predicate IsIdleCommit(l: Ledger, e: Event)
    requires FitsLedger(l) && e.Update?
  {
    l.prev.Some? && l.prev.value.generation == e.generation && l.committed
  }

  /** How much of a sample the session takes to be in its total already, and replaces. */
  function Kept(l: Ledger, raw: Traffic): Traffic
    requires FitsLedger(l)
  {
    if l.prev.Some? && !l.committed && !Dips(raw, l.prev.value.raw) then l.prev.value.raw else ZERO
  }

  /** How much of a sample an accepted one of the same engine has shown before. */
  function Known(samples: seq<Event>, e: Event): Traffic
    requires (forall x :: x in samples ==> x.Update?) && e.Update?
  {
    Smaller(e.raw, Shown(samples, e.generation))
  }

  /** One accepted sample after another. */
  function Enter(l: Ledger, e: Event, known: Traffic): Ledger
    requires e.Update? && FitsLedger(l)
  {
    var kept := Kept(l, e.raw);
    Ledger(Some(e), false, Plus(l.missed, Minus(kept, known)), Plus(l.recounted, Minus(known, kept)),
           if IsOvertaken(l, e) then l.overtaken + 1 else l.overtaken,
           if IsIdleCommit(l, e) then l.idleCommits + 1 else l.idleCommits)
  }

  function Book(es: seq<Event>): (l: Ledger)
    ensures FitsLedger(l)
  {
    if es == [] then EMPTY_LEDGER
    else
      var front, e := es[..|es| - 1], es[|es| - 1];
      var l := Book(front);
      if e.CommitRestart? then l.(committed := true)
      else if e.Suspend? || Run(front).suspended then l
      else Enter(l, e, Known(Accepted(front), e))
  }

  lemma {:induction false} SumOfNone(n: nat)
    ensures TrueSum([], n) == ZERO
  {
    if n > 0 {
      SumOfNone(n - 1);
    }
  }

  lemma {:induction false} SumUnchangedBelow(samples: seq<Event>, e: Event, n: nat)
    requires (forall x :: x in samples ==> x.Update?) && e.Update? && n <= e.generation
    ensures TrueSum(samples + [e], n) == TrueSum(samples, n)
  {
    if n > 0 {
      SumUnchangedBelow(samples, e, n - 1);
      assert (samples + [e])[..|samples|] == samples;
    }
  }

  lemma LargerAndSmaller(a: Traffic, b: Traffic)
    ensures Plus(Larger(a, b), Smaller(b, a)) == Plus(a, b)
  {
  }

  /** A new sample adds to the sum what was not known of it. */
  lemma {:induction false} SumGrows(samples: seq<Event>, e: Event, n: nat)
    requires (forall x :: x in samples ==> x.Update?) && e.Update? && e.generation < n
    ensures Plus(TrueSum(samples + [e], n), Known(samples, e)) == Plus(TrueSum(samples, n), e.raw)
  {
    assert (samples + [e])[..|samples|] == samples;
    if e.generation == n - 1 {
      SumUnchangedBelow(samples, e, n - 1);
      LargerAndSmaller(Shown(samples, n - 1), e.raw);
    } else {
      SumGrows(samples, e, n - 1);
    }
  }

  /** The session's last raw sample is the ledger's last entry, unless it has been banked. */
  predicate Matches(s: State, l: Ledger)
    requires FitsLedger(l)
  {
    s.lastRaw == if l.prev.None? || l.committed then ZERO else l.prev.value.raw
  }

  lemma OneMore(front: seq<Event>, e: Event)
    ensures Run(front + [e]) == Step(Run(front), e)
    ensures Accepted(front + [e]) == if e.Update? && !Run(front).suspended then Accepted(front) + [e] else Accepted(front)
  {
    assert (front + [e])[..|front|] == front;
  }

  lemma OneMoreInBook(front: seq<Event>, e: Event)
    ensures var l := Book(front);
      Book(front + [e]) ==
        if e.CommitRestart? then l.(committed := true)
        else if e.Suspend? || Run(front).suspended then l
        else Enter(l, e, Known(Accepted(front), e))
  {
    assert (front + [e])[..|front|] == front;
  }

  lemma {:induction false} BookFollows(es: seq<Event>)
    ensures var a, l := Accepted(es), Book(es);
      (l.prev == if a == [] then None else Some(a[|a| - 1])) && Matches(Run(es), l)
  {
    if es != [] {
      var front, e := es[..|es| - 1], es[|es| - 1];
      BookFollows(front);
      if e.Update? && !Run(front).suspended {
        assert Run(es).lastRaw == e.raw && Book(es) == Enter(Book(front), e, Known(Accepted(front), e));
      }
    }
  }

  /** An accepted sample adds to the total what it does not replace. */
  lemma TotalGrows(s: State, l: Ledger, raw: Traffic)
    requires FitsLedger(l) && !s.suspended && Matches(s, l)
    ensures Plus(Total(Feed(s, raw)), Kept(l, raw)) == Plus(Total(s), raw)
  {
  }

  lemma StaysBalanced(total: Traffic, total': Traffic, truth: Traffic, truth': Traffic,
                      missed: Traffic, recounted: Traffic, kept: Traffic, known: Traffic, raw: Traffic)
    requires Plus(total, missed) == Plus(truth, recounted)
    requires Plus(total', kept) == Plus(total, raw) && Plus(truth', known) == Plus(truth, raw)
    ensures Plus(total', Plus(missed, Minus(kept, known))) == Plus(truth', Plus(recounted, Minus(known, kept)))
  {
  }

  ghost predicate Balanced(es: seq<Event>, n: nat) {
    Plus(Total(Run(es)), Book(es).missed) == Plus(TrueSum(Accepted(es), n), Book(es).recounted)
  }

  lemma AcceptedAccounting(front: seq<Event>, e: Event, n: nat)
    requires e.Update? && !Run(front).suspended && e.generation < n && Balanced(front, n)
    ensures Balanced(front + [e], n)
  {
    var before, l, known := Accepted(front), Book(front), Known(Accepted(front), e);
    OneMore(front, e);
    OneMoreInBook(front, e);
    BookFollows(front);
    SumGrows(before, e, n);
    TotalGrows(Run(front), l, e.raw);
    StaysBalanced(Total(Run(front)), Total(Run(front + [e])), TrueSum(before, n), TrueSum(before + [e], n),
                  l.missed, l.recounted, Kept(l, e.raw), known, e.raw);
  }

  lemma TotalStays(s: State, e: Event)
    requires !e.Update? || s.suspended
    ensures Total(Step(s, e)) == Total(s)
  {
  }

  /** Everything but an accepted sample leaves both sides as they are. */
  lemma IdleAccounting(front: seq<Event>, e: Event, n: nat)
    requires !e.Update? || Run(front).suspended
    requires Balanced(front, n)
    ensures Balanced(front + [e], n)
  {
    OneMore(front, e);
    OneMoreInBook(front, e);
    TotalStays(Run(front), e);
    assert Book(front + [e]).missed == Book(front).missed && Book(front + [e]).recounted == Book(front).recounted;
  }

  lemma BelowBefore(front: seq<Event>, e: Event, n: nat)
    requires GenerationsBelow(Accepted(front + [e]), n)
    ensures GenerationsBelow(Accepted(front), n)
    ensures e.Update? && !Run(front).suspended ==> e.generation < n
  {
    OneMore(front, e);
    var all := Accepted(front + [e]);
    assert forall i :: 0 <= i < |Accepted(front)| ==> all[i] == Accepted(front)[i];
    if e.Update? && !Run(front).suspended {
      assert all[|all| - 1] == e;
    }
  }

  lemma NothingIsBalanced(n: nat)
    ensures Balanced([], n)
  {
    SumOfNone(n);
  }

  lemma {:induction false} EveryRunBalances(es: seq<Event>, n: nat)
    requires GenerationsBelow(Accepted(es), n)
    ensures Balanced(es, n)
  {
    if es == [] {
      NothingIsBalanced(n);
    } else {
      var front, e := es[..|es| - 1], es[|es| - 1];
      assert es == front + [e];
      BelowBefore(front, e, n);
      EveryRunBalances(front, n);
      if e.Update? && !Run(front).suspended {
        AcceptedAccounting(front, e, n);
      } else {
        IdleAccounting(front, e, n);
      }
    }
  }

  /**
   * Exact accounting, for every sequence of events and samples in any order: the total falls short of
   * the true sum by what has been missed, and exceeds it by what has been counted again.
   */
  lemma ExactAccounting(es: seq<Event>, n: nat)
    requires GenerationsBelow(Accepted(es), n)
    ensures Plus(Total(Run(es)), Book(es).missed) == Plus(TrueSum(Accepted(es), n), Book(es).recounted)
  {
    EveryRunBalances(es, n);
  }

  lemma SameOnBothSides(total: Traffic, missed: Traffic, sum: Traffic, recounted: Traffic)
    requires Plus(total, missed) == Plus(sum, recounted)
    ensures total == sum <==> missed == recounted
    ensures recounted == ZERO ==> AtMost(total, sum)
  {
  }

  /** The total is exact if and only if what has been missed and what has been counted again are the same. */
  lemma ExactIff(es: seq<Event>, n: nat)
    requires GenerationsBelow(Accepted(es), n)
    ensures Total(Run(es)) == TrueSum(Accepted(es), n) <==> Book(es).missed == Book(es).recounted
  {
    ExactAccounting(es, n);
    SameOnBothSides(Total(Run(es)), Book(es).missed, TrueSum(Accepted(es), n), Book(es).recounted);
  }

  // --- exact all along -----------------------------------------------------

  /** The session accepts this sample and does not replace exactly what was known of it. */
  predicate Miscounts(es: seq<Event>, e: Event) {
    e.Update? && !Run(es).suspended && Kept(Book(es), e.raw) != Known(Accepted(es), e)
  }

  lemma DifferentExcess(missed: Traffic, recounted: Traffic, kept: Traffic, known: Traffic)
    requires missed == recounted
    ensures Plus(missed, Minus(kept, known)) == Plus(recounted, Minus(known, kept)) <==> kept == known
  {
  }

  /** A total that was exact stays so exactly when the next event is no miscounted sample. */
  lemma StaysExactIff(front: seq<Event>, e: Event)
    requires Book(front).missed == Book(front).recounted
    ensures Book(front + [e]).missed == Book(front + [e]).recounted <==> !Miscounts(front, e)
  {
    OneMoreInBook(front, e);
    if e.Update? && !Run(front).suspended {
      DifferentExcess(Book(front).missed, Book(front).recounted, Kept(Book(front), e.raw), Known(Accepted(front), e));
    }
  }

  // --- samples in order ----------------------------------------------------

  predicate EndsWith(samples: seq<Event>, generation: nat)
    requires forall x :: x in samples ==> x.Update?
  {
    samples != [] && samples[|samples| - 1].generation == generation
  }

  /** What a generation has shown is its last accepted sample, if the samples are in order. */
  lemma {:induction false} ShownInOrder(samples: seq<Event>, n: nat, generation: nat)
    requires (forall x :: x in samples ==> x.Update?) && PerGeneration(samples, n)
    requires samples != [] ==> samples[|samples| - 1].generation <= generation
    ensures Shown(samples, generation) ==
      if EndsWith(samples, generation) then samples[|samples| - 1].raw else ZERO
  {
    if samples != [] {
      var front, e := samples[..|samples| - 1], samples[|samples| - 1];
      assert forall i :: 0 <= i < |front| ==> front[i] == samples[i];
      if front != [] {
        assert Follows(samples[|samples| - 2], e);
      }
      ShownInOrder(front, n, generation);
      if e.generation == generation {
        assert AtMost(Shown(front, generation), e.raw);
        LargerIsLater(Shown(front, generation), e.raw);
        assert Shown(samples, generation) == Larger(Shown(front, generation), e.raw);
      } else {
        assert Shown(samples, generation) == Shown(front, generation);
        assert !EndsWith(front, generation);
      }
    }
  }

  lemma LargerIsLater(a: Traffic, b: Traffic)
    requires AtMost(a, b)
    ensures Larger(a, b) == b
  {
  }

  lemma OrderBefore(before: seq<Event>, e: Event, n: nat)
    requires (forall x :: x in before ==> x.Update?) && e.Update? && PerGeneration(before + [e], n)
    ensures PerGeneration(before, n) && e.generation < n
    ensures before != [] ==> Follows(before[|before| - 1], e)
  {
    var a := before + [e];
    assert forall i :: 0 <= i < |before| ==> before[i] == a[i];
    assert a[|a| - 1] == e;
    if before != [] {
      assert Follows(a[|a| - 2], a[|a| - 1]);
    }
  }

  /**
   * In order there are two ways to miscount. A restart that is overtaken hides the sample before it,
   * and an idle commit counts the sample before it again.
   */
  lemma InOrderEnter(l: Ledger, before: seq<Event>, e: Event, n: nat)
    requires (forall x :: x in before ==> x.Update?) && e.Update? && PerGeneration(before + [e], n)
    requires l.prev == if before == [] then None else Some(before[|before| - 1])
    ensures FitsLedger(l)
    ensures var kept, known := Kept(l, e.raw), Known(before, e);
      && Minus(kept, known) == (if IsOvertaken(l, e) then l.prev.value.raw else ZERO)
      && Minus(known, kept) == (if IsIdleCommit(l, e) then l.prev.value.raw else ZERO)
      && (kept != known <==> (IsOvertaken(l, e) || IsIdleCommit(l, e)) && l.prev.value.raw != ZERO)
  {
    OrderBefore(before, e, n);
    ShownInOrder(before, n, e.generation);
  }

  /** The sample meets one of the two guards, after a sample that is not zero. */
  predicate MeetsGuard(l: Ledger, e: Event)
    requires FitsLedger(l) && e.Update?
  {
    (IsOvertaken(l, e) || IsIdleCommit(l, e)) && l.prev.value.raw != ZERO
  }

  /** With samples in order a sample is miscounted exactly when it meets one of the two guards. */
  lemma MiscountsInOrder(es: seq<Event>, e: Event, n: nat)
    requires e.Update? && PerGeneration(Accepted(es) + [e], n)
    ensures Miscounts(es, e) <==> !Run(es).suspended && MeetsGuard(Book(es), e)
  {
    var l, before := Book(es), Accepted(es);
    assert l.prev == if before == [] then None else Some(before[|before| - 1]) by {
      BookFollows(es);
    }
    InOrderEnter(l, before, e, n);
  }

  lemma NothingAdded(a: Traffic, b: Traffic)
    requires b == ZERO
    ensures Plus(a, b) == a
  {
  }

  predicate AmountsFit(l: Ledger) {
    (l.overtaken == 0 ==> l.missed == ZERO) && (l.idleCommits == 0 ==> l.recounted == ZERO)
  }

  lemma MissedFits(l: Ledger, e: Event, known: Traffic)
    requires FitsLedger(l) && e.Update? && AmountsFit(l)
    requires IsOvertaken(l, e) || Minus(Kept(l, e.raw), known) == ZERO
    ensures Enter(l, e, known).overtaken == 0 ==> Enter(l, e, known).missed == ZERO
  {
    if Enter(l, e, known).overtaken == 0 {
      NothingAdded(l.missed, Minus(Kept(l, e.raw), known));
    }
  }

  lemma RecountedFits(l: Ledger, e: Event, known: Traffic)
    requires FitsLedger(l) && e.Update? && AmountsFit(l)
    requires IsIdleCommit(l, e) || Minus(known, Kept(l, e.raw)) == ZERO
    ensures Enter(l, e, known).idleCommits == 0 ==> Enter(l, e, known).recounted == ZERO
  {
    if Enter(l, e, known).idleCommits == 0 {
      NothingAdded(l.recounted, Minus(known, Kept(l, e.raw)));
    }
  }

  lemma AmountsStayFit(l: Ledger, before: seq<Event>, e: Event, n: nat)
    requires (forall x :: x in before ==> x.Update?) && e.Update? && PerGeneration(before + [e], n)
    requires l.prev == if before == [] then None else Some(before[|before| - 1])
    requires AmountsFit(l)
    ensures FitsLedger(l) && AmountsFit(Enter(l, e, Known(before, e)))
  {
    InOrderEnter(l, before, e, n);
    MissedFits(l, e, Known(before, e));
    RecountedFits(l, e, Known(before, e));
  }

  /** In order, only overtaken restarts hide anything, and only idle commits count anything again. */
  lemma {:induction false} WhatIsAmiss(es: seq<Event>, n: nat)
    requires PerGeneration(Accepted(es), n)
    ensures AmountsFit(Book(es))
  {
    if es != [] {
      var front, e := es[..|es| - 1], es[|es| - 1];
      assert es == front + [e];
      OneMore(front, e);
      OneMoreInBook(front, e);
      if e.Update? && !Run(front).suspended {
        OrderBefore(Accepted(front), e, n);
        WhatIsAmiss(front, n);
        BookFollows(front);
        AmountsStayFit(Book(front), Accepted(front), e, n);
      } else {
        WhatIsAmiss(front, n);
      }
    }
  }

  /**
   * When every commit separates two generations the total never exceeds the true sum, and it
   * equals the true sum exactly when the overtaken restarts hid nothing.
   */
  lemma TotalsAgainstTruth(es: seq<Event>, n: nat)
    requires PerGeneration(Accepted(es), n) && Book(es).idleCommits == 0
    ensures AtMost(Total(Run(es)), TrueSum(Accepted(es), n))
    ensures Total(Run(es)) == TrueSum(Accepted(es), n) <==> Book(es).missed == ZERO
    ensures Book(es).overtaken == 0 ==> Total(Run(es)) == TrueSum(Accepted(es), n)
  {
    WhatIsAmiss(es, n);
    ExactAccounting(es, n);
    SameOnBothSides(Total(Run(es)), Book(es).missed, TrueSum(Accepted(es), n), Book(es).recounted);
  }

  // --- two ways to go wrong ------------------------------------------------

  lemma ShownByOne(a: seq<Event>, generation: nat)
    requires |a| == 1 && a[0].Update?
    ensures Shown(a, generation) == if a[0].generation == generation then a[0].raw else ZERO
  {
    assert a[..0] == [];
    assert Shown([], generation) == ZERO;
  }

  lemma KnownOfOne(a: Event, b: Event)
    requires a.Update? && b.Update?
    ensures Known([], a) == ZERO
    ensures Known([a], b) == if a.generation == b.generation then Smaller(b.raw, a.raw) else ZERO
  {
    ShownByOne([a], b.generation);
  }

  lemma Cancels(x: Traffic, known: Traffic, before: Traffic, raw: Traffic)
    requires Plus(x, known) == Plus(before, raw)
    ensures (known == Smaller(raw, before) ==> x == Larger(before, raw)) && (known == ZERO ==> x == Plus(before, raw))
  {
  }

  lemma SumOfOne(a: Event, n: nat)
    requires a.Update? && a.generation < n
    ensures TrueSum([a], n) == a.raw
  {
    SumOfNone(n);
    SumGrows([], a, n);
    assert [] + [a] == [a];
    KnownOfOne(a, a);
    Cancels(TrueSum([a], n), ZERO, ZERO, a.raw);
    LargerIsLater(ZERO, a.raw);
  }

  /** The true sum of two accepted samples: the larger one alone if they come from the same engine. */
  lemma SumOfTwo(a: Event, b: Event, n: nat)
    requires a.Update? && b.Update? && a.generation < n && b.generation < n
    ensures TrueSum([a, b], n) == if a.generation == b.generation then Larger(a.raw, b.raw) else Plus(a.raw, b.raw)
  {
    SumOfOne(a, n);
    SumGrows([a], b, n);
    assert [a] + [b] == [a, b];
    KnownOfOne(a, b);
    Cancels(TrueSum([a, b], n), Known([a], b), a.raw, b.raw);
  }

  lemma FedTwice(s: State, c1: Traffic, c2: Traffic)
    requires s.baseline == ZERO && s.lastRaw == ZERO && !s.suspended && AtMost(c1, c2)
    ensures Total(Feed(Feed(s, c1), c2)) == c2 && !Feed(s, c1).suspended
  {
  }

  lemma FedAroundCommit(s: State, c1: Traffic, c2: Traffic)
    requires s.baseline == ZERO && s.lastRaw == ZERO && !s.suspended
    ensures Total(Feed(Commit(Feed(s, c1)), c2)) == Plus(c1, c2) && !Feed(s, c1).suspended
  {
  }

  /** A restart that no commit separates and no counter betrays: the sample before it is lost. */
  lemma OvertakenRestartHides(front: seq<Event>, c1: Traffic, c2: Traffic, g: nat)
    requires Run(front) == FRESH && Accepted(front) == [] && AtMost(c1, c2)
    ensures var es := front + [Update(c1, g)] + [Update(c2, g + 1)];
      Total(Run(es)) == c2 && Accepted(es) == [Update(c1, g), Update(c2, g + 1)]
    ensures TrueSum([Update(c1, g), Update(c2, g + 1)], g + 2) == Plus(c1, c2)
  {
    var a, b := Update(c1, g), Update(c2, g + 1);
    OneMore(front, a);
    OneMore(front + [a], b);
    FedTwice(Run(front), c1, c2);
    assert [] + [a] + [b] == [a, b];
    SumOfTwo(a, b, g + 2);
  }

  lemma TwoInOrder(a: Event, b: Event, n: nat)
    requires a.Update? && b.Update? && Follows(a, b) && b.generation < n
    ensures PerGeneration([a, b], n)
  {
  }

  /** 6 counted where 11 went through. */
  lemma OvertakenRestartIsLost() returns (es: seq<Event>)
    ensures es == [Update(Traffic(5, 5), 0), Update(Traffic(6, 6), 1)] && PerGeneration(Accepted(es), 2)
    ensures Total(Run(es)) == Traffic(6, 6) && TrueSum(Accepted(es), 2) == Traffic(11, 11)
  {
    var a, b := Update(Traffic(5, 5), 0), Update(Traffic(6, 6), 1);
    OvertakenRestartHides([], a.raw, b.raw, 0);
    TwoInOrder(a, b, 2);
    es := [] + [a] + [b];
  }

  /** A commit between two samples of one engine: the first of them is counted twice. */
  lemma IdleCommitDoubles(front: seq<Event>, c1: Traffic, c2: Traffic, g: nat)
    requires Run(front) == FRESH && Accepted(front) == []
    ensures var es := front + [Update(c1, g)] + [CommitRestart] + [Update(c2, g)];
      Total(Run(es)) == Plus(c1, c2) && Accepted(es) == [Update(c1, g), Update(c2, g)]
    ensures TrueSum([Update(c1, g), Update(c2, g)], g + 1) == Larger(c1, c2)
  {
    var a, b := Update(c1, g), Update(c2, g);
    OneMore(front, a);
    OneMore(front + [a], CommitRestart);
    OneMore(front + [a] + [CommitRestart], b);
    FedAroundCommit(Run(front), c1, c2);
    assert [] + [a] + [b] == [a, b];
    SumOfTwo(a, b, g + 1);
  }

  /** A commit without a restart counts twice: 11 counted, 6 went through. */
  lemma IdleCommitOvercounts() returns (es: seq<Event>)
    ensures es == [Update(Traffic(5, 5), 0), CommitRestart, Update(Traffic(6, 6), 0)] && PerGeneration(Accepted(es), 1)
    ensures Total(Run(es)) == Traffic(11, 11) && TrueSum(Accepted(es), 1) == Traffic(6, 6)
  {
    var a, b := Update(Traffic(5, 5), 0), Update(Traffic(6, 6), 0);
    IdleCommitDoubles([], a.raw, b.raw, 0);
    TwoInOrder(a, b, 1);
    es := [] + [a] + [CommitRestart] + [b];
  }

  // --- how state events drive a session ------------------------------------

  /** ensureSessionStateHook: what the state listener passes on to a session. */
  function Told(state: Protocol.Emitted): seq<Event> {
    match state
    case Connecting => [Suspend]
    case Connected => [CommitRestart]
    case Disconnected => [CommitRestart]
    case Failed => [CommitRestart]
    case Blocked => [CommitRestart]
    case _ => []
  }

  /** 'connecting' freezes, every terminal state banks. */
  function OnState(s: State, state: Protocol.Emitted): State {
    if Told(state) == [] then s else Step(s, Told(state)[0])
  }

  /** The state after `samples` while nothing is emitted. */
  function FeedAll(s: State, samples: seq<Traffic>): State
    decreases |samples|
  {
    if samples == [] then s else FeedAll(Feed(s, samples[0]), samples[1..])
  }

  lemma {:induction false} FrozenWhileSuspended(s: State, samples: seq<Traffic>)
    requires s.suspended
    ensures FeedAll(s, samples) == s
    decreases |samples|
  {
    if samples != [] {
      FrozenWhileSuspended(s, samples[1..]);
    }
  }

  /**
   * A restart reported as 'connecting' and then any terminal state is banked exactly: samples
   * taken in between change nothing, and the next sample counts in full even if it is already
   * above the last one of the old engine.
   */
  lemma ReportedRestartIsExact(s: State, noise: seq<Traffic>, state: Protocol.Emitted, raw: Traffic)
    requires state in {Protocol.Connected, Protocol.Disconnected, Protocol.Failed, Protocol.Blocked}
    ensures var frozen := FeedAll(OnState(s, Protocol.Connecting), noise);
      && Total(frozen) == Total(s)
      && Total(Feed(OnState(frozen, state), raw)) == Plus(Total(s), raw)
  {
    FrozenWhileSuspended(OnState(s, Protocol.Connecting), noise);
  }

  // --- the objects ---------------------------------------------------------

  class TrafficSession {
    var baselineUp: nat
    var baselineDown: nat
    var lastRawUp: nat
    var lastRawDown: nat
    var suspended: bool

    ghost function View(): State
      reads this
    {
      State(Traffic(baselineUp, baselineDown), Traffic(lastRawUp, lastRawDown), suspended)
    }

    constructor ()
      ensures View() == FRESH
    {
      baselineUp, baselineDown, lastRawUp, lastRawDown, suspended := 0, 0, 0, 0, false;
    }

    /** The result is always the session total after the sample. */
    method Update(raw: Traffic) returns (total: Traffic)
      modifies this
      ensures View() == Feed(old(View()), raw)
      ensures total == Total(View()) && AtMost(Total(old(View())), total)
    {
      if suspended {
        return Traffic(baselineUp + lastRawUp, baselineDown + lastRawDown);
      }
      if raw.uplink < lastRawUp || raw.downlink < lastRawDown {
        baselineUp := baselineUp + lastRawUp;
        baselineDown := baselineDown + lastRawDown;
      }
      lastRawUp := raw.uplink;
      lastRawDown := raw.downlink;
      return Traffic(baselineUp + raw.uplink, baselineDown + raw.downlink);
    }

    method SuspendSamples()
      modifies this
      ensures View() == Step(old(View()), Suspend)
    {
      suspended := true;
    }

    method CommitRestartNow()
      modifies this
      ensures View() == Step(old(View()), CommitRestart)
    {
      baselineUp := baselineUp + lastRawUp;
      baselineDown := baselineDown + lastRawDown;
      lastRawUp := 0;
      lastRawDown := 0;
      suspended := false;
    }

    method Hear(state: Protocol.Emitted)
      modifies this
      ensures View() == OnState(old(View()), state)
    {
      if state.Connecting? {
        SuspendSamples();
      } else if state.Connected? || state.Disconnected? || state.Failed? || state.Blocked? {
        CommitRestartNow();
      }
    }

    method Reset()
      modifies this
      ensures View() == FRESH
    {
      baselineUp := 0;
      baselineDown := 0;
      lastRawUp := 0;
      lastRawDown := 0;
      suspended := false;
    }
  }

  /** The sessions of the client, one for each outbound tag. */
  class TrafficSessions {
    var sessions: map<string, TrafficSession>

    ghost predicate Valid()
      reads this
    {
      forall a, b :: a in sessions && b in sessions && sessions[a] == sessions[b] ==> a == b
    }

    ghost function View(): map<string, State>
      reads this, sessions.Values
    {
      map tag | tag in sessions :: sessions[tag].View()
    }

    constructor ()
      ensures Valid() && View() == map[]
    {
      sessions := map[];
    }

    /** stats(): only the session of `tag` is touched; a tag seen for the first time starts fresh. */
    method Stats(tag: string, raw: Traffic) returns (total: Traffic)
      requires Valid()
      modifies this, sessions.Values
      ensures Valid() && fresh(sessions.Values - old(sessions.Values))
      ensures View() == old(View())[tag := Feed(if tag in old(View()) then old(View())[tag] else FRESH, raw)]
      ensures total == Total(View()[tag])
    {
      if tag !in sessions {
        var session := new TrafficSession();
        sessions := sessions[tag := session];
        assert sessions[tag] in sessions.Values;
      }
      total := sessions[tag].Update(raw);
    }

    method OnStateChange(state: Protocol.Emitted)
      requires Valid()
      modifies sessions.Values
      ensures View() == map tag | tag in old(View()) :: OnState(old(View())[tag], state)
    {
      var left := sessions.Keys;
      while left != {}
        invariant left <= sessions.Keys
        invariant forall tag :: tag in left ==> sessions[tag].View() == old(sessions[tag].View())
        invariant forall tag :: tag in sessions && tag !in left ==>
          sessions[tag].View() == OnState(old(sessions[tag].View()), state)
      {
        var tag :| tag in left;
        sessions[tag].Hear(state);
        left := left - {tag};
      }
    }

    method ResetAll()
      requires Valid()
      modifies sessions.Values
      ensures View() == map tag | tag in old(View()) :: FRESH
    {
      var left := sessions.Keys;
      while left != {}
        invariant left <= sessions.Keys
        invariant forall tag :: tag in sessions && tag !in left ==> sessions[tag].View() == FRESH
      {
        var tag :| tag in left;
        sessions[tag].Reset();
        left := left - {tag};
      }
    }
  }
}
