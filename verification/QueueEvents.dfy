/** Requests for builders, OpenStack commands and retry timers keep the invariant. */
module QueueEvents {
  import opened Bags
  import opened Builders
  import opened Options
  import opened PoolModel
  import opened SystemModel
  import opened Invariant
  import opened ConnectionEvents

  // ---------- a client asks for a builder ----------

  /** A request for a builder leaves the io_context and joins the pending list. */
  lemma EnqueueCore(s: System, i: nat)
    requires Inv(s) && i < |s.pool.tasks| && s.pool.tasks[i].Client? && s.pool.tasks[i].step.Requesting?
    ensures var r := s.(pool := Enqueue(TakeTask(s, i).pool, s.pool.tasks[i].conn));
      Core(r) && Refilled(r.pool) && NearlyAwake(r.pool)
  {
    hide Bag, Sum;
    TaskConnAlive(s, i);
    EnqueuePool(s.pool, i);
    EnqueueConns(s, i);
  }

  lemma EnqueuePool(p: Pool, i: nat)
    requires PoolCore(p) && Refilled(p) && NoLostWakeup(p)
    requires i < |p.tasks| && p.tasks[i].Client? && p.tasks[i].step.Requesting?
    ensures var q := Enqueue(p.(tasks := RemoveAt(p.tasks, i)), p.tasks[i].conn);
      PoolCore(q) && Refilled(q) && NearlyAwake(q)
  {
    hide Bag, Sum;
    NoTotals();
    var rest := Swap(p, i, []);
    assert rest == p.(tasks := RemoveAt(p.tasks, i)) by {
      assert RemoveAt(p.tasks, i) + [] == RemoveAt(p.tasks, i);
    }
    ClientSwapPool(p, i, []);
    EnqueueMoves(p, i);
    EnqueueOnly(rest, p.tasks[i].conn);
  }

  lemma EnqueueOnly(p: Pool, c: nat)
    requires PoolCore(p) && Refilled(p) && NoLostWakeup(p) && NoDup(MayAsk(Enqueue(p, c)))
    ensures PoolCore(Enqueue(p, c)) && Refilled(Enqueue(p, c)) && NearlyAwake(Enqueue(p, c))
  {
    hide Bag, Sum;
    assert HandedOut(Enqueue(p, c)) == HandedOut(p);
  }

  lemma EnqueueConns(s: System, i: nat)
    requires ConnCore(s) && i < |s.pool.tasks| && s.pool.tasks[i].Client? && s.pool.tasks[i].step.Requesting?
    requires s.pool.tasks[i].conn < |s.conns|
    ensures ConnCore(s.(pool := Enqueue(TakeTask(s, i).pool, s.pool.tasks[i].conn)))
  {
    hide Bag, Sum;
    EnqueueTotals(s.pool, i);
    EnqueueMoves(s.pool, i);
    GrantsKeptOn(s, i, s.(pool := Enqueue(TakeTask(s, i).pool, s.pool.tasks[i].conn)), []);
  }

  lemma EnqueueMoves(p: Pool, i: nat)
    requires i < |p.tasks| && p.tasks[i].Client? && p.tasks[i].step.Requesting?
    ensures var q := Enqueue(p.(tasks := RemoveAt(p.tasks, i)), p.tasks[i].conn);
      Refs(q) == Refs(p) && MayAsk(q) == MayAsk(p)
  {
    hide Bag, Sum;
    NoTotals();
    var c, rest := p.tasks[i].conn, RemoveAt(p.tasks, i);
    assert rest + [] == rest;
    BagSwap(p.tasks, i, [], ConnOf);
    BagSwap(p.tasks, i, [], EarlyOf);
    Shift(Bag(rest, ConnOf), multiset(p.pending), multiset{c});
    Shift(Bag(rest, EarlyOf), multiset(p.log.checkouts), multiset{c});
  }

  lemma Shift<B>(a: multiset<B>, b: multiset<B>, x: multiset<B>)
    ensures a + (b + x) == (a + x) + b
    ensures (b + x) + a == b + (a + x)
  {
  }

  lemma EnqueueTotals(p: Pool, i: nat)
    requires i < |p.tasks| && p.tasks[i].Client? && p.tasks[i].step.Requesting?
    ensures var q := Enqueue(p.(tasks := RemoveAt(p.tasks, i)), p.tasks[i].conn);
      && q.tasks == RemoveAt(p.tasks, i) + []
      && Holding(q) == Holding(p) && IssuedIds(q) == IssuedIds(p)
      && Bag(q.tasks, HandoutOf) == Bag(p.tasks, HandoutOf)
      && Bag(q.tasks, DestroyOf) == Bag(p.tasks, DestroyOf)
      && Sum(q.tasks, CreateOp) == Sum(p.tasks, CreateOp)
      && Sum(q.tasks, CreateTimerOp) == Sum(p.tasks, CreateTimerOp)
  {
    hide Bag, Sum;
    NoTotals();
    assert RemoveAt(p.tasks, i) + [] == RemoveAt(p.tasks, i);
    ClientSwapCounts(p, i, []);
    BagSwap(p.tasks, i, [], HoldingOf);
    BagSwap(p.tasks, i, [], HandoutOf);
    BagSwap(p.tasks, i, [], DestroyOf);
  }

  // ---------- OpenStack commands and timers ----------

  /** An operation of no connection gives way to others of no connection. */
  lemma PoolSwapSame(p: Pool, i: nat, more: seq<Task>)
    requires i < |p.tasks| && !p.tasks[i].Client?
    requires Bag(more, ConnOf) == multiset{} && Bag(more, HoldingOf) == multiset{}
    requires Bag(more, EarlyOf) == multiset{} && Bag(more, HandoutOf) == multiset{}
    ensures var q := Swap(p, i, more);
      && Refs(q) == Refs(p) && Holding(q) == Holding(p) && MayAsk(q) == MayAsk(p)
      && Bag(q.tasks, HandoutOf) == Bag(p.tasks, HandoutOf)
  {
    hide Bag, Sum;
    SwapRefs(p, i, more);
    SwapMayAsk(p, i, more);
    BagSwap(p.tasks, i, more, HoldingOf);
    BagSwap(p.tasks, i, more, HandoutOf);
  }

  lemma PoolSwapDestroys(p: Pool, i: nat, t: Task)
    requires i < |p.tasks| && DestroyOf(p.tasks[i]) == DestroyOf(t)
    ensures Bag(Swap(p, i, [t]).tasks, DestroyOf) == Bag(p.tasks, DestroyOf)
  {
    hide Bag, Sum;
    BagSwap(p.tasks, i, [t], DestroyOf);
    BagOne(t, DestroyOf);
  }

  lemma PoolSwapCounts(p: Pool, i: nat, t: Task)
    requires i < |p.tasks|
    ensures Sum(Swap(p, i, [t]).tasks, CreateOp) + CreateOp(p.tasks[i]) == Sum(p.tasks, CreateOp) + CreateOp(t)
    ensures Sum(Swap(p, i, [t]).tasks, CreateTimerOp) + CreateTimerOp(p.tasks[i])
         == Sum(p.tasks, CreateTimerOp) + CreateTimerOp(t)
    ensures PostedId(p.tasks[i]) == PostedId(t) ==> IssuedIds(Swap(p, i, [t])) == IssuedIds(p)
    ensures PostedId(p.tasks[i]) == multiset{} ==> IssuedIds(Swap(p, i, [t])) == IssuedIds(p) + PostedId(t)
  {
    hide Bag, Sum;
    SumSwap(p.tasks, i, [t], CreateOp);
    SumSwap(p.tasks, i, [t], CreateTimerOp);
    SwapIssued(p, i, [t]);
    OneTotals(t);
  }

  lemma PoolSwapConns(s: System, i: nat, t: Task)
    requires ConnCore(s) && i < |s.pool.tasks| && !s.pool.tasks[i].Client? && !t.Client?
    requires DestroyOf(s.pool.tasks[i]) == DestroyOf(t)
    ensures ConnCore(s.(pool := Swap(s.pool, i, [t])))
  {
    hide Bag, Sum;
    OneTotals(t);
    PoolSwapSame(s.pool, i, [t]);
    PoolSwapDestroys(s.pool, i, t);
    GrantsKeptOn(s, i, s.(pool := Swap(s.pool, i, [t])), [t]);
  }

  /** PoolCore looks at the operations only through three totals. */
  lemma PoolCoreBy(p: Pool, q: Pool)
    requires PoolCore(p) && q == p.(tasks := q.tasks)
    requires Sum(q.tasks, CreateOp) == Sum(p.tasks, CreateOp)
    requires NoDup(IssuedIds(q)) && NoDup(MayAsk(q))
    ensures PoolCore(q)
  {
  }

  /** A create command's output has been read and its handler is posted. */
  lemma CreatePostedInv(s: System, i: nat, result: Option<BuilderData>)
    requires Inv(s) && i < |s.pool.tasks| && s.pool.tasks[i].CreateRead?
    requires result.Some? ==> result.value.id !in IssuedIds(s.pool)
    ensures Inv(s.(pool := AddTask(TakeTask(s, i).pool, CreatePosted(result))))
  {
    hide Bag, Sum;
    var t := CreatePosted(result);
    PoolSwapConns(s, i, t);
    CreatePostedPool(s.pool, i, result);
    assert AddTask(TakeTask(s, i).pool, t) == Swap(s.pool, i, [t]);
  }

  lemma CreatePostedPool(p: Pool, i: nat, result: Option<BuilderData>)
    requires PoolCore(p) && Refilled(p) && NoLostWakeup(p) && i < |p.tasks| && p.tasks[i].CreateRead?
    requires result.Some? ==> result.value.id !in IssuedIds(p)
    ensures var q := Swap(p, i, [CreatePosted(result)]); PoolCore(q) && Refilled(q) && NoLostWakeup(q)
  {
    hide Bag, Sum;
    var t := CreatePosted(result);
    SwapMayAsk(p, i, [t]);
    BagOne(t, EarlyOf);
    PoolSwapCounts(p, i, t);
    if result.Some? {
      StillNoDup(IssuedIds(p), result.value.id);
    }
    PoolCoreBy(p, Swap(p, i, [t]));
  }

  lemma StillNoDup<B(!new)>(m: multiset<B>, x: B)
    requires NoDup(m) && x !in m
    ensures NoDup(m + multiset{x})
  {
  }

  /** A destroy moves between its command, its posted handler and its retry timer. */
  lemma DestroyMovesInv(s: System, i: nat, t: Task)
    requires Inv(s) && i < |s.pool.tasks| && !s.pool.tasks[i].Client? && !t.Client?
    requires IsDestroy(s.pool.tasks[i]) && IsDestroy(t) && t.builder == s.pool.tasks[i].builder
    ensures Inv(s.(pool := AddTask(TakeTask(s, i).pool, t)))
  {
    hide Bag, Sum;
    PoolSwapConns(s, i, t);
    DestroyMovesPool(s.pool, i, t);
    assert AddTask(TakeTask(s, i).pool, t) == Swap(s.pool, i, [t]);
  }

  lemma DestroyMovesPool(p: Pool, i: nat, t: Task)
    requires PoolCore(p) && Refilled(p) && NoLostWakeup(p) && i < |p.tasks|
    requires IsDestroy(p.tasks[i]) && IsDestroy(t)
    ensures var q := Swap(p, i, [t]); PoolCore(q) && Refilled(q) && NoLostWakeup(q)
  {
    hide Bag, Sum;
    SwapMayAsk(p, i, [t]);
    BagOne(t, EarlyOf);
    PoolSwapCounts(p, i, t);
    PoolCoreBy(p, Swap(p, i, [t]));
  }

  /** A failed create arms its retry timer. */
  lemma CreateFailsInv(s: System, i: nat)
    requires Inv(s) && i < |s.pool.tasks| && s.pool.tasks[i] == CreatePosted(None)
    ensures Inv(s.(pool := CreateDone(TakeTask(s, i).pool, None)))
  {
    hide Bag, Sum;
    var r := s.(pool := CreateDone(TakeTask(s, i).pool, None));
    PoolSwapConns(s, i, CreateTimer);
    CreateFailsPool(s.pool, i);
    assert r.pool == Swap(s.pool, i, [CreateTimer]).(outstanding := r.pool.outstanding, log := r.pool.log);
    CountersOnly(s.(pool := Swap(s.pool, i, [CreateTimer])), r);
  }

  lemma CreateFailsPool(p: Pool, i: nat)
    requires PoolCore(p) && NoLostWakeup(p) && i < |p.tasks| && p.tasks[i] == CreatePosted(None)
    ensures var q := CreateDone(p.(tasks := RemoveAt(p.tasks, i)), None); PoolCore(q) && Refilled(q) && NoLostWakeup(q)
  {
    hide Bag, Sum;
    SwapMayAsk(p, i, [CreateTimer]);
    BagOne(CreateTimer, EarlyOf);
    PoolSwapCounts(p, i, CreateTimer);
  }

  /** The connections do not depend on the queue's counters. */
  lemma CountersOnly(s: System, r: System)
    requires ConnCore(s) && r.conns == s.conns
    requires r.pool == s.pool.(outstanding := r.pool.outstanding,
                               log := s.pool.log.(failed := r.pool.log.failed, launched := r.pool.log.launched))
    ensures ConnCore(r)
  {
  }

  /** A successful create turns its outstanding slot into a reserve builder. */
  lemma StockCore(s: System, i: nat, b: BuilderData)
    requires Inv(s) && i < |s.pool.tasks| && s.pool.tasks[i] == CreatePosted(Some(b))
    ensures var r := s.(pool := Stock(TakeTask(s, i).pool, b)); Core(r) && Refilled(r.pool) && NearlyAwake(r.pool)
  {
    hide Bag, Sum;
    StockPool(s.pool, i, b);
    StockConns(s, i, b);
  }

  lemma StockPool(p: Pool, i: nat, b: BuilderData)
    requires PoolCore(p) && Refilled(p) && NoLostWakeup(p) && i < |p.tasks| && p.tasks[i] == CreatePosted(Some(b))
    ensures var q := Stock(p.(tasks := RemoveAt(p.tasks, i)), b); PoolCore(q) && Refilled(q) && NearlyAwake(q)
  {
    hide Bag, Sum;
    NoTotals();
    var q := Stock(p.(tasks := RemoveAt(p.tasks, i)), b);
    assert q.tasks == RemoveAt(p.tasks, i) + [];
    SumSwap(p.tasks, i, [], CreateOp);
    SumSwap(p.tasks, i, [], CreateTimerOp);
    StockIds(p, i, b);
    StockAsks(p, i, b);
    assert HandedOut(q) == HandedOut(p);
  }

  lemma StockAsks(p: Pool, i: nat, b: BuilderData)
    requires i < |p.tasks| && p.tasks[i] == CreatePosted(Some(b))
    ensures MayAsk(Stock(p.(tasks := RemoveAt(p.tasks, i)), b)) == MayAsk(p)
  {
    hide Bag, Sum;
    NoTotals();
    assert RemoveAt(p.tasks, i) + [] == RemoveAt(p.tasks, i);
    SwapMayAsk(p, i, []);
  }

  lemma StockIds(p: Pool, i: nat, b: BuilderData)
    requires i < |p.tasks| && p.tasks[i] == CreatePosted(Some(b))
    ensures IssuedIds(Stock(p.(tasks := RemoveAt(p.tasks, i)), b)) == IssuedIds(p)
  {
    hide Bag, Sum;
    NoTotals();
    var rest := RemoveAt(p.tasks, i);
    assert rest + [] == rest;
    BagSwap(p.tasks, i, [], PostedId);
    assert Ids(p.log.created + [b]) == Ids(p.log.created) + [b.id];
    Shift(Bag(rest, PostedId), multiset(Ids(p.log.created)), multiset{b.id});
  }

  lemma StockConns(s: System, i: nat, b: BuilderData)
    requires ConnCore(s) && i < |s.pool.tasks| && s.pool.tasks[i] == CreatePosted(Some(b))
    ensures ConnCore(s.(pool := Stock(TakeTask(s, i).pool, b)))
  {
    hide Bag, Sum;
    NoTotals();
    var p := s.pool;
    var q := Stock(TakeTask(s, i).pool, b);
    assert q.tasks == RemoveAt(p.tasks, i) + [];
    PoolSwapSame(p, i, []);
    BagSwap(p.tasks, i, [], DestroyOf);
    assert HandedOut(q) == HandedOut(p);
    GrantsKeptOn(s, i, s.(pool := q), []);
  }

  /** A fired create-retry timer leaves everything but the promise to refill. */
  lemma TimerGoneCore(s: System, i: nat)
    requires Inv(s) && i < |s.pool.tasks| && s.pool.tasks[i].CreateTimer?
    ensures Core(TakeTask(s, i)) && NoLostWakeup(TakeTask(s, i).pool)
  {
    hide Bag, Sum;
    NoTotals();
    var p, q := s.pool, TakeTask(s, i).pool;
    assert q == Swap(p, i, []) by {
      assert RemoveAt(p.tasks, i) + [] == RemoveAt(p.tasks, i);
    }
    TimerGoneTotals(p, i);
    SwapMayAsk(p, i, []);
    PoolCoreBy(p, q);
    TimerGoneConns(s, i);
  }

  lemma TimerGoneConns(s: System, i: nat)
    requires ConnCore(s) && i < |s.pool.tasks| && s.pool.tasks[i].CreateTimer?
    ensures ConnCore(TakeTask(s, i))
  {
    hide Bag, Sum;
    NoTotals();
    assert RemoveAt(s.pool.tasks, i) + [] == RemoveAt(s.pool.tasks, i);
    PoolSwapSame(s.pool, i, []);
    BagSwap(s.pool.tasks, i, [], DestroyOf);
    GrantsKeptOn(s, i, TakeTask(s, i), []);
  }

  lemma TimerGoneTotals(p: Pool, i: nat)
    requires i < |p.tasks| && CreateOp(p.tasks[i]) == 0 && PostedId(p.tasks[i]) == multiset{}
    ensures Sum(Swap(p, i, []).tasks, CreateOp) == Sum(p.tasks, CreateOp)
    ensures IssuedIds(Swap(p, i, [])) == IssuedIds(p)
  {
    hide Bag, Sum;
    NoTotals();
    SumSwap(p.tasks, i, [], CreateOp);
    SwapIssued(p, i, []);
  }

  /** A builder whose destroy is under way is active, and not destroyed yet. */
  lemma DestroyedOnce(s: System, i: nat)
    requires Core(s) && i < |s.pool.tasks| && IsDestroy(s.pool.tasks[i])
    ensures var b := s.pool.tasks[i].builder;
      b in HandedOut(s.pool) && b in s.pool.active && !Mentions(s.pool.log.destroyed, b)
  {
    hide Bag, Sum;
    var p, b := s.pool, s.pool.tasks[i].builder;
    BagHas(p.tasks, i, DestroyOf);
    assert b in Bag(p.tasks, DestroyOf);
    assert multiset(p.log.returned)[b] >= 1 + multiset(p.log.destroyed)[b];
    assert multiset(HandedOut(p))[b] >= multiset(p.log.returned)[b];
    HandedOutDistinct(p);
    DistinctCounts(HandedOut(p), b);
    DestroyedAmong(s);
    forall k | 0 <= k < |p.log.destroyed|
      ensures !SameBuilder(p.log.destroyed[k], b)
    {
      var d := p.log.destroyed[k];
      assert d in multiset(p.log.destroyed) && d in multiset(HandedOut(p));
      if SameBuilder(d, b) {
        SameIdSameEntry(HandedOut(p), d, b);
        assert false;
      }
    }
    WithoutCounts(HandedOut(p), p.log.destroyed, b);
    assert b in multiset(p.active);
  }

  lemma HandedOutDistinct(p: Pool)
    requires NoDup(IssuedIds(p)) && |p.log.served| <= |p.log.created|
    ensures Distinct(HandedOut(p))
  {
    hide Bag, Sum;
    CreatedDistinct(p);
  }

  lemma DestroyedAmong(s: System)
    requires Owned(s)
    ensures multiset(s.pool.log.destroyed) <= multiset(s.pool.log.returned) <= multiset(HandedOut(s.pool))
  {
  }

  /** A completed destroy frees the slot of one active builder. */
  lemma RetireCore(s: System, i: nat)
    requires Inv(s) && i < |s.pool.tasks| && s.pool.tasks[i].DestroyPosted?
    ensures var r := s.(pool := Retire(TakeTask(s, i).pool, s.pool.tasks[i].builder)); Core(r) && NoLostWakeup(r.pool)
  {
    hide Bag, Sum;
    RetirePool(s, i);
    RetireConns(s, i);
  }

  lemma RetirePool(s: System, i: nat)
    requires Inv(s) && i < |s.pool.tasks| && s.pool.tasks[i].DestroyPosted?
    ensures var q := Retire(TakeTask(s, i).pool, s.pool.tasks[i].builder); PoolCore(q) && NoLostWakeup(q)
  {
    hide Bag, Sum;
    NoTotals();
    var p, b := s.pool, s.pool.tasks[i].builder;
    var rest := Swap(p, i, []);
    var q := Retire(TakeTask(s, i).pool, b);
    assert rest == TakeTask(s, i).pool by {
      assert RemoveAt(p.tasks, i) + [] == RemoveAt(p.tasks, i);
    }
    TimerGoneTotals(p, i);
    SwapMayAsk(p, i, []);
    PoolCoreBy(p, rest);
    RetireOnly(rest, b);
  }

  lemma RetireOnly(p: Pool, b: BuilderData)
    requires PoolCore(p) && NoLostWakeup(p)
    ensures PoolCore(Retire(p, b)) && NoLostWakeup(Retire(p, b))
  {
    hide Bag, Sum;
    WithoutOneMore(HandedOut(p), p.log.destroyed, b);
    RemovedShorter(p.active, b);
  }

  lemma {:induction false} RemovedShorter(bs: seq<BuilderData>, b: BuilderData)
    ensures |Removed(bs, b)| <= |bs|
  {
    if bs != [] {
      RemovedShorter(bs[..|bs| - 1], b);
    }
  }

  lemma RetireConns(s: System, i: nat)
    requires ConnCore(s) && i < |s.pool.tasks| && s.pool.tasks[i].DestroyPosted?
    ensures ConnCore(s.(pool := Retire(TakeTask(s, i).pool, s.pool.tasks[i].builder)))
  {
    hide Bag, Sum;
    NoTotals();
    var p, b := s.pool, s.pool.tasks[i].builder;
    var q := Retire(TakeTask(s, i).pool, b);
    assert q.tasks == RemoveAt(p.tasks, i) + [];
    PoolSwapSame(p, i, []);
    BagSwap(p.tasks, i, [], DestroyOf);
    Shift(Bag(q.tasks, DestroyOf), multiset(p.log.destroyed), multiset{b});
    GrantsKeptOn(s, i, s.(pool := q), []);
  }

  lemma CreateSucceedsInv(s: System, i: nat, b: BuilderData)
    requires Inv(s) && i < |s.pool.tasks| && s.pool.tasks[i] == CreatePosted(Some(b))
    ensures Inv(s.(pool := CreateDone(TakeTask(s, i).pool, Some(b))))
  {
    hide Bag, Sum, Inv, Core, Refilled, NearlyAwake;
    StockCore(s, i, b);
    ProcessPendingInv(s.(pool := Stock(TakeTask(s, i).pool, b)));
  }

  lemma ReserveRefilled(s: System)
    requires Core(s) && NoLostWakeup(s.pool)
    ensures Inv(s.(pool := CreateReserve(s.pool)))
  {
    hide Bag, Sum, Core;
    CreateReserveCore(s);
  }

  lemma CreateTimerInv(s: System, i: nat)
    requires Inv(s) && i < |s.pool.tasks| && s.pool.tasks[i].CreateTimer?
    ensures Inv(s.(pool := CreateReserve(TakeTask(s, i).pool)))
  {
    hide Bag, Sum, Inv, Core, NoLostWakeup;
    TimerGoneCore(s, i);
    ReserveRefilled(TakeTask(s, i));
  }

  lemma DestroyedInv(s: System, i: nat)
    requires Inv(s) && i < |s.pool.tasks| && s.pool.tasks[i].DestroyPosted?
    ensures Inv(s.(pool := DestroyDone(TakeTask(s, i).pool, s.pool.tasks[i].builder, true)))
  {
    hide Bag, Sum, Inv, Core, NoLostWakeup;
    RetireCore(s, i);
    ReserveRefilled(s.(pool := Retire(TakeTask(s, i).pool, s.pool.tasks[i].builder)));
  }
}
