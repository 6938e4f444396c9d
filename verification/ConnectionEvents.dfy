/** What connections do keeps the invariant. */
module ConnectionEvents {
  import opened Bags
  import opened Builders
  import opened Options
  import opened PoolModel
  import opened SystemModel
  import opened Invariant

  /** The connection a continuation belongs to is alive, and this is its only reference. */
  lemma TaskConnAlive(s: System, i: nat)
    requires Core(s) && i < |s.pool.tasks| && s.pool.tasks[i].Client?
    ensures var c := s.pool.tasks[i].conn; c < |s.conns| && s.conns[c].live && Refs(s.pool)[c] == 1
  {
    hide Bag, Sum;
    BagHas(s.pool.tasks, i, ConnOf);
    var c := s.pool.tasks[i].conn;
    assert c in Refs(s.pool);
  }

  lemma ReleaseKeeps(s: System, c: nat)
    requires Core(s) && c < |s.conns| && s.conns[c].live
    ensures Release(s, c) == s
  {
  }

  lemma NoDupBelow<B(!new)>(m: multiset<B>, n: multiset<B>)
    requires m <= n && NoDup(n)
    ensures NoDup(m)
  {
  }

  /** Continuations of connections that start no create, timer or issue of an id. */
  ghost predicate Harmless(more: seq<Task>) {
    && Bag(more, PostedId) == multiset{}
    && Sum(more, CreateOp) == 0
    && Sum(more, CreateTimerOp) == 0
  }

  lemma ClientSwapCounts(p: Pool, i: nat, more: seq<Task>)
    requires i < |p.tasks| && p.tasks[i].Client? && Harmless(more)
    ensures Sum(Swap(p, i, more).tasks, CreateOp) == Sum(p.tasks, CreateOp)
    ensures Sum(Swap(p, i, more).tasks, CreateTimerOp) == Sum(p.tasks, CreateTimerOp)
    ensures IssuedIds(Swap(p, i, more)) == IssuedIds(p)
  {
    hide Bag, Sum;
    SumSwap(p.tasks, i, more, CreateOp);
    SumSwap(p.tasks, i, more, CreateTimerOp);
    SwapIssued(p, i, more);
  }

  lemma ClientSwapAsks(p: Pool, i: nat, more: seq<Task>)
    requires i < |p.tasks| && NoDup(MayAsk(p)) && Bag(more, EarlyOf) <= EarlyOf(p.tasks[i])
    ensures NoDup(MayAsk(Swap(p, i, more)))
  {
    hide Bag, Sum;
    SwapMayAsk(p, i, more);
    assert MayAsk(Swap(p, i, more)) <= MayAsk(p);
    NoDupBelow(MayAsk(Swap(p, i, more)), MayAsk(p));
  }

  /** What a connection's continuation becomes cannot disturb the queue's own part. */
  lemma ClientSwapPool(p: Pool, i: nat, more: seq<Task>)
    requires PoolCore(p) && Refilled(p) && NoLostWakeup(p) && i < |p.tasks| && p.tasks[i].Client?
    requires Bag(more, EarlyOf) <= EarlyOf(p.tasks[i]) && Harmless(more)
    ensures PoolCore(Swap(p, i, more)) && Refilled(Swap(p, i, more)) && NoLostWakeup(Swap(p, i, more))
  {
    hide Bag, Sum;
    ClientSwapCounts(p, i, more);
    ClientSwapAsks(p, i, more);
  }

  /** Grants stay in place when no new hand-out is posted and no connection gets a builder. */
  lemma GrantsKeptOn(s: System, i: nat, r: System, more: seq<Task>)
    requires GrantsKept(s) && i < |s.pool.tasks|
    requires r.pool.tasks == RemoveAt(s.pool.tasks, i) + more
    requires forall t :: t in more && t.Client? ==> !Carries(t.step)
    requires |r.conns| == |s.conns| && forall c :: 0 <= c < |s.conns| ==> r.conns[c].builder == s.conns[c].builder
    requires r.pool.log.served == s.pool.log.served
    ensures GrantsKept(r)
  {
  }

  lemma OwnedAfterSwap(s: System, i: nat, t: Task)
    requires Owned(s) && i < |s.pool.tasks|
    requires HandoutOf(t) == HandoutOf(s.pool.tasks[i]) && DestroyOf(t) == DestroyOf(s.pool.tasks[i])
    ensures Owned(s.(pool := Swap(s.pool, i, [t])))
  {
    hide Bag, Sum;
    BagOne(t, HandoutOf);
    BagOne(t, DestroyOf);
    BagSwap(s.pool.tasks, i, [t], HandoutOf);
    BagSwap(s.pool.tasks, i, [t], DestroyOf);
  }

  lemma SameHolders(s: System, i: nat, t: Task)
    requires i < |s.pool.tasks| && s.pool.tasks[i].Client? && t.Client? && t.conn == s.pool.tasks[i].conn
    ensures Refs(Swap(s.pool, i, [t])) == Refs(s.pool)
    ensures HoldingOf(t) == HoldingOf(s.pool.tasks[i]) ==> Holding(Swap(s.pool, i, [t])) == Holding(s.pool)
  {
    hide Bag, Sum;
    OneTotals(t);
    SwapRefs(s.pool, i, [t]);
    BagSwap(s.pool.tasks, i, [t], HoldingOf);
  }

  /** One continuation of a connection follows another. */
  lemma ConnContinues(s: System, i: nat, t: Task)
    requires Inv(s) && i < |s.pool.tasks| && s.pool.tasks[i].Client? && t.Client? && t.conn == s.pool.tasks[i].conn
    requires !Carries(t.step) && !s.pool.tasks[i].step.Granted?
    requires HoldingOf(t) == HoldingOf(s.pool.tasks[i]) && EarlyOf(t) <= EarlyOf(s.pool.tasks[i])
    ensures Inv(Put(TakeTask(s, i), t))
  {
    hide Bag, Sum;
    assert Put(TakeTask(s, i), t).pool == Swap(s.pool, i, [t]);
    OneTotals(t);
    ClientSwapPool(s.pool, i, [t]);
    OwnedAfterSwap(s, i, t);
    GrantsKeptOn(s, i, Put(TakeTask(s, i), t), [t]);
    SameHolders(s, i, t);
  }

  /** A continuation in any other stage leaves its connection uncounted as holding. */
  lemma OnlyReference(p: Pool, i: nat)
    requires i < |p.tasks| && p.tasks[i].Client? && HoldingOf(p.tasks[i]) == multiset{}
    requires Refs(p)[p.tasks[i].conn] <= 1
    ensures Holding(p)[p.tasks[i].conn] == 0
  {
    hide Bag, Sum;
    NoTotals();
    var c, rest := p.tasks[i].conn, RemoveAt(p.tasks, i);
    assert rest + [] == rest;
    BagSwap(p.tasks, i, [], ConnOf);
    BagSwap(p.tasks, i, [], HoldingOf);
    assert Bag(rest, ConnOf)[c] == 0;
    BagBelow(rest, HoldingOf, ConnOf);
    assert Bag(rest, HoldingOf)[c] <= Bag(rest, ConnOf)[c];
  }

  /** A connection's continuation is a holding one exactly when the connection has a builder. */
  lemma StageTellsHolding(s: System, i: nat)
    requires Core(s) && i < |s.pool.tasks| && s.pool.tasks[i].Client?
    ensures var t := s.pool.tasks[i];
      t.conn < |s.conns| && (s.conns[t.conn].builder.Some? <==> t.step.Sending? || t.step.Closing?)
  {
    hide Bag, Sum;
    TaskConnAlive(s, i);
    if HoldingOf(s.pool.tasks[i]) == multiset{} {
      OnlyReference(s.pool, i);
    } else {
      BagHas(s.pool.tasks, i, HoldingOf);
      assert s.pool.tasks[i].conn in Holding(s.pool);
    }
  }

  /** A posted hand-out reaches its connection, which held nothing before. */
  lemma HandoutArrives(s: System, i: nat)
    requires Inv(s) && i < |s.pool.tasks| && s.pool.tasks[i].Client? && s.pool.tasks[i].step.Granted?
    requires s.pool.tasks[i].conn < |s.conns|
    ensures var t := s.pool.tasks[i]; Inv(BuilderReady(TakeTask(s, i), t.conn, t.step.builder))
  {
    hide Bag, Sum;
    var t := s.pool.tasks[i];
    var next := Client(t.conn, Sending(t.step.builder));
    OneTotals(next);
    ClientSwapPool(s.pool, i, [next]);
    TaskConnAlive(s, i);
    StageTellsHolding(s, i);
    HandoutConns(s, i);
    assert BuilderReady(TakeTask(s, i), t.conn, t.step.builder).pool == Swap(s.pool, i, [next]);
  }

  lemma HandoutConns(s: System, i: nat)
    requires ConnCore(s) && i < |s.pool.tasks| && s.pool.tasks[i].Client? && s.pool.tasks[i].step.Granted?
    requires s.pool.tasks[i].conn < |s.conns|
    requires s.conns[s.pool.tasks[i].conn].live && s.conns[s.pool.tasks[i].conn].builder.None?
    ensures var t := s.pool.tasks[i]; ConnCore(BuilderReady(TakeTask(s, i), t.conn, t.step.builder))
  {
    hide Bag, Sum;
    SameHolders(s, i, Client(s.pool.tasks[i].conn, Sending(s.pool.tasks[i].step.builder)));
    HandoutOwned(s, i);
    HandoutGrants(s, i);
    HandoutHeld(s, i);
  }

  /** Moving x from one part of a sum to another. */
  lemma Carry<B>(from: multiset<B>, from': multiset<B>, to: multiset<B>, to': multiset<B>,
                 rest: multiset<B>, x: multiset<B>)
    requires from == from' + x && to' == to + x
    ensures from + to + rest == from' + to' + rest
    ensures rest + from + to == rest + from' + to'
  {
  }

  lemma HandoutOwned(s: System, i: nat)
    requires Owned(s) && i < |s.pool.tasks| && s.pool.tasks[i].Client? && s.pool.tasks[i].step.Granted?
    requires s.pool.tasks[i].conn < |s.conns|
    requires s.conns[s.pool.tasks[i].conn].live && s.conns[s.pool.tasks[i].conn].builder.None?
    ensures var t := s.pool.tasks[i]; Owned(BuilderReady(TakeTask(s, i), t.conn, t.step.builder))
  {
    hide Bag, Sum;
    var t := s.pool.tasks[i];
    var next := Client(t.conn, Sending(t.step.builder));
    var r := BuilderReady(TakeTask(s, i), t.conn, t.step.builder);
    OneTotals(next);
    BagSwap(s.pool.tasks, i, [next], HandoutOf);
    BagSwap(s.pool.tasks, i, [next], DestroyOf);
    BagUpdate(s.conns, t.conn, r.conns[t.conn], HeldOf);
    Carry(Bag(s.pool.tasks, HandoutOf), Bag(r.pool.tasks, HandoutOf), Bag(s.conns, HeldOf), Bag(r.conns, HeldOf),
          multiset(s.pool.log.returned), multiset{t.step.builder});
  }

  lemma HandoutGrants(s: System, i: nat)
    requires GrantsKept(s) && i < |s.pool.tasks| && s.pool.tasks[i].Client? && s.pool.tasks[i].step.Granted?
    requires s.pool.tasks[i].conn < |s.conns|
    ensures var t := s.pool.tasks[i]; GrantsKept(BuilderReady(TakeTask(s, i), t.conn, t.step.builder))
  {
  }

  lemma HandoutHeld(s: System, i: nat)
    requires HoldsInStage(Holding(s.pool), s.conns)
    requires i < |s.pool.tasks| && s.pool.tasks[i].Client? && s.pool.tasks[i].step.Granted?
    requires s.pool.tasks[i].conn < |s.conns|
    ensures var t := s.pool.tasks[i];
      var r := BuilderReady(TakeTask(s, i), t.conn, t.step.builder);
      HoldsInStage(Holding(r.pool), r.conns)
  {
    hide Bag, Sum;
    var next := Client(s.pool.tasks[i].conn, Sending(s.pool.tasks[i].step.builder));
    BagOne(next, HoldingOf);
    BagSwap(s.pool.tasks, i, [next], HoldingOf);
  }

  lemma LosesReference(refs: multiset<nat>, rest: multiset<nat>, conns: seq<Conn>, c: nat)
    requires OneContinuation(refs, conns) && rest + multiset{c} == refs && c < |conns| && conns[c].live
    ensures rest[c] == 0
    ensures OneContinuation(rest, conns[c := conns[c].(live := false)])
  {
    TradedFrom(rest, refs, multiset{c}, multiset{});
    assert forall x :: rest[x] == if x == c then refs[x] - 1 else refs[x];
  }

  lemma StopsHolding(s: System, i: nat, more: seq<Task>)
    requires HoldsInStage(Holding(s.pool), s.conns) && i < |s.pool.tasks| && s.pool.tasks[i].Client?
    requires s.pool.tasks[i].conn < |s.conns| && Bag(more, HoldingOf) == multiset{}
    ensures var c := s.pool.tasks[i].conn;
      HoldsInStage(Holding(Swap(s.pool, i, more)), s.conns[c := s.conns[c].(live := false)])
  {
    hide Bag, Sum;
    BagSwap(s.pool.tasks, i, more, HoldingOf);
  }

  /** What ~Connection leaves behind: the return of its builder, or nothing. */
  ghost function Leftover(conn: Conn): seq<Task> {
    if conn.builder.Some? then [DestroyRead(conn.builder.value)] else []
  }

  lemma LeftoverTotals(conn: Conn)
    ensures var more := Leftover(conn);
      && Bag(more, ConnOf) == multiset{} && Bag(more, HoldingOf) == multiset{} && Bag(more, EarlyOf) == multiset{}
      && Bag(more, HandoutOf) == multiset{} && Bag(more, PostedId) == multiset{}
      && Bag(more, DestroyOf) == (if conn.builder.Some? then multiset{conn.builder.value} else multiset{})
      && Sum(more, CreateOp) == 0 == Sum(more, CreateTimerOp)
  {
  }

  lemma LeftoverHarmless(conn: Conn)
    ensures Harmless(Leftover(conn)) && Bag(Leftover(conn), EarlyOf) == multiset{}
    ensures forall t :: t in Leftover(conn) ==> !t.Client?
  {
  }

  lemma DestructShape(s: System, i: nat)
    requires i < |s.pool.tasks| && s.pool.tasks[i].Client? && s.pool.tasks[i].conn < |s.conns|
    ensures var c := s.pool.tasks[i].conn;
      var r := Destruct(TakeTask(s, i), c);
      && r.conns == s.conns[c := s.conns[c].(live := false)]
      && r.pool == Swap(s.pool, i, Leftover(s.conns[c])).(log := r.pool.log)
      && r.pool.log == s.pool.log.(returned := r.pool.log.returned)
  {
  }

  lemma DestructReturns(s: System, i: nat)
    requires i < |s.pool.tasks| && s.pool.tasks[i].Client? && s.pool.tasks[i].conn < |s.conns|
    ensures var c := s.pool.tasks[i].conn;
      multiset(Destruct(TakeTask(s, i), c).pool.log.returned)
        == multiset(s.pool.log.returned) + Bag(Leftover(s.conns[c]), DestroyOf)
  {
  }

  lemma HeldBecomesReturned(s: System, i: nat)
    requires i < |s.pool.tasks| && s.pool.tasks[i].Client? && s.pool.tasks[i].conn < |s.conns|
    requires s.conns[s.pool.tasks[i].conn].live
    ensures var c := s.pool.tasks[i].conn;
      Bag(s.conns, HeldOf) == Bag(Destruct(TakeTask(s, i), c).conns, HeldOf) + Bag(Leftover(s.conns[c]), DestroyOf)
  {
    hide Bag, Sum;
    NoTotals();
    var c := s.pool.tasks[i].conn;
    BagUpdate(s.conns, c, s.conns[c].(live := false), HeldOf);
    LeftoverTotals(s.conns[c]);
  }

  lemma EndOwned(s: System, i: nat)
    requires Owned(s) && i < |s.pool.tasks| && s.pool.tasks[i].Client? && !s.pool.tasks[i].step.Granted?
    requires s.pool.tasks[i].conn < |s.conns| && s.conns[s.pool.tasks[i].conn].live
    ensures Owned(Destruct(TakeTask(s, i), s.pool.tasks[i].conn))
  {
    hide Bag, Sum;
    NoTotals();
    var p := s.pool;
    var c := p.tasks[i].conn;
    var r := Destruct(TakeTask(s, i), c);
    var more := Leftover(s.conns[c]);
    DestructShape(s, i);
    DestructReturns(s, i);
    HeldBecomesReturned(s, i);
    EndBags(p, i, s.conns[c]);
    Carry(Bag(s.conns, HeldOf), Bag(r.conns, HeldOf), multiset(p.log.returned), multiset(r.pool.log.returned),
          Bag(p.tasks, HandoutOf), Bag(more, DestroyOf));
  }

  lemma EndBags(p: Pool, i: nat, conn: Conn)
    requires i < |p.tasks| && p.tasks[i].Client? && !p.tasks[i].step.Granted?
    ensures Bag(Swap(p, i, Leftover(conn)).tasks, HandoutOf) == Bag(p.tasks, HandoutOf)
    ensures Bag(Swap(p, i, Leftover(conn)).tasks, DestroyOf) == Bag(p.tasks, DestroyOf) + Bag(Leftover(conn), DestroyOf)
  {
    hide Bag, Sum;
    NoTotals();
    LeftoverTotals(conn);
    BagSwap(p.tasks, i, Leftover(conn), HandoutOf);
    BagSwap(p.tasks, i, Leftover(conn), DestroyOf);
  }

  /** A finished connection is destroyed, returning its builder when it holds one. */
  lemma ConnEnds(s: System, i: nat)
    requires Inv(s) && i < |s.pool.tasks| && s.pool.tasks[i].Client? && !s.pool.tasks[i].step.Granted?
    requires s.pool.tasks[i].conn < |s.conns|
    ensures var rest := TakeTask(s, i); Release(rest, s.pool.tasks[i].conn) == Destruct(rest, s.pool.tasks[i].conn)
    ensures Inv(Release(TakeTask(s, i), s.pool.tasks[i].conn))
  {
    hide Bag, Sum;
    NoTotals();
    var c := s.pool.tasks[i].conn;
    var more := Leftover(s.conns[c]);
    TaskConnAlive(s, i);
    SwapRefs(s.pool, i, []);
    assert TakeTask(s, i).pool == Swap(s.pool, i, []) by {
      assert RemoveAt(s.pool.tasks, i) + [] == RemoveAt(s.pool.tasks, i);
    }
    LosesReference(Refs(s.pool), Refs(TakeTask(s, i).pool), s.conns, c);
    DestructInv(s, i);
  }

  lemma DestructInv(s: System, i: nat)
    requires Inv(s) && i < |s.pool.tasks| && s.pool.tasks[i].Client? && !s.pool.tasks[i].step.Granted?
    requires s.pool.tasks[i].conn < |s.conns|
    ensures Inv(Destruct(TakeTask(s, i), s.pool.tasks[i].conn))
  {
    hide Bag, Sum;
    TaskConnAlive(s, i);
    EndPool(s, i);
    EndConns(s, i);
    EndOwned(s, i);
    EndGrants(s, i);
  }

  lemma EndGrants(s: System, i: nat)
    requires GrantsKept(s) && KnownClients(s)
    requires i < |s.pool.tasks| && s.pool.tasks[i].Client? && s.pool.tasks[i].conn < |s.conns|
    ensures var r := Destruct(TakeTask(s, i), s.pool.tasks[i].conn); GrantsKept(r) && KnownClients(r)
  {
  }

  lemma EndPool(s: System, i: nat)
    requires Inv(s) && i < |s.pool.tasks| && s.pool.tasks[i].Client? && s.pool.tasks[i].conn < |s.conns|
    ensures var r := Destruct(TakeTask(s, i), s.pool.tasks[i].conn);
      PoolCore(r.pool) && Refilled(r.pool) && NoLostWakeup(r.pool)
  {
    hide Bag, Sum;
    NoTotals();
    var more := Leftover(s.conns[s.pool.tasks[i].conn]);
    DestructShape(s, i);
    LeftoverHarmless(s.conns[s.pool.tasks[i].conn]);
    ClientSwapPool(s.pool, i, more);
    SameButReturned(Swap(s.pool, i, more), Destruct(TakeTask(s, i), s.pool.tasks[i].conn).pool);
  }

  lemma SameButReturned(p: Pool, q: Pool)
    requires PoolCore(p) && Refilled(p) && NoLostWakeup(p) && q == p.(log := p.log.(returned := q.log.returned))
    ensures PoolCore(q) && Refilled(q) && NoLostWakeup(q)
  {
  }

  lemma EndConns(s: System, i: nat)
    requires OneContinuation(Refs(s.pool), s.conns) && HoldsInStage(Holding(s.pool), s.conns)
    requires i < |s.pool.tasks| && s.pool.tasks[i].Client?
    requires s.pool.tasks[i].conn < |s.conns| && s.conns[s.pool.tasks[i].conn].live
    ensures var r := Destruct(TakeTask(s, i), s.pool.tasks[i].conn);
      OneContinuation(Refs(r.pool), r.conns) && HoldsInStage(Holding(r.pool), r.conns)
  {
    hide Bag, Sum;
    NoTotals();
    var c := s.pool.tasks[i].conn;
    var more := Leftover(s.conns[c]);
    var q := Swap(s.pool, i, more);
    DestructShape(s, i);
    LeftoverTotals(s.conns[c]);
    SwapRefs(s.pool, i, more);
    LosesReference(Refs(s.pool), Refs(q), s.conns, c);
    StopsHolding(s, i, more);
  }
}
