/** What the invariant says about every reachable state of the queue server. */
module Theorems {
  import opened Bags
  import opened Builders
  import opened Options
  import opened PoolModel
  import opened SystemModel
  import opened Invariant
  import opened ConnectionEvents
  import opened QueueEvents
  import opened Preservation

  /** Capacity: neither limit is ever exceeded, the counter is never negative, and the size_t
      arithmetic of the create loop never wraps: it asks for exactly what the limits leave. */
  lemma WithinCapacity(es: seq<Event>, s: System)
    requires Run(INIT, es, s)
    ensures var p := s.pool;
      && 0 <= p.outstanding && |p.reserve| + p.outstanding <= MAX_RESERVE
      && |p.reserve| + p.outstanding + |p.active| <= MAX_BUILDERS
      && RequestCount(|p.reserve|, p.outstanding, |p.active|) == Deficit(|p.reserve|, p.outstanding, |p.active|)
  {
    ReachableInv(es, s);
    CreateReserveFills(s.pool);
  }

  /** Refill is never forgotten, whatever failed before. */
  lemma RefillNeverForgotten(es: seq<Event>, s: System)
    requires Run(INIT, es, s)
    ensures var p := s.pool;
      || |p.reserve| + p.outstanding == MAX_RESERVE
      || |p.reserve| + p.outstanding + |p.active| == MAX_BUILDERS
      || CreateTimer in p.tasks
  {
    ReachableInv(es, s);
    if Sum(s.pool.tasks, CreateTimerOp) > 0 {
      var i := TimerThere(s.pool.tasks);
    }
  }

  lemma {:induction false} TimerThere(ts: seq<Task>) returns (i: nat)
    requires Sum(ts, CreateTimerOp) > 0
    ensures i < |ts| && ts[i].CreateTimer?
  {
    if ts[|ts| - 1].CreateTimer? {
      i := |ts| - 1;
    } else {
      i := TimerThere(ts[..|ts| - 1]);
    }
  }

  /** The outstanding counter is the number of create commands whose handler has not run; every
      launched create has succeeded, failed, or is still outstanding; and the queue never creates
      more than ten builders ahead of the clients served. */
  lemma CreatesAccounted(es: seq<Event>, s: System)
    requires Run(INIT, es, s)
    ensures var p := s.pool;
      && p.outstanding == Sum(p.tasks, CreateOp)
      && p.log.launched == |p.log.created| + p.log.failed + p.outstanding
      && |p.log.created| + p.outstanding <= |p.log.served| + MAX_RESERVE
  {
    ReachableInv(es, s);
  }

  /** Serving one client per call loses no wakeup: clients and builders never wait for each other. */
  lemma NobodyWaitsInVain(es: seq<Event>, s: System)
    requires Run(INIT, es, s)
    ensures s.pool.pending == [] || s.pool.reserve == []
  {
    ReachableInv(es, s);
  }

  function Min(a: nat, b: nat): nat {
    if a < b then a else b
  }

  /** The closed form of the matching, for every interleaving: the i-th client to ask gets the
      i-th builder created, as many as there are of both, and the rest wait in order. */
  lemma FifoMatching(es: seq<Event>, s: System)
    requires Run(INIT, es, s)
    ensures var p := s.pool;
      var m := Min(|p.log.checkouts|, |p.log.created|);
      && p.log.served == seq(m, i requires 0 <= i < m => Grant(p.log.checkouts[i], p.log.created[i]))
      && p.pending == p.log.checkouts[m..]
      && p.reserve == p.log.created[m..]
  {
    hide Bag, Sum, Run, Min, Without;
    ReachableInv(es, s);
    AllMatched(s.pool);
  }

  lemma AllMatched(p: Pool)
    requires Fifo(p) && NoLostWakeup(p)
    ensures |p.log.served| == Min(|p.log.checkouts|, |p.log.created|)
  {
    assert |p.pending| == |p.log.checkouts| - |p.log.served|;
    assert |p.reserve| == |p.log.created| - |p.log.served|;
  }

  /** Every active builder has exactly one party that will see to its destruction: a posted
      hand-out, a live connection that holds it, or a destroy under way or about to be retried. */
  lemma OwnershipConserved(es: seq<Event>, s: System)
    requires Run(INIT, es, s)
    ensures multiset(s.pool.active)
         == Bag(s.pool.tasks, HandoutOf) + Bag(s.conns, HeldOf) + Bag(s.pool.tasks, DestroyOf)
    ensures NoDup(multiset(s.pool.active))
  {
    ReachableInv(es, s);
    ActiveSplit(s);
  }

  lemma ActiveSplit(s: System)
    requires Core(s)
    ensures multiset(s.pool.active) + multiset(s.pool.log.destroyed) == multiset(HandedOut(s.pool))
    ensures multiset(s.pool.active)
         == Bag(s.pool.tasks, HandoutOf) + Bag(s.conns, HeldOf) + Bag(s.pool.tasks, DestroyOf)
    ensures NoDup(multiset(s.pool.active))
  {
    hide Bag, Sum;
    var p := s.pool;
    HandedOutDistinct(p);
    DestroyedAmong(s);
    WithoutPartition(HandedOut(p), p.log.destroyed);
    Cancel(multiset(p.active), multiset(p.log.destroyed), multiset(HandedOut(p)), multiset(p.log.returned),
           Bag(p.tasks, HandoutOf), Bag(s.conns, HeldOf), Bag(p.tasks, DestroyOf));
    forall b ensures multiset(p.active)[b] <= 1 {
      DistinctCounts(HandedOut(p), b);
      assert multiset(p.active)[b] <= (multiset(p.active) + multiset(p.log.destroyed))[b];
    }
  }

  lemma Cancel<B>(a: multiset<B>, gone: multiset<B>, all: multiset<B>, back: multiset<B>,
                  h: multiset<B>, k: multiset<B>, d: multiset<B>)
    requires a + gone == all && all == h + k + back && back == d + gone
    ensures a == h + k + d
  {
    assert a + gone == (h + k + d) + gone;
    assert a == (a + gone) - gone;
    assert h + k + d == ((h + k + d) + gone) - gone;
  }

  /** A builder is used for one client only: reserve, active and destroyed builders have pairwise
      different ids and are together the builders ever created. */
  lemma SingleUse(es: seq<Event>, s: System)
    requires Run(INIT, es, s)
    ensures var p := s.pool;
      && Distinct(p.reserve + p.active + p.log.destroyed)
      && multiset(p.reserve + p.active + p.log.destroyed) == multiset(p.log.created)
  {
    hide Run, Inv;
    ReachableInv(es, s);
    AllDistinct(s);
  }

  lemma AllDistinct(s: System)
    requires Inv(s)
    ensures var p := s.pool;
      && Distinct(p.reserve + p.active + p.log.destroyed)
      && multiset(p.reserve + p.active + p.log.destroyed) == multiset(p.log.created)
  {
    hide Bag, Sum, Without, IssuedIds, MayAsk, Refs;
    var p := s.pool;
    ActiveSplit(s);
    CreatedDistinct(p);
    assert p.log.created == HandedOut(p) + p.reserve;
    SamePermutation(p.reserve + p.active + p.log.destroyed, p.log.created);
  }

  lemma SamePermutation(a: seq<BuilderData>, b: seq<BuilderData>)
    requires multiset(a) == multiset(b) && Distinct(b)
    ensures Distinct(a)
  {
    forall i, j | 0 <= i < j < |a|
      ensures !SameBuilder(a[i], a[j])
    {
      assert a == a[..j] + [a[j]] + a[j + 1..];
      assert a[i] in a[..j];
      assert a[i] in multiset(b) && a[j] in multiset(b);
      DistinctCounts(b, a[j]);
      assert multiset(a)[a[j]] >= multiset(a[..j])[a[j]] + 1;
      if SameBuilder(a[i], a[j]) {
        SameIdSameEntry(b, a[i], a[j]);
      }
    }
  }

  /** Remove-by-equality deletes exactly the entry of the builder that was destroyed. */
  lemma DestroyRemovesOne(es: seq<Event>, s: System, i: nat) returns (k: nat)
    requires Run(INIT, es, s) && i < |s.pool.tasks| && s.pool.tasks[i].DestroyPosted?
    ensures k < |s.pool.active| && s.pool.active[k] == s.pool.tasks[i].builder
    ensures Removed(s.pool.active, s.pool.tasks[i].builder) == RemoveAt(s.pool.active, k)
  {
    hide Run, Inv, Removed, RemoveAt;
    ReachableInv(es, s);
    k := ActiveEntry(s, i);
  }

  lemma ActiveEntry(s: System, i: nat) returns (k: nat)
    requires Inv(s) && i < |s.pool.tasks| && IsDestroy(s.pool.tasks[i])
    ensures k < |s.pool.active| && s.pool.active[k] == s.pool.tasks[i].builder
    ensures Removed(s.pool.active, s.pool.tasks[i].builder) == RemoveAt(s.pool.active, k)
  {
    hide Bag, Sum, Removed, RemoveAt, Without;
    DestroyedOnce(s, i);
    k :| 0 <= k < |s.pool.active| && s.pool.active[k] == s.pool.tasks[i].builder;
    AllDistinct(s);
    DistinctPart(s.pool.reserve, s.pool.active, s.pool.log.destroyed);
    RemovedIsOneEntry(s.pool.active, k);
  }

  lemma DistinctPart(a: seq<BuilderData>, b: seq<BuilderData>, c: seq<BuilderData>)
    requires Distinct(a + b + c)
    ensures Distinct(b)
  {
    forall i, j | 0 <= i < j < |b|
      ensures !SameBuilder(b[i], b[j])
    {
      var all := a + b + c;
      assert all[|a| + i] == b[i] && all[|a| + j] == b[j];
    }
  }

  /** A status request reports the builders handed out and not destroyed, in hand-out order, and
      the builders created and not handed out; the two share no id and hold at most 25 entries. */
  lemma StatusSnapshot(es: seq<Event>, s: System)
    requires Run(INIT, es, s)
    ensures var p, r := s.pool, Status(s.pool);
      && |p.log.served| <= |p.log.created|
      && r.active == Without(p.log.created[..|p.log.served|], p.log.destroyed)
      && r.reserve == p.log.created[|p.log.served|..]
      && Distinct(r.active + r.reserve)
      && |r.active| + |r.reserve| <= MAX_BUILDERS
  {
    hide Bag, Sum;
    ReachableInv(es, s);
    SingleUse(es, s);
    var p := s.pool;
    assert p.reserve + p.active <= p.reserve + p.active + p.log.destroyed;
    SamePermutation(p.active + p.reserve, p.reserve + p.active);
  }

  /** Whenever a client waits, a create is outstanding, or a retry timer will start one, or all 25
      builders are in use, each on its way to being destroyed. */
  lemma NoStrandedClient(es: seq<Event>, s: System)
    requires Run(INIT, es, s) && s.pool.pending != []
    ensures var p := s.pool;
      || p.outstanding > 0
      || CreateTimer in p.tasks
      || (&& |p.active| == MAX_BUILDERS
          && forall b :: b in p.active ==>
               || (exists c :: Client(c, Granted(b)) in p.tasks)
               || (exists c :: 0 <= c < |s.conns| && s.conns[c].live && s.conns[c].builder == Some(b))
               || (exists t :: t in p.tasks && IsDestroy(t) && t.builder == b))
  {
    hide Bag, Sum;
    ReachableInv(es, s);
    RefillNeverForgotten(es, s);
    ActiveSplit(s);
    var p := s.pool;
    forall b | b in p.active
      ensures || (exists c :: Client(c, Granted(b)) in p.tasks)
              || (exists c :: 0 <= c < |s.conns| && s.conns[c].live && s.conns[c].builder == Some(b))
              || (exists t :: t in p.tasks && IsDestroy(t) && t.builder == b)
    {
      assert b in multiset(p.active);
      if b in Bag(p.tasks, HandoutOf) {
        var i := BagFind(p.tasks, b, HandoutOf);
        assert p.tasks[i] == Client(p.tasks[i].conn, Granted(b));
      } else if b in Bag(s.conns, HeldOf) {
        var i := BagFind(s.conns, b, HeldOf);
      } else {
        var i := BagFind(p.tasks, b, DestroyOf);
        assert p.tasks[i] in p.tasks;
      }
    }
  }

  // ---------- the life of a connection ----------

  /** What is returned was held by a connection that has ended. */
  ghost predicate ReturnedByDead(s: System) {
    forall b :: b in s.pool.log.returned ==>
      exists c :: 0 <= c < |s.conns| && !s.conns[c].live && s.conns[c].builder == Some(b)
  }

  lemma QueueReturnsNothing(p: Pool, t: Task, o: Outcome)
    requires !t.Client?
    ensures RunPool(p, t, o).log.returned == p.log.returned
  {
  }

  lemma ConnKeepsDead(s: System, c: nat, step: Step, o: Outcome)
    requires c < |s.conns| && s.conns[c].live && ReturnedByDead(s)
    ensures var r := RunConn(s, c, step, o);
      && r.pool.log.returned == s.pool.log.returned && |r.conns| == |s.conns|
      && (forall k :: 0 <= k < |s.conns| ==> r.conns[k].live == s.conns[k].live)
      && ReturnedByDead(r)
  {
    var r := RunConn(s, c, step, o);
    assert forall k :: 0 <= k < |s.conns| && k != c ==> r.conns[k] == s.conns[k];
    forall b | b in r.pool.log.returned
      ensures exists k :: 0 <= k < |r.conns| && !r.conns[k].live && r.conns[k].builder == Some(b)
    {
      var k :| 0 <= k < |s.conns| && !s.conns[k].live && s.conns[k].builder == Some(b);
      assert r.conns[k] == s.conns[k];
    }
  }

  lemma DestructKeepsDead(s: System, c: nat)
    requires c < |s.conns| && s.conns[c].live && ReturnedByDead(s)
    ensures ReturnedByDead(Destruct(s, c))
  {
    var r := Destruct(s, c);
    forall b | b in r.pool.log.returned
      ensures exists k :: 0 <= k < |r.conns| && !r.conns[k].live && r.conns[k].builder == Some(b)
    {
      if b in s.pool.log.returned {
        var k :| 0 <= k < |s.conns| && !s.conns[k].live && s.conns[k].builder == Some(b);
        assert r.conns[k] == s.conns[k];
      } else {
        assert r.conns[c].builder == Some(b) && !r.conns[c].live;
      }
    }
  }

  lemma NextReturnedByDead(s: System, e: Event)
    requires Inv(s) && ReturnedByDead(s) && Enabled(s, e)
    ensures ReturnedByDead(Next(s, e))
  {
    hide Bag, Sum, Inv;
    match e
    case Arrive =>
      var r := Accept(s);
      forall b | b in r.pool.log.returned
        ensures exists k :: 0 <= k < |r.conns| && !r.conns[k].live && r.conns[k].builder == Some(b)
      {
        var k :| 0 <= k < |s.conns| && !s.conns[k].live && s.conns[k].builder == Some(b);
        assert r.conns[k] == s.conns[k];
      }
    case Fire(i, o) =>
      if s.pool.tasks[i].Client? {
        ClientReturnedByDead(s, i, o);
      } else {
        QueueReturnsNothing(TakeTask(s, i).pool, s.pool.tasks[i], o);
      }
  }

  lemma ClientReturnedByDead(s: System, i: nat, o: Outcome)
    requires Inv(s) && ReturnedByDead(s) && Enabled(s, Fire(i, o)) && s.pool.tasks[i].Client?
    ensures ReturnedByDead(Next(s, Fire(i, o)))
  {
    hide Bag, Sum, RunConn;
    var c := s.pool.tasks[i].conn;
    TaskConnAlive(s, i);
    ConnKeepsDead(TakeTask(s, i), c, s.pool.tasks[i].step, o);
    var r := RunConn(TakeTask(s, i), c, s.pool.tasks[i].step, o);
    DestructKeepsDead(r, c);
  }

  lemma {:induction false} RunReturnedByDead(s: System, es: seq<Event>, t: System)
    requires Inv(s) && ReturnedByDead(s) && Run(s, es, t)
    ensures ReturnedByDead(t)
    decreases |es|
  {
    hide Inv, ReturnedByDead, Next, Enabled;
    if es != [] {
      NextInv(s, es[0]);
      NextReturnedByDead(s, es[0]);
      RunReturnedByDead(Next(s, es[0]), es[1..], t);
    }
  }

  /** The ids of builders tell grants apart: whoever is recorded with b is the client b went to. */
  lemma GrantUnique(p: Pool, c: nat, d: nat, b: BuilderData)
    requires PoolCore(p) && Grant(c, b) in p.log.served && Grant(d, b) in p.log.served
    ensures c == d
  {
    var i :| 0 <= i < |p.log.served| && p.log.served[i] == Grant(c, b);
    var j :| 0 <= j < |p.log.served| && p.log.served[j] == Grant(d, b);
    CreatedDistinct(p);
    assert SameBuilder(p.log.created[i], p.log.created[j]) && SameBuilder(p.log.created[j], p.log.created[i]);
    assert i == j;
  }

  /** No client asks twice. */
  lemma AskedOnce(q: Pool, i: nat, j: nat)
    requires NoDup(MayAsk(q)) && i < |q.log.checkouts| && j < |q.log.checkouts|
    requires q.log.checkouts[i] == q.log.checkouts[j]
    ensures i == j
  {
    hide Bag, Sum;
    var cs, c := q.log.checkouts, q.log.checkouts[i];
    assert multiset(cs)[c] <= MayAsk(q)[c];
    CountedTwice(cs, i, j);
    CountedTwice(cs, j, i);
  }

  lemma CountedTwice(cs: seq<nat>, i: nat, j: nat)
    requires i < |cs| && j < |cs| && cs[i] == cs[j] && multiset(cs)[cs[i]] <= 1
    ensures i >= j
  {
    assert cs == cs[..j] + [cs[j]] + cs[j + 1..];
    assert multiset(cs)[cs[j]] >= multiset(cs[..j])[cs[j]] + 1;
    assert forall x :: 0 <= x < j ==> cs[..j][x] == cs[x] && cs[..j][x] in multiset(cs[..j]);
  }

  /** What a client was granted is one builder. */
  lemma GrantedOnce(p: Pool, c: nat, a: BuilderData, b: BuilderData)
    requires PoolCore(p) && Grant(c, a) in p.log.served && Grant(c, b) in p.log.served
    ensures a == b
  {
    hide Bag, Sum, Without, IssuedIds, MayAsk;
    var i :| 0 <= i < |p.log.served| && p.log.served[i] == Grant(c, a);
    var j :| 0 <= j < |p.log.served| && p.log.served[j] == Grant(c, b);
    AskedOnce(p, i, j);
  }

  /** The client is sent the builder that was granted to it and that its connection holds. */
  lemma SentWhatWasGranted(s: System, i: nat)
    requires Inv(s) && i < |s.pool.tasks| && s.pool.tasks[i].Client? && s.pool.tasks[i].step.Sending?
    ensures var t := s.pool.tasks[i];
      && Grant(t.conn, t.step.builder) in s.pool.log.served
      && t.conn < |s.conns| && s.conns[t.conn] == Conn(true, Some(t.step.builder))
  {
    hide Bag, Sum, Without, IssuedIds, MayAsk;
    var t := s.pool.tasks[i];
    assert t in s.pool.tasks;
    TaskConnAlive(s, i);
    StageTellsHolding(s, i);
    GrantedOnce(s.pool, t.conn, t.step.builder, s.conns[t.conn].builder.value);
  }

  /** Where a granted builder b of client c can be. */
  ghost predicate InHandout(s: System, c: nat, b: BuilderData) {
    Client(c, Granted(b)) in s.pool.tasks
  }

  ghost predicate Held(s: System, c: nat, b: BuilderData) {
    c < |s.conns| && s.conns[c].live && s.conns[c].builder == Some(b)
  }

  ghost predicate GivenBack(s: System, c: nat, b: BuilderData) {
    c < |s.conns| && !s.conns[c].live && s.conns[c].builder == Some(b) && multiset(s.pool.log.returned)[b] == 1
  }

  /** A builder granted to a client is at every moment in exactly one place: on its way to the
      client's connection, held by that live connection, or returned, exactly once, by that
      connection's end; so a returned builder is never returned again nor held by another. */
  lemma GrantedBuilderInOnePlace(es: seq<Event>, s: System, c: nat, b: BuilderData)
    requires Run(INIT, es, s) && Grant(c, b) in s.pool.log.served
    ensures InHandout(s, c, b) || Held(s, c, b) || GivenBack(s, c, b)
    ensures !(InHandout(s, c, b) && Held(s, c, b)) && !(InHandout(s, c, b) && GivenBack(s, c, b))
    ensures !(Held(s, c, b) && GivenBack(s, c, b))
  {
    hide Bag, Sum;
    ReachableInv(es, s);
    InitInv();
    RunReturnedByDead(INIT, es, s);
    var p := s.pool;
    OnePlace(s, b);
    if b in Bag(p.tasks, HandoutOf) {
      var i := BagFind(p.tasks, b, HandoutOf);
      assert p.tasks[i] in p.tasks;
      GrantUnique(p, c, p.tasks[i].conn, b);
      assert p.tasks[i] == Client(c, Granted(b));
    } else if b in Bag(s.conns, HeldOf) {
      var k := BagFind(s.conns, b, HeldOf);
      GrantUnique(p, c, k, b);
    } else {
      assert b in multiset(p.log.returned);
      var k :| 0 <= k < |s.conns| && !s.conns[k].live && s.conns[k].builder == Some(b);
      GrantUnique(p, c, k, b);
    }
    if InHandout(s, c, b) {
      var i :| 0 <= i < |p.tasks| && p.tasks[i] == Client(c, Granted(b));
      BagHas(p.tasks, i, HandoutOf);
      assert b in Bag(p.tasks, HandoutOf);
    }
    if Held(s, c, b) {
      BagHas(s.conns, c, HeldOf);
      assert b in Bag(s.conns, HeldOf);
    }
  }

  lemma OnePlace(s: System, b: BuilderData)
    requires Core(s) && exists c :: Grant(c, b) in s.pool.log.served
    ensures Bag(s.pool.tasks, HandoutOf)[b] + Bag(s.conns, HeldOf)[b] + multiset(s.pool.log.returned)[b] == 1
  {
    hide Bag, Sum;
    var p := s.pool;
    var c :| Grant(c, b) in p.log.served;
    var i :| 0 <= i < |p.log.served| && p.log.served[i] == Grant(c, b);
    HandedOutDistinct(p);
    DistinctCounts(HandedOut(p), b);
    assert HandedOut(p)[i] == b;
    assert b in multiset(HandedOut(p));
    assert (Bag(p.tasks, HandoutOf) + Bag(s.conns, HeldOf) + multiset(p.log.returned))[b] == 1;
  }

  /** A builder is being written to client c. */
  ghost predicate Writing(s: System, c: nat) {
    exists b :: Client(c, Sending(b)) in s.pool.tasks
  }

  /** A live connection has exactly one continuation, in the io_context or among the pending
      handlers; it holds a builder exactly while writing it to the client or waiting for the
      client to leave; and no connection asks for a builder twice. */
  lemma ConnectionLifecycle(es: seq<Event>, s: System, c: nat)
    requires Run(INIT, es, s) && c < |s.conns|
    ensures Refs(s.pool)[c] == if s.conns[c].live then 1 else 0
    ensures s.conns[c].live ==>
      (s.conns[c].builder.Some? <==> Writing(s, c) || Client(c, Closing) in s.pool.tasks)
    ensures multiset(s.pool.log.checkouts)[c] <= 1
  {
    hide Bag, Sum;
    ReachableInv(es, s);
    var p := s.pool;
    assert multiset(p.log.checkouts)[c] <= MayAsk(p)[c];
    if s.conns[c].live && s.conns[c].builder.Some? {
      var i := BagFind(p.tasks, c, HoldingOf);
      assert p.tasks[i] in p.tasks;
      assert p.tasks[i] == Client(c, if p.tasks[i].step.Sending? then Sending(p.tasks[i].step.builder) else Closing);
    }
    if Writing(s, c) {
      var b :| Client(c, Sending(b)) in p.tasks;
      var i :| 0 <= i < |p.tasks| && p.tasks[i] == Client(c, Sending(b));
      StageTellsHolding(s, i);
    }
    if Client(c, Closing) in p.tasks {
      var i :| 0 <= i < |p.tasks| && p.tasks[i] == Client(c, Closing);
      StageTellsHolding(s, i);
    }
  }

  lemma RequestHandled(s: System, i: nat, request: string)
    requires Inv(s) && Enabled(s, Fire(i, Text(request)))
    requires s.pool.tasks[i].Client? && s.pool.tasks[i].step.Requesting?
    ensures var c, rest := s.pool.tasks[i].conn, TakeTask(s, i);
      Next(s, Fire(i, Text(request))) == if KnownRequest(request) then HandleRequest(rest, c, request)
                                         else rest.(conns := s.conns[c := Conn(false, None)])
  {
    hide Bag, Sum, IssuedIds, Release, Next, HandleRequest;
    TaskConnAlive(s, i);
    StageTellsHolding(s, i);
    ClientEventInv(s, i, Text(request));
  }

  lemma ReportIs(s: System)
    requires Inv(s)
    ensures var log := s.pool.log;
      var m := Min(|log.checkouts|, |log.created|);
      Status(s.pool) == Report(Without(log.created[..m], log.destroyed), log.created[m..])
  {
    hide Bag, Sum, Without;
  }

  /** How a request string is answered: a builder request joins the queue of clients, last; a status
      request starts the write of the builders handed out and not destroyed, in hand-out order, and
      of those created and not handed out; an image-list request starts the command; and any other
      string ends the connection, which held no builder, and changes nothing else. */
  lemma RequestAnswered(es: seq<Event>, s: System, i: nat, request: string)
    requires Run(INIT, es, s) && Enabled(s, Fire(i, Text(request)))
    requires s.pool.tasks[i].Client? && s.pool.tasks[i].step.Requesting?
    ensures var c, t := s.pool.tasks[i].conn, Next(s, Fire(i, Text(request)));
      var rest, log := RemoveAt(s.pool.tasks, i), s.pool.log;
      var m := Min(|log.checkouts|, |log.created|);
      && t.conns == (if KnownRequest(request) then s.conns else s.conns[c := Conn(false, None)])
      && (request == "checkout_builder_request" ==> t.pool.log.checkouts == log.checkouts + [c])
      && (request == "queue_status_request" ==>
            var report := Report(Without(log.created[..m], log.destroyed), log.created[m..]);
            t.pool == s.pool.(tasks := rest + [Client(c, Reporting(report))]))
      && (request == "image_list_request" ==> t.pool == s.pool.(tasks := rest + [Client(c, Listing)]))
      && (!KnownRequest(request) ==> t.pool == s.pool.(tasks := rest))
  {
    hide Bag, Sum, Without, Next, Inv, Min, IssuedIds;
    ReachableInv(es, s);
    RequestHandled(s, i, request);
    ReportIs(s);
    if request == "checkout_builder_request" {
      AsksLast(TakeTask(s, i).pool, s.pool.tasks[i].conn);
    }
  }

  lemma AsksLast(p: Pool, c: nat)
    ensures Checkout(p, c).log.checkouts == p.log.checkouts + [c]
  {
  }
}
