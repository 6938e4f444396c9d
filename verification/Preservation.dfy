/** The invariant holds initially, every enabled event keeps it, and so it holds after every run. */
module Preservation {
  import opened Bags
  import opened Builders
  import opened Options
  import opened PoolModel
  import opened SystemModel
  import opened Invariant
  import opened ConnectionEvents
  import opened QueueEvents

  lemma InitInv()
    ensures Inv(INIT)
  {
    CreateReserveCore(System(EMPTY, []));
  }

  lemma ArriveInv(s: System)
    requires Inv(s)
    ensures Inv(Accept(s))
  {
    hide Bag, Sum;
    ArrivePool(s);
    ArriveConns(s);
  }

  lemma ArrivePool(s: System)
    requires Inv(s)
    ensures var q := Accept(s).pool; PoolCore(q) && Refilled(q) && NoLostWakeup(q)
  {
    hide Bag, Sum, PoolCore;
    NewcomerUnknown(s);
    NewTaskPool(s.pool, |s.conns|);
  }

  lemma NewTaskPool(p: Pool, n: nat)
    requires PoolCore(p) && Refilled(p) && NoLostWakeup(p) && n !in MayAsk(p)
    ensures var q := AddTask(p, Client(n, Accepting)); PoolCore(q) && Refilled(q) && NoLostWakeup(q)
  {
    hide Bag, Sum, Fifo, ActiveIsUndestroyed;
    ArriveCounts(p, n);
    ArriveAsks(p, n);
    PoolCoreBy(p, AddTask(p, Client(n, Accepting)));
  }

  lemma ArriveCounts(p: Pool, n: nat)
    ensures var q := AddTask(p, Client(n, Accepting));
      && Sum(q.tasks, CreateOp) == Sum(p.tasks, CreateOp)
      && Sum(q.tasks, CreateTimerOp) == Sum(p.tasks, CreateTimerOp)
      && IssuedIds(q) == IssuedIds(p)
  {
  }

  lemma ArriveAsks(p: Pool, n: nat)
    requires NoDup(MayAsk(p)) && n !in MayAsk(p)
    ensures NoDup(MayAsk(AddTask(p, Client(n, Accepting))))
  {
    hide Bag, Sum;
    BagAdd(p.tasks, Client(n, Accepting), EarlyOf);
    StillNoDup(MayAsk(p), n);
    Grow(multiset(p.log.checkouts), Bag(p.tasks, EarlyOf), multiset{n});
  }

  lemma Grow<B>(a: multiset<B>, b: multiset<B>, x: multiset<B>)
    ensures a + (b + x) == a + b + x
  {
  }

  /** Nothing refers yet to the connection that arrives next. */
  lemma NewcomerUnknown(s: System)
    requires Core(s)
    ensures |s.conns| !in MayAsk(s.pool)
  {
    hide Bag, Sum;
    var n := |s.conns|;
    assert Refs(s.pool)[n] == 0;
    NotEarly(s.pool.tasks, n);
    assert n !in s.pool.log.checkouts;
  }

  lemma NotEarly(ts: seq<Task>, n: nat)
    requires Bag(ts, ConnOf)[n] == 0
    ensures Bag(ts, EarlyOf)[n] == 0
  {
  }

  lemma ArriveConns(s: System)
    requires Inv(s)
    ensures ConnCore(Accept(s))
  {
    hide Bag, Sum;
    ArriveRefs(s);
    ArriveOwned(s);
    ArriveGrants(s);
    ArriveHolds(s);
  }

  lemma ArriveHolds(s: System)
    requires HoldsInStage(Holding(s.pool), s.conns) && OneContinuation(Refs(s.pool), s.conns)
    ensures HoldsInStage(Holding(Accept(s).pool), Accept(s).conns)
  {
    hide Bag, Sum;
    var n := |s.conns|;
    BagAdd(s.pool.tasks, Client(n, Accepting), HoldingOf);
    assert Refs(s.pool)[n] == 0;
    BagBelow(s.pool.tasks, HoldingOf, ConnOf);
    assert Holding(s.pool)[n] <= Bag(s.pool.tasks, ConnOf)[n];
  }

  lemma ArriveRefs(s: System)
    requires OneContinuation(Refs(s.pool), s.conns)
    ensures OneContinuation(Refs(Accept(s).pool), Accept(s).conns)
  {
    hide Bag, Sum;
    var t := Client(|s.conns|, Accepting);
    BagAdd(s.pool.tasks, t, ConnOf);
    Shift(Bag(s.pool.tasks, ConnOf), multiset(s.pool.pending), ConnOf(t));
    assert Refs(Accept(s).pool) == Refs(s.pool) + multiset{|s.conns|};
  }

  lemma ArriveOwned(s: System)
    requires Owned(s)
    ensures Owned(Accept(s))
  {
    hide Bag, Sum;
    var t := Client(|s.conns|, Accepting);
    BagAdd(s.pool.tasks, t, HandoutOf);
    BagAdd(s.pool.tasks, t, DestroyOf);
    BagAdd(s.conns, Conn(true, None), HeldOf);
  }

  lemma ArriveGrants(s: System)
    requires GrantsKept(s)
    ensures GrantsKept(Accept(s))
  {
  }

  lemma ContinuesInv(s: System, i: nat, t: Task)
    requires Inv(s) && i < |s.pool.tasks| && s.pool.tasks[i].Client? && t.Client? && t.conn == s.pool.tasks[i].conn
    requires t.conn < |s.conns| && !Carries(t.step) && !s.pool.tasks[i].step.Granted?
    requires HoldingOf(t) == HoldingOf(s.pool.tasks[i]) && EarlyOf(t) <= EarlyOf(s.pool.tasks[i])
    ensures Inv(Put(TakeTask(s, i), t)) && Release(Put(TakeTask(s, i), t), t.conn) == Put(TakeTask(s, i), t)
  {
    hide Bag, Sum;
    TaskConnAlive(s, i);
    ConnContinues(s, i, t);
    ReleaseKeeps(Put(TakeTask(s, i), t), t.conn);
  }

  lemma HandoutInv(s: System, i: nat)
    requires Inv(s) && i < |s.pool.tasks| && s.pool.tasks[i].Client? && s.pool.tasks[i].step.Granted?
    requires s.pool.tasks[i].conn < |s.conns|
    ensures var t := s.pool.tasks[i];
      var r := BuilderReady(TakeTask(s, i), t.conn, t.step.builder);
      Inv(r) && |r.conns| == |s.conns| && Release(r, t.conn) == r
  {
    hide Bag, Sum;
    var t := s.pool.tasks[i];
    TaskConnAlive(s, i);
    HandoutArrives(s, i);
    ReleaseKeeps(BuilderReady(TakeTask(s, i), t.conn, t.step.builder), t.conn);
  }

  /** A client's request for a builder, served at once or not. */
  lemma CheckoutInv(s: System, i: nat)
    requires Inv(s) && i < |s.pool.tasks| && s.pool.tasks[i].Client? && s.pool.tasks[i].step.Requesting?
    requires s.pool.tasks[i].conn < |s.conns|
    ensures var c := s.pool.tasks[i].conn;
      var r := s.(pool := Checkout(TakeTask(s, i).pool, c));
      Inv(r) && Release(r, c) == r
  {
    hide Bag, Sum;
    var c := s.pool.tasks[i].conn;
    TaskConnAlive(s, i);
    EnqueueCore(s, i);
    ProcessPendingInv(s.(pool := Enqueue(TakeTask(s, i).pool, c)));
    ReleaseKeeps(s.(pool := Checkout(TakeTask(s, i).pool, c)), c);
  }

  predicate KnownRequest(request: string) {
    request == "checkout_builder_request" || request == "queue_status_request" || request == "image_list_request"
  }

  lemma RequestInv(s: System, i: nat, request: string)
    requires Inv(s) && i < |s.pool.tasks| && s.pool.tasks[i].Client? && s.pool.tasks[i].step.Requesting?
    requires s.pool.tasks[i].conn < |s.conns| && KnownRequest(request)
    ensures var c := s.pool.tasks[i].conn;
      var r := HandleRequest(TakeTask(s, i), c, request);
      Inv(r) && r.conns == s.conns && Release(r, c) == r
  {
    hide Bag, Sum, Inv, Release;
    var c := s.pool.tasks[i].conn;
    if request == "checkout_builder_request" {
      CheckoutInv(s, i);
    } else if request == "queue_status_request" {
      ContinuesInv(s, i, Client(c, Reporting(Status(TakeTask(s, i).pool))));
    } else {
      ContinuesInv(s, i, Client(c, Listing));
    }
  }

  /** Completions after which a connection has nothing left to do. */
  predicate Final(step: Step, o: Outcome) {
    match step
    case Accepting => !o.Done?
    case Requesting => !o.Text? || !KnownRequest(o.request)
    case Sending(_) => !o.Done?
    case Granted(_) => false
    case Listing => false
    case Listed => false
    case _ => true
  }

  /** Where a connection has nothing left to do its object is destroyed, and otherwise the finished
      continuation was not its last reference. */
  lemma ClientEventInv(s: System, i: nat, o: Outcome)
    requires Inv(s) && Enabled(s, Fire(i, o)) && s.pool.tasks[i].Client?
    ensures Inv(Next(s, Fire(i, o)))
    ensures var c := s.pool.tasks[i].conn;
      Next(s, Fire(i, o)) == if Final(s.pool.tasks[i].step, o) then Destruct(TakeTask(s, i), c)
                             else RunConn(TakeTask(s, i), c, s.pool.tasks[i].step, o)
  {
    hide Inv, Release, OutcomeFits, IssuedIds, Bag, Sum, Destruct;
    if Final(s.pool.tasks[i].step, o) {
      ConnEnds(s, i);
    } else {
      ClientGoesOn(s, i, o);
    }
  }

  lemma ClientGoesOn(s: System, i: nat, o: Outcome)
    requires Inv(s) && Enabled(s, Fire(i, o)) && s.pool.tasks[i].Client? && !Final(s.pool.tasks[i].step, o)
    ensures var c := s.pool.tasks[i].conn;
      var r := RunConn(TakeTask(s, i), c, s.pool.tasks[i].step, o);
      Inv(r) && c < |r.conns| && Release(r, c) == r
  {
    hide Inv, Release, HandleRequest, OutcomeFits, IssuedIds, Bag, Sum, Status, RemoveAt, BuilderReady, Put;
    TaskInRange(s, i);
    var step := s.pool.tasks[i].step;
    if step.Granted? {
      HandoutInv(s, i);
    } else if step.Requesting? {
      RequestInv(s, i, o.request);
    } else {
      StepInv(s, i, if step.Accepting? then Requesting else if step.Sending? then Closing
                    else if step.Listing? then Listed else SendingList);
    }
  }

  lemma TaskInRange(s: System, i: nat)
    requires Inv(s) && i < |s.pool.tasks| && s.pool.tasks[i].Client?
    ensures s.pool.tasks[i].conn < |s.conns|
  {
    hide Bag, Sum;
    TaskConnAlive(s, i);
  }

  /** The steps of a connection that only lead to its next one. */
  lemma StepInv(s: System, i: nat, next: Step)
    requires Inv(s) && i < |s.pool.tasks| && s.pool.tasks[i].Client? && s.pool.tasks[i].conn < |s.conns|
    requires match s.pool.tasks[i].step
             case Accepting => next == Requesting
             case Sending(_) => next == Closing
             case Listing => next == Listed
             case Listed => next == SendingList
             case _ => false
    ensures var c := s.pool.tasks[i].conn;
      var r := Put(TakeTask(s, i), Client(c, next));
      Inv(r) && |r.conns| == |s.conns| && Release(r, c) == r
  {
    hide Inv, Release, Bag, Sum, RemoveAt;
    ContinuesInv(s, i, Client(s.pool.tasks[i].conn, next));
  }

  lemma CommandEventInv(s: System, i: nat, o: Outcome)
    requires Inv(s) && Enabled(s, Fire(i, o)) && !s.pool.tasks[i].Client?
    ensures Inv(Next(s, Fire(i, o)))
  {
    hide Bag, Sum, Inv;
    match s.pool.tasks[i]
    case CreateRead => CreatePostedInv(s, i, if o.Built? then Some(o.builder) else None);
    case CreatePosted(result) =>
      if result.Some? { CreateSucceedsInv(s, i, result.value); } else { CreateFailsInv(s, i); }
    case DestroyRead(b) => DestroyMovesInv(s, i, DestroyPosted(b, o.Done?));
    case DestroyPosted(b, destroyed) =>
      if destroyed { DestroyedInv(s, i); } else { DestroyMovesInv(s, i, DestroyTimer(b)); }
    case CreateTimer => CreateTimerInv(s, i);
    case DestroyTimer(b) => DestroyMovesInv(s, i, DestroyRead(b));
  }

  /** Every enabled event keeps the invariant. */
  lemma NextInv(s: System, e: Event)
    requires Inv(s) && Enabled(s, e)
    ensures Inv(Next(s, e))
  {
    hide Bag, Sum, Inv;
    match e
    case Arrive => ArriveInv(s);
    case Fire(i, o) =>
      if s.pool.tasks[i].Client? {
        ClientEventInv(s, i, o);
      } else {
        CommandEventInv(s, i, o);
      }
  }

  lemma {:induction false} RunInv(s: System, es: seq<Event>, t: System)
    requires Inv(s) && Run(s, es, t)
    ensures Inv(t)
    decreases |es|
  {
    hide Bag, Sum, Inv, Next, Enabled;
    if es != [] {
      NextInv(s, es[0]);
      RunInv(Next(s, es[0]), es[1..], t);
    }
  }

  /** The invariant holds in every reachable state. */
  lemma ReachableInv(es: seq<Event>, s: System)
    requires Run(INIT, es, s)
    ensures Inv(s)
  {
    hide Bag, Sum;
    InitInv();
    RunInv(INIT, es, s);
  }
}
