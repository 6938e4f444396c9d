/** What each completion does, spelled out over the lists, the history and the operations, in every
    state that satisfies the invariant and so in every reachable one. */
module Steps {
  import opened Bags
  import opened Builders
  import opened Options
  import opened PoolModel
  import opened SystemModel
  import opened Invariant
  import opened ConnectionEvents
  import opened QueueEvents
  import opened Preservation
  import opened Theorems

  /** Operation i gives way to others, and nothing else changes. */
  ghost predicate GivesWay(s: System, i: nat, more: seq<Task>, t: System)
    requires i < |s.pool.tasks|
  {
    t == s.(pool := s.pool.(tasks := RemoveAt(s.pool.tasks, i) + more))
  }

  /** Operation i was the last of connection c, which held no builder. */
  ghost predicate EndsEmpty(s: System, i: nat, c: nat, t: System)
    requires i < |s.pool.tasks|
  {
    && c < |s.conns| && s.conns[c] == Conn(true, None)
    && t == System(s.pool.(tasks := RemoveAt(s.pool.tasks, i)), s.conns[c := Conn(false, None)])
  }

  /** Operation i was the last of connection c, and the builder it held is destroyed. */
  ghost predicate EndsHolding(s: System, i: nat, c: nat, b: BuilderData, t: System)
    requires i < |s.pool.tasks|
  {
    && c < |s.conns| && s.conns[c] == Conn(true, Some(b))
    && t.conns == s.conns[c := Conn(false, Some(b))]
    && t.pool == s.pool.(tasks := RemoveAt(s.pool.tasks, i) + [DestroyRead(b)],
                         log := s.pool.log.(returned := s.pool.log.returned + [b]))
  }

  // ---------- connections ----------

  /** A new client has a live connection, named by its arrival, that is at its handshake. */
  lemma ArriveStep(s: System)
    ensures Next(s, Arrive) == System(s.pool.(tasks := s.pool.tasks + [Client(|s.conns|, Accepting)]),
                                      s.conns + [Conn(true, None)])
  {
  }

  lemma LastStep(s: System, i: nat, o: Outcome)
    requires Inv(s) && Enabled(s, Fire(i, o)) && s.pool.tasks[i].Client? && Final(s.pool.tasks[i].step, o)
    ensures var c, t := s.pool.tasks[i].conn, Next(s, Fire(i, o));
      match s.conns[c].builder
      case None => EndsEmpty(s, i, c, t)
      case Some(b) => EndsHolding(s, i, c, b, t)
  {
    hide Inv, Next, Release, OutcomeFits, IssuedIds, Bag, Sum;
    ClientEventInv(s, i, o);
    AliveIn(s, i);
  }

  lemma AliveIn(s: System, i: nat)
    requires Inv(s) && i < |s.pool.tasks| && s.pool.tasks[i].Client?
    ensures var t := s.pool.tasks[i];
      && t.conn < |s.conns| && s.conns[t.conn].live
      && (s.conns[t.conn].builder.Some? <==> t.step.Sending? || t.step.Closing?)
  {
    hide Bag, Sum;
    TaskConnAlive(s, i);
    StageTellsHolding(s, i);
  }

  /** Every step of a connection other than its request: what follows what, and how it ends. */
  lemma ConnectionStep(s: System, i: nat, o: Outcome)
    requires Inv(s) && Enabled(s, Fire(i, o)) && s.pool.tasks[i].Client?
    ensures var c, t := s.pool.tasks[i].conn, Next(s, Fire(i, o));
      match s.pool.tasks[i].step
      case Accepting => if o == Done then GivesWay(s, i, [Client(c, Requesting)], t) else EndsEmpty(s, i, c, t)
      case Requesting => o.Error? ==> EndsEmpty(s, i, c, t)
      case Granted(b) =>
        && c < |s.conns| && s.conns[c] == Conn(true, None)
        && GivesWay(s.(conns := s.conns[c := Conn(true, Some(b))]), i, [Client(c, Sending(b))], t)
      case Sending(b) => if o == Done then GivesWay(s, i, [Client(c, Closing)], t) else EndsHolding(s, i, c, b, t)
      case Closing => s.conns[c].builder.Some? && EndsHolding(s, i, c, s.conns[c].builder.value, t)
      case Listing => GivesWay(s, i, [Client(c, Listed)], t)
      case Listed => GivesWay(s, i, [Client(c, SendingList)], t)
      case Reporting(_) => EndsEmpty(s, i, c, t)
      case SendingList => EndsEmpty(s, i, c, t)
  {
    hide Inv, Next, Release, IssuedIds, Bag, Sum, Destruct, EndsEmpty, EndsHolding, HandleRequest;
    AliveIn(s, i);
    if Final(s.pool.tasks[i].step, o) {
      LastStep(s, i, o);
      if s.pool.tasks[i].step.Sending? {
        SentWhatWasGranted(s, i);
      }
    } else {
      ClientEventInv(s, i, o);
    }
  }

  /** The creates that the two limits ask for are issued. */
  function Refill(p: Pool): Pool {
    var n := Deficit(|p.reserve|, p.outstanding, |p.active|);
    p.(outstanding := p.outstanding + n,
       tasks := p.tasks + Repeat(CreateRead, n),
       log := p.log.(launched := p.log.launched + n))
  }

  lemma RefillIs(p: Pool)
    requires Capacity(p)
    ensures CreateReserve(p) == Refill(p)
  {
    hide Bag, Sum, Deficit, RequestCount;
    CreateReserveFills(p);
  }

  /** A request for a builder: with a builder in reserve, nobody else is waiting and the client is
      handed the front one at once, and the reserve is refilled; with none it waits behind the rest. */
  lemma CheckoutStep(s: System, i: nat)
    requires Inv(s) && Enabled(s, Fire(i, Text("checkout_builder_request")))
    requires s.pool.tasks[i].Client? && s.pool.tasks[i].step.Requesting?
    ensures var p, c, t := s.pool, s.pool.tasks[i].conn, Next(s, Fire(i, Text("checkout_builder_request")));
      var rest, asked := RemoveAt(p.tasks, i), p.log.(checkouts := p.log.checkouts + [c]);
      && t.conns == s.conns
      && t.pool == (if p.reserve == [] then p.(pending := p.pending + [c], tasks := rest, log := asked)
                   else Refill(p.(pending := [],
                                  active := p.active + [p.reserve[0]],
                                  reserve := p.reserve[1..],
                                  tasks := rest + [Client(c, Granted(p.reserve[0]))],
                                  log := asked.(served := p.log.served + [Grant(c, p.reserve[0])]))))
      && (p.reserve != [] ==> p.pending == [])
  {
    hide Bag, Sum, IssuedIds, MayAsk, Refs, Next, Refill, CreateReserve, Without;
    RequestHandled(s, i, "checkout_builder_request");
    var p, c := TakeTask(s, i).pool, s.pool.tasks[i].conn;
    if p.reserve != [] {
      assert Enqueue(p, c).pending[0] == c && Enqueue(p, c).pending[1..] == [];
      RefillIs(Serve(Enqueue(p, c)));
    }
  }

  // ---------- the queue ----------

  /** Commands, their handlers and the timers of destroys, and the handlers that changed nothing
      but the counter: each gives way to exactly the operation that follows it. */
  lemma CommandStep(s: System, i: nat, o: Outcome)
    requires Enabled(s, Fire(i, o)) && !s.pool.tasks[i].Client?
    ensures var p, t := s.pool, Next(s, Fire(i, o));
      match p.tasks[i]
      case CreateRead => GivesWay(s, i, [CreatePosted(if o.Built? then Some(o.builder) else None)], t)
      case CreatePosted(result) =>
        result.None? ==>
          GivesWay(s.(pool := p.(outstanding := p.outstanding - 1, log := p.log.(failed := p.log.failed + 1))),
                   i, [CreateTimer], t)
      case DestroyRead(b) => GivesWay(s, i, [DestroyPosted(b, o == Done)], t)
      case DestroyPosted(b, destroyed) => !destroyed ==> GivesWay(s, i, [DestroyTimer(b)], t)
      case DestroyTimer(b) => GivesWay(s, i, [DestroyRead(b)], t)
      case CreateTimer => true
  {
  }

  lemma CreateTimerStep(s: System, i: nat)
    requires Inv(s) && Enabled(s, Fire(i, Done)) && s.pool.tasks[i].CreateTimer?
    ensures Next(s, Fire(i, Done)) == s.(pool := Refill(s.pool.(tasks := RemoveAt(s.pool.tasks, i))))
  {
    hide Bag, Sum, IssuedIds, MayAsk, Refs, Without, CreateReserve, Refill;
    RefillIs(TakeTask(s, i).pool);
  }

  /** A builder that was created goes, as it is, to the client that waits longest, or to the end of
      the reserve when none waits. */
  lemma CreatedStep(s: System, i: nat)
    requires Inv(s) && Enabled(s, Fire(i, Done)) && s.pool.tasks[i].CreatePosted? && s.pool.tasks[i].result.Some?
    ensures var p, b := s.pool, s.pool.tasks[i].result.value;
      var rest, created := RemoveAt(p.tasks, i), p.log.(created := p.log.created + [b]);
      Next(s, Fire(i, Done)) == s.(pool :=
        if p.pending == []
        then p.(outstanding := p.outstanding - 1, reserve := p.reserve + [b], tasks := rest, log := created)
        else Refill(p.(outstanding := p.outstanding - 1,
                       pending := p.pending[1..],
                       active := p.active + [b],
                       tasks := rest + [Client(p.pending[0], Granted(b))],
                       log := created.(served := p.log.served + [Grant(p.pending[0], b)]))))
    ensures s.pool.pending != [] ==> s.pool.reserve == []
  {
    hide Bag, IssuedIds, MayAsk, Refs, Without, CreateReserve, Refill, Sum;
    var p, b := TakeTask(s, i).pool, s.pool.tasks[i].result.value;
    if p.pending != [] {
      assert Stock(p, b).reserve == [b] && Stock(p, b).reserve[1..] == [];
      CreateInFlight(s.pool, i);
      RefillIs(Serve(Stock(p, b)));
    }
  }

  lemma CreateInFlight(p: Pool, i: nat)
    requires Accounted(p) && i < |p.tasks| && (p.tasks[i].CreateRead? || p.tasks[i].CreatePosted?)
    ensures p.outstanding >= 1
  {
    hide Sum, Bag;
    NoTotals();
    SumSwap(p.tasks, i, [], CreateOp);
  }

  /** A builder reported destroyed leaves the active list, the others keep their order, and the
      reserve is refilled. */
  lemma DestroyedStep(s: System, i: nat) returns (k: nat)
    requires Inv(s) && Enabled(s, Fire(i, Done)) && s.pool.tasks[i].DestroyPosted? && s.pool.tasks[i].destroyed
    ensures var p, b := s.pool, s.pool.tasks[i].builder;
      && k < |p.active| && p.active[k] == b
      && Next(s, Fire(i, Done)) == s.(pool := Refill(p.(
           active := RemoveAt(p.active, k),
           tasks := RemoveAt(p.tasks, i),
           log := p.log.(destroyed := p.log.destroyed + [b]))))
  {
    hide Bag, Sum, IssuedIds, MayAsk, Refs, Without, CreateReserve, Refill, Removed;
    k := ActiveEntry(s, i);
    RefillIs(Retire(TakeTask(s, i).pool, s.pool.tasks[i].builder));
  }

  // ---------- what the environment may do ----------

  /** No outcome the code has a branch for is ruled out: a handshake, read or write may succeed or
      fail, a request may be any string, a command's output may break off, be unreadable, or give
      any builder with an id not issued yet, and timers and posted handlers just run. */
  lemma AnythingMayHappen(s: System, i: nat, o: Outcome)
    requires Inv(s) && i < |s.pool.tasks|
    ensures Enabled(s, Arrive)
    ensures Enabled(s, Fire(i, o)) <==>
      match s.pool.tasks[i]
      case Client(_, step) =>
        if step.Requesting? then o.Error? || o.Text?
        else if step.Granted? || step.Listed? then o == Done
        else o == Done || o == Error
      case CreateRead => o.Error? || o.Garbled? || (o.Built? && o.builder.id !in IssuedIds(s.pool))
      case DestroyRead(_) => o == Done || o == Error
      case _ => o == Done
  {
    hide Bag, Sum, IssuedIds;
    if s.pool.tasks[i].Client? {
      TaskConnAlive(s, i);
    }
  }
}
