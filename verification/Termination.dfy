/** Every run is finite once clients stop arriving and commands stop failing, and where a run
    stops the queue is always in the same resting state. */
module Termination {
  import opened Bags
  import opened Builders
  import opened Options
  import opened PoolModel
  import opened SystemModel
  import opened Invariant
  import opened ConnectionEvents
  import opened QueueEvents
  import opened Preservation
  import opened Theorems

  // ---------- a measure ----------

  /** How much work an operation may still cause, at most, without arrivals and failures. */
  ghost function Weight(t: Task): nat {
    match t
    case Client(_, step) =>
      (match step
       case Accepting => 11
       case Requesting => 10
       case Granted(_) => 5
       case Sending(_) => 4
       case Closing => 3
       case Reporting(_) => 1
       case Listing => 3
       case Listed => 2
       case SendingList => 1)
    case CreateRead => 2
    case CreatePosted(result) => if result.Some? then 1 else 5
    case DestroyRead(_) => 2
    case DestroyPosted(_, destroyed) => if destroyed then 1 else 4
    case CreateTimer => 1
    case DestroyTimer(_) => 3
  }

  const PENDING_WEIGHT := 9
  const UNISSUED_WEIGHT := 3

  /** Reserve slots no create has been issued for, pending clients, and outstanding operations. */
  ghost function Measure(p: Pool): int {
    UNISSUED_WEIGHT * (MAX_RESERVE - |p.reserve| - p.outstanding) + PENDING_WEIGHT * |p.pending| + Sum(p.tasks, Weight)
  }

  lemma {:induction false} CreatesWeigh(ts: seq<Task>, n: nat)
    ensures Sum(ts + Repeat(CreateRead, n), Weight) == Sum(ts, Weight) + 2 * n
  {
    hide Sum;
    if n == 0 {
      assert ts + Repeat(CreateRead, n) == ts;
    } else {
      CreatesWeigh(ts, n - 1);
      SumAdd(ts + Repeat(CreateRead, n - 1), CreateRead, Weight);
      assert ts + Repeat(CreateRead, n) == ts + Repeat(CreateRead, n - 1) + [CreateRead];
    }
  }

  /** Issuing creates never raises the measure. */
  lemma CreateReserveMeasure(p: Pool)
    ensures Measure(CreateReserve(p)) <= Measure(p)
  {
    hide Sum;
    CreatesWeigh(p.tasks, RequestCount(|p.reserve|, p.outstanding, |p.active|));
  }

  lemma ProcessPendingMeasure(p: Pool)
    ensures Measure(ProcessPending(p)) <= Measure(p)
  {
    hide Sum;
    if p.pending != [] && p.reserve != [] {
      SumAdd(p.tasks, Client(p.pending[0], Granted(p.reserve[0])), Weight);
      CreateReserveMeasure(Serve(p));
    }
  }

  // ---------- kinds of events ----------

  datatype Kind = Arrival | CreateFailure | DestroyFailure | Creation | Other

  /** What an event means to the queue: a client arriving, a create or destroy command whose output
      could not be read or parsed, the handler of a successful create, or anything else. */
  ghost function KindOf(s: System, e: Event): Kind
    requires Enabled(s, e)
  {
    match e
    case Arrive => Arrival
    case Fire(i, o) =>
      match s.pool.tasks[i]
      case CreateRead => if o.Built? then Other else CreateFailure
      case DestroyRead(_) => if o.Done? then Other else DestroyFailure
      case CreatePosted(result) => if result.Some? then Creation else Other
      case _ => Other
  }

  /** The most by which an event may raise the measure, and one more. */
  function Cost(k: Kind): nat {
    match k
    case Arrival => 12
    case CreateFailure => 4
    case DestroyFailure => 3
    case _ => 0
  }

  lemma ClientEndsMeasure(s: System, i: nat)
    requires Core(s) && i < |s.pool.tasks| && s.pool.tasks[i].Client? && s.pool.tasks[i].conn < |s.conns|
    ensures Measure(Destruct(TakeTask(s, i), s.pool.tasks[i].conn).pool) < Measure(s.pool)
  {
    hide Sum, Bag, Core;
    var c := s.pool.tasks[i].conn;
    var more := Leftover(s.conns[c]);
    StageTellsHolding(s, i);
    DestructShape(s, i);
    SumSwap(s.pool.tasks, i, more, Weight);
    MoreWeighs(s.conns[c]);
  }

  lemma MoreWeighs(conn: Conn)
    ensures Sum(Leftover(conn), Weight) == if conn.builder.Some? then 2 else 0
  {
  }

  lemma ClientGoesOnMeasure(s: System, i: nat, o: Outcome)
    requires Inv(s) && Enabled(s, Fire(i, o)) && s.pool.tasks[i].Client? && !Final(s.pool.tasks[i].step, o)
    ensures Measure(RunConn(TakeTask(s, i), s.pool.tasks[i].conn, s.pool.tasks[i].step, o).pool) < Measure(s.pool)
  {
    hide Bag, Sum, Inv;
    var c := s.pool.tasks[i].conn;
    match s.pool.tasks[i].step
    case Accepting => StepMeasure(s.pool, i, Client(c, Requesting));
    case Requesting =>
      if o.request == "checkout_builder_request" {
        CheckoutMeasure(s.pool, i);
      } else if o.request == "queue_status_request" {
        StepMeasure(s.pool, i, Client(c, Reporting(Status(TakeTask(s, i).pool))));
      } else {
        StepMeasure(s.pool, i, Client(c, Listing));
      }
    case Granted(b) => StepMeasure(s.pool, i, Client(c, Sending(b)));
    case Sending(_) => StepMeasure(s.pool, i, Client(c, Closing));
    case Listing => StepMeasure(s.pool, i, Client(c, Listed));
    case Listed => StepMeasure(s.pool, i, Client(c, SendingList));
  }

  /** One operation following another changes the measure by the difference of their weights. */
  lemma StepMeasure(p: Pool, i: nat, t: Task)
    requires i < |p.tasks|
    ensures Measure(AddTask(p.(tasks := RemoveAt(p.tasks, i)), t)) == Measure(p) - Weight(p.tasks[i]) + Weight(t)
  {
    hide Sum, Weight;
    SumSwap(p.tasks, i, [t], Weight);
    SumOne(t, Weight);
  }

  lemma DropMeasure(p: Pool, i: nat)
    requires i < |p.tasks|
    ensures Measure(p.(tasks := RemoveAt(p.tasks, i))) == Measure(p) - Weight(p.tasks[i])
  {
    hide Weight;
    assert RemoveAt(p.tasks, i) + [] == RemoveAt(p.tasks, i);
    SumSwap(p.tasks, i, [], Weight);
  }

  lemma CheckoutMeasure(p: Pool, i: nat)
    requires i < |p.tasks| && p.tasks[i].Client? && p.tasks[i].step.Requesting?
    ensures Measure(Checkout(p.(tasks := RemoveAt(p.tasks, i)), p.tasks[i].conn)) < Measure(p)
  {
    hide Sum;
    DropMeasure(p, i);
    ProcessPendingMeasure(Enqueue(p.(tasks := RemoveAt(p.tasks, i)), p.tasks[i].conn));
  }

  lemma CommandMeasure(s: System, i: nat, o: Outcome)
    requires Enabled(s, Fire(i, o)) && !s.pool.tasks[i].Client?
    ensures Measure(Next(s, Fire(i, o)).pool) < Measure(s.pool) + Cost(KindOf(s, Fire(i, o)))
  {
    hide Sum, Bag;
    var p := s.pool;
    var rest := TakeTask(s, i).pool;
    DropMeasure(p, i);
    match p.tasks[i]
    case CreateRead => StepMeasure(p, i, CreatePosted(if o.Built? then Some(o.builder) else None));
    case CreatePosted(result) =>
      if result.Some? {
        ProcessPendingMeasure(Stock(rest, result.value));
      } else {
        SumAdd(rest.tasks, CreateTimer, Weight);
      }
    case DestroyRead(b) => StepMeasure(p, i, DestroyPosted(b, o.Done?));
    case DestroyPosted(b, destroyed) =>
      if destroyed {
        CreateReserveMeasure(Retire(rest, b));
      } else {
        StepMeasure(p, i, DestroyTimer(b));
      }
    case CreateTimer => CreateReserveMeasure(rest);
    case DestroyTimer(b) => StepMeasure(p, i, DestroyRead(b));
  }

  /** Every event lowers the measure, except that an arrival or a failed command may raise it by a
      bounded amount. */
  lemma NextMeasure(s: System, e: Event)
    requires Inv(s) && Enabled(s, e)
    ensures Measure(Next(s, e).pool) < Measure(s.pool) + Cost(KindOf(s, e))
  {
    hide Sum, Bag, Inv, Measure, OutcomeFits, IssuedIds;
    match e
    case Arrive =>
      ArriveMeasure(s);
    case Fire(i, o) =>
      if !s.pool.tasks[i].Client? {
        CommandMeasure(s, i, o);
      } else {
        ClientMeasure(s, i, o);
      }
  }

  lemma ArriveMeasure(s: System)
    ensures Measure(Accept(s).pool) < Measure(s.pool) + Cost(Arrival)
  {
  }

  lemma ClientMeasure(s: System, i: nat, o: Outcome)
    requires Inv(s) && Enabled(s, Fire(i, o)) && s.pool.tasks[i].Client?
    ensures Measure(Next(s, Fire(i, o)).pool) < Measure(s.pool)
  {
    hide Sum, Bag, Measure, RunConn, Destruct, Capacity, PoolCore, ConnCore;
    ClientEventInv(s, i, o);
    if Final(s.pool.tasks[i].step, o) {
      ClientEndsMeasure(s, i);
    } else {
      ClientGoesOnMeasure(s, i, o);
    }
  }

  /** How many events of a kind a run contains. */
  ghost function Tally(s: System, es: seq<Event>, t: System, k: Kind): nat
    requires Run(s, es, t)
    decreases |es|
  {
    if es == [] then 0
    else (if KindOf(s, es[0]) == k then 1 else 0) + Tally(Next(s, es[0]), es[1..], t, k)
  }

  lemma {:induction false} RunMeasure(s: System, es: seq<Event>, t: System)
    requires Inv(s) && Run(s, es, t)
    ensures |es| + Measure(t.pool) <= Measure(s.pool) + 12 * Tally(s, es, t, Arrival)
              + 4 * Tally(s, es, t, CreateFailure) + 3 * Tally(s, es, t, DestroyFailure)
    decreases |es|
  {
    hide Inv, Next, Enabled, Measure, KindOf;
    if es != [] {
      NextInv(s, es[0]);
      NextMeasure(s, es[0]);
      RunMeasure(Next(s, es[0]), es[1..], t);
    }
  }

  lemma MeasureNonNegative(s: System)
    requires Capacity(s.pool)
    ensures Measure(s.pool) >= 0
  {
  }

  lemma InitMeasure()
    ensures Measure(INIT.pool) == 20
  {
    assert INIT.pool == CreateReserve(EMPTY);
    assert RequestCount(0, 0, 0) == MAX_RESERVE;
    CreatesWeigh([], MAX_RESERVE);
  }

  /** Termination: the length of every run is bounded by the clients that arrive and the commands
      that fail in it, so with finitely many of both every run of the whole server is finite. */
  lemma RunsAreFinite(es: seq<Event>, s: System)
    requires Run(INIT, es, s)
    ensures |es| <= 20 + 12 * Tally(INIT, es, s, Arrival)
              + 4 * Tally(INIT, es, s, CreateFailure) + 3 * Tally(INIT, es, s, DestroyFailure)
  {
    hide Inv, Tally, Run, Measure;
    InitInv();
    InitMeasure();
    RunMeasure(INIT, es, s);
    ReachableInv(es, s);
    assert Capacity(s.pool) by { CapacityOf(s); }
    MeasureNonNegative(s);
  }

  lemma CapacityOf(s: System)
    requires Inv(s)
    ensures Capacity(s.pool)
  {
  }

  // ---------- where runs end ----------

  /** Only a new client could make anything happen. */
  ghost predicate AtRest(s: System) {
    forall e :: Enabled(s, e) ==> e.Arrive?
  }

  /** A completion that is neither a failure nor impossible. A create needs an id not yet issued. */
  ghost function Success(t: Task, id: string): Outcome {
    match t
    case Client(_, step) => if step.Requesting? then Error else Done
    case CreateRead => Built(BuilderData("", "8080", id))
    case _ => Done
  }

  /** Some string is longer than any in a finite collection, hence not in it. */
  lemma {:induction false} FreshId(ids: multiset<string>) returns (id: string)
    ensures id !in ids
    ensures forall x :: x in ids ==> |x| < |id|
    decreases |ids|
  {
    if ids == multiset{} {
      id := "x";
    } else {
      var x :| x in ids;
      var longer := FreshId(ids - multiset{x});
      id := longer + x + "x";
      assert forall y :: y in ids ==> y == x || y in ids - multiset{x};
    }
  }

  /** An outstanding operation can always complete, without counting as a failure. */
  lemma CanProceed(s: System, i: nat) returns (o: Outcome)
    requires Inv(s) && i < |s.pool.tasks|
    ensures Enabled(s, Fire(i, o))
    ensures KindOf(s, Fire(i, o)).Other? || KindOf(s, Fire(i, o)).Creation?
  {
    hide Bag, Sum, Inv, IssuedIds;
    var id := FreshId(IssuedIds(s.pool));
    o := Success(s.pool.tasks[i], id);
    if s.pool.tasks[i].Client? {
      TaskInRange(s, i);
    }
  }

  lemma RestMeansIdle(s: System)
    requires Inv(s)
    ensures AtRest(s) <==> s.pool.tasks == []
  {
    hide Inv;
    if s.pool.tasks != [] {
      var o := CanProceed(s, 0);
    }
  }

  /** The resting state is unique: nobody waits, no builder is in use, no create is outstanding, the
      reserve holds exactly ten builders, every connection has ended, every client that asked was
      served, and every builder handed out has been destroyed. */
  lemma RestingState(es: seq<Event>, s: System)
    requires Run(INIT, es, s) && AtRest(s)
    ensures var p := s.pool;
      && p.pending == [] && p.active == [] && p.outstanding == 0 && |p.reserve| == MAX_RESERVE
      && (forall c :: 0 <= c < |s.conns| ==> !s.conns[c].live)
      && |p.log.served| == |p.log.checkouts| <= |p.log.created|
      && multiset(p.log.destroyed) == multiset(p.log.created[..|p.log.served|])
  {
    ReachableInv(es, s);
    RestMeansIdle(s);
    IdleState(s);
  }

  lemma IdleState(s: System)
    requires Inv(s) && s.pool.tasks == []
    ensures var p := s.pool;
      && p.pending == [] && p.active == [] && p.outstanding == 0 && |p.reserve| == MAX_RESERVE
      && (forall c :: 0 <= c < |s.conns| ==> !s.conns[c].live)
      && |p.log.served| == |p.log.checkouts| <= |p.log.created|
      && multiset(p.log.destroyed) == multiset(p.log.created[..|p.log.served|])
  {
    hide Bag, Sum;
    var p := s.pool;
    NoTotals();
    ActiveSplit(s);
    NobodyHolds(s);
    assert multiset(p.active) == multiset{};
    assert |multiset(p.active)| == |p.active|;
    forall c | 0 <= c < |s.conns|
      ensures !s.conns[c].live
    {
      assert Refs(p)[c] == 0;
    }
  }

  lemma NobodyHolds(s: System)
    requires Core(s) && s.pool.tasks == []
    ensures Bag(s.conns, HeldOf) == multiset{}
  {
    hide Bag, Sum;
    NoTotals();
    assert forall c :: 0 <= c < |s.conns| ==> Holding(s.pool)[c] == 0;
    BagNothing(s.conns, HeldOf);
  }

  /** Without arrivals and failures the server always winds down: from every reachable state there
      is a run of successes to rest, and by RunsAreFinite there is no other way to go on forever. */
  lemma {:induction false} WindsDown(s: System) returns (fs: seq<Event>, t: System)
    requires Inv(s)
    ensures Run(s, fs, t) && AtRest(t) && Inv(t)
    ensures Tally(s, fs, t, Arrival) == Tally(s, fs, t, CreateFailure) == Tally(s, fs, t, DestroyFailure) == 0
    decreases Measure(s.pool) + 1
  {
    hide Inv, Measure, Enabled, KindOf, AtRest, Next;
    RestMeansIdle(s);
    if s.pool.tasks == [] {
      fs, t := [], s;
    } else {
      var o := CanProceed(s, 0);
      var e := Fire(0, o);
      var u := Next(s, e);
      NextInv(s, e);
      NextMeasure(s, e);
      assert Measure(u.pool) >= 0 by { CapacityOf(u); MeasureNonNegative(u); }
      var rest;
      rest, t := WindsDown(u);
      fs := [e] + rest;
      assert fs[0] == e && fs[1..] == rest;
    }
  }
}
