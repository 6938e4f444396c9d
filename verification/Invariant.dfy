/** One inductive invariant of the queue server, and its proof over every event. */
module Invariant {
  import opened Bags
  import opened Builders
  import opened Options
  import opened PoolModel
  import opened SystemModel

  // ---------- what each operation contributes ----------

  /** Create operations whose handler has not run. */
  ghost function CreateOp(t: Task): nat {
    if t.CreateRead? || t.CreatePosted? then 1 else 0
  }

  ghost function CreateTimerOp(t: Task): nat {
    if t.CreateTimer? then 1 else 0
  }

  ghost function HandoutOf(t: Task): multiset<BuilderData> {
    if t.Client? && t.step.Granted? then multiset{t.step.builder} else multiset{}
  }

  ghost function HeldOf(conn: Conn): multiset<BuilderData> {
    if conn.live && conn.builder.Some? then multiset{conn.builder.value} else multiset{}
  }

  predicate IsDestroy(t: Task) {
    t.DestroyRead? || t.DestroyPosted? || t.DestroyTimer?
  }

  /** Destroys in flight, posted, or waiting for their retry timer. */
  ghost function DestroyOf(t: Task): multiset<BuilderData> {
    if IsDestroy(t) then multiset{t.builder} else multiset{}
  }

  ghost function EarlyOf(t: Task): multiset<nat> {
    if t.Client? && (t.step.Accepting? || t.step.Requesting?) then multiset{t.conn} else multiset{}
  }

  ghost function HoldingOf(t: Task): multiset<nat> {
    if t.Client? && (t.step.Sending? || t.step.Closing?) then multiset{t.conn} else multiset{}
  }

  // ---------- the invariant ----------

  ghost predicate Capacity(p: Pool) {
    && 0 <= p.outstanding
    && |p.reserve| + p.outstanding <= MAX_RESERVE
    && |p.reserve| + p.outstanding + |p.active| <= MAX_BUILDERS
  }

  ghost predicate Accounted(p: Pool) {
    && p.outstanding == Sum(p.tasks, CreateOp)
    && p.log.launched == |p.log.created| + p.log.failed + p.outstanding
  }

  ghost predicate Filled(p: Pool) {
    || |p.reserve| + p.outstanding == MAX_RESERVE
    || |p.reserve| + p.outstanding + |p.active| == MAX_BUILDERS
  }

  ghost predicate Refilled(p: Pool) {
    Filled(p) || Sum(p.tasks, CreateTimerOp) > 0
  }

  ghost predicate NoLostWakeup(p: Pool) {
    p.pending == [] || p.reserve == []
  }

  /** At most one handler can be served. */
  ghost predicate NearlyAwake(p: Pool) {
    |p.pending| <= 1 || |p.reserve| <= 1
  }

  /** Clients and builders are matched in order of arrival. */
  ghost predicate Fifo(p: Pool) {
    var m := |p.log.served|;
    && m <= |p.log.checkouts| && m <= |p.log.created|
    && (forall i :: 0 <= i < m ==> p.log.served[i] == Grant(p.log.checkouts[i], p.log.created[i]))
    && p.pending == p.log.checkouts[m..]
    && p.reserve == p.log.created[m..]
  }

  /** The builders handed out so far, in order. */
  ghost function HandedOut(p: Pool): seq<BuilderData>
    requires |p.log.served| <= |p.log.created|
  {
    p.log.created[..|p.log.served|]
  }

  ghost predicate ActiveIsUndestroyed(p: Pool) {
    && |p.log.served| <= |p.log.created|
    && p.active == Without(HandedOut(p), p.log.destroyed)
  }

  /** Every builder handed out is in a posted handler, held by a live connection, or returned;
      every builder returned has a destroy under way or is destroyed. */
  ghost predicate Owned(s: System) {
    var p := s.pool;
    && |p.log.served| <= |p.log.created|
    && multiset(HandedOut(p)) == Bag(p.tasks, HandoutOf) + Bag(s.conns, HeldOf) + multiset(p.log.returned)
    && multiset(p.log.returned) == Bag(p.tasks, DestroyOf) + multiset(p.log.destroyed)
  }

  predicate Carries(step: Step) {
    step.Granted? || step.Sending?
  }

  /** A builder in a posted handler, in a write to a client or in a connection was granted to that
      connection. */
  ghost predicate GrantsKept(s: System) {
    && (forall t :: t in s.pool.tasks && t.Client? && Carries(t.step)
          ==> Grant(t.conn, t.step.builder) in s.pool.log.served)
    && (forall c :: 0 <= c < |s.conns| && s.conns[c].builder.Some?
          ==> Grant(c, s.conns[c].builder.value) in s.pool.log.served)
  }

  /** A live connection has exactly one continuation and a dead one none. */
  ghost predicate OneContinuation(refs: multiset<nat>, conns: seq<Conn>) {
    && (forall c :: 0 <= c < |conns| ==> refs[c] == if conns[c].live then 1 else 0)
    && (forall c :: |conns| <= c ==> refs[c] == 0)
  }

  /** Connections whose continuation is that of writing a builder or waiting for the close. */
  ghost function Holding(p: Pool): multiset<nat> {
    Bag(p.tasks, HoldingOf)
  }

  ghost predicate HoldsInStage(holding: multiset<nat>, conns: seq<Conn>) {
    forall c :: 0 <= c < |conns| && conns[c].live ==> (conns[c].builder.Some? <==> holding[c] > 0)
  }

  /** Connections that asked for a builder, or still may. */
  ghost function MayAsk(p: Pool): multiset<nat> {
    multiset(p.log.checkouts) + Bag(p.tasks, EarlyOf)
  }

  ghost predicate KnownClients(s: System) {
    forall c :: c in s.pool.log.checkouts ==> c < |s.conns|
  }

  /** The part that only the queue's own state is needed for. */
  ghost predicate PoolCore(p: Pool) {
    && Capacity(p) && Accounted(p) && Fifo(p) && ActiveIsUndestroyed(p)
    && NoDup(IssuedIds(p)) && NoDup(MayAsk(p))
  }

  /** The part that ties the queue to its connections. */
  ghost predicate ConnCore(s: System) {
    && Owned(s) && GrantsKept(s) && KnownClients(s)
    && OneContinuation(Refs(s.pool), s.conns) && HoldsInStage(Holding(s.pool), s.conns)
  }

  /** Everything except that the reserve is refilled and that no wakeup is lost. */
  ghost predicate Core(s: System) {
    PoolCore(s.pool) && ConnCore(s)
  }

  ghost predicate Inv(s: System) {
    Core(s) && Refilled(s.pool) && NoLostWakeup(s.pool)
  }

  // ---------- bookkeeping ----------

  /** p with operation i gone and `more` started. */
  function Swap(p: Pool, i: nat, more: seq<Task>): Pool
    requires i < |p.tasks|
  {
    p.(tasks := RemoveAt(p.tasks, i) + more)
  }

  lemma SwapRefs(p: Pool, i: nat, more: seq<Task>)
    requires i < |p.tasks|
    ensures Traded(Refs(Swap(p, i, more)), Refs(p), ConnOf(p.tasks[i]), Bag(more, ConnOf))
  {
    hide Bag, Sum;
    BagSwap(p.tasks, i, more, ConnOf);
    TradedBeside(multiset(p.pending), Bag(Swap(p, i, more).tasks, ConnOf), Bag(p.tasks, ConnOf),
                 ConnOf(p.tasks[i]), Bag(more, ConnOf));
  }

  lemma SwapMayAsk(p: Pool, i: nat, more: seq<Task>)
    requires i < |p.tasks|
    ensures Traded(MayAsk(Swap(p, i, more)), MayAsk(p), EarlyOf(p.tasks[i]), Bag(more, EarlyOf))
  {
    hide Bag, Sum;
    BagSwap(p.tasks, i, more, EarlyOf);
    TradedBeside(multiset(p.log.checkouts), Bag(Swap(p, i, more).tasks, EarlyOf), Bag(p.tasks, EarlyOf),
                 EarlyOf(p.tasks[i]), Bag(more, EarlyOf));
  }

  lemma SwapIssued(p: Pool, i: nat, more: seq<Task>)
    requires i < |p.tasks|
    ensures Traded(IssuedIds(Swap(p, i, more)), IssuedIds(p), PostedId(p.tasks[i]), Bag(more, PostedId))
  {
    hide Bag, Sum;
    BagSwap(p.tasks, i, more, PostedId);
    TradedBeside(multiset(Ids(p.log.created)), Bag(Swap(p, i, more).tasks, PostedId), Bag(p.tasks, PostedId),
                 PostedId(p.tasks[i]), Bag(more, PostedId));
  }

  /** The totals of no operation at all. */
  lemma NoTotals()
    ensures Bag([], ConnOf) == multiset{}
    ensures Bag([], EarlyOf) == multiset{}
    ensures Bag([], HoldingOf) == multiset{}
    ensures Bag([], HandoutOf) == multiset{}
    ensures Bag([], DestroyOf) == multiset{}
    ensures Bag([], PostedId) == multiset{}
    ensures Sum([], CreateOp) == 0
    ensures Sum([], CreateTimerOp) == 0
  {
  }

  /** The totals of a single operation. */
  lemma OneTotals(t: Task)
    ensures Bag([t], ConnOf) == ConnOf(t)
    ensures Bag([t], EarlyOf) == EarlyOf(t)
    ensures Bag([t], HoldingOf) == HoldingOf(t)
    ensures Bag([t], HandoutOf) == HandoutOf(t)
    ensures Bag([t], DestroyOf) == DestroyOf(t)
    ensures Bag([t], PostedId) == PostedId(t)
    ensures Sum([t], CreateOp) == CreateOp(t)
    ensures Sum([t], CreateTimerOp) == CreateTimerOp(t)
  {
  }

  /** Every total over ts, with n creates appended. */
  lemma CreatesTotals(ts: seq<Task>, n: nat)
    ensures var us := ts + Repeat(CreateRead, n);
      && Bag(us, ConnOf) == Bag(ts, ConnOf)
      && Bag(us, EarlyOf) == Bag(ts, EarlyOf)
      && Bag(us, HoldingOf) == Bag(ts, HoldingOf)
      && Bag(us, HandoutOf) == Bag(ts, HandoutOf)
      && Bag(us, DestroyOf) == Bag(ts, DestroyOf)
      && Bag(us, PostedId) == Bag(ts, PostedId)
      && Sum(us, CreateOp) == Sum(ts, CreateOp) + n
      && Sum(us, CreateTimerOp) == Sum(ts, CreateTimerOp)
  {
    hide Bag, Sum;
    BagAddMany(ts, CreateRead, n, ConnOf);
    BagAddMany(ts, CreateRead, n, EarlyOf);
    BagAddMany(ts, CreateRead, n, HoldingOf);
    BagAddMany(ts, CreateRead, n, HandoutOf);
    BagAddMany(ts, CreateRead, n, DestroyOf);
    BagAddMany(ts, CreateRead, n, PostedId);
    SumAddMany(ts, CreateRead, n, CreateOp);
    SumAddMany(ts, CreateRead, n, CreateTimerOp);
  }

  // ---------- the queue's operations ----------

  /** Within capacity nothing wraps, and the create loop restores a bound exactly. */
  lemma CreateReserveFills(p: Pool)
    requires Capacity(p)
    ensures var q := CreateReserve(p);
      && RequestCount(|p.reserve|, p.outstanding, |p.active|) == Deficit(|p.reserve|, p.outstanding, |p.active|)
      && q.outstanding == p.outstanding + Deficit(|p.reserve|, p.outstanding, |p.active|)
      && Capacity(q) && Filled(q)
  {
  }

  lemma CreateReserveCore(s: System)
    requires Core(s)
    ensures var t := s.(pool := CreateReserve(s.pool)); Core(t) && Refilled(t.pool)
  {
    hide Bag, Sum;
    var p := s.pool;
    var q := CreateReserve(p);
    CreateReserveFills(p);
    CreatesTotals(p.tasks, RequestCount(|p.reserve|, p.outstanding, |p.active|));
    assert Refs(q) == Refs(p) && Holding(q) == Holding(p) && MayAsk(q) == MayAsk(p) && IssuedIds(q) == IssuedIds(p);
  }

  /** The front client's reference moves from the pending list to its posted handler. */
  lemma ServeRefs(p: Pool)
    requires p.pending != [] && p.reserve != []
    ensures Refs(Serve(p)) == Refs(p)
  {
    hide Bag, Sum;
    var c := p.pending[0];
    BagAdd(p.tasks, Client(c, Granted(p.reserve[0])), ConnOf);
    assert multiset(p.pending) == multiset{c} + multiset(p.pending[1..]) by {
      assert p.pending == [c] + p.pending[1..];
    }
  }

  lemma ServeSame(p: Pool)
    requires p.pending != [] && p.reserve != []
    ensures Holding(Serve(p)) == Holding(p)
    ensures MayAsk(Serve(p)) == MayAsk(p)
    ensures IssuedIds(Serve(p)) == IssuedIds(p)
  {
    hide Bag, Sum;
    var t := Client(p.pending[0], Granted(p.reserve[0]));
    BagAdd(p.tasks, t, HoldingOf);
    BagAdd(p.tasks, t, EarlyOf);
    BagAdd(p.tasks, t, PostedId);
  }

  lemma ServeGives(p: Pool)
    requires p.pending != [] && p.reserve != []
    ensures Bag(Serve(p).tasks, HandoutOf) == Bag(p.tasks, HandoutOf) + multiset{p.reserve[0]}
    ensures Bag(Serve(p).tasks, DestroyOf) == Bag(p.tasks, DestroyOf)
  {
    hide Bag, Sum;
    var t := Client(p.pending[0], Granted(p.reserve[0]));
    assert HandoutOf(t) == multiset{p.reserve[0]};
    assert DestroyOf(t) == multiset{};
    BagAdd(p.tasks, t, HandoutOf);
    BagAdd(p.tasks, t, DestroyOf);
    assert Serve(p).tasks == p.tasks + [t];
  }

  /** The queue's own part, which says nothing about who owns a builder. */
  lemma ServePool(s: System)
    requires Core(s) && s.pool.pending != [] && s.pool.reserve != []
    ensures PoolCore(Serve(s.pool))
  {
    hide Bag, Sum;
    ServeSame(s.pool);
    ServeActive(s);
    SumAdd(s.pool.tasks, Client(s.pool.pending[0], Granted(s.pool.reserve[0])), CreateOp);
  }

  lemma ServeActive(s: System)
    requires Core(s) && s.pool.pending != [] && s.pool.reserve != []
    ensures ActiveIsUndestroyed(Serve(s.pool))
  {
    hide Bag, Sum;
    var p := s.pool;
    NotYetDestroyed(s, |p.log.served|);
    WithoutSnoc(HandedOut(p), p.reserve[0], p.log.destroyed);
    assert HandedOut(Serve(p)) == HandedOut(p) + [p.reserve[0]];
  }

  lemma ServeCore(s: System)
    requires Core(s) && s.pool.pending != [] && s.pool.reserve != []
    ensures Core(s.(pool := Serve(s.pool)))
  {
    hide Bag, Sum;
    ServePool(s);
    ServeConns(s);
  }

  lemma ServeOwned(s: System)
    requires Owned(s) && Fifo(s.pool) && s.pool.pending != [] && s.pool.reserve != []
    ensures Owned(s.(pool := Serve(s.pool)))
  {
    hide Bag, Sum;
    var p := s.pool;
    ServeGives(p);
    assert HandedOut(Serve(p)) == HandedOut(p) + [p.reserve[0]];
    Insert(Bag(p.tasks, HandoutOf), Bag(s.conns, HeldOf), multiset(p.log.returned), multiset{p.reserve[0]});
  }

  lemma Insert<B>(a: multiset<B>, b: multiset<B>, c: multiset<B>, x: multiset<B>)
    ensures a + b + c + x == (a + x) + b + c
  {
  }

  lemma ServeConns(s: System)
    requires ConnCore(s) && Fifo(s.pool) && s.pool.pending != [] && s.pool.reserve != []
    ensures ConnCore(s.(pool := Serve(s.pool)))
  {
    hide Bag, Sum;
    ServeRefs(s.pool);
    ServeSame(s.pool);
    ServeOwned(s);
    ServeGrants(s);
  }

  lemma ServeGrants(s: System)
    requires GrantsKept(s) && s.pool.pending != [] && s.pool.reserve != []
    ensures GrantsKept(s.(pool := Serve(s.pool)))
  {
  }

  lemma CreatedDistinct(p: Pool)
    requires NoDup(IssuedIds(p))
    ensures Distinct(p.log.created)
  {
    hide Bag, Sum;
    var m := multiset(Ids(p.log.created));
    assert forall x :: m[x] <= IssuedIds(p)[x];
    CountedOnceDistinct(p.log.created);
  }

  /** A builder that has not been handed out is not among the destroyed ones. */
  lemma NotYetDestroyed(s: System, k: nat)
    requires Core(s) && |s.pool.log.served| <= k < |s.pool.log.created|
    ensures !Mentions(s.pool.log.destroyed, s.pool.log.created[k])
  {
    hide Bag, Sum;
    var p := s.pool;
    CreatedDistinct(p);
    forall i | 0 <= i < |p.log.destroyed|
      ensures !SameBuilder(p.log.destroyed[i], p.log.created[k])
    {
      var d := p.log.destroyed[i];
      assert d in multiset(p.log.destroyed);
      assert d in multiset(p.log.returned);
      assert d in multiset(HandedOut(p));
      var j :| 0 <= j < |HandedOut(p)| && HandedOut(p)[j] == d;
      assert p.log.created[j] == d;
    }
  }

  lemma ProcessPendingInv(s: System)
    requires Core(s) && Refilled(s.pool) && NearlyAwake(s.pool)
    ensures Inv(s.(pool := ProcessPending(s.pool)))
  {
    hide Bag, Sum;
    if s.pool.pending != [] && s.pool.reserve != [] {
      ServeCore(s);
      CreateReserveCore(s.(pool := Serve(s.pool)));
    }
  }
}
