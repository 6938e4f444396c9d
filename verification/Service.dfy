/** When a waiting client is served. */
module Service {
  import opened Bags
  import opened Builders
  import opened Options
  import opened PoolModel
  import opened SystemModel
  import opened Invariant
  import opened Preservation
  import opened Theorems
  import opened Termination

  /** Clients and builders are only ever added at the ends, and the builders created in a step are
      its successful create. */
  ghost predicate LogGrows(p: Pool, q: Pool, creations: nat) {
    && p.log.checkouts <= q.log.checkouts
    && p.log.created <= q.log.created
    && |q.log.created| == |p.log.created| + creations
  }

  lemma NextGrows(s: System, e: Event)
    requires Inv(s) && Enabled(s, e)
    ensures LogGrows(s.pool, Next(s, e).pool, if KindOf(s, e).Creation? then 1 else 0)
  {
    hide Bag, Sum, Inv, Release, RequestCount;
    match e
    case Arrive =>
    case Fire(i, o) =>
      if s.pool.tasks[i].Client? {
        ClientGrows(s, i, o);
      }
  }

  lemma ClientGrows(s: System, i: nat, o: Outcome)
    requires Inv(s) && Enabled(s, Fire(i, o)) && s.pool.tasks[i].Client?
    ensures LogGrows(s.pool, Next(s, Fire(i, o)).pool, 0)
  {
    hide Bag, Sum, Inv, Next, RequestCount;
    ClientEventInv(s, i, o);
  }

  lemma {:induction false} RunGrows(s: System, es: seq<Event>, t: System)
    requires Inv(s) && Run(s, es, t)
    ensures LogGrows(s.pool, t.pool, Tally(s, es, t, Creation))
    decreases |es|
  {
    hide Inv, Next, Enabled, KindOf;
    if es != [] {
      NextInv(s, es[0]);
      NextGrows(s, es[0]);
      RunGrows(Next(s, es[0]), es[1..], t);
    }
  }

  /** The client at position k of the pending list is served by the (k+1)-th create that succeeds
      from now on, and not before: in whatever way the run continues, the client has a builder
      exactly when that many have succeeded. */
  lemma ServedByCreation(es: seq<Event>, s: System, k: nat, fs: seq<Event>, t: System)
    requires Run(INIT, es, s) && k < |s.pool.pending| && Run(s, fs, t)
    ensures Tally(s, fs, t, Creation) > k
       <==> exists b :: Grant(s.pool.pending[k], b) in t.pool.log.served
  {
    ReachableInv(es, s);
    RunInv(s, fs, t);
    RunGrows(s, fs, t);
    ServedWhenCreated(s.pool, k, t.pool, Tally(s, fs, t, Creation));
  }

  lemma ServedWhenCreated(p: Pool, k: nat, q: Pool, creations: nat)
    requires PoolCore(p) && NoLostWakeup(p) && k < |p.pending|
    requires PoolCore(q) && NoLostWakeup(q) && LogGrows(p, q, creations)
    ensures creations > k <==> exists b :: Grant(p.pending[k], b) in q.log.served
  {
    hide Bag, Sum;
    var j := |p.log.served| + k;
    var c := p.pending[k];
    assert p.log.checkouts[j] == c == q.log.checkouts[j];
    assert |p.log.created| == |p.log.served|;
    if creations > k {
      assert j < |q.log.created|;
      assert j < |q.log.served|;
      assert q.log.served[j] == Grant(c, q.log.created[j]);
    }
    if exists b :: Grant(c, b) in q.log.served {
      var b :| Grant(c, b) in q.log.served;
      var i :| 0 <= i < |q.log.served| && q.log.served[i] == Grant(c, b);
      AskedOnce(q, i, j);
    }
  }

  /** So from every reachable state the server can come to rest with no new failure and no new
      client, and when it does everyone who had asked has been served. */
  lemma EveryoneCanBeServed(es: seq<Event>, s: System) returns (fs: seq<Event>, t: System)
    requires Run(INIT, es, s)
    ensures Run(s, fs, t) && AtRest(t)
    ensures Tally(s, fs, t, Arrival) == Tally(s, fs, t, CreateFailure) == Tally(s, fs, t, DestroyFailure) == 0
    ensures forall c :: c in s.pool.log.checkouts ==> exists b :: Grant(c, b) in t.pool.log.served
  {
    hide Inv, Run, AtRest, Tally;
    ReachableInv(es, s);
    fs, t := ServedAtRest(s);
  }

  lemma ServedAtRest(s: System) returns (fs: seq<Event>, t: System)
    requires Inv(s)
    ensures Run(s, fs, t) && AtRest(t) && t.pool.tasks == []
    ensures Tally(s, fs, t, Arrival) == Tally(s, fs, t, CreateFailure) == Tally(s, fs, t, DestroyFailure) == 0
    ensures forall c :: c in s.pool.log.checkouts ==> exists b :: Grant(c, b) in t.pool.log.served
  {
    hide Bag, Sum;
    fs, t := WindsDown(s);
    RestMeansIdle(t);
    IdleState(t);
    RunGrows(s, fs, t);
    forall c | c in s.pool.log.checkouts
      ensures exists b :: Grant(c, b) in t.pool.log.served
    {
      var i :| 0 <= i < |s.pool.log.checkouts| && s.pool.log.checkouts[i] == c;
      assert t.pool.log.checkouts[i] == c;
      assert t.pool.log.served[i] == Grant(c, t.pool.log.created[i]);
    }
  }
}
