/** The histories the queue keeps are what happened: each is read off the completions of the run,
    and what commands reported and what clients were sent is accounted for entry by entry. */
module History {
  import opened Bags
  import opened Builders
  import opened Options
  import opened PoolModel
  import opened SystemModel
  import opened Invariant
  import opened ConnectionEvents
  import opened QueueEvents
  import opened Preservation
  import opened Theorems
  import opened Termination
  import opened Service
  import opened Steps

  // ---------- reading a run ----------

  /** What an event contributes to a list: f of the completed operation and its outcome. */
  ghost function Of<A>(s: System, e: Event, f: (Task, Outcome) -> seq<A>): seq<A>
    requires Enabled(s, e)
  {
    match e
    case Arrive => []
    case Fire(i, o) => f(s.pool.tasks[i], o)
  }

  /** The contributions of a run's events, in order. */
  ghost function Gather<A>(s: System, es: seq<Event>, t: System, f: (Task, Outcome) -> seq<A>): seq<A>
    requires Run(s, es, t)
    decreases |es|
  {
    if es == [] then [] else Of(s, es[0], f) + Gather(Next(s, es[0]), es[1..], t, f)
  }

  /** Clients whose request string asked for a builder. */
  function Asked(t: Task, o: Outcome): seq<nat> {
    if t.Client? && t.step.Requesting? && o == Text("checkout_builder_request") then [t.conn] else []
  }

  /** Builders whose create command printed them. */
  function Output(t: Task, o: Outcome): seq<BuilderData> {
    if t.CreateRead? && o.Built? then [o.builder] else []
  }

  /** Builders given to a create handler that ran. */
  function Created(t: Task, o: Outcome): seq<BuilderData> {
    if t.CreatePosted? && t.result.Some? then [t.result.value] else []
  }

  /** Create handlers that ran without a builder. */
  function CreateFailed(t: Task, o: Outcome): seq<Task> {
    if t.CreatePosted? && t.result.None? then [t] else []
  }

  /** Create commands whose output ended, in whatever way. */
  function CreateEnded(t: Task, o: Outcome): seq<Task> {
    if t.CreateRead? then [t] else []
  }

  /** Builders whose destroy command ran to the end of its output. */
  function DestroyEnded(t: Task, o: Outcome): seq<BuilderData> {
    if t.DestroyRead? && o == Done then [t.builder] else []
  }

  /** Builders whose destroy handler ran without error. */
  function Destroyed(t: Task, o: Outcome): seq<BuilderData> {
    if t.DestroyPosted? && t.destroyed then [t.builder] else []
  }

  /** Writes of a builder to a client that completed, well or not. */
  function Written(t: Task, o: Outcome): seq<Grant> {
    if t.Client? && t.step.Sending? then [Grant(t.conn, t.step.builder)] else []
  }

  // ---------- what is still under way ----------

  function CreatedNext(t: Task): seq<BuilderData> {
    if t.CreatePosted? && t.result.Some? then [t.result.value] else []
  }

  function DestroyedNext(t: Task): seq<BuilderData> {
    if t.DestroyPosted? && t.destroyed then [t.builder] else []
  }

  /** A grant on its way: posted to the connection or being written to the client. */
  function GrantNext(t: Task): seq<Grant> {
    if t.Client? && Carries(t.step) then [Grant(t.conn, t.step.builder)] else []
  }

  ghost function CreatedPosted(t: Task): multiset<BuilderData> {
    multiset(CreatedNext(t))
  }

  ghost function DestroyedPosted(t: Task): multiset<BuilderData> {
    multiset(DestroyedNext(t))
  }

  ghost function GrantOf(t: Task): multiset<Grant> {
    multiset(GrantNext(t))
  }

  ghost function CreateReadOp(t: Task): nat {
    if t.CreateRead? then 1 else 0
  }

  // ---------- one event ----------

  /** q's history is p's and what e contributes. */
  ghost predicate Recorded(s: System, e: Event, p: Pool, q: Pool)
    requires Enabled(s, e)
  {
    && q.log.checkouts == p.log.checkouts + Of(s, e, Asked)
    && q.log.created == p.log.created + Of(s, e, Created)
    && q.log.destroyed == p.log.destroyed + Of(s, e, Destroyed)
    && q.log.failed == p.log.failed + |Of(s, e, CreateFailed)|
  }

  /** A builder a create command printed is in a posted handler until the history has it. */
  ghost predicate CreatesBalanced(p: Pool, q: Pool, printed: seq<BuilderData>) {
    multiset(q.log.created) + Bag(q.tasks, CreatedPosted)
      == multiset(p.log.created) + Bag(p.tasks, CreatedPosted) + multiset(printed)
  }

  /** A builder whose destroy command ended is in a posted handler until the history has it. */
  ghost predicate DestroysBalanced(p: Pool, q: Pool, ended: seq<BuilderData>) {
    multiset(q.log.destroyed) + Bag(q.tasks, DestroyedPosted)
      == multiset(p.log.destroyed) + Bag(p.tasks, DestroyedPosted) + multiset(ended)
  }

  /** A grant is on its way until its write has completed. */
  ghost predicate GrantsBalanced(p: Pool, q: Pool, written: seq<Grant>) {
    multiset(p.log.served) + Bag(q.tasks, GrantOf) + multiset(written) == multiset(q.log.served) + Bag(p.tasks, GrantOf)
  }

  /** A create command launched runs until its output has ended. */
  ghost predicate LaunchesBalanced(p: Pool, q: Pool, ended: seq<Task>) {
    q.log.launched + Sum(p.tasks, CreateReadOp) == p.log.launched + Sum(q.tasks, CreateReadOp) + |ended|
  }

  ghost predicate Balanced(s: System, e: Event, p: Pool, q: Pool)
    requires Enabled(s, e)
  {
    && CreatesBalanced(p, q, Of(s, e, Output))
    && DestroysBalanced(p, q, Of(s, e, DestroyEnded))
    && GrantsBalanced(p, q, Of(s, e, Written))
    && LaunchesBalanced(p, q, Of(s, e, CreateEnded))
  }

  /** Operation i gave way to `more` and n creates, and the history changed by what i contributed. */
  ghost predicate Accounts(p: Pool, q: Pool, i: nat, o: Outcome, more: seq<Task>, n: nat)
    requires i < |p.tasks|
  {
    var t := p.tasks[i];
    && q.tasks == RemoveAt(p.tasks, i) + more + Repeat(CreateRead, n)
    && |more| <= 1
    && (|more| == 1 ==> !more[0].CreateRead?)
    && q.log.launched == p.log.launched + n
    && q.log.checkouts == p.log.checkouts + Asked(t, o)
    && q.log.created == p.log.created + Created(t, o)
    && q.log.destroyed == p.log.destroyed + Destroyed(t, o)
    && q.log.failed == p.log.failed + |CreateFailed(t, o)|
    && Output(t, o) == (if |more| == 1 then CreatedNext(more[0]) else [])
    && DestroyEnded(t, o) == (if |more| == 1 then DestroyedNext(more[0]) else [])
    && var grant := if |more| == 1 then GrantNext(more[0]) else [];
    && (if GrantNext(t) == [] then q.log.served == p.log.served + grant && Written(t, o) == []
        else q.log.served == p.log.served && GrantNext(t) == grant + Written(t, o))
  }

  lemma AccountsBalance(s: System, i: nat, o: Outcome, q: Pool, more: seq<Task>, n: nat)
    requires Enabled(s, Fire(i, o)) && Accounts(s.pool, q, i, o, more, n)
    ensures Recorded(s, Fire(i, o), s.pool, q) && Balanced(s, Fire(i, o), s.pool, q)
  {
    hide Accounts, CreatesBalanced, DestroysBalanced, GrantsBalanced, LaunchesBalanced, IssuedIds, OutcomeFits;
    AccountsCreates(s.pool, i, o, q, more, n);
    AccountsDestroys(s.pool, i, o, q, more, n);
    AccountsGrants(s.pool, i, o, q, more, n);
    AccountsLaunches(s.pool, i, o, q, more, n);
  }

  lemma AccountsCreates(p: Pool, i: nat, o: Outcome, q: Pool, more: seq<Task>, n: nat)
    requires i < |p.tasks| && Accounts(p, q, i, o, more, n)
    ensures CreatesBalanced(p, q, Output(p.tasks[i], o))
  {
    hide Bag, Sum, RemoveAt, Repeat;
    var t := p.tasks[i];
    After(p.tasks, i, more, n, CreatedPosted);
    Settle(multiset(q.log.created), multiset(p.log.created), CreatedPosted(t),
           Bag(q.tasks, CreatedPosted), Bag(p.tasks, CreatedPosted), multiset(Output(t, o)));
  }

  lemma AccountsDestroys(p: Pool, i: nat, o: Outcome, q: Pool, more: seq<Task>, n: nat)
    requires i < |p.tasks| && Accounts(p, q, i, o, more, n)
    ensures DestroysBalanced(p, q, DestroyEnded(p.tasks[i], o))
  {
    hide Bag, Sum, RemoveAt, Repeat;
    var t := p.tasks[i];
    After(p.tasks, i, more, n, DestroyedPosted);
    Settle(multiset(q.log.destroyed), multiset(p.log.destroyed), DestroyedPosted(t),
           Bag(q.tasks, DestroyedPosted), Bag(p.tasks, DestroyedPosted), multiset(DestroyEnded(t, o)));
  }

  lemma AccountsGrants(p: Pool, i: nat, o: Outcome, q: Pool, more: seq<Task>, n: nat)
    requires i < |p.tasks| && Accounts(p, q, i, o, more, n)
    ensures GrantsBalanced(p, q, Written(p.tasks[i], o))
  {
    hide Bag, Sum, RemoveAt, Repeat;
    var t := p.tasks[i];
    After(p.tasks, i, more, n, GrantOf);
    var grant := if |more| == 1 then GrantNext(more[0]) else [];
    GrantsAsBags(p.log.served, q.log.served, GrantNext(t), grant, Written(t, o));
    SettleGrants(multiset(p.log.served), multiset(q.log.served), Bag(q.tasks, GrantOf), Bag(p.tasks, GrantOf),
                 multiset(grant), multiset(Written(t, o)), GrantOf(t));
  }

  lemma GrantsAsBags(before: seq<Grant>, after: seq<Grant>, out: seq<Grant>, got: seq<Grant>, written: seq<Grant>)
    requires if out == [] then after == before + got && written == [] else after == before && out == got + written
    ensures multiset(before) + multiset(got) + multiset(written) == multiset(after) + multiset(out)
  {
  }

  lemma AccountsLaunches(p: Pool, i: nat, o: Outcome, q: Pool, more: seq<Task>, n: nat)
    requires i < |p.tasks| && Accounts(p, q, i, o, more, n)
    ensures LaunchesBalanced(p, q, CreateEnded(p.tasks[i], o))
    ensures q.log.checkouts == p.log.checkouts + Asked(p.tasks[i], o)
    ensures q.log.created == p.log.created + Created(p.tasks[i], o)
    ensures q.log.destroyed == p.log.destroyed + Destroyed(p.tasks[i], o)
    ensures q.log.failed == p.log.failed + |CreateFailed(p.tasks[i], o)|
  {
    hide Bag, Sum, RemoveAt, Repeat;
    SumAfter(p.tasks, i, more, n);
  }

  lemma Settle<B>(after: multiset<B>, before: multiset<B>, out: multiset<B>,
                  us: multiset<B>, ts: multiset<B>, got: multiset<B>)
    requires after == before + out && us + out == ts + got
    ensures after + us == before + ts + got
  {
    assert after + us == before + (us + out);
  }

  lemma SettleGrants<B(!new)>(before: multiset<B>, after: multiset<B>, us: multiset<B>, ts: multiset<B>,
                              got: multiset<B>, written: multiset<B>, out: multiset<B>)
    requires before + got + written == after + out && us + out == ts + got
    ensures before + us + written == after + ts
  {
    forall x ensures (before + us + written)[x] == (after + ts)[x] {
      assert (before + got + written)[x] == (after + out)[x];
      assert (us + out)[x] == (ts + got)[x];
    }
  }

  lemma After<B(!new)>(ts: seq<Task>, i: nat, more: seq<Task>, n: nat, f: Task -> multiset<B>)
    requires i < |ts| && |more| <= 1 && f(CreateRead) == multiset{}
    ensures Bag(RemoveAt(ts, i) + more + Repeat(CreateRead, n), f) + f(ts[i])
         == Bag(ts, f) + if |more| == 1 then f(more[0]) else multiset{}
  {
    hide Bag;
    BagAddMany(RemoveAt(ts, i) + more, CreateRead, n, f);
    BagSwap(ts, i, more, f);
    if |more| == 1 {
      assert more == [more[0]];
      BagOne(more[0], f);
    } else {
      BagOfNone(f);
    }
  }

  lemma BagOfNone<A, B>(f: A -> multiset<B>)
    ensures Bag([], f) == multiset{}
  {
  }

  lemma SumAfter(ts: seq<Task>, i: nat, more: seq<Task>, n: nat)
    requires i < |ts| && |more| <= 1 && (|more| == 1 ==> !more[0].CreateRead?)
    ensures Sum(RemoveAt(ts, i) + more + Repeat(CreateRead, n), CreateReadOp) + CreateReadOp(ts[i])
         == Sum(ts, CreateReadOp) + n
  {
    hide Sum;
    SumAddMany(RemoveAt(ts, i) + more, CreateRead, n, CreateReadOp);
    SumSwap(ts, i, more, CreateReadOp);
    if |more| == 1 {
      assert more == [more[0]];
      SumOne(more[0], CreateReadOp);
    } else {
      assert Sum([], CreateReadOp) == 0 by { SumOfNone(CreateReadOp); }
    }
  }

  lemma SumOfNone<A>(f: A -> nat)
    ensures Sum([], f) == 0
  {
  }

  // ---------- every event ----------

  /** A client's operation that only gives way to its next one, or to the destruction of a builder. */
  lemma QuietAccounts(p: Pool, q: Pool, i: nat, o: Outcome, more: seq<Task>)
    requires i < |p.tasks| && p.tasks[i].Client? && Asked(p.tasks[i], o) == []
    requires q.tasks == RemoveAt(p.tasks, i) + more && q.log == p.log.(returned := q.log.returned)
    requires |more| <= 1 && (|more| == 1 ==> more[0].Client? || more[0].DestroyRead?)
    requires GrantNext(p.tasks[i]) == (if |more| == 1 then GrantNext(more[0]) else []) + Written(p.tasks[i], o)
    ensures Accounts(p, q, i, o, more, 0)
  {
    hide RemoveAt;
    NoCreates(q.tasks);
  }

  lemma NoCreates(ts: seq<Task>)
    ensures ts + Repeat(CreateRead, 0) == ts && ts + [] == ts
  {
  }

  lemma ClientAccounts(s: System, i: nat, o: Outcome) returns (more: seq<Task>, n: nat)
    requires Inv(s) && Enabled(s, Fire(i, o)) && s.pool.tasks[i].Client?
    ensures Accounts(s.pool, Next(s, Fire(i, o)).pool, i, o, more, n)
  {
    hide Bag, Sum, Inv, Next, Release, IssuedIds, HandleRequest, RemoveAt, Accounts, Repeat;
    var p, c, step := s.pool, s.pool.tasks[i].conn, s.pool.tasks[i].step;
    n := 0;
    if Final(step, o) {
      LastStep(s, i, o);
      more := if s.conns[c].builder.Some? then [DestroyRead(s.conns[c].builder.value)] else [];
      NoCreates(RemoveAt(p.tasks, i));
      QuietAccounts(p, Next(s, Fire(i, o)).pool, i, o, more);
    } else if step.Requesting? {
      more, n := RequestAccounts(s, i, o.request);
    } else {
      ConnectionStep(s, i, o);
      more := [Client(c, match step
                         case Accepting => Requesting
                         case Granted(b) => Sending(b)
                         case Listing => Listed
                         case Listed => SendingList
                         case _ => Closing)];
      QuietAccounts(p, Next(s, Fire(i, o)).pool, i, o, more);
    }
  }

  lemma RequestAccounts(s: System, i: nat, request: string) returns (more: seq<Task>, n: nat)
    requires Inv(s) && Enabled(s, Fire(i, Text(request))) && KnownRequest(request)
    requires s.pool.tasks[i].Client? && s.pool.tasks[i].step.Requesting?
    ensures Accounts(s.pool, Next(s, Fire(i, Text(request))).pool, i, Text(request), more, n)
  {
    hide Bag, Sum, Inv, Next, Release, IssuedIds, RemoveAt, Accounts, Repeat, Checkout, Refill, Deficit;
    var p, c := s.pool, s.pool.tasks[i].conn;
    if request == "checkout_builder_request" {
      CheckoutStep(s, i);
      more, n := AskAccounts(p, Next(s, Fire(i, Text(request))).pool, i);
    } else {
      RequestHandled(s, i, request);
      n := 0;
      more := [Client(c, if request == "queue_status_request" then Reporting(Status(p)) else Listing)];
      QuietAccounts(p, Next(s, Fire(i, Text(request))).pool, i, Text(request), more);
    }
  }

  lemma AskAccounts(p: Pool, q: Pool, i: nat) returns (more: seq<Task>, n: nat)
    requires i < |p.tasks| && p.tasks[i].Client? && p.tasks[i].step.Requesting?
    requires var c, rest := p.tasks[i].conn, RemoveAt(p.tasks, i);
      var asked := p.log.(checkouts := p.log.checkouts + [c]);
      q == if p.reserve == [] then p.(pending := p.pending + [c], tasks := rest, log := asked)
           else Refill(p.(pending := [],
                          active := p.active + [p.reserve[0]],
                          reserve := p.reserve[1..],
                          tasks := rest + [Client(c, Granted(p.reserve[0]))],
                          log := asked.(served := p.log.served + [Grant(c, p.reserve[0])])))
    ensures Accounts(p, q, i, Text("checkout_builder_request"), more, n)
  {
    hide RemoveAt, Deficit;
    if p.reserve == [] {
      more, n := [], 0;
      NoCreates(q.tasks);
      NoCreates(RemoveAt(p.tasks, i));
    } else {
      more := [Client(p.tasks[i].conn, Granted(p.reserve[0]))];
      n := Deficit(|p.reserve[1..]|, p.outstanding, |p.active + [p.reserve[0]]|);
    }
  }

  lemma CommandAccounts(s: System, i: nat, o: Outcome) returns (more: seq<Task>, n: nat)
    requires Inv(s) && Enabled(s, Fire(i, o)) && !s.pool.tasks[i].Client?
    ensures Accounts(s.pool, Next(s, Fire(i, o)).pool, i, o, more, n)
  {
    hide Bag, Sum, Inv, Next, IssuedIds, RemoveAt, Deficit, Accounts, Refill, Repeat;
    var t, q := s.pool.tasks[i], Next(s, Fire(i, o)).pool;
    CommandStep(s, i, o);
    if t.CreatePosted? && t.result.Some? {
      CreatedStep(s, i);
      more, n := StockAccounts(s.pool, q, i);
    } else if t.CreateTimer? {
      CreateTimerStep(s, i);
      more, n := TimerAccounts(s.pool, q, i);
    } else if t.DestroyPosted? && t.destroyed {
      var k := DestroyedStep(s, i);
      more, n := RetireAccounts(s.pool, q, i, k);
    } else {
      more := CommandGoesOn(s.pool, q, i, o);
      n := 0;
    }
  }

  lemma StockAccounts(p: Pool, q: Pool, i: nat) returns (more: seq<Task>, n: nat)
    requires i < |p.tasks| && p.tasks[i].CreatePosted? && p.tasks[i].result.Some?
    requires var b, rest := p.tasks[i].result.value, RemoveAt(p.tasks, i);
      var created := p.log.(created := p.log.created + [b]);
      q == if p.pending == []
           then p.(outstanding := p.outstanding - 1, reserve := p.reserve + [b], tasks := rest, log := created)
           else Refill(p.(outstanding := p.outstanding - 1,
                          pending := p.pending[1..],
                          active := p.active + [b],
                          tasks := rest + [Client(p.pending[0], Granted(b))],
                          log := created.(served := p.log.served + [Grant(p.pending[0], b)])))
    ensures Accounts(p, q, i, Done, more, n)
  {
    hide RemoveAt, Deficit;
    var b := p.tasks[i].result.value;
    if p.pending == [] {
      more, n := [], 0;
      NoCreates(q.tasks);
    } else {
      more := [Client(p.pending[0], Granted(b))];
      n := Deficit(|p.reserve|, p.outstanding - 1, |p.active + [b]|);
    }
  }

  lemma TimerAccounts(p: Pool, q: Pool, i: nat) returns (more: seq<Task>, n: nat)
    requires i < |p.tasks| && p.tasks[i].CreateTimer? && q == Refill(p.(tasks := RemoveAt(p.tasks, i)))
    ensures Accounts(p, q, i, Done, more, n)
  {
    hide RemoveAt, Deficit;
    more, n := [], Deficit(|p.reserve|, p.outstanding, |p.active|);
    NoCreates(RemoveAt(p.tasks, i));
  }

  lemma RetireAccounts(p: Pool, q: Pool, i: nat, k: nat) returns (more: seq<Task>, n: nat)
    requires i < |p.tasks| && p.tasks[i].DestroyPosted? && p.tasks[i].destroyed && k < |p.active|
    requires q == Refill(p.(active := RemoveAt(p.active, k), tasks := RemoveAt(p.tasks, i),
                            log := p.log.(destroyed := p.log.destroyed + [p.tasks[i].builder])))
    ensures Accounts(p, q, i, Done, more, n)
  {
    hide RemoveAt, Deficit;
    more, n := [], Deficit(|p.reserve|, p.outstanding, |RemoveAt(p.active, k)|);
    NoCreates(RemoveAt(p.tasks, i));
  }

  lemma CommandGoesOn(p: Pool, q: Pool, i: nat, o: Outcome) returns (more: seq<Task>)
    requires i < |p.tasks| && !p.tasks[i].Client? && !p.tasks[i].CreateTimer?
    requires Created(p.tasks[i], o) == [] && Destroyed(p.tasks[i], o) == []
    requires q.log == p.log.(failed := p.log.failed + |CreateFailed(p.tasks[i], o)|)
    requires q.tasks == RemoveAt(p.tasks, i) +
      [match p.tasks[i]
       case CreateRead => CreatePosted(if o.Built? then Some(o.builder) else None)
       case CreatePosted(_) => CreateTimer
       case DestroyRead(b) => DestroyPosted(b, o == Done)
       case DestroyPosted(b, _) => DestroyTimer(b)
       case DestroyTimer(b) => DestroyRead(b)
       case _ => CreateTimer]
    ensures Accounts(p, q, i, o, more, 0)
  {
    hide RemoveAt;
    more := [q.tasks[|q.tasks| - 1]];
    NoCreates(q.tasks);
  }

  lemma BalancedByNothing(p: Pool, q: Pool)
    requires q.log == p.log
    requires Bag(q.tasks, CreatedPosted) == Bag(p.tasks, CreatedPosted)
    requires Bag(q.tasks, DestroyedPosted) == Bag(p.tasks, DestroyedPosted)
    requires Bag(q.tasks, GrantOf) == Bag(p.tasks, GrantOf) && Sum(q.tasks, CreateReadOp) == Sum(p.tasks, CreateReadOp)
    ensures CreatesBalanced(p, q, []) && DestroysBalanced(p, q, []) && GrantsBalanced(p, q, [])
    ensures LaunchesBalanced(p, q, [])
  {
    hide Bag, Sum;
  }

  lemma ArriveAccounts(s: System)
    ensures Recorded(s, Arrive, s.pool, Next(s, Arrive).pool) && Balanced(s, Arrive, s.pool, Next(s, Arrive).pool)
  {
    hide Bag, Sum, CreatesBalanced, DestroysBalanced, GrantsBalanced, LaunchesBalanced;
    var t := Client(|s.conns|, Accepting);
    BagAdd(s.pool.tasks, t, CreatedPosted);
    BagAdd(s.pool.tasks, t, DestroyedPosted);
    BagAdd(s.pool.tasks, t, GrantOf);
    SumAdd(s.pool.tasks, t, CreateReadOp);
    BalancedByNothing(s.pool, Next(s, Arrive).pool);
  }

  lemma NextHistory(s: System, e: Event)
    requires Inv(s) && Enabled(s, e)
    ensures Recorded(s, e, s.pool, Next(s, e).pool) && Balanced(s, e, s.pool, Next(s, e).pool)
  {
    hide Bag, Sum, Inv, Recorded, Balanced, Accounts, Next, OutcomeFits, IssuedIds;
    match e
    case Arrive => ArriveAccounts(s);
    case Fire(i, o) =>
      if s.pool.tasks[i].Client? {
        var more, n := ClientAccounts(s, i, o);
        AccountsBalance(s, i, o, Next(s, e).pool, more, n);
      } else {
        var more, n := CommandAccounts(s, i, o);
        AccountsBalance(s, i, o, Next(s, e).pool, more, n);
      }
  }

  // ---------- runs ----------

  lemma {:induction false} RunHistory(s: System, es: seq<Event>, t: System)
    requires Inv(s) && Run(s, es, t)
    ensures t.pool.log.checkouts == s.pool.log.checkouts + Gather(s, es, t, Asked)
    ensures t.pool.log.created == s.pool.log.created + Gather(s, es, t, Created)
    ensures t.pool.log.destroyed == s.pool.log.destroyed + Gather(s, es, t, Destroyed)
    ensures t.pool.log.failed == s.pool.log.failed + |Gather(s, es, t, CreateFailed)|
    decreases |es|
  {
    hide Inv, Next, Enabled, Of, Balanced;
    if es != [] {
      NextInv(s, es[0]);
      NextHistory(s, es[0]);
      RunHistory(Next(s, es[0]), es[1..], t);
    }
  }

  lemma {:induction false} RunBalanced(s: System, es: seq<Event>, t: System)
    requires Inv(s) && Run(s, es, t)
    ensures CreatesBalanced(s.pool, t.pool, Gather(s, es, t, Output))
    ensures DestroysBalanced(s.pool, t.pool, Gather(s, es, t, DestroyEnded))
    ensures GrantsBalanced(s.pool, t.pool, Gather(s, es, t, Written))
    ensures LaunchesBalanced(s.pool, t.pool, Gather(s, es, t, CreateEnded))
    decreases |es|
  {
    hide Inv, Next, Enabled, Of, Recorded, CreatesBalanced, DestroysBalanced, GrantsBalanced, LaunchesBalanced;
    if es == [] {
      BalancedByNothing(s.pool, t.pool);
    } else {
      var u := Next(s, es[0]);
      NextInv(s, es[0]);
      NextHistory(s, es[0]);
      RunBalanced(u, es[1..], t);
      CreatesAddUp(s.pool, u.pool, t.pool, Of(s, es[0], Output), Gather(u, es[1..], t, Output));
      DestroysAddUp(s.pool, u.pool, t.pool, Of(s, es[0], DestroyEnded), Gather(u, es[1..], t, DestroyEnded));
      GrantsAddUp(s.pool, u.pool, t.pool, Of(s, es[0], Written), Gather(u, es[1..], t, Written));
      LaunchesAddUp(s.pool, u.pool, t.pool, Of(s, es[0], CreateEnded), Gather(u, es[1..], t, CreateEnded));
    }
  }

  lemma CreatesAddUp(p: Pool, q: Pool, r: Pool, a: seq<BuilderData>, b: seq<BuilderData>)
    requires CreatesBalanced(p, q, a) && CreatesBalanced(q, r, b)
    ensures CreatesBalanced(p, r, a + b)
  {
    hide Bag;
  }

  lemma DestroysAddUp(p: Pool, q: Pool, r: Pool, a: seq<BuilderData>, b: seq<BuilderData>)
    requires DestroysBalanced(p, q, a) && DestroysBalanced(q, r, b)
    ensures DestroysBalanced(p, r, a + b)
  {
    hide Bag;
  }

  lemma GrantsAddUp(p: Pool, q: Pool, r: Pool, a: seq<Grant>, b: seq<Grant>)
    requires GrantsBalanced(p, q, a) && GrantsBalanced(q, r, b)
    ensures GrantsBalanced(p, r, a + b)
  {
    hide Bag;
    var bp, bq, br := Bag(p.tasks, GrantOf), Bag(q.tasks, GrantOf), Bag(r.tasks, GrantOf);
    Telescope(multiset(p.log.served), multiset(q.log.served), multiset(r.log.served),
              bp, bq, br, multiset(a), multiset(b));
  }

  lemma Telescope<B(!new)>(sp: multiset<B>, sq: multiset<B>, sr: multiset<B>, bp: multiset<B>, bq: multiset<B>,
                           br: multiset<B>, a: multiset<B>, b: multiset<B>)
    requires sp + bq + a == sq + bp && sq + br + b == sr + bq
    ensures sp + br + (a + b) == sr + bp
  {
    forall x ensures (sp + br + (a + b))[x] == (sr + bp)[x] {
      assert (sp + bq + a)[x] == (sq + bp)[x];
      assert (sq + br + b)[x] == (sr + bq)[x];
    }
  }

  lemma LaunchesAddUp(p: Pool, q: Pool, r: Pool, a: seq<Task>, b: seq<Task>)
    requires LaunchesBalanced(p, q, a) && LaunchesBalanced(q, r, b)
    ensures LaunchesBalanced(p, r, a + b)
  {
    hide Sum;
  }

  // ---------- the histories are true ----------

  /** The histories are what the run's completions say: the clients whose requests asked, the builders
      create handlers were given, and the builders destroy handlers reported, each in that order. */
  lemma HistoryHappened(es: seq<Event>, s: System)
    requires Run(INIT, es, s)
    ensures var log := s.pool.log;
      && log.checkouts == Gather(INIT, es, s, Asked)
      && log.created == Gather(INIT, es, s, Created)
      && log.destroyed == Gather(INIT, es, s, Destroyed)
      && log.failed == |Gather(INIT, es, s, CreateFailed)|
  {
    hide Inv, Gather, Run;
    InitInv();
    RunHistory(INIT, es, s);
    NothingYet();
  }

  lemma NothingYet()
    ensures INIT.pool.log == EMPTY.log.(launched := MAX_RESERVE)
    ensures INIT.pool.tasks == Repeat(CreateRead, MAX_RESERVE)
  {
    assert RequestCount(0, 0, 0) == MAX_RESERVE;
    assert EMPTY.tasks + Repeat(CreateRead, MAX_RESERVE) == Repeat(CreateRead, MAX_RESERVE);
  }

  lemma NothingUnderWay()
    ensures Bag(INIT.pool.tasks, CreatedPosted) == multiset{}
    ensures Bag(INIT.pool.tasks, DestroyedPosted) == multiset{}
    ensures Bag(INIT.pool.tasks, GrantOf) == multiset{}
    ensures Sum(INIT.pool.tasks, CreateReadOp) == MAX_RESERVE
  {
    hide Bag, Sum, Repeat;
    NothingYet();
    var none: seq<Task> := [];
    assert none + Repeat(CreateRead, MAX_RESERVE) == Repeat(CreateRead, MAX_RESERVE);
    BagAddMany(none, CreateRead, MAX_RESERVE, CreatedPosted);
    BagAddMany(none, CreateRead, MAX_RESERVE, DestroyedPosted);
    BagAddMany(none, CreateRead, MAX_RESERVE, GrantOf);
    SumAddMany(none, CreateRead, MAX_RESERVE, CreateReadOp);
    BagOfNone(CreatedPosted);
    BagOfNone(DestroyedPosted);
    BagOfNone(GrantOf);
    SumOfNone(CreateReadOp);
  }

  /** Every builder the queue has ever had is, record by record, one that a create command printed,
      and every one printed is in the history or with a handler about to run. */
  lemma CreatedWasPrinted(es: seq<Event>, s: System)
    requires Run(INIT, es, s)
    ensures multiset(s.pool.log.created) + Bag(s.pool.tasks, CreatedPosted) == multiset(Gather(INIT, es, s, Output))
    ensures forall b :: b in s.pool.reserve + s.pool.active || CreatePosted(Some(b)) in s.pool.tasks
              ==> b in Gather(INIT, es, s, Output)
  {
    hide Bag, Sum, Inv, Gather, Run, IssuedIds;
    InitInv();
    RunBalanced(INIT, es, s);
    NothingYet();
    NothingUnderWay();
    ReachableInv(es, s);
    var printed := Gather(INIT, es, s, Output);
    forall b | b in s.pool.reserve + s.pool.active || CreatePosted(Some(b)) in s.pool.tasks
      ensures b in printed
    {
      if CreatePosted(Some(b)) in s.pool.tasks {
        var i :| 0 <= i < |s.pool.tasks| && s.pool.tasks[i] == CreatePosted(Some(b));
        BagHas(s.pool.tasks, i, CreatedPosted);
        assert multiset([b])[b] == 1 && CreatedNext(s.pool.tasks[i]) == [b];
        assert Bag(s.pool.tasks, CreatedPosted)[b] >= 1;
      } else {
        AllDistinct(s);
        assert b in multiset(s.pool.reserve + s.pool.active + s.pool.log.destroyed);
      }
      assert (multiset(s.pool.log.created) + Bag(s.pool.tasks, CreatedPosted))[b] >= 1;
      assert b in multiset(printed);
    }
  }

  /** Every builder counted as destroyed, or about to be, is one whose destroy command ran to the end
      of its output; and every such command is accounted for. */
  lemma DestroyedByCommand(es: seq<Event>, s: System)
    requires Run(INIT, es, s)
    ensures multiset(s.pool.log.destroyed) + Bag(s.pool.tasks, DestroyedPosted)
         == multiset(Gather(INIT, es, s, DestroyEnded))
    ensures forall b :: b in s.pool.log.destroyed || DestroyPosted(b, true) in s.pool.tasks
              ==> b in Gather(INIT, es, s, DestroyEnded)
  {
    hide Bag, Sum, Inv, Gather, Run;
    InitInv();
    RunBalanced(INIT, es, s);
    NothingYet();
    NothingUnderWay();
    var ended := Gather(INIT, es, s, DestroyEnded);
    forall b | b in s.pool.log.destroyed || DestroyPosted(b, true) in s.pool.tasks
      ensures b in ended
    {
      if DestroyPosted(b, true) in s.pool.tasks {
        var i :| 0 <= i < |s.pool.tasks| && s.pool.tasks[i] == DestroyPosted(b, true);
        BagHas(s.pool.tasks, i, DestroyedPosted);
        assert multiset([b])[b] == 1 && DestroyedNext(s.pool.tasks[i]) == [b];
        assert Bag(s.pool.tasks, DestroyedPosted)[b] >= 1;
      } else {
        assert b in multiset(s.pool.log.destroyed);
      }
      assert (multiset(s.pool.log.destroyed) + Bag(s.pool.tasks, DestroyedPosted))[b] >= 1;
      assert b in multiset(ended);
    }
  }

  /** Every grant is posted to its client, being written to it, or has been written, and that once:
      no client is sent a builder that was not granted to it. */
  lemma GrantsAreWritten(es: seq<Event>, s: System)
    requires Run(INIT, es, s)
    ensures multiset(s.pool.log.served) == Bag(s.pool.tasks, GrantOf) + multiset(Gather(INIT, es, s, Written))
  {
    hide Bag, Sum, Inv, Gather, Run;
    InitInv();
    RunBalanced(INIT, es, s);
    NothingYet();
    NothingUnderWay();
    FromNothing(Bag(s.pool.tasks, GrantOf), multiset(Gather(INIT, es, s, Written)), multiset(s.pool.log.served));
  }

  lemma FromNothing<B>(a: multiset<B>, b: multiset<B>, c: multiset<B>)
    requires multiset{} + a + b == c + multiset{}
    ensures c == a + b
  {
    assert c + multiset{} == c && multiset{} + a == a;
  }

  /** As many create commands have been launched as have ended and are running. */
  lemma LaunchesAreRun(es: seq<Event>, s: System)
    requires Run(INIT, es, s)
    ensures s.pool.log.launched == |Gather(INIT, es, s, CreateEnded)| + Sum(s.pool.tasks, CreateReadOp)
  {
    hide Bag, Sum, Inv, Gather, Run;
    InitInv();
    RunBalanced(INIT, es, s);
    NothingYet();
    NothingUnderWay();
  }

  // ---------- what is counted ----------

  /** Destroy commands whose output broke off. */
  function DestroyBroken(t: Task, o: Outcome): seq<BuilderData> {
    if t.DestroyRead? && o != Done then [t.builder] else []
  }

  lemma ConnsKept(s: System, i: nat, o: Outcome)
    requires Enabled(s, Fire(i, o))
    ensures |Next(s, Fire(i, o)).conns| == |s.conns|
  {
    hide IssuedIds, Refs;
  }

  lemma EventCounts(s: System, e: Event)
    requires Enabled(s, e)
    ensures var k := KindOf(s, e);
      && |Next(s, e).conns| == |s.conns| + (if k == Arrival then 1 else 0)
      && |Of(s, e, CreateEnded)| == |Of(s, e, Output)| + (if k == CreateFailure then 1 else 0)
      && |Of(s, e, DestroyBroken)| == (if k == DestroyFailure then 1 else 0)
      && |Of(s, e, Created)| == (if k == Creation then 1 else 0)
  {
    hide Next, IssuedIds;
    match e
    case Arrive => ArriveStep(s);
    case Fire(i, o) => ConnsKept(s, i, o);
  }

  /** The tallies by which runs are bounded count what their names say: connections made, create
      commands that ended without a builder, destroy commands that broke off, and builders created. */
  lemma {:induction false} TalliesCount(s: System, es: seq<Event>, t: System)
    requires Run(s, es, t)
    ensures |t.conns| == |s.conns| + Tally(s, es, t, Arrival)
    ensures |Gather(s, es, t, CreateEnded)| == |Gather(s, es, t, Output)| + Tally(s, es, t, CreateFailure)
    ensures |Gather(s, es, t, DestroyBroken)| == Tally(s, es, t, DestroyFailure)
    ensures |Gather(s, es, t, Created)| == Tally(s, es, t, Creation)
    decreases |es|
  {
    hide Next, Enabled, Of, KindOf;
    if es != [] {
      EventCounts(s, es[0]);
      TalliesCount(Next(s, es[0]), es[1..], t);
    }
  }

  // ---------- a client's way to a builder ----------

  /** A run with one event put before it. */
  lemma Before(s: System, e: Event, fs: seq<Event>, t: System, k: Kind)
    requires Enabled(s, e) && Run(Next(s, e), fs, t)
    ensures Run(s, [e] + fs, t)
    ensures Tally(s, [e] + fs, t, k) == (if KindOf(s, e) == k then 1 else 0) + Tally(Next(s, e), fs, t, k)
  {
    hide Enabled, Next, KindOf;
    assert ([e] + fs)[1..] == fs;
  }

  lemma GatherBefore<A>(s: System, e: Event, fs: seq<Event>, t: System, f: (Task, Outcome) -> seq<A>)
    requires Enabled(s, e) && Run(Next(s, e), fs, t) && Run(s, [e] + fs, t)
    ensures Gather(s, [e] + fs, t, f) == Of(s, e, f) + Gather(Next(s, e), fs, t, f)
  {
    hide Enabled, Next, Of;
    assert ([e] + fs)[1..] == fs;
  }

  /** A client that has not asked has been granted nothing. */
  lemma NothingGrantedYet(s: System, j: nat, b: BuilderData)
    requires Inv(s) && j < |s.pool.tasks| && s.pool.tasks[j].Client? && s.pool.tasks[j].step.Requesting?
    ensures Grant(s.pool.tasks[j].conn, b) !in s.pool.log.served
  {
    hide Bag, Sum, Without, IssuedIds, Refs;
    var p, c := s.pool, s.pool.tasks[j].conn;
    BagHas(p.tasks, j, EarlyOf);
    assert MayAsk(p)[c] >= multiset(p.log.checkouts)[c] + 1;
    assert c !in p.log.checkouts;
  }

  lemma AskedIsServed(s: System, j: nat) returns (fs: seq<Event>, t: System, b: BuilderData)
    requires Inv(s) && j < |s.pool.tasks| && s.pool.tasks[j].Client? && s.pool.tasks[j].step.Requesting?
    ensures Run(s, fs, t)
    ensures var c := s.pool.tasks[j].conn;
      && c in Gather(s, fs, t, Asked)
      && Grant(c, b) in t.pool.log.served && Grant(c, b) in Gather(s, fs, t, Written)
    ensures Tally(s, fs, t, Arrival) == Tally(s, fs, t, CreateFailure) == Tally(s, fs, t, DestroyFailure) == 0
  {
    hide Bag, Sum, Inv, Next, Run, Tally, Gather, AtRest, GrantsBalanced;
    var c, ask := s.pool.tasks[j].conn, Fire(j, Text("checkout_builder_request"));
    AnythingMayHappen(s, j, Text("checkout_builder_request"));
    NextInv(s, ask);
    NextHistory(s, ask);
    var rest;
    rest, t := ServedAtRest(Next(s, ask));
    assert c in Next(s, ask).pool.log.checkouts;
    b :| Grant(c, b) in t.pool.log.served;
    fs := [ask] + rest;
    Before(s, ask, rest, t, Arrival);
    Before(s, ask, rest, t, CreateFailure);
    Before(s, ask, rest, t, DestroyFailure);
    GatherBefore(s, ask, rest, t, Asked);
    NothingGrantedYet(s, j, b);
    RunBalanced(s, fs, t);
    WrittenInBetween(s.pool, t.pool, Gather(s, fs, t, Written), Grant(c, b));
  }

  /** A grant made meanwhile and no longer on its way has been written. */
  lemma WrittenInBetween(p: Pool, q: Pool, written: seq<Grant>, g: Grant)
    requires GrantsBalanced(p, q, written) && q.tasks == [] && g !in p.log.served && g in q.log.served
    ensures g in written
  {
    hide Bag;
    BagOfNone(GrantOf);
    assert (multiset(p.log.served) + Bag(q.tasks, GrantOf) + multiset(written))[g] >= multiset(q.log.served)[g] >= 1;
    assert g in multiset(written);
  }

  lemma HandshakeIsServed(s: System, i: nat) returns (fs: seq<Event>, t: System, b: BuilderData)
    requires Inv(s) && i < |s.pool.tasks| && s.pool.tasks[i].Client? && s.pool.tasks[i].step.Accepting?
    ensures Run(s, fs, t)
    ensures var c := s.pool.tasks[i].conn;
      && c in Gather(s, fs, t, Asked)
      && Grant(c, b) in t.pool.log.served && Grant(c, b) in Gather(s, fs, t, Written)
    ensures Tally(s, fs, t, Arrival) == Tally(s, fs, t, CreateFailure) == Tally(s, fs, t, DestroyFailure) == 0
  {
    hide Bag, Sum, Inv, Next, Run, Tally, Gather;
    var c, shake := s.pool.tasks[i].conn, Fire(i, Done);
    AnythingMayHappen(s, i, Done);
    ConnectionStep(s, i, Done);
    NextInv(s, shake);
    var u := Next(s, shake);
    assert u.pool.tasks[|u.pool.tasks| - 1] == Client(c, Requesting);
    var rest;
    rest, t, b := AskedIsServed(u, |u.pool.tasks| - 1);
    fs := [shake] + rest;
    Before(s, shake, rest, t, Arrival);
    Before(s, shake, rest, t, CreateFailure);
    Before(s, shake, rest, t, DestroyFailure);
    GatherBefore(s, shake, rest, t, Asked);
    GatherBefore(s, shake, rest, t, Written);
  }

  /** Every client that connects can get a builder: from any reachable state in which its handshake
      is under way, some continuation of the run, with no failure and no other client arriving, has
      it ask, be granted a builder, and have that very builder written to it. */
  lemma EveryClientCanBeServed(es: seq<Event>, s: System, c: nat) returns (fs: seq<Event>, t: System, b: BuilderData)
    requires Run(INIT, es, s) && Client(c, Accepting) in s.pool.tasks
    ensures Run(s, fs, t) && c in Gather(s, fs, t, Asked)
    ensures Grant(c, b) in t.pool.log.served && Grant(c, b) in Gather(s, fs, t, Written)
    ensures Tally(s, fs, t, Arrival) == Tally(s, fs, t, CreateFailure) == Tally(s, fs, t, DestroyFailure) == 0
  {
    hide Inv, Next, Run, Tally, Gather;
    ReachableInv(es, s);
    var i :| 0 <= i < |s.pool.tasks| && s.pool.tasks[i] == Client(c, Accepting);
    fs, t, b := HandshakeIsServed(s, i);
  }

  /** So can every client still to come: from any reachable state its arrival can be continued, with
      no failure and no further arrival, until a builder granted to it has been written to it. */
  lemma NewcomersCanBeServed(es: seq<Event>, s: System) returns (fs: seq<Event>, t: System, b: BuilderData)
    requires Run(INIT, es, s)
    ensures Run(s, fs, t)
    ensures Grant(|s.conns|, b) in t.pool.log.served && Grant(|s.conns|, b) in Gather(s, fs, t, Written)
    ensures Tally(s, fs, t, Arrival) == 1 && Tally(s, fs, t, CreateFailure) == Tally(s, fs, t, DestroyFailure) == 0
  {
    hide Bag, Sum, Inv, Run, Tally, Gather;
    ReachableInv(es, s);
    NextInv(s, Arrive);
    var u := Next(s, Arrive);
    assert u.pool.tasks[|s.pool.tasks|] == Client(|s.conns|, Accepting);
    var rest;
    rest, t, b := HandshakeIsServed(u, |s.pool.tasks|);
    fs := [Arrive] + rest;
    Before(s, Arrive, rest, t, Arrival);
    Before(s, Arrive, rest, t, CreateFailure);
    Before(s, Arrive, rest, t, DestroyFailure);
    GatherBefore(s, Arrive, rest, t, Written);
  }
}
