/** The whole queue server: the pool and the connections, driven one completed operation at a time
    by the single-threaded event loop. Which operation completes next, and how, is up to the
    environment. */
module SystemModel {
  import opened Bags
  import opened Builders
  import opened Options
  import opened PoolModel

  /** A connection object. `live` turns false when its last reference is dropped. */
  datatype Conn = Conn(live: bool, builder: Option<BuilderData>)

  datatype System = System(pool: Pool, conns: seq<Conn>)

  /** How an operation completed. `Error` is any error code; for the two OpenStack commands it
      means that reading their output ended with something other than end-of-file. */
  datatype Outcome =
    | Done
    | Error
    | Text(request: string)       // the request string a client sent
    | Built(builder: BuilderData) // create output that parses
    | Garbled                     // create output that does not

  datatype Event =
    | Arrive
    | Fire(index: nat, outcome: Outcome)

  const INIT: System := System(CreateReserve(EMPTY), [])

  ghost function ConnOf(t: Task): multiset<nat> {
    if t.Client? then multiset{t.conn} else multiset{}
  }

  /** The references to connections: continuations in the io_context and in the queue. */
  ghost function Refs(p: Pool): multiset<nat> {
    Bag(p.tasks, ConnOf) + multiset(p.pending)
  }

  /** ~Connection: a builder still held is given back to the queue. */
  function Destruct(s: System, c: nat): System
    requires c < |s.conns|
  {
    var dead := s.conns[c := s.conns[c].(live := false)];
    match s.conns[c].builder
    case None => s.(conns := dead)
    case Some(b) =>
      System(StartDestroy(s.pool.(log := s.pool.log.(returned := s.pool.log.returned + [b])), b), dead)
  }

  /** Dropping the reference a finished continuation held. */
  ghost function Release(s: System, c: nat): System
    requires c < |s.conns|
  {
    if s.conns[c].live && c !in Refs(s.pool) then Destruct(s, c) else s
  }

  function Put(s: System, t: Task): System {
    s.(pool := AddTask(s.pool, t))
  }

  function TakeTask(s: System, i: nat): System
    requires i < |s.pool.tasks|
  {
    s.(pool := s.pool.(tasks := RemoveAt(s.pool.tasks, i)))
  }

  function HandleRequest(s: System, c: nat, request: string): System {
    if request == "checkout_builder_request" then s.(pool := Checkout(s.pool, c))
    else if request == "queue_status_request" then Put(s, Client(c, Reporting(Status(s.pool))))
    else if request == "image_list_request" then Put(s, Client(c, Listing))
    else s
  }

  function BuilderReady(s: System, c: nat, b: BuilderData): System
    requires c < |s.conns|
  {
    Put(s.(conns := s.conns[c := s.conns[c].(builder := Some(b))]), Client(c, Sending(b)))
  }

  /** The continuation of a connection's operation, before its reference is dropped. */
  function RunConn(s: System, c: nat, step: Step, o: Outcome): System
    requires c < |s.conns|
  {
    match step
    case Accepting => if o.Done? then Put(s, Client(c, Requesting)) else s
    case Requesting => if o.Text? then HandleRequest(s, c, o.request) else s
    case Granted(b) => BuilderReady(s, c, b)
    case Sending(_) => if o.Done? then Put(s, Client(c, Closing)) else s
    case Listing => Put(s, Client(c, Listed))
    case Listed => Put(s, Client(c, SendingList))
    case Closing => s
    case Reporting(_) => s
    case SendingList => s
  }

  /** The continuation of an OpenStack command or a timer. */
  function RunPool(p: Pool, t: Task, o: Outcome): Pool
    requires !t.Client?
  {
    match t
    case CreateRead => AddTask(p, CreatePosted(if o.Built? then Some(o.builder) else None))
    case CreatePosted(result) => CreateDone(p, result)
    case DestroyRead(b) => AddTask(p, DestroyPosted(b, o.Done?))
    case DestroyPosted(b, destroyed) => DestroyDone(p, b, destroyed)
    case CreateTimer => CreateReserve(p)
    case DestroyTimer(b) => StartDestroy(p, b)
  }

  /** The ids that have been issued: of builders created, and of builders whose create handler is
      posted but has not run. */
  ghost function PostedId(t: Task): multiset<string> {
    if t.CreatePosted? && t.result.Some? then multiset{t.result.value.id} else multiset{}
  }

  ghost function IssuedIds(p: Pool): multiset<string> {
    multiset(Ids(p.log.created)) + Bag(p.tasks, PostedId)
  }

  predicate OutcomeFits(t: Task, o: Outcome) {
    match t
    case Client(_, step) =>
      (match step
       case Requesting => o.Text? || o.Error?
       case Granted(_) => o.Done?
       case Listed => o.Done?
       case _ => o.Done? || o.Error?)
    case CreateRead => o.Built? || o.Garbled? || o.Error?
    case DestroyRead(_) => o.Done? || o.Error?
    case _ => o.Done?
  }

  /** Any outstanding operation may complete, in any way that fits it. OpenStack never gives two
      servers the same id. */
  ghost predicate Enabled(s: System, e: Event) {
    e.Fire? ==>
      && e.index < |s.pool.tasks|
      && var t := s.pool.tasks[e.index];
      && OutcomeFits(t, e.outcome)
      && (t.Client? ==> t.conn < |s.conns|)
      && (e.outcome.Built? ==> e.outcome.builder.id !in IssuedIds(s.pool))
  }

  /** A new connection object starts its handshake. */
  function Accept(s: System): System {
    Put(s.(conns := s.conns + [Conn(true, None)]), Client(|s.conns|, Accepting))
  }

  ghost function Next(s: System, e: Event): System
    requires Enabled(s, e)
  {
    match e
    case Arrive => Accept(s)
    case Fire(i, o) =>
      var t := s.pool.tasks[i];
      var rest := TakeTask(s, i);
      if t.Client? then Release(RunConn(rest, t.conn, t.step, o), t.conn)
      else rest.(pool := RunPool(rest.pool, t, o))
  }

  /** es is a run from s to t: each event is enabled where it happens. */
  ghost predicate Run(s: System, es: seq<Event>, t: System)
    decreases |es|
  {
    if es == [] then s == t
    else Enabled(s, es[0]) && Run(Next(s, es[0]), es[1..], t)
  }
}
