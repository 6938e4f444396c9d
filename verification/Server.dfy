/** Connections and the event loop as objects, tied to the system model event by event. */
module Server {
  import opened Bags
  import opened Builders
  import opened Options
  import opened PoolModel
  import opened SystemModel
  import opened BuilderQueues

  class Connection {
    const id: nat
    const queue: BuilderQueue
    var live: bool
    var builder: Option<BuilderData>
    var buffer: string

    ghost function View(): Conn
      reads this
    {
      Conn(live, builder)
    }

    constructor (id: nat, queue: BuilderQueue)
      ensures this.id == id && this.queue == queue && View() == Conn(true, None) && buffer == ""
    {
      this.id, this.queue := id, queue;
      live, builder, buffer := true, None, "";
    }

    method Start()
      modifies queue.io
      ensures queue.View() == AddTask(old(queue.View()), Client(id, Accepting))
    {
      queue.io.Start(Client(id, Accepting));
    }

    method HandshakeDone(o: Outcome)
      modifies queue.io
      ensures queue.View() == if o.Done? then AddTask(old(queue.View()), Client(id, Requesting)) else old(queue.View())
    {
      if o == Done {
        ReadRequestString();
      }
    }

    method ReadRequestString()
      modifies queue.io
      ensures queue.View() == AddTask(old(queue.View()), Client(id, Requesting))
    {
      queue.io.Start(Client(id, Requesting));
    }

    /** The request is what the buffer holds; the buffer is consumed before it is acted on. */
    method RequestRead(o: Outcome)
      requires buffer == ""
      modifies this`buffer, queue, queue.io
      ensures buffer == ""
      ensures queue.View() == if o.Text? then Requested(old(queue.View()), id, o.request) else old(queue.View())
    {
      if o.Text? {
        buffer := buffer + o.request;
        var request := buffer;
        buffer := "";
        if request == "checkout_builder_request" {
          RequestBuilder();
        } else if request == "queue_status_request" {
          RequestQueueStats();
        } else if request == "image_list_request" {
          RequestImageList();
        }
      }
    }

    method RequestBuilder()
      modifies queue, queue.io
      ensures queue.View() == Checkout(old(queue.View()), id)
    {
      queue.CheckoutBuilder(id);
    }

    method RequestQueueStats()
      modifies queue.io
      ensures queue.View() == AddTask(old(queue.View()), Client(id, Reporting(Status(old(queue.View())))))
    {
      var status := queue.StatusReport();
      queue.io.Start(Client(id, Reporting(status)));
    }

    method RequestImageList()
      modifies queue.io
      ensures queue.View() == AddTask(old(queue.View()), Client(id, Listing))
    {
      queue.io.Start(Client(id, Listing));
    }

    method BuilderReady(b: BuilderData)
      modifies this`builder, queue.io
      ensures builder == Some(b)
      ensures queue.View() == AddTask(old(queue.View()), Client(id, Sending(b)))
    {
      builder := Some(b);
      queue.io.Start(Client(id, Sending(b)));
    }

    method BuilderWritten(o: Outcome)
      modifies queue.io
      ensures queue.View() == if o.Done? then AddTask(old(queue.View()), Client(id, Closing)) else old(queue.View())
    {
      if o == Done {
        WaitForClose();
      }
    }

    method WaitForClose()
      modifies queue.io
      ensures queue.View() == AddTask(old(queue.View()), Client(id, Closing))
    {
      queue.io.Start(Client(id, Closing));
    }

    /** ~Connection. */
    method Destroy()
      modifies this`live, queue`log, queue.io
      ensures !live
      ensures queue.View() ==
        match builder
        case None => old(queue.View())
        case Some(b) =>
          var p := old(queue.View());
          StartDestroy(p.(log := p.log.(returned := p.log.returned + [b])), b)
    {
      match builder {
        case None =>
        case Some(b) =>
          queue.log := queue.log.(returned := queue.log.returned + [b]);
          queue.ReturnBuilder(b);
      }
      live := false;
    }
  }

  /** What a request does to the queue. */
  function Requested(p: Pool, c: nat, request: string): Pool {
    HandleRequest(System(p, []), c, request).pool
  }

  /** The operations whose continuation refers to connection c. */
  method CountContinuations(tasks: seq<Task>, c: nat) returns (n: nat)
    ensures n == Bag(tasks, ConnOf)[c]
  {
    n := 0;
    for i := 0 to |tasks|
      invariant n == Bag(tasks[..i], ConnOf)[c]
    {
      assert tasks[..i + 1] == tasks[..i] + [tasks[i]];
      BagAdd(tasks[..i], tasks[i], ConnOf);
      if tasks[i].Client? && tasks[i].conn == c {
        n := n + 1;
      }
    }
    assert tasks[..|tasks|] == tasks;
  }

  /** The pending handlers that refer to connection c. */
  method CountHandlers(pending: seq<nat>, c: nat) returns (n: nat)
    ensures n == multiset(pending)[c]
  {
    n := 0;
    for i := 0 to |pending|
      invariant n == multiset(pending[..i])[c]
    {
      assert pending[..i + 1] == pending[..i] + [pending[i]];
      if pending[i] == c {
        n := n + 1;
      }
    }
    assert pending[..|pending|] == pending;
  }

  /** The single-threaded event loop with the connections it has accepted. */
  class EventLoop {
    const io: IoContext
    const queue: BuilderQueue
    var conns: seq<Connection>

    ghost predicate Valid()
      reads this, conns
    {
      && queue.io == io
      && forall i :: 0 <= i < |conns| ==> conns[i].id == i && conns[i].queue == queue && conns[i].buffer == ""
    }

    ghost function Abs(): System
      reads this, queue, queue.io, conns
    {
      System(queue.View(), seq(|conns|, i requires 0 <= i < |conns| reads this, conns => conns[i].View()))
    }

    constructor ()
      ensures Valid() && Abs() == INIT
    {
      var context := new IoContext();
      io := context;
      queue := new BuilderQueue(context);
      conns := [];
    }

    /** A new client: its connection object is made and started. */
    method Accept()
      requires Valid()
      modifies this, io
      ensures Valid() && Abs() == Next(old(Abs()), Arrive)
      ensures forall k :: 0 <= k < |conns| ==> conns[k] in old(conns) || fresh(conns[k])
    {
      var conn := new Connection(|conns|, queue);
      conns := conns + [conn];
      conn.Start();
    }

    /** The number of references to connection c, as its shared_ptr counts them. */
    method UseCount(c: nat) returns (n: nat)
      requires Valid()
      ensures n == Refs(Abs().pool)[c]
    {
      hide Bag;
      var inOperations := CountContinuations(io.tasks, c);
      var inQueue := CountHandlers(queue.pendingHandlers, c);
      n := inOperations + inQueue;
    }

    /** Connections other than c look the same after c was touched. */
    twostate lemma OnlyOneChanged(c: nat)
      requires old(Valid()) && Valid() && c < |conns| && conns == old(conns)
      requires forall k :: 0 <= k < |conns| && conns[k] != conns[c] ==> unchanged(conns[k])
      ensures Abs().conns == old(Abs()).conns[c := conns[c].View()]
    {
      forall k | 0 <= k < |conns| && k != c
        ensures conns[k].View() == old(conns[k].View())
      {
        assert conns[k].id != conns[c].id;
      }
    }

    method RunConnection(c: nat, step: Step, o: Outcome)
      requires Valid() && c < |conns|
      modifies conns[c], queue, io
      ensures Valid() && Abs() == RunConn(old(Abs()), c, step, o)
    {
      var conn := conns[c];
      match step {
        case Accepting => conn.HandshakeDone(o);
        case Requesting => conn.RequestRead(o);
        case Granted(b) => conn.BuilderReady(b);
        case Sending(_) => conn.BuilderWritten(o);
        case Closing =>
        case Reporting(_) =>
        case Listing => io.Start(Client(c, Listed));
        case Listed => io.Start(Client(c, SendingList));
        case SendingList =>
      }
      OnlyOneChanged(c);
    }

    /** The finished continuation's reference is gone; with the last one goes the connection. */
    method DropReference(c: nat)
      requires Valid() && c < |conns|
      modifies conns[c], queue, io
      ensures Valid() && Abs() == Release(old(Abs()), c)
    {
      var references := UseCount(c);
      if conns[c].live && references == 0 {
        conns[c].Destroy();
      }
      OnlyOneChanged(c);
    }

    method RunCommand(t: Task, o: Outcome)
      requires Valid() && !t.Client?
      modifies queue, io
      ensures Valid() && Abs() == old(Abs()).(pool := RunPool(old(Abs()).pool, t, o))
    {
      var command := new OpenStack(io);
      match t
      case CreateRead => command.CreateOutputRead(o);
      case CreatePosted(result) => queue.CreateHandler(result);
      case DestroyRead(b) => command.DestroyOutputRead(b, o);
      case DestroyPosted(b, destroyed) => queue.DestroyHandler(b, destroyed);
      case CreateTimer => queue.CreateReserveBuilders();
      case DestroyTimer(b) => queue.ReturnBuilder(b);
    }

    /** Operation i completes with outcome o and its continuation runs to the end. */
    method CompleteOne(i: nat, o: Outcome)
      requires Valid() && Enabled(Abs(), Fire(i, o))
      modifies conns, queue, io
      ensures Valid() && Abs() == Next(old(Abs()), Fire(i, o))
    {
      var t := io.Complete(i);
      assert Abs() == TakeTask(old(Abs()), i);
      if t.Client? {
        RunConnection(t.conn, t.step, o);
        DropReference(t.conn);
      } else {
        RunCommand(t, o);
      }
    }

    /** The loop of main: whatever completes, and whoever arrives, in any order. */
    method Loop(events: seq<Event>)
      requires Valid() && Possible(Abs(), events)
      modifies this, conns, queue, io
      ensures Valid() && Run(old(Abs()), events, Abs())
    {
      ghost var start := Abs();
      for k := 0 to |events|
        invariant Valid() && forall j :: 0 <= j < |conns| ==> conns[j] in old(conns) || fresh(conns[j])
        invariant Run(start, events[..k], Abs()) && Possible(Abs(), events[k..])
      {
        ghost var before := Abs();
        match events[k] {
          case Arrive => Accept();
          case Fire(i, o) => CompleteOne(i, o);
        }
        RunSnoc(start, events[..k], before, events[k]);
        assert events[..k + 1] == events[..k] + [events[k]];
        assert events[k..][1..] == events[k + 1..];
      }
      assert events[..|events|] == events;
    }
  }

  /** Each event is enabled where it happens. */
  ghost predicate Possible(s: System, es: seq<Event>)
    decreases |es|
  {
    es != [] ==> Enabled(s, es[0]) && Possible(Next(s, es[0]), es[1..])
  }

  lemma {:induction false} RunSnoc(s: System, es: seq<Event>, t: System, e: Event)
    requires Run(s, es, t) && Enabled(t, e)
    ensures Run(s, es + [e], Next(t, e))
    decreases |es|
  {
    hide Next, Enabled;
    if es == [] {
      assert Run(Next(s, e), [], Next(s, e));
      assert ([] + [e])[1..] == [];
    } else {
      RunSnoc(Next(s, es[0]), es[1..], t, e);
      assert (es + [e])[1..] == es[1..] + [e];
    }
  }
}
