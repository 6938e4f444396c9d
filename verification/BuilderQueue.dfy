/** The queue as the program has it: objects that update their lists and counters in place and
    start operations on a shared io_context. Every method is tied to the function on values that
    specifies it, so what is proved of those functions holds of the objects. */
module BuilderQueues {
  import opened Bags
  import opened Builders
  import opened MachineInts
  import opened Options
  import opened PoolModel
  import opened SystemModel

  /** asio::io_context: the operations started and not completed. */
  class IoContext {
    var tasks: seq<Task>

    constructor ()
      ensures tasks == []
    {
      tasks := [];
    }

    method Start(t: Task)
      modifies this
      ensures tasks == old(tasks) + [t]
    {
      tasks := tasks + [t];
    }

    /** Takes a completed operation out. */
    method Complete(i: nat) returns (t: Task)
      requires i < |tasks|
      modifies this
      ensures t == old(tasks)[i] && tasks == RemoveAt(old(tasks), i)
    {
      t := tasks[i];
      tasks := tasks[..i] + tasks[i + 1..];
    }
  }

  /** One OpenStack command: launched, its output read to the end, its handler posted. */
  class OpenStack {
    const io: IoContext

    constructor (io: IoContext)
      ensures this.io == io
    {
      this.io := io;
    }

    method RequestCreate()
      modifies io
      ensures io.tasks == old(io.tasks) + [CreateRead]
    {
      io.Start(CreateRead);
    }

    /** A builder results only from output that was read to its end and parses. */
    method CreateOutputRead(o: Outcome)
      modifies io
      ensures io.tasks == old(io.tasks) + [CreatePosted(if o.Built? then Some(o.builder) else None)]
    {
      match o
      case Built(b) => io.Start(CreatePosted(Some(b)));
      case _ => io.Start(CreatePosted(None));
    }

    method Destroy(b: BuilderData)
      modifies io
      ensures io.tasks == old(io.tasks) + [DestroyRead(b)]
    {
      io.Start(DestroyRead(b));
    }

    method DestroyOutputRead(b: BuilderData, o: Outcome)
      modifies io
      ensures io.tasks == old(io.tasks) + [DestroyPosted(b, o.Done?)]
    {
      io.Start(DestroyPosted(b, o == Done));
    }
  }

  class BuilderQueue {
    const io: IoContext
    const maxBuilderCount: nat := 25
    const maxReserveBuilderCount: nat := 10

    var pendingHandlers: seq<nat>
    var reserveBuilders: seq<BuilderData>
    var activeBuilders: seq<BuilderData>
    var outstandingCreateCount: int
    ghost var log: Log

    ghost function View(): Pool
      reads this, io
    {
      Pool(pendingHandlers, reserveBuilders, activeBuilders, outstandingCreateCount, io.tasks, log)
    }

    constructor (io: IoContext)
      requires io.tasks == []
      modifies io
      ensures this.io == io && View() == CreateReserve(EMPTY)
    {
      this.io := io;
      pendingHandlers, reserveBuilders, activeBuilders, outstandingCreateCount := [], [], [], 0;
      log := EMPTY.log;
      new;
      CreateReserveBuilders();
    }

    /** Issues creates up to the limits, one command per missing builder. */
    method CreateReserveBuilders()
      modifies this, io
      ensures View() == CreateReserve(old(View()))
    {
      var potentialReserveCount := AddSize(|reserveBuilders|, ToSize(outstandingCreateCount));
      var potentialTotalCount := AddSize(potentialReserveCount, |activeBuilders|);
      if potentialReserveCount < maxReserveBuilderCount {
        var reserveRequestCount := SubSize(maxReserveBuilderCount, potentialReserveCount);
        var requestCount := MinSize(reserveRequestCount, SubSize(maxBuilderCount, potentialTotalCount));
        for i := 0 to requestCount
          invariant View() == old(View()).(
            outstanding := old(outstandingCreateCount) + i,
            tasks := old(io.tasks) + Repeat(CreateRead, i),
            log := old(log).(launched := old(log.launched) + i))
        {
          outstandingCreateCount := outstandingCreateCount + 1;
          log := log.(launched := log.launched + 1);
          var command := new OpenStack(io);
          command.RequestCreate();
          assert Repeat(CreateRead, i + 1) == Repeat(CreateRead, i) + [CreateRead];
        }
      } else {
        assert io.tasks == old(io.tasks) + Repeat(CreateRead, 0);
      }
    }

    method ProcessPendingHandler()
      modifies this, io
      ensures View() == ProcessPending(old(View()))
    {
      if pendingHandlers != [] && reserveBuilders != [] {
        var builder := reserveBuilders[0];
        var handler := pendingHandlers[0];
        activeBuilders := activeBuilders + [builder];
        reserveBuilders := reserveBuilders[1..];
        pendingHandlers := pendingHandlers[1..];
        log := log.(served := log.served + [Grant(handler, builder)]);
        io.Start(Client(handler, Granted(builder)));
        CreateReserveBuilders();
      }
    }

    method CheckoutBuilder(handler: nat)
      modifies this, io
      ensures View() == Checkout(old(View()), handler)
    {
      pendingHandlers := pendingHandlers + [handler];
      log := log.(checkouts := log.checkouts + [handler]);
      ProcessPendingHandler();
    }

    method ReturnBuilder(b: BuilderData)
      modifies io
      ensures View() == StartDestroy(old(View()), b)
    {
      var command := new OpenStack(io);
      command.Destroy(b);
    }

    /** The handler passed to OpenStack::request_create. */
    method CreateHandler(result: Option<BuilderData>)
      modifies this, io
      ensures View() == CreateDone(old(View()), result)
    {
      outstandingCreateCount := outstandingCreateCount - 1;
      match result
      case Some(b) =>
        reserveBuilders := reserveBuilders + [b];
        log := log.(created := log.created + [b]);
        ProcessPendingHandler();
      case None =>
        log := log.(failed := log.failed + 1);
        io.Start(CreateTimer);
    }

    /** The handler passed to OpenStack::destroy. */
    method DestroyHandler(b: BuilderData, destroyed: bool)
      modifies this, io
      ensures View() == DestroyDone(old(View()), b, destroyed)
    {
      if destroyed {
        activeBuilders := Removed(activeBuilders, b);
        log := log.(destroyed := log.destroyed + [b]);
        CreateReserveBuilders();
      } else {
        io.Start(DestroyTimer(b));
      }
    }

    /** The two lists, copied entry by entry, active builders first. */
    method StatusReport() returns (r: Report)
      ensures r == Status(View())
    {
      var active, reserve := [], [];
      for i := 0 to |activeBuilders|
        invariant active == activeBuilders[..i]
      {
        active := active + [BuilderData(activeBuilders[i].host, activeBuilders[i].port, activeBuilders[i].id)];
      }
      for i := 0 to |reserveBuilders|
        invariant reserve == reserveBuilders[..i]
      {
        reserve := reserve + [BuilderData(reserveBuilders[i].host, reserveBuilders[i].port, reserveBuilders[i].id)];
      }
      r := Report(active, reserve);
    }
  }
}
