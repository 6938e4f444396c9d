/** The builder queue as values: its three lists, its counter, the operations the io_context
    still has to complete, and a log of what has happened. The functions below specify the
    methods of the queue classes; the system model runs them. */
module PoolModel {
  import opened Bags
  import opened Builders
  import opened MachineInts
  import opened Options

  const MAX_BUILDERS: nat := 25
  const MAX_RESERVE: nat := 10

  /** What a status request is answered with. */
  datatype Report = Report(active: seq<BuilderData>, reserve: seq<BuilderData>)

  /** What a connection is waiting for. */
  datatype Step =
    | Accepting                      // the WebSocket handshake
    | Requesting                     // the client's request string
    | Granted(builder: BuilderData)  // a posted hand-out handler
    | Sending(builder: BuilderData)  // the write of the builder to the client
    | Closing                        // the read that ends when the client leaves
    | Reporting(report: Report)      // the write of the queue status
    | Listing                        // the output of the image-list command
    | Listed                         // the posted handler of that command
    | SendingList                    // the write of the image list

  /** An operation the io_context will complete once, with the continuation it then runs.
      Connections are named by arrival number. A connection stays alive exactly as long as
      some continuation, here or among the pending handlers, still refers to it. */
  datatype Task =
    | Client(conn: nat, step: Step)
    | CreateRead
    | CreatePosted(result: Option<BuilderData>)
    | DestroyRead(builder: BuilderData)
    | DestroyPosted(builder: BuilderData, destroyed: bool)
    | CreateTimer
    | DestroyTimer(builder: BuilderData)

  datatype Grant = Grant(conn: nat, builder: BuilderData)

  /** Everything that ever happened, in order: clients that asked for a builder, builders whose
      creation completed, builders handed out, builders a closing connection returned, builders
      destroyed, and how many creates were launched and how many failed. */
  datatype Log = Log(
    checkouts: seq<nat>,
    created: seq<BuilderData>,
    served: seq<Grant>,
    returned: seq<BuilderData>,
    destroyed: seq<BuilderData>,
    launched: nat,
    failed: nat)

  datatype Pool = Pool(
    pending: seq<nat>,
    reserve: seq<BuilderData>,
    active: seq<BuilderData>,
    outstanding: int,
    tasks: seq<Task>,
    log: Log)

  const EMPTY: Pool := Pool([], [], [], 0, [], Log([], [], [], [], [], 0, 0))

  /** The number of creates to issue, in the size_t arithmetic of the code. */
  function RequestCount(reserve: nat, outstanding: int, active: nat): nat {
    var potentialReserve := AddSize(reserve, ToSize(outstanding));
    var potentialTotal := AddSize(potentialReserve, active);
    if potentialReserve < MAX_RESERVE then
      MinSize(SubSize(MAX_RESERVE, potentialReserve), SubSize(MAX_BUILDERS, potentialTotal))
    else 0
  }

  /** What the two limits ask for, in plain integers. */
  function Deficit(reserve: nat, outstanding: int, active: nat): nat {
    var fill := MAX_RESERVE - (reserve + outstanding);
    var room := MAX_BUILDERS - (reserve + outstanding + active);
    if fill <= 0 || room <= 0 then 0 else if fill < room then fill else room
  }

  /** The machine computation agrees with the intended one exactly when nothing wraps: the sum of
      the lists and the counter is not negative, and the reserve is full or the total is within its
      limit. Past the limit the second subtraction wraps and creates are issued all the same. */
  lemma RequestCountExact(reserve: nat, outstanding: int, active: nat)
    requires INT_MIN <= outstanding <= INT_MAX
    requires reserve + active + INT_MAX < SIZE_RANGE
    ensures RequestCount(reserve, outstanding, active) == Deficit(reserve, outstanding, active)
       <==> if reserve + outstanding < 0
            then reserve + outstanding + active >= MAX_BUILDERS
            else reserve + outstanding >= MAX_RESERVE || reserve + outstanding + active <= MAX_BUILDERS
  {
    var sum := reserve + outstanding;
    if sum < 0 {
      assert AddSize(reserve, ToSize(outstanding)) == sum + SIZE_RANGE;
    } else {
      assert AddSize(reserve, ToSize(outstanding)) == sum;
      assert AddSize(sum, active) == sum + active;
      if sum + active > MAX_BUILDERS {
        assert SubSize(MAX_BUILDERS, sum + active) == MAX_BUILDERS - (sum + active) + SIZE_RANGE;
      }
    }
  }

  function CreateReserve(p: Pool): Pool {
    var n := RequestCount(|p.reserve|, p.outstanding, |p.active|);
    p.(outstanding := p.outstanding + n,
       tasks := p.tasks + Repeat(CreateRead, n),
       log := p.log.(launched := p.log.launched + n))
  }

  /** Moves the front builder to the active list and posts it to the front handler. */
  function Serve(p: Pool): Pool
    requires p.pending != [] && p.reserve != []
  {
    var builder, conn := p.reserve[0], p.pending[0];
    p.(active := p.active + [builder],
       reserve := p.reserve[1..],
       pending := p.pending[1..],
       tasks := p.tasks + [Client(conn, Granted(builder))],
       log := p.log.(served := p.log.served + [Grant(conn, builder)]))
  }

  function ProcessPending(p: Pool): Pool {
    if p.pending != [] && p.reserve != [] then CreateReserve(Serve(p)) else p
  }

  function Enqueue(p: Pool, conn: nat): Pool {
    p.(pending := p.pending + [conn], log := p.log.(checkouts := p.log.checkouts + [conn]))
  }

  function Checkout(p: Pool, conn: nat): Pool {
    ProcessPending(Enqueue(p, conn))
  }

  function AddTask(p: Pool, t: Task): Pool {
    p.(tasks := p.tasks + [t])
  }

  /** Launches the destroy command. */
  function StartDestroy(p: Pool, b: BuilderData): Pool {
    AddTask(p, DestroyRead(b))
  }

  function Stock(p: Pool, b: BuilderData): Pool {
    p.(outstanding := p.outstanding - 1,
       reserve := p.reserve + [b],
       log := p.log.(created := p.log.created + [b]))
  }

  /** The handler of a create operation. */
  function CreateDone(p: Pool, result: Option<BuilderData>): Pool {
    match result
    case Some(b) => ProcessPending(Stock(p, b))
    case None =>
      AddTask(p.(outstanding := p.outstanding - 1, log := p.log.(failed := p.log.failed + 1)), CreateTimer)
  }

  function Retire(p: Pool, b: BuilderData): Pool {
    p.(active := Removed(p.active, b), log := p.log.(destroyed := p.log.destroyed + [b]))
  }

  /** The handler of a destroy operation. */
  function DestroyDone(p: Pool, b: BuilderData, destroyed: bool): Pool {
    if destroyed then CreateReserve(Retire(p, b)) else AddTask(p, DestroyTimer(b))
  }

  function Status(p: Pool): Report {
    Report(p.active, p.reserve)
  }
}
