/** One build: the client and the builder as two programs that take turns in any order over two
    first-in-first-out channels. Each program is a sequence of stages; a stage is one write, one
    piece of a read, or a check. The environment decides who moves, in what pieces bytes arrive,
    and what the build does. */
module SessionModel {
  import opened Options
  import opened Crc32
  import opened Decimal
  import opened WebSocket
  import opened FileTransfer

  /** What happens on the builder's machine: whether it can unpack the context and knows the
      backend, what the build command prints (the reads before end-of-file and the one at it), its
      exit code, and the container file it leaves, if any. */
  datatype Build = Build(
    buildable: bool,
    output: seq<seq<bv8>>,
    lastOutput: seq<bv8>,
    exitCode: int,
    container: Option<seq<bv8>>)

  /** Everything the session depends on but does not decide: the serialized client data, the tarred
      context, and the build. */
  datatype Setup = Setup(clientData: seq<bv8>, context: seq<bv8>, build: Build)

  /** The client's stages. `crc` is the running checksum of the loop in progress. */
  datatype ClientStage =
    | SendData
    | SendContext(done: nat, crc: bv32)
    | SendContextSum(crc: bv32)
    | ReadOutput
    | ReadExitCode(text: seq<bv8>)
    | CheckExitCode(text: seq<bv8>)
    | ReadContainer(crc: bv32)
    | ReadContainerSum(crc: bv32, text: seq<bv8>)
    | CheckContainer(crc: bv32, text: seq<bv8>)
    | ClientDone
    | ClientFailed

  /** `shown` has been printed, `file` written to the container path. */
  datatype Client = Client(stage: ClientStage, shown: seq<bv8>, file: seq<bv8>)

  datatype BuilderStage =
    | ReadData
    | ReadContext(crc: bv32)
    | ReadContextSum(crc: bv32, text: seq<bv8>)
    | CheckContext(crc: bv32, text: seq<bv8>)
    | Unpack
    | Stream(chunks: nat)
    | SendExitCode
    | OpenContainer
    | SendContainer(done: nat, crc: bv32)
    | SendContainerSum(crc: bv32)
    | BuilderDone
    | BuilderFailed

  datatype Builder = Builder(stage: BuilderStage, data: seq<bv8>, context: seq<bv8>)

  /** `up` carries the client's messages, `down` the builder's. */
  datatype Session = Session(client: Client, builder: Builder, up: seq<Token>, down: seq<Token>)

  const BEGIN: Session := Session(Client(SendData, [], []), Builder(ReadData, [], []), [], [])

  /** A move of one side; `n` and `fin` matter to reads only: how many bytes of the current message
      this piece holds, and whether it also holds the message's end. */
  datatype Move = ClientMoves(n: nat, fin: bool) | BuilderMoves(n: nat, fin: bool)

  // ---------- reading and writing ----------

  predicate Readable(channel: seq<Token>, n: nat, fin: bool) {
    && n <= |channel|
    && (forall i :: 0 <= i < n ==> channel[i].Byte?)
    && (if fin then n < |channel| && channel[n].End? else n > 0)
  }

  function Got(channel: seq<Token>, n: nat): (data: seq<bv8>)
    requires n <= |channel| && forall i :: 0 <= i < n ==> channel[i].Byte?
    ensures Bytes(data) == channel[..n]
  {
    seq(n, i requires 0 <= i < n => channel[i].value)
  }

  function Unread(channel: seq<Token>, n: nat, fin: bool): seq<Token>
    requires Readable(channel, n, fin)
  {
    if fin then channel[n + 1..] else channel[n..]
  }

  /** The next fragment of a file of which `done` bytes are sent. */
  function NextChunk(file: seq<bv8>, done: nat): seq<bv8>
    requires done <= |file|
  {
    if |file| - done < CHUNK_SIZE then file[done..] else file[done..done + CHUNK_SIZE]
  }

  function SumText(crc: bv32): seq<bv8> {
    Text(Unsigned(Xor(crc, 0xFFFF_FFFF)))
  }

  // ---------- the client ----------

  predicate ClientReads(stage: ClientStage) {
    stage.ReadOutput? || stage.ReadExitCode? || stage.ReadContainer? || stage.ReadContainerSum?
  }

  predicate ClientEnded(stage: ClientStage) {
    stage.ClientDone? || stage.ClientFailed?
  }

  predicate BuilderReads(stage: BuilderStage) {
    stage.ReadData? || stage.ReadContext? || stage.ReadContextSum?
  }

  predicate BuilderEnded(stage: BuilderStage) {
    stage.BuilderDone? || stage.BuilderFailed?
  }

  /** Reads of at most 4096 bytes fill a fixed buffer; a whole-message read has no such limit. */
  predicate Fits(limited: bool, n: nat) {
    limited ==> n <= CHUNK_SIZE
  }

  /** A read waits for bytes, or fails when the builder has gone and nothing is left to read. */
  predicate ClientEnabled(s: Session, n: nat, fin: bool) {
    && !ClientEnded(s.client.stage)
    && (ClientReads(s.client.stage) ==>
          || (Readable(s.down, n, fin) && Fits(s.client.stage.ReadOutput? || s.client.stage.ReadContainer?, n))
          || (s.down == [] && BuilderEnded(s.builder.stage)))
  }

  function ClientSends(s: Session, stage: ClientStage, frame: Frame): Session {
    s.(client := s.client.(stage := stage), up := s.up + FrameTokens(frame))
  }

  function ClientGoesTo(s: Session, stage: ClientStage): Session {
    s.(client := s.client.(stage := stage))
  }

  function ClientStep(w: Setup, s: Session, n: nat, fin: bool): Session
    requires ClientEnabled(s, n, fin)
  {
    if ClientReads(s.client.stage) then
      if s.down == [] then ClientLosesBuilder(s)
      else ClientReceives(s.(down := Unread(s.down, n, fin)), Got(s.down, n), fin)
    else
      match s.client.stage
      case SendData => ClientSends(s, SendContext(0, START), Frame(true, w.clientData))
      case SendContext(done, crc) =>
        if done <= |w.context| then
          var chunk := NextChunk(w.context, done);
          var crc' := Process(crc, chunk);
          var last := done + |chunk| == |w.context|;
          ClientSends(s, if last then SendContextSum(crc') else SendContext(done + |chunk|, crc'), Frame(last, chunk))
        else ClientGoesTo(s, ClientFailed)
      case SendContextSum(crc) => ClientSends(s, ReadOutput, Frame(true, SumText(crc)))
      case CheckExitCode(text) => ClientGoesTo(s, if text == ZERO_TEXT then ReadContainer(START) else ClientFailed)
      case CheckContainer(crc, text) => ClientGoesTo(s, if text == SumText(crc) then ClientDone else ClientFailed)
      case _ => s
  }

  /** The read of the build output ignores its error, and with no message begun leaves its loop;
      any other read throws. */
  function ClientLosesBuilder(s: Session): Session
    requires ClientReads(s.client.stage)
  {
    ClientGoesTo(s, if s.client.stage.ReadOutput? then ReadExitCode([]) else ClientFailed)
  }

  function ClientReceives(s: Session, data: seq<bv8>, fin: bool): Session
    requires ClientReads(s.client.stage)
  {
    match s.client.stage
    case ReadOutput =>
      s.(client := s.client.(stage := if fin then ReadExitCode([]) else ReadOutput, shown := s.client.shown + data))
    case ReadExitCode(text) =>
      ClientGoesTo(s, if fin then CheckExitCode(text + data) else ReadExitCode(text + data))
    case ReadContainer(crc) =>
      var crc' := Process(crc, data);
      s.(client := s.client.(stage := if fin then ReadContainerSum(crc', []) else ReadContainer(crc'),
                             file := s.client.file + data))
    case ReadContainerSum(crc, text) =>
      ClientGoesTo(s, if fin then CheckContainer(crc, text + data) else ReadContainerSum(crc, text + data))
  }

  // ---------- the builder ----------

  predicate BuilderEnabled(s: Session, n: nat, fin: bool) {
    && !BuilderEnded(s.builder.stage)
    && (BuilderReads(s.builder.stage) ==>
          || (Readable(s.up, n, fin) && Fits(s.builder.stage.ReadContext?, n))
          || (s.up == [] && ClientEnded(s.client.stage)))
  }

  function BuilderSends(s: Session, stage: BuilderStage, frame: Frame): Session {
    s.(builder := s.builder.(stage := stage), down := s.down + FrameTokens(frame))
  }

  function BuilderGoesTo(s: Session, stage: BuilderStage): Session {
    s.(builder := s.builder.(stage := stage))
  }

  function BuilderStep(w: Setup, s: Session, n: nat, fin: bool): Session
    requires BuilderEnabled(s, n, fin)
  {
    if BuilderReads(s.builder.stage) then
      if s.up == [] then BuilderGoesTo(s, BuilderFailed)
      else BuilderReceives(s.(up := Unread(s.up, n, fin)), Got(s.up, n), fin)
    else
      match s.builder.stage
      case CheckContext(crc, text) => BuilderGoesTo(s, if text == SumText(crc) then Unpack else BuilderFailed)
      case Unpack => BuilderGoesTo(s, if w.build.buildable then Stream(0) else BuilderFailed)
      case Stream(k) =>
        if k < |w.build.output| then BuilderSends(s, Stream(k + 1), Frame(false, w.build.output[k]))
        else BuilderSends(s, SendExitCode, Frame(true, w.build.lastOutput))
      case SendExitCode =>
        BuilderSends(s, if w.build.exitCode != 0 then BuilderFailed else OpenContainer,
                     Frame(true, SignedText(w.build.exitCode)))
      case OpenContainer => BuilderGoesTo(s, if w.build.container.Some? then SendContainer(0, START) else BuilderFailed)
      case SendContainer(done, crc) =>
        if w.build.container.Some? && done <= |w.build.container.value| then
          var chunk := NextChunk(w.build.container.value, done);
          var crc' := Process(crc, chunk);
          var last := done + |chunk| == |w.build.container.value|;
          BuilderSends(s, if last then SendContainerSum(crc') else SendContainer(done + |chunk|, crc'),
                       Frame(last, chunk))
        else BuilderGoesTo(s, BuilderFailed)
      case SendContainerSum(crc) => BuilderSends(s, BuilderDone, Frame(true, SumText(crc)))
      case _ => s
  }

  function BuilderReceives(s: Session, data: seq<bv8>, fin: bool): Session
    requires BuilderReads(s.builder.stage)
  {
    match s.builder.stage
    case ReadData =>
      s.(builder := s.builder.(stage := if fin then ReadContext(START) else ReadData, data := s.builder.data + data))
    case ReadContext(crc) =>
      var crc' := Process(crc, data);
      s.(builder := s.builder.(stage := if fin then ReadContextSum(crc', []) else ReadContext(crc'),
                               context := s.builder.context + data))
    case ReadContextSum(crc, text) =>
      BuilderGoesTo(s, if fin then CheckContext(crc, text + data) else ReadContextSum(crc, text + data))
  }

  // ---------- runs ----------

  predicate Allowed(s: Session, m: Move) {
    match m
    case ClientMoves(n, fin) => ClientEnabled(s, n, fin)
    case BuilderMoves(n, fin) => BuilderEnabled(s, n, fin)
  }

  function After(w: Setup, s: Session, m: Move): Session
    requires Allowed(s, m)
  {
    match m
    case ClientMoves(n, fin) => ClientStep(w, s, n, fin)
    case BuilderMoves(n, fin) => BuilderStep(w, s, n, fin)
  }

  /** A schedule: every move is allowed where it happens. */
  predicate Schedule(w: Setup, s: Session, ms: seq<Move>, t: Session)
    decreases |ms|
  {
    if ms == [] then s == t
    else Allowed(s, ms[0]) && Schedule(w, After(w, s, ms[0]), ms[1..], t)
  }
}
