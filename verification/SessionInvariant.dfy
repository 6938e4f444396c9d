/** How far each side of a session has come, told by what it has written and read: every byte read
    was written for that very read. */
module SessionInvariant {
  import opened Options
  import opened Crc32
  import opened Bursts
  import opened Decimal
  import opened WebSocket
  import opened FileTransfer
  import opened SessionModel

  // ---------- what the two programs say to each other ----------

  /** Everything the client sends. */
  function ClientScript(w: Setup): seq<Token> {
    Message(w.clientData) + (Message(w.context) + Message(ChecksumText(w.context)))
  }

  /** What the build prints. */
  function Printed(w: Setup): seq<bv8> {
    Concat(w.build.output) + w.build.lastOutput
  }

  /** Whether the build ends with a container to send. */
  predicate Succeeds(w: Setup) {
    w.build.buildable && w.build.exitCode == 0 && w.build.container.Some?
  }

  function ContainerPart(w: Setup): seq<Token> {
    if w.build.exitCode == 0 && w.build.container.Some?
    then Message(w.build.container.value) + Message(ChecksumText(w.build.container.value))
    else []
  }

  /** Everything a builder that could unpack the context sends. */
  function BuilderScript(w: Setup): seq<Token> {
    Message(Printed(w)) + (Message(SignedText(w.build.exitCode)) + ContainerPart(w))
  }

  function ClientWritten(w: Setup, stage: ClientStage): seq<Token> {
    match stage
    case SendData => []
    case SendContext(done, _) =>
      Message(w.clientData) + Bytes(if done <= |w.context| then w.context[..done] else [])
    case SendContextSum(_) => Message(w.clientData) + Message(w.context)
    case _ => ClientScript(w)
  }

  function ClientUnwritten(w: Setup, stage: ClientStage): seq<Token> {
    match stage
    case SendData => ClientScript(w)
    case SendContext(done, _) =>
      Message(if done <= |w.context| then w.context[done..] else []) + Message(ChecksumText(w.context))
    case SendContextSum(_) => Message(ChecksumText(w.context))
    case _ => []
  }

  function BuilderRead(w: Setup, b: Builder): seq<Token> {
    match b.stage
    case ReadData => Bytes(b.data)
    case ReadContext(_) => Message(b.data) + Bytes(b.context)
    case ReadContextSum(_, text) => Message(b.data) + (Message(b.context) + Bytes(text))
    case CheckContext(_, text) => Message(b.data) + (Message(b.context) + Message(text))
    case _ => ClientScript(w)
  }

  function ContainerSoFar(w: Setup, done: nat): seq<bv8> {
    if w.build.container.Some? && done <= |w.build.container.value| then w.build.container.value[..done] else []
  }

  function BuilderWritten(w: Setup, stage: BuilderStage): seq<Token> {
    match stage
    case Stream(k) => Bytes(Concat(if k <= |w.build.output| then w.build.output[..k] else []))
    case SendExitCode => Message(Printed(w))
    case OpenContainer => Message(Printed(w)) + Message(SignedText(w.build.exitCode))
    case SendContainer(done, _) =>
      Message(Printed(w)) + (Message(SignedText(w.build.exitCode))
        + Bytes(ContainerSoFar(w, done)))
    case SendContainerSum(_) =>
      Message(Printed(w)) + (Message(SignedText(w.build.exitCode))
        + Message(if w.build.container.Some? then w.build.container.value else []))
    case BuilderDone => BuilderScript(w)
    case BuilderFailed => BuilderScript(w)
    case _ => []
  }

  function ClientRead(w: Setup, c: Client): seq<Token> {
    match c.stage
    case ReadOutput => Bytes(c.shown)
    case ReadExitCode(text) => Message(c.shown) + Bytes(text)
    case CheckExitCode(text) => Message(c.shown) + Message(text)
    case ReadContainer(_) => Message(c.shown) + (Message(ZERO_TEXT) + Bytes(c.file))
    case ReadContainerSum(_, text) => Message(c.shown) + (Message(ZERO_TEXT) + (Message(c.file) + Bytes(text)))
    case CheckContainer(_, text) => Message(c.shown) + (Message(ZERO_TEXT) + (Message(c.file) + Message(text)))
    case ClientDone => BuilderScript(w)
    case ClientFailed => BuilderScript(w)
    case _ => []
  }

  // ---------- the invariant ----------

  /** What is on the way up is what the client wrote and the builder has not read. */
  predicate UpAligned(w: Setup, s: Session) {
    ClientWritten(w, s.client.stage) == BuilderRead(w, s.builder) + s.up
  }

  /** The same on the way down; a builder that cannot build never says anything. */
  predicate DownAligned(w: Setup, s: Session) {
    if w.build.buildable then BuilderWritten(w, s.builder.stage) == ClientRead(w, s.client) + s.down
    else s.down == []
  }

  predicate ClientSane(w: Setup, c: Client) {
    match c.stage
    case SendData => c.file == [] && c.shown == []
    case SendContext(done, crc) =>
      c.file == [] && c.shown == [] && done <= |w.context| && crc == Process(START, w.context[..done])
    case SendContextSum(crc) => c.file == [] && c.shown == [] && crc == Process(START, w.context)
    case ReadOutput => c.file == [] && (!w.build.buildable ==> c.shown == [])
    case ReadExitCode(text) => c.file == [] && (!w.build.buildable ==> c.shown == [] && text == [])
    case CheckExitCode(_) => c.file == [] && w.build.buildable
    case ReadContainer(crc) =>
      w.build.buildable && w.build.exitCode == 0 && c.shown == Printed(w) && crc == Process(START, c.file)
    case ReadContainerSum(crc, _) =>
      w.build.buildable && w.build.exitCode == 0 && c.shown == Printed(w) && crc == Process(START, c.file)
    case CheckContainer(crc, _) =>
      w.build.buildable && w.build.exitCode == 0 && c.shown == Printed(w) && crc == Process(START, c.file)
    case ClientDone => Succeeds(w) && c.shown == Printed(w) && c.file == w.build.container.value
    case ClientFailed => !Succeeds(w) && c.file == [] && c.shown == if w.build.buildable then Printed(w) else []
  }

  predicate HasContext(w: Setup, b: Builder) {
    b.data == w.clientData && b.context == w.context
  }

  predicate BuilderSane(w: Setup, b: Builder) {
    match b.stage
    case ReadData => b.context == []
    case ReadContext(crc) => crc == Process(START, b.context)
    case ReadContextSum(crc, _) => crc == Process(START, b.context)
    case CheckContext(crc, _) => crc == Process(START, b.context)
    case Unpack => HasContext(w, b)
    case Stream(k) => HasContext(w, b) && w.build.buildable && k <= |w.build.output|
    case SendExitCode => HasContext(w, b) && w.build.buildable
    case OpenContainer => HasContext(w, b) && w.build.buildable && w.build.exitCode == 0
    case SendContainer(done, crc) =>
      && HasContext(w, b) && Succeeds(w) && done <= |w.build.container.value|
      && crc == Process(START, w.build.container.value[..done])
    case SendContainerSum(crc) => HasContext(w, b) && Succeeds(w) && crc == Process(START, w.build.container.value)
    case BuilderDone => HasContext(w, b) && Succeeds(w)
    case BuilderFailed => HasContext(w, b) && !Succeeds(w)
  }

  predicate Aligned(w: Setup, s: Session) {
    UpAligned(w, s) && DownAligned(w, s) && ClientSane(w, s.client) && BuilderSane(w, s.builder)
  }

  // ---------- tokens ----------

  /** Adding bytes at the end of what has been said. */
  lemma SayMore(said: seq<Token>, a: seq<bv8>, b: seq<bv8>)
    ensures said + Bytes(a + b) == said + Bytes(a) + Bytes(b)
    ensures said + Message(a + b) == said + Bytes(a) + Message(b)
  {
  }

  /** Two messages in front, and the rest, are recognised in one way only. */
  lemma TwoMessagesUnique(a: seq<bv8>, b: seq<bv8>, x: seq<Token>, c: seq<bv8>, d: seq<bv8>, y: seq<Token>)
    requires Message(a) + (Message(b) + x) == Message(c) + (Message(d) + y)
    ensures a == c && b == d && x == y
  {
    FirstMessageUnique(a, Message(b) + x, c, Message(d) + y);
    FirstMessageUnique(b, x, d, y);
  }

  lemma ClientScriptSplit(w: Setup, stage: ClientStage)
    requires stage.SendContext? ==> stage.done <= |w.context|
    ensures ClientWritten(w, stage) + ClientUnwritten(w, stage) == ClientScript(w)
  {
    hide Text, Unsigned, Checksum;
    match stage
    case SendContext(done, _) =>
      assert w.context == w.context[..done] + w.context[done..];
      BytesConcat(w.context[..done], w.context[done..]);
    case _ =>
  }
}
