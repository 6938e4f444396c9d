/** Every move of either side keeps a session aligned. */
module SessionSafety {
  import opened Options
  import opened Crc32
  import opened Bursts
  import opened Decimal
  import opened WebSocket
  import opened FileTransfer
  import opened SessionModel
  import opened SessionInvariant

  // ---------- the client ----------

  lemma ClientChunkAligned(w: Setup, s: Session, n: nat, fin: bool)
    requires Aligned(w, s) && ClientEnabled(s, n, fin) && s.client.stage.SendContext?
    ensures Aligned(w, ClientStep(w, s, n, fin))
  {
    hide Text, Unsigned, Process, BuilderWritten, BuilderRead, BuilderSane, BuilderScript, ClientScript, Checksum;
    hide Message, Bytes, FrameTokens, NextChunk;
    var done := s.client.stage.done;
    var chunk := NextChunk(w.context, done);
    NextChunkFollows(w.context, done);
    ProcessConcat(START, w.context[..done], chunk);
    ContextChunk(Message(w.clientData), w.context[..done], chunk);
    UpGrows(w, s, FrameTokens(Frame(done + |chunk| == |w.context|, chunk)));
  }

  lemma NextChunkFollows(file: seq<bv8>, done: nat)
    requires done <= |file|
    ensures var chunk := NextChunk(file, done);
      && done + |chunk| <= |file|
      && file[..done + |chunk|] == file[..done] + chunk
      && file[..|file|] == file
  {
  }

  /** What the client has said after one more fragment of the context. */
  lemma ContextChunk(said: seq<Token>, sent: seq<bv8>, chunk: seq<bv8>)
    ensures said + Bytes(sent) + FrameTokens(Frame(false, chunk)) == said + Bytes(sent + chunk)
    ensures said + Bytes(sent) + FrameTokens(Frame(true, chunk)) == said + Message(sent + chunk)
  {
  }

  lemma ClientWriteAligned(w: Setup, s: Session, n: nat, fin: bool)
    requires Aligned(w, s) && ClientEnabled(s, n, fin)
    requires s.client.stage.SendData? || s.client.stage.SendContextSum?
    ensures Aligned(w, ClientStep(w, s, n, fin))
  {
    hide Text, Unsigned, Checksum, Process, Xor, BuilderWritten, BuilderRead, BuilderSane;
    match s.client.stage
    case SendData =>
      assert w.context[..0] == [];
      NothingProcessed(START);
      assert Bytes([]) == [];
    case SendContextSum(crc) =>
      SumOfWhole(w.context);
      assert ClientScript(w) == Message(w.clientData) + Message(w.context) + Message(ChecksumText(w.context));
      UpGrows(w, s, Message(ChecksumText(w.context)));
  }

  lemma UpGrows(w: Setup, s: Session, more: seq<Token>)
    requires UpAligned(w, s)
    ensures ClientWritten(w, s.client.stage) + more == BuilderRead(w, s.builder) + (s.up + more)
  {
  }

  lemma SumOfWhole(file: seq<bv8>)
    ensures SumText(Process(START, file)) == ChecksumText(file)
  {
  }

  /** A piece read goes from the channel to what has been read. */
  lemma PieceMoves(read: seq<Token>, channel: seq<Token>, n: nat, fin: bool)
    requires Readable(channel, n, fin)
    ensures read + channel == read + FrameTokens(Frame(fin, Got(channel, n))) + Unread(channel, n, fin)
  {
  }

  /** What the client has read after a piece of its current message. */
  lemma ClientReadGrows(w: Setup, s: Session, data: seq<bv8>, fin: bool)
    requires ClientReads(s.client.stage)
    ensures ClientRead(w, ClientReceives(s, data, fin).client)
         == ClientRead(w, s.client) + FrameTokens(Frame(fin, data))
  {
    hide Text, Unsigned, Process;
    var c := s.client;
    match c.stage
    case ReadOutput => OutputPiece(c.shown, data);
    case ReadExitCode(text) => SayMore(Message(c.shown), text, data);
    case ReadContainer(_) => ContainerPiece(c.shown, c.file, data);
    case ReadContainerSum(_, text) => SumPiece(c.shown, c.file, text, data);
  }

  lemma ClientStaysSane(w: Setup, s: Session, data: seq<bv8>, fin: bool)
    requires ClientSane(w, s.client) && ClientReads(s.client.stage) && w.build.buildable
    ensures ClientSane(w, ClientReceives(s, data, fin).client)
  {
    hide Process, Printed;
    if s.client.stage.ReadContainer? {
      ProcessConcat(START, s.client.file, data);
    }
  }

  lemma ClientReadAligned(w: Setup, s: Session, n: nat, fin: bool)
    requires Aligned(w, s) && ClientEnabled(s, n, fin) && ClientReads(s.client.stage) && s.down != []
    ensures Aligned(w, ClientStep(w, s, n, fin))
  {
    hide Process, ClientRead, ClientSane, BuilderWritten, BuilderRead, BuilderSane;
    var data := Got(s.down, n);
    var r := s.(down := Unread(s.down, n, fin));
    PieceMoves(ClientRead(w, s.client), s.down, n, fin);
    ClientReadGrows(w, r, data, fin);
    ClientStaysSane(w, r, data, fin);
  }

  lemma OutputPiece(shown: seq<bv8>, data: seq<bv8>)
    ensures Bytes(shown) + Bytes(data) == Bytes(shown + data)
    ensures Bytes(shown) + Message(data) == Message(shown + data) + Bytes([])
  {
  }

  lemma ContainerPiece(shown: seq<bv8>, file: seq<bv8>, data: seq<bv8>)
    ensures var said := Message(shown) + (Message(ZERO_TEXT) + Bytes(file));
      && said + Bytes(data) == Message(shown) + (Message(ZERO_TEXT) + Bytes(file + data))
      && said + Message(data) == Message(shown) + (Message(ZERO_TEXT) + (Message(file + data) + Bytes([])))
  {
  }

  lemma SumPiece(shown: seq<bv8>, file: seq<bv8>, text: seq<bv8>, data: seq<bv8>)
    ensures var said := Message(shown) + (Message(ZERO_TEXT) + (Message(file) + Bytes(text)));
      && said + Bytes(data) == Message(shown) + (Message(ZERO_TEXT) + (Message(file) + Bytes(text + data)))
      && said + Message(data) == Message(shown) + (Message(ZERO_TEXT) + (Message(file) + Message(text + data)))
  {
  }

  /** What the builder says after the exit code. */
  function AfterExitCode(w: Setup, stage: BuilderStage): seq<Token> {
    match stage
    case SendContainer(done, _) => Bytes(ContainerSoFar(w, done))
    case SendContainerSum(_) => Message(if w.build.container.Some? then w.build.container.value else [])
    case BuilderDone => ContainerPart(w)
    case BuilderFailed => ContainerPart(w)
    case _ => []
  }

  /** A builder that has sent two messages has sent the output and the exit code. */
  lemma TwoMessagesSent(w: Setup, stage: BuilderStage)
    requires Ends(BuilderWritten(w, stage)) >= 2
    ensures BuilderWritten(w, stage)
         == Message(Printed(w)) + (Message(SignedText(w.build.exitCode)) + AfterExitCode(w, stage))
  {
    hide Text, Unsigned, Checksum;
    match stage
    case Stream(k) => EndsOfBytes(Concat(if k <= |w.build.output| then w.build.output[..k] else []));
    case SendExitCode => EndsOfBytes(Printed(w));
    case OpenContainer =>
    case SendContainer(_, _) =>
    case SendContainerSum(_) =>
    case BuilderDone =>
    case BuilderFailed =>
    case _ =>
  }

  lemma TwoEnds(a: seq<bv8>, b: seq<bv8>, more: seq<Token>)
    ensures Ends(Message(a) + Message(b) + more) == 2 + Ends(more)
  {
    hide Ends;
    EndsOfBytes(a);
    EndsOfBytes(b);
    EndsConcat(Message(a), Message(b));
    EndsConcat(Message(a) + Message(b), more);
  }

  lemma ExitCodeArrived(w: Setup, s: Session, text: seq<bv8>)
    requires Aligned(w, s) && s.client.stage == CheckExitCode(text)
    ensures s.client.shown == Printed(w) && text == SignedText(w.build.exitCode)
    ensures AfterExitCode(w, s.builder.stage) == s.down
  {
    hide Text, Unsigned, Checksum, Process, BuilderRead, BuilderWritten, ContainerPart, AfterExitCode, Ends;
    hide Message, Printed, SignedText, UpAligned, BuilderSane;
    var shown := s.client.shown;
    TwoEnds(shown, text, s.down);
    TwoMessagesSent(w, s.builder.stage);
    assert Message(shown) + Message(text) + s.down == Message(shown) + (Message(text) + s.down);
    TwoMessagesUnique(Printed(w), SignedText(w.build.exitCode), AfterExitCode(w, s.builder.stage), shown, text, s.down);
  }

  lemma CheckExitCodeAligned(w: Setup, s: Session, n: nat, fin: bool)
    requires Aligned(w, s) && ClientEnabled(s, n, fin) && s.client.stage.CheckExitCode?
    ensures Aligned(w, ClientStep(w, s, n, fin))
  {
    hide Unsigned, Checksum, Process, Xor, BuilderRead;
    ExitCodeArrived(w, s, s.client.stage.text);
    ZeroTextMeansZero(w.build.exitCode);
    NothingProcessed(START);
    assert Bytes([]) == [];
    assert Message(ZERO_TEXT) + [] == Message(ZERO_TEXT);
    assert Message(SignedText(w.build.exitCode)) + [] == Message(SignedText(w.build.exitCode));
  }

  /** A builder that has sent four messages is done, and the last two were the container's. */
  lemma FourMessagesSent(w: Setup, b: Builder)
    requires Ends(BuilderWritten(w, b.stage)) >= 3 && BuilderSane(w, b) && w.build.buildable
    ensures Succeeds(w) && (b.stage.BuilderDone? || b.stage.SendContainerSum?)
    ensures Ends(BuilderWritten(w, b.stage)) >= 4 ==> b.stage.BuilderDone?
  {
    hide Text, Unsigned, Checksum, Process;
    TwoMessagesSent(w, b.stage);
    EndsOfBytes(Printed(w));
    EndsOfBytes(SignedText(w.build.exitCode));
    EndsConcat(Message(Printed(w)), Message(SignedText(w.build.exitCode)) + AfterExitCode(w, b.stage));
    EndsConcat(Message(SignedText(w.build.exitCode)), AfterExitCode(w, b.stage));
    match b.stage
    case SendContainer(done, _) => EndsOfBytes(w.build.container.value[..done]);
    case SendContainerSum(_) => EndsOfBytes(w.build.container.value);
    case BuilderDone =>
    case _ =>
  }

  lemma Regroup(a: seq<Token>, b: seq<Token>, c: seq<Token>, d: seq<Token>, more: seq<Token>)
    ensures a + (b + (c + d)) + more == a + (b + (c + (d + more)))
    ensures a + (b + (c + d)) + more == a + b + (c + d + more)
  {
  }

  lemma ContainerArrived(w: Setup, s: Session, crc: bv32, text: seq<bv8>)
    requires Aligned(w, s) && s.client.stage == CheckContainer(crc, text)
    ensures Succeeds(w) && s.client.file == w.build.container.value && text == ChecksumText(w.build.container.value)
    ensures s.builder.stage.BuilderDone? && s.down == []
  {
    hide Text, Unsigned, Checksum, Process, BuilderRead, Ends, BuilderSane, Printed;
    var c := s.client;
    var tail := Message(c.file) + Message(text) + s.down;
    Regroup(Message(c.shown), Message(ZERO_TEXT), Message(c.file), Message(text), s.down);
    TwoEnds(c.shown, ZERO_TEXT, tail);
    TwoEnds(c.file, text, s.down);
    FourMessagesSent(w, s.builder);
    TwoMessagesUnique(Printed(w), SignedText(w.build.exitCode), ContainerPart(w),
                      c.shown, ZERO_TEXT, Message(c.file) + (Message(text) + s.down));
    assert ContainerPart(w) == Message(w.build.container.value) + (Message(ChecksumText(w.build.container.value)) + []);
    TwoMessagesUnique(w.build.container.value, ChecksumText(w.build.container.value), [], c.file, text, s.down);
  }

  lemma CheckContainerAligned(w: Setup, s: Session, n: nat, fin: bool)
    requires Aligned(w, s) && ClientEnabled(s, n, fin) && s.client.stage.CheckContainer?
    ensures Aligned(w, ClientStep(w, s, n, fin)) && ClientStep(w, s, n, fin).client.stage.ClientDone?
  {
    hide Text, Unsigned, Checksum, Process, Xor, BuilderRead;
    ContainerArrived(w, s, s.client.stage.crc, s.client.stage.text);
    SumOfWhole(w.build.container.value);
    assert BuilderScript(w) + [] == BuilderScript(w);
  }

  /** A reading client and an ended builder with nothing in between can only mean that the builder
      had no container, and said all it had to say. */
  lemma OnlyWithoutContainer(w: Setup, s: Session)
    requires Aligned(w, s) && ClientReads(s.client.stage) && s.down == []
    requires BuilderEnded(s.builder.stage) && w.build.buildable
    ensures s.client.stage.ReadContainer? && !Succeeds(w) && s.client.file == []
  {
    hide Text, Unsigned, Checksum, Process, BuilderRead, BuilderWritten, Ends, BuilderScript, Printed;
    var c := s.client;
    assert ClientRead(w, c) + [] == ClientRead(w, c);
    EndedBuilderSaid(w, s.builder);
    match c.stage
    case ReadOutput => EndsOfBytes(c.shown);
    case ReadExitCode(text) =>
      EndsOfBytes(c.shown);
      EndsOfBytes(text);
      EndsConcat(Message(c.shown), Bytes(text));
    case ReadContainer(_) => NoFile(w, c);
    case ReadContainerSum(_, text) => ThreeEnds(c.shown, c.file, text);
  }

  lemma ThreeEnds(shown: seq<bv8>, file: seq<bv8>, text: seq<bv8>)
    ensures Ends(Message(shown) + (Message(ZERO_TEXT) + (Message(file) + Bytes(text)))) == 3
  {
    hide Ends;
    EndsOfBytes(shown);
    EndsOfBytes(ZERO_TEXT);
    EndsOfBytes(file);
    EndsOfBytes(text);
    EndsConcat(Message(file), Bytes(text));
    EndsConcat(Message(ZERO_TEXT), Message(file) + Bytes(text));
    EndsConcat(Message(shown), Message(ZERO_TEXT) + (Message(file) + Bytes(text)));
  }

  lemma NoFile(w: Setup, c: Client)
    requires BuilderScript(w) == Message(c.shown) + (Message(ZERO_TEXT) + Bytes(c.file))
    requires Ends(BuilderScript(w)) == (if Succeeds(w) then 4 else 2) && (!Succeeds(w) ==> ContainerPart(w) == [])
    ensures !Succeeds(w) && c.file == []
  {
    hide Text, Unsigned, Checksum, Ends, Printed;
    EndsOfBytes(c.shown);
    EndsOfBytes(ZERO_TEXT);
    EndsOfBytes(c.file);
    EndsConcat(Message(ZERO_TEXT), Bytes(c.file));
    EndsConcat(Message(c.shown), Message(ZERO_TEXT) + Bytes(c.file));
    TwoMessagesUnique(Printed(w), SignedText(w.build.exitCode), ContainerPart(w), c.shown, ZERO_TEXT, Bytes(c.file));
  }

  lemma ClientLosesBuilderAligned(w: Setup, s: Session, n: nat, fin: bool)
    requires Aligned(w, s) && ClientEnabled(s, n, fin) && ClientReads(s.client.stage) && s.down == []
    ensures Aligned(w, ClientStep(w, s, n, fin))
  {
    hide Text, Unsigned, Checksum, Process, BuilderRead, BuilderScript, Printed;
    if w.build.buildable {
      OnlyWithoutContainer(w, s);
      EndedBuilderSaid(w, s.builder);
      assert BuilderScript(w) + [] == BuilderScript(w);
    }
  }

  lemma EndedBuilderSaid(w: Setup, b: Builder)
    requires BuilderSane(w, b) && BuilderEnded(b.stage) && w.build.buildable
    ensures BuilderWritten(w, b.stage) == BuilderScript(w)
    ensures Ends(BuilderScript(w)) == if Succeeds(w) then 4 else 2
    ensures !Succeeds(w) ==> ContainerPart(w) == []
  {
    hide Text, Unsigned, Checksum, Process;
    EndsOfBytes(Printed(w));
    EndsOfBytes(SignedText(w.build.exitCode));
    EndsConcat(Message(Printed(w)), Message(SignedText(w.build.exitCode)) + ContainerPart(w));
    EndsConcat(Message(SignedText(w.build.exitCode)), ContainerPart(w));
    if Succeeds(w) {
      EndsOfBytes(w.build.container.value);
      EndsOfBytes(ChecksumText(w.build.container.value));
      EndsConcat(Message(w.build.container.value), Message(ChecksumText(w.build.container.value)));
    }
  }

  lemma ClientAligned(w: Setup, s: Session, n: nat, fin: bool)
    requires Aligned(w, s) && ClientEnabled(s, n, fin)
    ensures Aligned(w, ClientStep(w, s, n, fin))
  {
    hide Aligned, ClientStep;
    if ClientReads(s.client.stage) {
      if s.down == [] {
        ClientLosesBuilderAligned(w, s, n, fin);
      } else {
        ClientReadAligned(w, s, n, fin);
      }
    } else if s.client.stage.CheckExitCode? {
      CheckExitCodeAligned(w, s, n, fin);
    } else if s.client.stage.CheckContainer? {
      CheckContainerAligned(w, s, n, fin);
    } else if s.client.stage.SendContext? {
      ClientChunkAligned(w, s, n, fin);
    } else {
      ClientWriteAligned(w, s, n, fin);
    }
  }

  // ---------- the builder ----------

  lemma BuilderReadGrows(w: Setup, s: Session, data: seq<bv8>, fin: bool)
    requires BuilderReads(s.builder.stage) && BuilderSane(w, s.builder)
    ensures BuilderRead(w, BuilderReceives(s, data, fin).builder)
         == BuilderRead(w, s.builder) + FrameTokens(Frame(fin, data))
    ensures BuilderSane(w, BuilderReceives(s, data, fin).builder)
  {
    hide Text, Unsigned, Process;
    var b := s.builder;
    match b.stage
    case ReadData =>
      OutputPiece(b.data, data);
      NothingProcessed(START);
    case ReadContext(crc) =>
      ProcessConcat(START, b.context, data);
      ContextPiece(b.data, b.context, data);
    case ReadContextSum(_, text) => ContextSumPiece(b.data, b.context, text, data);
  }

  lemma BuilderReadAligned(w: Setup, s: Session, n: nat, fin: bool)
    requires Aligned(w, s) && BuilderEnabled(s, n, fin) && BuilderReads(s.builder.stage) && s.up != []
    ensures Aligned(w, BuilderStep(w, s, n, fin))
  {
    hide Process, ClientWritten, ClientRead, ClientSane, BuilderRead, BuilderSane, ClientScript;
    var r := s.(up := Unread(s.up, n, fin));
    PieceMoves(BuilderRead(w, s.builder), s.up, n, fin);
    BuilderReadGrows(w, r, Got(s.up, n), fin);
  }

  lemma ContextPiece(d: seq<bv8>, context: seq<bv8>, data: seq<bv8>)
    ensures var said := Message(d) + Bytes(context);
      && said + Bytes(data) == Message(d) + Bytes(context + data)
      && said + Message(data) == Message(d) + (Message(context + data) + Bytes([]))
  {
  }

  lemma ContextSumPiece(d: seq<bv8>, context: seq<bv8>, text: seq<bv8>, data: seq<bv8>)
    ensures var said := Message(d) + (Message(context) + Bytes(text));
      && said + Bytes(data) == Message(d) + (Message(context) + Bytes(text + data))
      && said + Message(data) == Message(d) + (Message(context) + Message(text + data))
  {
  }

  lemma ThreeAndTwo(a: seq<Token>, b: seq<Token>, c: seq<Token>, d: seq<Token>, e: seq<Token>)
    ensures a + (b + c) + d + e == a + (b + (c + (d + e)))
  {
  }

  /** When the builder has read three messages they are the client's three, and nothing is left. */
  lemma ContextArrived(w: Setup, s: Session, crc: bv32, text: seq<bv8>)
    requires Aligned(w, s) && s.builder.stage == CheckContext(crc, text)
    ensures HasContext(w, s.builder) && text == ChecksumText(w.context)
    ensures s.up == [] && ClientWritten(w, s.client.stage) == ClientScript(w)
  {
    hide Text, Unsigned, Checksum, Process, ClientRead, BuilderWritten, ClientWritten, ClientUnwritten, Message;
    hide DownAligned, BuilderSane;
    var b := s.builder;
    var left := ClientUnwritten(w, s.client.stage);
    ClientScriptSplit(w, s.client.stage);
    ThreeAndTwo(Message(b.data), Message(b.context), Message(text), s.up, left);
    TwoMessagesUnique(w.clientData, w.context, Message(ChecksumText(w.context)),
                      b.data, b.context, Message(text) + (s.up + left));
    assert Message(ChecksumText(w.context)) + [] == Message(ChecksumText(w.context));
    FirstMessageUnique(ChecksumText(w.context), [], text, s.up + left);
    assert s.up == [] && left == [];
    assert ClientWritten(w, s.client.stage) + [] == ClientWritten(w, s.client.stage);
  }

  lemma CheckContextAligned(w: Setup, s: Session, n: nat, fin: bool)
    requires Aligned(w, s) && BuilderEnabled(s, n, fin) && s.builder.stage.CheckContext?
    ensures Aligned(w, BuilderStep(w, s, n, fin))
  {
    hide Text, Unsigned, Checksum, Process, Xor, ClientRead, ClientWritten;
    ContextArrived(w, s, s.builder.stage.crc, s.builder.stage.text);
    SumOfWhole(w.context);
    assert ClientScript(w) + [] == ClientScript(w);
  }

  /** The client is never gone while the builder still reads: all it wrote would be unread. */
  lemma ClientStillThere(w: Setup, s: Session)
    requires Aligned(w, s) && BuilderReads(s.builder.stage) && s.up == []
    ensures !ClientEnded(s.client.stage) && !ClientReads(s.client.stage)
    ensures !s.client.stage.CheckExitCode? && !s.client.stage.CheckContainer?
  {
    hide Text, Unsigned, Checksum, Process, ClientRead, BuilderWritten, BuilderRead, ClientScript, Ends;
    assert BuilderRead(w, s.builder) + [] == BuilderRead(w, s.builder);
    FewMessagesRead(w, s.builder);
    ThreeMessages(w);
  }

  lemma FewMessagesRead(w: Setup, b: Builder)
    requires BuilderReads(b.stage)
    ensures Ends(BuilderRead(w, b)) < 3
  {
    hide Ends;
    EndsOfBytes(b.data);
    EndsOfBytes(b.context);
    match b.stage
    case ReadData =>
    case ReadContext(_) => EndsConcat(Message(b.data), Bytes(b.context));
    case ReadContextSum(_, text) =>
      EndsOfBytes(text);
      EndsConcat(Message(b.context), Bytes(text));
      EndsConcat(Message(b.data), Message(b.context) + Bytes(text));
  }

  lemma ThreeMessages(w: Setup)
    ensures Ends(ClientScript(w)) == 3
  {
    hide Text, Unsigned, Checksum;
    EndsOfBytes(w.clientData);
    EndsOfBytes(w.context);
    EndsOfBytes(ChecksumText(w.context));
    EndsConcat(Message(w.context), Message(ChecksumText(w.context)));
    EndsConcat(Message(w.clientData), Message(w.context) + Message(ChecksumText(w.context)));
  }

  lemma DownGrows(w: Setup, s: Session, more: seq<Token>)
    requires BuilderWritten(w, s.builder.stage) == ClientRead(w, s.client) + s.down
    ensures BuilderWritten(w, s.builder.stage) + more == ClientRead(w, s.client) + (s.down + more)
  {
  }

  lemma UnpackAligned(w: Setup, s: Session, n: nat, fin: bool)
    requires Aligned(w, s) && BuilderEnabled(s, n, fin) && s.builder.stage.Unpack?
    ensures Aligned(w, BuilderStep(w, s, n, fin))
  {
    hide Text, Unsigned, Checksum, Process, Xor, ClientRead, ClientWritten, ContainerPart, ClientSane, Printed;
    assert w.build.output[..0] == [];
    assert Bytes([]) == [];
  }

  lemma StreamAligned(w: Setup, s: Session, n: nat, fin: bool)
    requires Aligned(w, s) && BuilderEnabled(s, n, fin) && s.builder.stage.Stream?
    ensures Aligned(w, BuilderStep(w, s, n, fin))
  {
    hide Text, Unsigned, Checksum, Process, Xor, ClientRead, ClientWritten, BuilderScript, ContainerPart;
    hide ClientScript, ClientSane, Message, Printed, Concat, FrameTokens, Bytes;
    var k := s.builder.stage.chunks;
    StreamSaid(w, k);
    DownGrows(w, s, FrameTokens(OutputFrame(w, k)));
  }

  function OutputFrame(w: Setup, k: nat): Frame {
    if k < |w.build.output| then Frame(false, w.build.output[k]) else Frame(true, w.build.lastOutput)
  }

  /** One more fragment of the build output; the last ends the message. */
  lemma StreamSaid(w: Setup, k: nat)
    requires k <= |w.build.output|
    ensures Bytes(Concat(w.build.output[..k])) + FrameTokens(OutputFrame(w, k))
         == if k < |w.build.output| then Bytes(Concat(w.build.output[..k + 1])) else Message(Printed(w))
  {
    if k < |w.build.output| {
      assert w.build.output[..k + 1][..k] == w.build.output[..k];
      BytesConcat(Concat(w.build.output[..k]), w.build.output[k]);
    } else {
      assert w.build.output[..k] == w.build.output;
      BytesConcat(Concat(w.build.output), w.build.lastOutput);
    }
  }

  lemma ExitCodeAligned(w: Setup, s: Session, n: nat, fin: bool)
    requires Aligned(w, s) && BuilderEnabled(s, n, fin) && s.builder.stage.SendExitCode?
    ensures Aligned(w, BuilderStep(w, s, n, fin))
  {
    hide Text, Unsigned, Checksum, Process, Xor, ClientRead, ClientWritten, ClientSane, SignedText, Printed, Bytes;
    var said := Message(SignedText(w.build.exitCode));
    assert said + [] == said;
    DownGrows(w, s, said);
  }

  lemma OpenContainerAligned(w: Setup, s: Session, n: nat, fin: bool)
    requires Aligned(w, s) && BuilderEnabled(s, n, fin) && s.builder.stage.OpenContainer?
    ensures Aligned(w, BuilderStep(w, s, n, fin))
  {
    hide Text, Unsigned, Checksum, Process, Xor, ClientRead, ClientWritten, ClientSane, SignedText, Printed, Message;
    var said := Message(SignedText(w.build.exitCode));
    assert said + [] == said;
    NothingProcessed(START);
    assert Bytes([]) == [];
    if w.build.container.Some? {
      assert w.build.container.value[..0] == [];
    }
  }

  lemma ContainerChunkAligned(w: Setup, s: Session, n: nat, fin: bool)
    requires Aligned(w, s) && BuilderEnabled(s, n, fin) && s.builder.stage.SendContainer?
    ensures Aligned(w, BuilderStep(w, s, n, fin))
  {
    hide Text, Unsigned, Process, ClientRead, ClientWritten, ClientSane, Printed, ClientScript;
    var file, done := w.build.container.value, s.builder.stage.done;
    var chunk := NextChunk(file, done);
    NextChunkFollows(file, done);
    ProcessConcat(START, file[..done], chunk);
    FilePiece(Printed(w), SignedText(w.build.exitCode), file[..done], chunk);
    DownGrows(w, s, FrameTokens(Frame(done + |chunk| == |file|, chunk)));
  }

  lemma ContainerSumAligned(w: Setup, s: Session, n: nat, fin: bool)
    requires Aligned(w, s) && BuilderEnabled(s, n, fin) && s.builder.stage.SendContainerSum?
    ensures Aligned(w, BuilderStep(w, s, n, fin))
  {
    hide Text, Unsigned, Checksum, Process, Xor, ClientRead, ClientWritten, ClientSane, Printed, ClientScript;
    var file := w.build.container.value;
    SumOfWhole(file);
    Regroup(Message(Printed(w)), Message(SignedText(w.build.exitCode)), [], Message(file), Message(ChecksumText(file)));
    assert [] + Message(file) == Message(file);
    assert [] + (Message(file) + Message(ChecksumText(file))) == Message(file) + Message(ChecksumText(file));
    DownGrows(w, s, Message(ChecksumText(file)));
  }

  lemma FilePiece(printed: seq<bv8>, exit: seq<bv8>, sent: seq<bv8>, chunk: seq<bv8>)
    ensures var said := Message(printed) + (Message(exit) + Bytes(sent));
      && said + FrameTokens(Frame(false, chunk)) == Message(printed) + (Message(exit) + Bytes(sent + chunk))
      && said + FrameTokens(Frame(true, chunk)) == Message(printed) + (Message(exit) + Message(sent + chunk))
  {
    BytesConcat(sent, chunk);
  }

  lemma BuilderAligned(w: Setup, s: Session, n: nat, fin: bool)
    requires Aligned(w, s) && BuilderEnabled(s, n, fin)
    ensures Aligned(w, BuilderStep(w, s, n, fin))
  {
    hide Aligned, BuilderStep;
    if BuilderReads(s.builder.stage) {
      if s.up == [] {
        ClientStillThere(w, s);
      } else {
        BuilderReadAligned(w, s, n, fin);
      }
    } else if s.builder.stage.CheckContext? {
      CheckContextAligned(w, s, n, fin);
    } else if s.builder.stage.Unpack? {
      UnpackAligned(w, s, n, fin);
    } else if s.builder.stage.Stream? {
      StreamAligned(w, s, n, fin);
    } else if s.builder.stage.SendExitCode? {
      ExitCodeAligned(w, s, n, fin);
    } else if s.builder.stage.OpenContainer? {
      OpenContainerAligned(w, s, n, fin);
    } else if s.builder.stage.SendContainer? {
      ContainerChunkAligned(w, s, n, fin);
    } else {
      ContainerSumAligned(w, s, n, fin);
    }
  }

  // ---------- runs ----------

  lemma MoveAligned(w: Setup, s: Session, m: Move)
    requires Aligned(w, s) && Allowed(s, m)
    ensures Aligned(w, After(w, s, m))
  {
    hide Aligned, ClientStep, BuilderStep;
    match m
    case ClientMoves(n, fin) => ClientAligned(w, s, n, fin);
    case BuilderMoves(n, fin) => BuilderAligned(w, s, n, fin);
  }

  lemma {:induction false} ScheduleAligned(w: Setup, s: Session, ms: seq<Move>, t: Session)
    requires Aligned(w, s) && Schedule(w, s, ms, t)
    ensures Aligned(w, t)
    decreases |ms|
  {
    hide Aligned, After, Allowed;
    if ms != [] {
      MoveAligned(w, s, ms[0]);
      ScheduleAligned(w, After(w, s, ms[0]), ms[1..], t);
    }
  }

  /** Every session that begins afresh stays aligned, whatever the schedule. */
  lemma SessionAligned(w: Setup, ms: seq<Move>, t: Session)
    requires Schedule(w, BEGIN, ms, t)
    ensures Aligned(w, t)
  {
    assert Bytes([]) == [];
    assert Aligned(w, BEGIN);
    ScheduleAligned(w, BEGIN, ms, t);
  }
}
