/** What every session guarantees, in whatever order the two sides move and in whatever pieces
    their messages arrive. */
module SessionTheorems {
  import opened Options
  import opened Crc32
  import opened Decimal
  import opened WebSocket
  import opened FileTransfer
  import opened SessionModel
  import opened SessionInvariant
  import opened SessionSafety

  // ---------- outcomes ----------

  /** The client finishes with a byte-identical container exactly when the build succeeds: the
      builder can build, the exit code is 0 and there is a container. Otherwise it ends in failure
      with nothing written to the container path. Either way it has shown the whole build output
      of a builder that could build. */
  lemma ClientOutcome(w: Setup, ms: seq<Move>, t: Session)
    requires Schedule(w, BEGIN, ms, t) && ClientEnded(t.client.stage)
    ensures t.client.stage.ClientDone? <==> Succeeds(w)
    ensures t.client.file == if Succeeds(w) then w.build.container.value else []
    ensures t.client.shown == if w.build.buildable then Printed(w) else []
  {
    hide UpAligned, DownAligned, Printed, Schedule, Process;
    SessionAligned(w, ms, t);
  }

  lemma BuilderOutcome(w: Setup, ms: seq<Move>, t: Session)
    requires Schedule(w, BEGIN, ms, t) && BuilderEnded(t.builder.stage)
    ensures t.builder.stage.BuilderDone? <==> Succeeds(w)
    ensures t.builder.data == w.clientData && t.builder.context == w.context
  {
    hide UpAligned, DownAligned, Printed, Schedule, Process;
    SessionAligned(w, ms, t);
  }

  predicate InContainerTransfer(c: ClientStage, b: BuilderStage) {
    || c.ReadContainer? || c.ReadContainerSum? || c.CheckContainer? || c.ClientDone?
    || b.OpenContainer? || b.SendContainer? || b.SendContainerSum? || b.BuilderDone?
  }

  /** After a non-zero exit code neither side ever comes to the container transfer. */
  lemma NonZeroStopsBoth(w: Setup, ms: seq<Move>, t: Session)
    requires Schedule(w, BEGIN, ms, t) && w.build.exitCode != 0
    ensures !InContainerTransfer(t.client.stage, t.builder.stage) && t.client.file == []
  {
    hide UpAligned, DownAligned, Printed, Schedule, Process;
    SessionAligned(w, ms, t);
  }

  /** Checksums computed on the way never disagree when no byte is lost or changed. */
  lemma ChecksumsAgree(w: Setup, ms: seq<Move>, t: Session)
    requires Schedule(w, BEGIN, ms, t)
    ensures t.builder.stage.CheckContext? ==> t.builder.stage.text == SumText(t.builder.stage.crc)
    ensures t.client.stage.CheckContainer? ==> t.client.stage.text == SumText(t.client.stage.crc)
  {
    hide Text, Unsigned, Process, Xor;
    SessionAligned(w, ms, t);
    if t.builder.stage.CheckContext? {
      ContextArrived(w, t, t.builder.stage.crc, t.builder.stage.text);
      SumOfWhole(w.context);
    }
    if t.client.stage.CheckContainer? {
      ContainerArrived(w, t, t.client.stage.crc, t.client.stage.text);
      SumOfWhole(w.build.container.value);
    }
  }

  /** The branches that no faultless session takes: in any state at all, a checksum or an exit code
      that is not the expected text ends the side that reads it, which sends nothing; and a client
      whose builder is gone shows and writes nothing more, and fails, after reading the exit code in
      vain if it was still reading the build output. */
  lemma WrongTextsEndIt(w: Setup, s: Session, n: nat, fin: bool)
    ensures s.builder.stage.CheckContext? ==>
      BuilderStep(w, s, n, fin) == s.(builder := s.builder.(stage :=
        if s.builder.stage.text == SumText(s.builder.stage.crc) then Unpack else BuilderFailed))
    ensures s.client.stage.CheckContainer? ==>
      ClientStep(w, s, n, fin) == s.(client := s.client.(stage :=
        if s.client.stage.text == SumText(s.client.stage.crc) then ClientDone else ClientFailed))
    ensures s.client.stage.CheckExitCode? && s.client.stage.text != ZERO_TEXT ==>
      ClientStep(w, s, n, fin) == s.(client := s.client.(stage := ClientFailed))
    ensures ClientReads(s.client.stage) && s.down == [] && BuilderEnded(s.builder.stage) ==>
      ClientStep(w, s, n, fin) == s.(client := s.client.(stage :=
        if s.client.stage.ReadOutput? then ReadExitCode([]) else ClientFailed))
    ensures BuilderReads(s.builder.stage) && s.up == [] && ClientEnded(s.client.stage) ==>
      BuilderStep(w, s, n, fin) == s.(builder := s.builder.(stage := BuilderFailed))
  {
    hide Text, Unsigned, Process, Xor;
  }

  // ---------- every read gets what was meant for it ----------

  /** What a builder that could build still has to say. */
  lemma BuilderScriptSplit(w: Setup, b: Builder) returns (left: seq<Token>)
    requires BuilderSane(w, b) && w.build.buildable
    ensures BuilderWritten(w, b.stage) + left == BuilderScript(w)
  {
    hide Text, Unsigned, Checksum, Process, Printed, Message, SignedText;
    match b.stage
    case Stream(k) => left := StreamLeft(w, k);
    case SendExitCode => left := Message(SignedText(w.build.exitCode)) + ContainerPart(w);
    case OpenContainer => left := ContainerPart(w);
    case SendContainer(done, _) => left := ContainerLeft(w, done);
    case SendContainerSum(_) => left := Message(ChecksumText(w.build.container.value));
    case BuilderDone => left := [];
    case BuilderFailed => left := [];
    case _ => left := BuilderScript(w);
  }

  lemma ContainerLeft(w: Setup, done: nat) returns (left: seq<Token>)
    requires Succeeds(w) && done <= |w.build.container.value|
    ensures var sent := w.build.container.value[..done];
      Message(Printed(w)) + (Message(SignedText(w.build.exitCode)) + Bytes(sent)) + left == BuilderScript(w)
  {
    hide Text, Unsigned, Checksum, Printed, SignedText, Message;
    var file := w.build.container.value;
    left := Message(file[done..]) + Message(ChecksumText(file));
    assert file == file[..done] + file[done..];
    BytesConcat(file[..done], file[done..]);
  }

  lemma StreamLeft(w: Setup, k: nat) returns (left: seq<Token>)
    requires k <= |w.build.output|
    ensures Bytes(Concat(w.build.output[..k])) + left == BuilderScript(w)
  {
    hide Text, Unsigned, Checksum;
    var rest := ConcatTail(w.build.output, k);
    var said := Concat(w.build.output[..k]);
    assert Printed(w) == said + (rest + w.build.lastOutput);
    BytesConcat(said, rest + w.build.lastOutput);
    left := Message(rest + w.build.lastOutput) + (Message(SignedText(w.build.exitCode)) + ContainerPart(w));
  }

  lemma {:induction false} ConcatTail(chunks: seq<seq<bv8>>, k: nat) returns (rest: seq<bv8>)
    requires k <= |chunks|
    ensures Concat(chunks) == Concat(chunks[..k]) + rest
  {
    if k == |chunks| {
      rest := [];
      assert chunks[..k] == chunks;
    } else {
      var front := ConcatTail(chunks[..|chunks| - 1], k);
      rest := front + chunks[|chunks| - 1];
      assert chunks[..|chunks| - 1][..k] == chunks[..k];
    }
  }

  /** One complete message and part of a second, against what was said. */
  lemma PartOfSecond(a: seq<bv8>, b: seq<bv8>, x: seq<Token>, c: seq<bv8>, d: seq<bv8>, y: seq<Token>)
    requires Message(a) + (Bytes(b) + x) == Message(c) + (Message(d) + y)
    ensures a == c && b <= d
  {
    FirstMessageUnique(a, Bytes(b) + x, c, Message(d) + y);
    NotYetEnded(b, x, d, y);
  }

  /** The builder reads the client data as client data and the context as context: at every moment
      what it has of each is the beginning of it, and all of it once it reads the next message. */
  lemma BuilderReadsItsMessages(w: Setup, ms: seq<Move>, t: Session)
    requires Schedule(w, BEGIN, ms, t)
    ensures t.builder.data <= w.clientData && t.builder.context <= w.context
    ensures !t.builder.stage.ReadData? ==> t.builder.data == w.clientData
    ensures !t.builder.stage.ReadData? && !t.builder.stage.ReadContext? ==> t.builder.context == w.context
  {
    hide Process, DownAligned, Schedule, BuilderRead, BuilderSane, ClientWritten, ClientUnwritten, ClientScript;
    SessionAligned(w, ms, t);
    var left := ClientUnwritten(w, t.client.stage);
    ClientScriptSplit(w, t.client.stage);
    Associative(BuilderRead(w, t.builder), t.up, left);
    BuilderPart(w, t.builder, t.up + left);
  }

  lemma BuilderPart(w: Setup, b: Builder, rest: seq<Token>)
    requires BuilderSane(w, b) && ClientScript(w) == BuilderRead(w, b) + rest
    ensures b.data <= w.clientData && b.context <= w.context
    ensures !b.stage.ReadData? ==> b.data == w.clientData
    ensures !b.stage.ReadData? && !b.stage.ReadContext? ==> b.context == w.context
  {
    hide Text, Unsigned, Checksum, Process, Message, Bytes;
    var sum := Message(ChecksumText(w.context));
    match b.stage
    case ReadData => NotYetEnded(b.data, rest, w.clientData, Message(w.context) + sum);
    case ReadContext(_) =>
      Associative(Message(b.data), Bytes(b.context), rest);
      PartOfSecond(b.data, b.context, rest, w.clientData, w.context, sum);
    case ReadContextSum(_, text) =>
      Nested(Message(b.data), Message(b.context), Bytes(text), rest);
      TwoMessagesUnique(b.data, b.context, Bytes(text) + rest, w.clientData, w.context, sum);
    case CheckContext(_, text) =>
      Nested(Message(b.data), Message(b.context), Message(text), rest);
      TwoMessagesUnique(b.data, b.context, Message(text) + rest, w.clientData, w.context, sum);
    case _ =>
  }

  lemma Nested(a: seq<Token>, b: seq<Token>, c: seq<Token>, d: seq<Token>)
    ensures a + (b + c) + d == a + (b + (c + d))
  {
  }

  /** The client shows nothing but the build output, in order, and writes nothing but the container
      to its file. */
  lemma ClientReadsItsMessages(w: Setup, ms: seq<Move>, t: Session)
    requires Schedule(w, BEGIN, ms, t)
    ensures t.client.shown <= Printed(w)
    ensures t.client.file == [] || (Succeeds(w) && t.client.file <= w.build.container.value)
  {
    hide Text, Unsigned, Checksum, Process, UpAligned, Schedule, BuilderScript, BuilderWritten, Printed;
    SessionAligned(w, ms, t);
    if w.build.buildable {
      var left := BuilderScriptSplit(w, t.builder);
      assert ClientRead(w, t.client) + t.down + left == ClientRead(w, t.client) + (t.down + left);
      ClientPart(w, t.client, t.down + left);
    }
  }

  lemma ClientPart(w: Setup, c: Client, rest: seq<Token>)
    requires ClientSane(w, c) && w.build.buildable && BuilderScript(w) == ClientRead(w, c) + rest
    ensures c.shown <= Printed(w)
    ensures c.file == [] || (Succeeds(w) && c.file <= w.build.container.value)
  {
    hide Text, Unsigned, Checksum, Process, Printed, BuilderScript, Succeeds;
    match c.stage
    case ReadOutput => OutputPart(w, c.shown, rest);
    case ReadExitCode(text) => OutputEnded(w, c.shown, Bytes(text), rest);
    case CheckExitCode(text) => OutputEnded(w, c.shown, Message(text), rest);
    case ReadContainer(_) => FilePart(w, c, [], rest);
    case ReadContainerSum(_, text) => FilePart(w, c, [End] + Bytes(text), rest) by { Regrouped(c, Bytes(text)); }
    case CheckContainer(_, text) => FilePart(w, c, [End] + Message(text), rest) by { Regrouped(c, Message(text)); }
    case _ =>
  }

  lemma Regrouped(c: Client, more: seq<Token>)
    ensures Message(c.shown) + (Message(ZERO_TEXT) + (Message(c.file) + more))
         == Message(c.shown) + (Message(ZERO_TEXT) + (Bytes(c.file) + ([End] + more)))
  {
  }

  lemma OutputPart(w: Setup, shown: seq<bv8>, rest: seq<Token>)
    requires BuilderScript(w) == Bytes(shown) + rest
    ensures shown <= Printed(w)
  {
    hide Text, Unsigned, Printed;
    NotYetEnded(shown, rest, Printed(w), Message(SignedText(w.build.exitCode)) + ContainerPart(w));
  }

  lemma OutputEnded(w: Setup, shown: seq<bv8>, next: seq<Token>, rest: seq<Token>)
    requires BuilderScript(w) == Message(shown) + next + rest
    ensures shown == Printed(w)
  {
    hide Text, Unsigned, Printed;
    assert BuilderScript(w) == Message(shown) + (next + rest);
    FirstMessageUnique(shown, next + rest, Printed(w), Message(SignedText(w.build.exitCode)) + ContainerPart(w));
  }

  /** Bytes read after the exit code belong to the container. */
  lemma FilePart(w: Setup, c: Client, next: seq<Token>, rest: seq<Token>)
    requires BuilderScript(w) == Message(c.shown) + (Message(ZERO_TEXT) + (Bytes(c.file) + next)) + rest
    requires w.build.buildable && w.build.exitCode == 0 && c.shown == Printed(w)
    ensures c.file == [] || (Succeeds(w) && c.file <= w.build.container.value)
  {
    hide Text, Unsigned, Checksum, Process, Printed;
    assert BuilderScript(w) == Message(c.shown) + (Message(ZERO_TEXT) + (Bytes(c.file) + (next + rest)));
    TwoMessagesUnique(Printed(w), SignedText(w.build.exitCode), ContainerPart(w),
                      c.shown, ZERO_TEXT, Bytes(c.file) + (next + rest));
    if Succeeds(w) {
      NotYetEnded(c.file, next + rest, w.build.container.value, Message(ChecksumText(w.build.container.value)));
    } else {
      assert |Bytes(c.file)| == 0;
    }
  }

  /** The stages that send a file put the same bytes on the wire as the transfer loop. */
  lemma SendsTransfers(w: Setup)
    ensures ClientScript(w) == Message(w.clientData) + Tokens(TransferFrames(w.context))
    ensures w.build.exitCode == 0 && w.build.container.Some? ==>
      ContainerPart(w) == Tokens(TransferFrames(w.build.container.value))
  {
    hide Text, Unsigned, Checksum;
    TransferTokens(w.context);
    if w.build.container.Some? {
      TransferTokens(w.build.container.value);
    }
  }

  // ---------- progress ----------

  /** Whatever is waiting in a channel can be read. */
  lemma SomethingReadable(channel: seq<Token>) returns (n: nat, fin: bool)
    requires channel != []
    ensures Readable(channel, n, fin) && n <= 1
  {
    if channel[0].End? {
      n, fin := 0, true;
    } else {
      n, fin := 1, false;
    }
  }

  /** Neither side deadlocks: until both have ended, some move is possible. */
  lemma NeverStuck(w: Setup, ms: seq<Move>, t: Session) returns (m: Move)
    requires Schedule(w, BEGIN, ms, t)
    requires !ClientEnded(t.client.stage) || !BuilderEnded(t.builder.stage)
    ensures Allowed(t, m)
  {
    hide Aligned, Schedule;
    SessionAligned(w, ms, t);
    m := ClientMoves(0, false);
    if BuilderReads(t.builder.stage) {
      if t.up == [] {
        ClientStillThere(w, t);
      } else {
        var n, fin := SomethingReadable(t.up);
        m := BuilderMoves(n, fin);
      }
    } else if !BuilderEnded(t.builder.stage) {
      m := BuilderMoves(0, false);
    } else if ClientReads(t.client.stage) && t.down != [] {
      var n, fin := SomethingReadable(t.down);
      m := ClientMoves(n, fin);
    }
  }

  function ClientRank(stage: ClientStage): nat {
    match stage
    case SendData => 10
    case SendContext(_, _) => 9
    case SendContextSum(_) => 8
    case ReadOutput => 7
    case ReadExitCode(_) => 6
    case CheckExitCode(_) => 5
    case ReadContainer(_) => 4
    case ReadContainerSum(_, _) => 3
    case CheckContainer(_, _) => 2
    case ClientDone => 0
    case ClientFailed => 0
  }

  function BuilderRank(w: Setup, stage: BuilderStage): nat {
    match stage
    case ReadData => |w.build.output| + 20
    case ReadContext(_) => |w.build.output| + 19
    case ReadContextSum(_, _) => |w.build.output| + 18
    case CheckContext(_, _) => |w.build.output| + 17
    case Unpack => |w.build.output| + 16
    case Stream(k) => if k <= |w.build.output| then |w.build.output| - k + 10 else 10
    case SendExitCode => 9
    case OpenContainer => 8
    case SendContainer(_, _) => 7
    case SendContainerSum(_) => 6
    case BuilderDone => 0
    case BuilderFailed => 0
  }

  /** Tokens still to be written count double, tokens on the way once. */
  function Remaining(w: Setup, s: Session): int {
    2 * (|ClientScript(w)| - |ClientWritten(w, s.client.stage)|) + |s.up|
    + 2 * (|BuilderScript(w)| - |BuilderWritten(w, s.builder.stage)|) + |s.down|
    + ClientRank(s.client.stage) + BuilderRank(w, s.builder.stage)
  }

  lemma UnreadShorter(channel: seq<Token>, n: nat, fin: bool)
    requires Readable(channel, n, fin)
    ensures |Unread(channel, n, fin)| < |channel|
  {
  }

  lemma ClientReadProgress(w: Setup, s: Session, n: nat, fin: bool)
    requires ClientEnabled(s, n, fin) && ClientReads(s.client.stage)
    ensures Remaining(w, ClientStep(w, s, n, fin)) < Remaining(w, s)
  {
    hide Text, Unsigned, Process, BuilderScript, BuilderWritten, ClientScript, Got;
    if s.down != [] {
      UnreadShorter(s.down, n, fin);
    }
  }

  lemma ClientProgress(w: Setup, s: Session, n: nat, fin: bool)
    requires Aligned(w, s) && ClientEnabled(s, n, fin)
    ensures Remaining(w, ClientStep(w, s, n, fin)) < Remaining(w, s)
  {
    hide Text, Unsigned, Checksum, Process, Xor, BuilderScript, BuilderWritten, UpAligned, DownAligned, BuilderSane;
    if ClientReads(s.client.stage) {
      ClientReadProgress(w, s, n, fin);
    } else if s.client.stage.SendContextSum? {
      SumOfWhole(w.context);
    }
  }

  lemma BuilderReadProgress(w: Setup, s: Session, n: nat, fin: bool)
    requires BuilderEnabled(s, n, fin) && BuilderReads(s.builder.stage) && s.up != []
    ensures Remaining(w, BuilderStep(w, s, n, fin)) < Remaining(w, s)
  {
    hide Text, Unsigned, Process, BuilderScript, ClientScript, Got;
    UnreadShorter(s.up, n, fin);
  }

  lemma StreamProgress(w: Setup, s: Session, n: nat, fin: bool)
    requires BuilderEnabled(s, n, fin) && s.builder.stage.Stream? && s.builder.stage.chunks <= |w.build.output|
    ensures Remaining(w, BuilderStep(w, s, n, fin)) < Remaining(w, s)
  {
    hide Text, Unsigned, Process, BuilderScript, ClientScript, ClientWritten;
    var k := s.builder.stage.chunks;
    if k < |w.build.output| {
      assert w.build.output[..k + 1][..k] == w.build.output[..k];
    } else {
      assert w.build.output[..k] == w.build.output;
    }
  }

  lemma BuilderProgress(w: Setup, s: Session, n: nat, fin: bool)
    requires Aligned(w, s) && BuilderEnabled(s, n, fin)
    ensures Remaining(w, BuilderStep(w, s, n, fin)) < Remaining(w, s)
  {
    hide Text, Unsigned, Checksum, Process, Xor, ClientScript, ClientWritten;
    hide UpAligned, DownAligned, ClientSane, Printed;
    if BuilderReads(s.builder.stage) {
      if s.up == [] {
        ClientStillThere(w, s);
      } else {
        BuilderReadProgress(w, s, n, fin);
      }
    } else if s.builder.stage.Stream? {
      StreamProgress(w, s, n, fin);
    } else if s.builder.stage.SendContainer? || s.builder.stage.SendContainerSum? {
      ContainerProgress(w, s, n, fin);
    }
  }

  lemma ContainerProgress(w: Setup, s: Session, n: nat, fin: bool)
    requires BuilderSane(w, s.builder) && BuilderEnabled(s, n, fin)
    requires s.builder.stage.SendContainer? || s.builder.stage.SendContainerSum?
    ensures Remaining(w, BuilderStep(w, s, n, fin)) < Remaining(w, s)
  {
    hide Text, Unsigned, Checksum, Process, Xor, ClientScript, ClientWritten, Printed;
    if s.builder.stage.SendContainerSum? {
      SumOfWhole(w.build.container.value);
    }
  }

  lemma {:induction false} ScheduleProgress(w: Setup, s: Session, ms: seq<Move>, t: Session)
    requires Aligned(w, s) && Schedule(w, s, ms, t)
    ensures |ms| + Remaining(w, t) <= Remaining(w, s)
    decreases |ms|
  {
    hide Aligned, After, Allowed, Remaining;
    if ms != [] {
      MoveAligned(w, s, ms[0]);
      MoveProgress(w, s, ms[0]);
      ScheduleProgress(w, After(w, s, ms[0]), ms[1..], t);
    }
  }

  lemma MoveProgress(w: Setup, s: Session, m: Move)
    requires Aligned(w, s) && Allowed(s, m)
    ensures Remaining(w, After(w, s, m)) < Remaining(w, s)
  {
    hide Aligned, ClientStep, BuilderStep, Remaining;
    match m
    case ClientMoves(n, fin) => ClientProgress(w, s, n, fin);
    case BuilderMoves(n, fin) => BuilderProgress(w, s, n, fin);
  }

  /** Nobody writes more than its script. */
  lemma WithinScripts(w: Setup, s: Session)
    requires Aligned(w, s)
    ensures |ClientWritten(w, s.client.stage)| <= |ClientScript(w)|
    ensures |BuilderWritten(w, s.builder.stage)| <= |BuilderScript(w)|
  {
    hide Text, Unsigned, Checksum, Process, UpAligned, DownAligned;
    if s.builder.stage.Stream? {
      ConcatShorter(w.build.output, s.builder.stage.chunks);
    }
  }

  lemma {:induction false} ConcatShorter(chunks: seq<seq<bv8>>, k: nat)
    requires k <= |chunks|
    ensures |Concat(chunks[..k])| <= |Concat(chunks)|
  {
    if k == |chunks| {
      assert chunks[..k] == chunks;
    } else {
      ConcatShorter(chunks[..|chunks| - 1], k);
      assert chunks[..|chunks| - 1][..k] == chunks[..k];
    }
  }

  /** Every session comes to an end: no schedule is longer than twice what the two sides have to
      say and the stages they go through, so with NeverStuck every session that keeps moving ends
      with both sides ended. */
  lemma EverySessionEnds(w: Setup, ms: seq<Move>, t: Session)
    requires Schedule(w, BEGIN, ms, t)
    ensures |ms| <= 2 * |ClientScript(w)| + 2 * |BuilderScript(w)| + |w.build.output| + 30
  {
    hide Aligned, Schedule, ClientScript, BuilderScript;
    BeginAligned(w);
    ScheduleProgress(w, BEGIN, ms, t);
    SessionAligned(w, ms, t);
    WithinScripts(w, t);
  }

  lemma BeginAligned(w: Setup)
    ensures Aligned(w, BEGIN)
  {
  }
}
