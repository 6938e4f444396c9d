/** The two programs of a build as they are written: the steps of each main in order, and the two
    halves of streaming a build. Each runs against the pieces in which everything it will ever
    receive arrives. */
module Programs {
  import opened Options
  import opened Crc32
  import opened Bursts
  import opened Decimal
  import opened WebSocket
  import opened FileTransfer
  import opened SessionModel
  import opened SessionInvariant

  const MAX_READ_BYTES: nat := 4096

  // ---------- the client ----------

  /** How reading the build output and the exit code ends. `Spinning` stands for a loop that turns
      for ever: the connection is gone, the message was never finished, and the ignored error
      changes neither. */
  datatype BuildStatus = BuildSucceeded | BuildFailed(exitCode: seq<bv8>) | BuilderGone | Spinning

  datatype ClientEnd = ContainerWritten | ContainerRefused | ContainerLost | NoContainer(status: BuildStatus)

  function ClientFrames(clientData: seq<bv8>, context: seq<bv8>): seq<Frame> {
    [Frame(true, clientData)] + TransferFrames(context)
  }

  /** What the client takes the build to have come to, and what it leaves unread. */
  function StatusOf(pieces: seq<Frame>): (BuildStatus, seq<Frame>) {
    match TakeMessage(pieces)
    case None => (if pieces == [] then BuilderGone else Spinning, [])
    case Some((_, rest)) =>
      match TakeMessage(rest)
      case None => (BuilderGone, [])
      case Some((text, rest')) => (if text == ZERO_TEXT then BuildSucceeded else BuildFailed(text), rest')
  }

  /** How the client ends, and what it has written to the container path. */
  function ClientEnds(pieces: seq<Frame>): (ClientEnd, seq<bv8>) {
    var (status, rest) := StatusOf(pieces);
    if status != BuildSucceeded then (NoContainer(status), [])
    else
      match Receive(rest).0
      case Received(file) => (ContainerWritten, file)
      case Mismatch(file) => (ContainerRefused, file)
      case Lost => (ContainerLost, Arriving(rest))
  }

  method StreamBuild(stream: Stream) returns (status: BuildStatus, shown: seq<bv8>)
    requires stream.messageDone
    modifies stream`incoming, stream`messageDone
    ensures status == StatusOf(old(stream.incoming)).0 && stream.incoming == StatusOf(old(stream.incoming)).1
    ensures shown == Arriving(old(stream.incoming))
  {
    hide TakeMessage, Arriving, Reading, Size;
    ghost var arriving := stream.incoming;
    var buffer := new bv8[MAX_READ_BYTES];
    shown := [];
    ReadingStarts(arriving);
    while true
      invariant Reading(arriving, shown, false, stream.incoming)
      invariant if stream.messageDone then stream.incoming == arriving && shown == [] else arriving != []
      decreases Size(stream.incoming)
    {
      ghost var before := stream.incoming;
      var bytesRead := stream.ReadSome(buffer);
      if bytesRead.Some? {
        ReadingGoesOn(arriving, shown, before, buffer[..bytesRead.value], stream.messageDone, stream.incoming);
        shown := shown + buffer[..bytesRead.value];
      } else {
        ReadingBreaksOff(arriving, shown);
      }
      if stream.messageDone {
        if bytesRead.Some? {
          ReadingEnds(arriving, shown, stream.incoming);
        }
        break;
      }
      if bytesRead.None? {
        return Spinning, shown;
      }
    }
    var exitCode := stream.Read();
    if exitCode.None? {
      return BuilderGone, shown;
    }
    status := if exitCode.value != ZERO_TEXT then BuildFailed(exitCode.value) else BuildSucceeded;
  }

  /** The client from its first write to the builder: `shown` is what it has printed of the build,
      `file` what it has written to the container path. */
  method RunClient(stream: Stream, clientData: seq<bv8>, context: seq<bv8>)
    returns (end: ClientEnd, shown: seq<bv8>, file: seq<bv8>)
    requires stream.messageDone
    modifies stream
    ensures stream.sent == old(stream.sent) + ClientFrames(clientData, context)
    ensures (end, file) == ClientEnds(old(stream.incoming))
    ensures shown == Arriving(old(stream.incoming))
  {
    hide Arriving, TakeMessage, TransferFrames, Text, Unsigned, Checksum, Receive, StatusOf;
    stream.Write(clientData);
    WriteFile(stream, context);
    var status;
    status, shown := StreamBuild(stream);
    if status != BuildSucceeded {
      return NoContainer(status), shown, [];
    }
    var transfer;
    transfer, file := ReadFile(stream);
    match transfer {
      case Received(_) => end := ContainerWritten;
      case Mismatch(_) => end := ContainerRefused;
      case Lost => end := ContainerLost;
    }
  }

  // ---------- the builder ----------

  datatype BuilderEnd = Delivered | Failed | ContextMissing | ContextRefused | NotBuildable | NoFile

  /** The build output: one fragment a read, the one at end-of-file final. */
  function OutputFrames(output: seq<seq<bv8>>): seq<Frame> {
    if output == [] then [] else OutputFrames(output[..|output| - 1]) + [Frame(false, output[|output| - 1])]
  }

  /** All a builder says about a build. */
  function BuildFrames(build: Build): seq<Frame> {
    OutputFrames(build.output) + [Frame(true, build.lastOutput)] + [Frame(true, SignedText(build.exitCode))]
    + if build.exitCode == 0 && build.container.Some? then TransferFrames(build.container.value) else []
  }

  /** How the builder ends, and what it has sent. */
  function BuilderEnds(pieces: seq<Frame>, build: Build): (BuilderEnd, seq<Frame>) {
    match TakeMessage(pieces)
    case None => (ContextMissing, [])
    case Some((_, rest)) =>
      match Receive(rest).0
      case Lost => (ContextMissing, [])
      case Mismatch(_) => (ContextRefused, [])
      case Received(_) =>
        if !build.buildable then (NotBuildable, [])
        else if build.exitCode != 0 then (Failed, BuildFrames(build))
        else (if build.container.None? then NoFile else Delivered, BuildFrames(build))
  }

  method StreamOutput(stream: Stream, build: Build) returns (ok: bool)
    modifies stream`sent
    ensures stream.sent == old(stream.sent) + OutputFrames(build.output) + [Frame(true, build.lastOutput)]
                           + [Frame(true, SignedText(build.exitCode))]
    ensures ok <==> build.exitCode == 0
  {
    for i := 0 to |build.output|
      invariant stream.sent == old(stream.sent) + OutputFrames(build.output[..i])
    {
      assert build.output[..i + 1][..i] == build.output[..i];
      stream.WriteSome(false, build.output[i]);
    }
    assert build.output[..|build.output|] == build.output;
    stream.WriteSome(true, build.lastOutput);
    stream.Write(SignedText(build.exitCode));
    ok := build.exitCode == 0;
  }

  /** The builder from its first read on: `context` is what it has written to the tarball. */
  method RunBuilder(stream: Stream, build: Build)
    returns (end: BuilderEnd, clientData: Option<seq<bv8>>, context: seq<bv8>)
    modifies stream
    ensures end == BuilderEnds(old(stream.incoming), build).0
    ensures stream.sent == old(stream.sent) + BuilderEnds(old(stream.incoming), build).1
    ensures match TakeMessage(old(stream.incoming))
            case None => clientData == None && context == []
            case Some((data, rest)) => clientData == Some(data) && context == Arriving(rest)
  {
    hide Arriving, TransferFrames, OutputFrames, Text, Unsigned, Checksum, SignedText, Receive;
    context := [];
    clientData := stream.Read();
    if clientData.None? {
      return ContextMissing, clientData, context;
    }
    var transfer;
    transfer, context := ReadFile(stream);
    if transfer.Lost? {
      return ContextMissing, clientData, context;
    }
    if transfer.Mismatch? {
      return ContextRefused, clientData, context;
    }
    if !build.buildable {
      return NotBuildable, clientData, context;
    }
    var ok := StreamOutput(stream, build);
    if !ok {
      return Failed, clientData, context;
    }
    if build.container.None? {
      return NoFile, clientData, context;
    }
    WriteFile(stream, build.container.value);
    end := Delivered;
  }

  // ---------- what goes over the wire ----------

  lemma {:induction false} OutputTokens(output: seq<seq<bv8>>)
    ensures Tokens(OutputFrames(output)) == Bytes(Concat(output))
  {
    if output == [] {
      assert Bytes([]) == [];
    } else {
      var front, last := output[..|output| - 1], Frame(false, output[|output| - 1]);
      OutputTokens(front);
      TokensConcat(OutputFrames(front), [last]);
      OneFrame(last);
      BytesConcat(Concat(front), last.data);
    }
  }

  lemma OneFrame(f: Frame)
    ensures Tokens([f]) == FrameTokens(f)
  {
  }

  lemma FinalFrame(data: seq<bv8>)
    ensures Tokens([Frame(true, data)]) == Message(data)
  {
  }

  /** The client puts exactly its script on the wire. */
  lemma ClientSaysItsScript(w: Setup)
    ensures Tokens(ClientFrames(w.clientData, w.context)) == ClientScript(w)
  {
    hide Text, Unsigned, Checksum;
    FinalFrame(w.clientData);
    TokensConcat([Frame(true, w.clientData)], TransferFrames(w.context));
    TransferTokens(w.context);
  }

  lemma OutputMessage(output: seq<seq<bv8>>, last: seq<bv8>)
    ensures Tokens(OutputFrames(output) + [Frame(true, last)]) == Message(Concat(output) + last)
  {
    hide Tokens, OutputFrames, Message, FrameTokens, Concat;
    OutputTokens(output);
    FinalFrame(last);
    TokensConcat(OutputFrames(output), [Frame(true, last)]);
    BytesConcat(Concat(output), last);
  }

  /** A builder that can build puts exactly its script on the wire. */
  lemma BuilderSaysItsScript(w: Setup)
    ensures Tokens(BuildFrames(w.build)) == BuilderScript(w)
  {
    hide Text, Unsigned, Checksum, Tokens, TransferFrames, OutputFrames, Message, SignedText, Concat;
    var b := w.build;
    var output := OutputFrames(b.output) + [Frame(true, b.lastOutput)];
    var exit := [Frame(true, SignedText(b.exitCode))];
    var files := if b.exitCode == 0 && b.container.Some? then TransferFrames(b.container.value) else [];
    OutputMessage(b.output, b.lastOutput);
    FinalFrame(SignedText(b.exitCode));
    TokensConcat(output, exit);
    TokensConcat(output + exit, files);
    ContainerFrames(w);
    assert Tokens(output) + Tokens(exit) + Tokens(files) == Tokens(output) + (Tokens(exit) + Tokens(files));
  }

  lemma ContainerFrames(w: Setup)
    ensures var b := w.build;
      ContainerPart(w) == Tokens(if b.exitCode == 0 && b.container.Some? then TransferFrames(b.container.value) else [])
  {
    hide Text, Unsigned, Checksum, TransferFrames;
    if w.build.container.Some? {
      TransferTokens(w.build.container.value);
    }
  }

  // ---------- whatever arrives ----------

  /** The builder, whatever arrives: unless three messages end it misses something; unless the third
      is the checksum text of the second it refuses; in neither case does it say anything. Otherwise
      the build alone decides how it ends and whether it speaks. */
  lemma BuilderDecides(pieces: seq<Frame>, build: Build)
    returns (data: seq<bv8>, context: seq<bv8>, text: seq<bv8>, more: seq<Token>)
    ensures var (end, said) := BuilderEnds(pieces, build);
      && (end.ContextMissing? <==> Ends(Tokens(pieces)) < 3)
      && (Ends(Tokens(pieces)) >= 3 ==>
            && Tokens(pieces) == Message(data) + (Message(context) + (Message(text) + more))
            && (end.ContextRefused? <==> text != ChecksumText(context))
            && (end.NotBuildable? <==> text == ChecksumText(context) && !build.buildable)
            && (end.Failed? <==> text == ChecksumText(context) && build.buildable && build.exitCode != 0)
            && (end.NoFile? <==> text == ChecksumText(context) && build.buildable && build.exitCode == 0
                                 && build.container.None?)
            && (end.Delivered? <==> text == ChecksumText(context) && build.buildable && build.exitCode == 0
                                    && build.container.Some?))
      && said == if end.Failed? || end.NoFile? || end.Delivered? then BuildFrames(build) else []
  {
    hide Text, Unsigned, Checksum, Ends, Arriving, BuildFrames, Receive;
    data, context, text, more := [], [], [], [];
    MessageTaken(pieces);
    if TakeMessage(pieces).Some? {
      var rest := TakeMessage(pieces).value.1;
      data, context, more := TakeMessage(pieces).value.0, Arriving(rest), Tokens(Receive(rest).1);
      text := ReceiveMeans(rest);
      EndsOfBytes(data);
      EndsConcat(Message(data), Tokens(rest));
    }
  }

  /** So the builder says nothing unless the client data, a context and that context's own checksum
      text are the first three messages to arrive. */
  lemma BuilderSpeaksOnlyIf(pieces: seq<Frame>, build: Build)
    returns (data: seq<bv8>, context: seq<bv8>, more: seq<Token>)
    requires BuilderEnds(pieces, build).1 != []
    ensures Tokens(pieces) == Message(data) + (Message(context) + (Message(ChecksumText(context)) + more))
    ensures build.buildable
  {
    hide BuilderEnds, BuildFrames, Checksum, Text, Unsigned, Message, Ends, Tokens;
    var text;
    data, context, text, more := BuilderDecides(pieces, build);
  }

  /** The client, whatever arrives: how many messages end, what the exit code says and whether the
      checksum matches decide how it ends; `file` is what it has written, a beginning of what came. */
  lemma ClientDecides(pieces: seq<Frame>)
    returns (shown: seq<bv8>, exit: seq<bv8>, more: seq<Token>, sum: seq<bv8>, left: seq<Token>)
    ensures var (end, file) := ClientEnds(pieces);
      && (end == NoContainer(Spinning) <==> pieces != [] && Ends(Tokens(pieces)) == 0)
      && (end == NoContainer(BuilderGone) <==> pieces == [] || Ends(Tokens(pieces)) == 1)
      && (Ends(Tokens(pieces)) >= 2 ==>
            && Tokens(pieces) == Message(shown) + (Message(exit) + more)
            && (end.NoContainer? ==> end == NoContainer(BuildFailed(exit)))
            && (end.NoContainer? <==> exit != ZERO_TEXT)
            && (end.ContainerLost? <==> exit == ZERO_TEXT && Ends(more) < 2)
            && (exit == ZERO_TEXT && Ends(more) >= 2 ==>
                  && more == Message(file) + (Message(sum) + left)
                  && (end.ContainerWritten? <==> sum == ChecksumText(file))
                  && (end.ContainerRefused? <==> sum != ChecksumText(file)))
            && (end.ContainerLost? ==> Bytes(file) <= more && (Ends(more) == 0 ==> more == Bytes(file))))
      && (end.NoContainer? ==> file == [])
  {
    hide Text, Unsigned, Checksum, Ends, Arriving, Receive;
    shown, exit, more, sum, left := [], [], [], [], [];
    MessageTaken(pieces);
    NothingEnds();
    if TakeMessage(pieces).Some? {
      var rest := TakeMessage(pieces).value.1;
      shown := TakeMessage(pieces).value.0;
      MessageTaken(rest);
      EndsOfBytes(shown);
      EndsConcat(Message(shown), Tokens(rest));
      if TakeMessage(rest).Some? {
        var rest' := TakeMessage(rest).value.1;
        exit, more, left := TakeMessage(rest).value.0, Tokens(rest'), Tokens(Receive(rest').1);
        EndsOfBytes(exit);
        EndsConcat(Message(exit), more);
        sum := ReceiveMeans(rest');
        ArrivingFirst(rest');
      }
    }
  }

  lemma NothingEnds()
    ensures Ends(Tokens([])) == 0
  {
  }

  // ---------- a build from end to end ----------

  /** What arrives has the bytes and the ends of what was sent, cut anew; of nothing, nothing. */
  predicate Delivers(sent: seq<Frame>, pieces: seq<Frame>) {
    Tokens(pieces) == Tokens(sent) && (sent == [] ==> pieces == [])
  }

  lemma {:induction false} TakesWhatArrives(pieces: seq<Frame>)
    ensures TakeMessage(pieces).Some? ==> TakeMessage(pieces).value.0 == Arriving(pieces)
    ensures TakeMessage(pieces).None? <==> End !in Tokens(pieces)
  {
    if pieces != [] {
      TakesWhatArrives(pieces[1..]);
    }
  }

  /** The client's loop turns for ever exactly when the connection breaks after some of the build
      output and before its end. */
  lemma {:induction false} SpinsWhenCutOff(pieces: seq<Frame>)
    ensures StatusOf(pieces).0.Spinning? <==> pieces != [] && End !in Tokens(pieces)
  {
    TakesWhatArrives(pieces);
  }

  /** Three of the client's messages, in any pieces, bring the builder to the build and nowhere else. */
  lemma BuilderHears(w: Setup, pieces: seq<Frame>)
    requires Delivers(ClientFrames(w.clientData, w.context), pieces)
    ensures TakeMessage(pieces).Some? && TakeMessage(pieces).value.0 == w.clientData
    ensures Receive(TakeMessage(pieces).value.1).0 == Received(w.context)
  {
    hide Text, Unsigned, Checksum, Receive, TransferFrames;
    var transfer := Tokens(TransferFrames(w.context));
    FinalFrame(w.clientData);
    TokensConcat([Frame(true, w.clientData)], TransferFrames(w.context));
    TakesWholeMessage(pieces, w.clientData, transfer);
    assert transfer + [] == transfer;
    RoundTrip(w.context, TakeMessage(pieces).value.1, []);
  }

  /** What a client makes of everything a builder says. */
  lemma ClientHears(w: Setup, pieces: seq<Frame>)
    requires Tokens(pieces) == BuilderScript(w)
    ensures Arriving(pieces) == Printed(w)
    ensures StatusOf(pieces).0
         == if w.build.exitCode == 0 then BuildSucceeded else BuildFailed(SignedText(w.build.exitCode))
    ensures Tokens(StatusOf(pieces).1) == ContainerPart(w)
  {
    hide Text, Unsigned, Checksum, Printed, ContainerPart, SignedText, Message;
    var exit := SignedText(w.build.exitCode);
    TakesWholeMessage(pieces, Printed(w), Message(exit) + ContainerPart(w));
    TakesWholeMessage(TakeMessage(pieces).value.1, exit, ContainerPart(w));
    TakesWhatArrives(pieces);
    ZeroTextMeansZero(w.build.exitCode);
  }

  lemma ContainerHeard(w: Setup, pieces: seq<Frame>)
    requires Tokens(pieces) == ContainerPart(w) && w.build.exitCode == 0
    ensures Receive(pieces).0 == if w.build.container.Some? then Received(w.build.container.value) else Lost
    ensures w.build.container.None? ==> Arriving(pieces) == []
  {
    hide Text, Unsigned, Checksum;
    if w.build.container.Some? {
      var file := w.build.container.value;
      TransferTokens(file);
      assert Tokens(TransferFrames(file)) + [] == Tokens(TransferFrames(file));
      RoundTrip(file, pieces, []);
    } else {
      TakesWhatArrives(pieces);
      NothingArrives(pieces);
    }
  }

  lemma {:induction false} NothingArrives(pieces: seq<Frame>)
    requires Tokens(pieces) == []
    ensures Arriving(pieces) == []
  {
    if pieces != [] {
      assert FrameTokens(pieces[0]) == [] && |Bytes(pieces[0].data)| == 0;
      NothingArrives(pieces[1..]);
    }
  }

  function ExpectedEnd(build: Build): ClientEnd {
    if !build.buildable then NoContainer(BuilderGone)
    else if build.exitCode != 0 then NoContainer(BuildFailed(SignedText(build.exitCode)))
    else if build.container.None? then ContainerLost
    else ContainerWritten
  }

  /** The client program run against the builder program, in whatever pieces either side's messages
      arrive: the builder gets the context, the client shows what the build printed and ends with a
      byte-identical container exactly when there is one, and nothing in its file otherwise. */
  lemma OneBuild(w: Setup, up: seq<Frame>, down: seq<Frame>)
    requires Delivers(ClientFrames(w.clientData, w.context), up)
    requires Delivers(BuilderEnds(up, w.build).1, down)
    ensures BuilderEnds(up, w.build).0.NotBuildable? <==> !w.build.buildable
    ensures BuilderEnds(up, w.build).0.Failed? <==> w.build.buildable && w.build.exitCode != 0
    ensures BuilderEnds(up, w.build).0.NoFile? <==>
      w.build.buildable && w.build.exitCode == 0 && w.build.container.None?
    ensures BuilderEnds(up, w.build).0.Delivered? <==> Succeeds(w)
    ensures ClientEnds(down).0 == ExpectedEnd(w.build)
    ensures ClientEnds(down).0.ContainerWritten? <==> Succeeds(w)
    ensures ClientEnds(down).1 == if Succeeds(w) then w.build.container.value else []
    ensures Arriving(down) == if w.build.buildable then Printed(w) else []
  {
    hide Text, Unsigned, Checksum, Receive, BuildFrames, BuilderScript, Printed, ContainerPart, SignedText;
    BuilderHears(w, up);
    if w.build.buildable {
      BuilderSaysItsScript(w);
      ClientHears(w, down);
      if w.build.exitCode == 0 {
        ContainerHeard(w, StatusOf(down).1);
      }
    }
  }

  /** A context changed on the way within four consecutive bytes never reaches the build, and the
      builder says nothing. */
  lemma CorruptContextRefused(w: Setup, arrived: seq<bv8>, k: nat, pieces: seq<Frame>)
    requires DifferOnlyWithin(w.context, arrived, k, 4) && w.context != arrived
    requires Tokens(pieces) == Message(w.clientData) + (Message(arrived) + Message(ChecksumText(w.context)))
    ensures BuilderEnds(pieces, w.build) == (ContextRefused, [])
  {
    hide Text, Unsigned, Checksum, Receive, Message, DifferOnlyWithin, BuildFrames;
    var transfer := Message(arrived) + Message(ChecksumText(w.context));
    TakesWholeMessage(pieces, w.clientData, transfer);
    assert transfer + [] == transfer;
    CorruptionRefused(w.context, arrived, k, TakeMessage(pieces).value.1, []);
  }

  /** A container changed on the way within four consecutive bytes is never accepted. */
  lemma CorruptContainerRefused(w: Setup, arrived: seq<bv8>, k: nat, pieces: seq<Frame>)
    requires Succeeds(w) && w.build.container.value != arrived
    requires DifferOnlyWithin(w.build.container.value, arrived, k, 4)
    requires var transfer := Message(arrived) + Message(ChecksumText(w.build.container.value));
      Tokens(pieces) == Message(Printed(w)) + (Message(ZERO_TEXT) + transfer)
    ensures ClientEnds(pieces) == (ContainerRefused, arrived)
  {
    hide Text, Unsigned, Checksum, Receive, Message, DifferOnlyWithin, Printed;
    var transfer := Message(arrived) + Message(ChecksumText(w.build.container.value));
    TakesWholeMessage(pieces, Printed(w), Message(ZERO_TEXT) + transfer);
    TakesWholeMessage(TakeMessage(pieces).value.1, ZERO_TEXT, transfer);
    assert transfer + [] == transfer;
    CorruptionRefused(w.build.container.value, arrived, k, StatusOf(pieces).1, []);
  }
}
