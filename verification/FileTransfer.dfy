/** The file transfer both programs share: the writer sends a file as one message in chunks,
    followed by its checksum as a second message; the reader rebuilds the file from whatever pieces
    arrive and compares. */
module FileTransfer {
  import opened Options
  import opened Crc32
  import opened Bursts
  import opened Decimal
  import opened WebSocket

  const CHUNK_SIZE: nat := 4096

  /** The fragments of a file's message. */
  function FileFrames(file: seq<bv8>): seq<Frame> {
    if |file| <= CHUNK_SIZE then [Frame(true, file)]
    else [Frame(false, file[..CHUNK_SIZE])] + FileFrames(file[CHUNK_SIZE..])
  }

  function TransferFrames(file: seq<bv8>): seq<Frame> {
    FileFrames(file) + [Frame(true, ChecksumText(file))]
  }

  /** What a reader ends with: the file accepted, a checksum that does not match, or a connection
      that broke off. */
  datatype Transfer = Received(file: seq<bv8>) | Mismatch(file: seq<bv8>) | Lost

  /** What the reader makes of the pieces that arrive, and what it leaves unread. */
  function Receive(pieces: seq<Frame>): (Transfer, seq<Frame>) {
    match TakeMessage(pieces)
    case None => (Lost, [])
    case Some((file, rest)) =>
      match TakeMessage(rest)
      case None => (Lost, [])
      case Some((text, rest')) => (if text == ChecksumText(file) then Received(file) else Mismatch(file), rest')
  }

  /** A file open for reading. */
  class InputFile {
    const contents: seq<bv8>
    var position: nat

    constructor (contents: seq<bv8>)
      ensures this.contents == contents && position == 0
    {
      this.contents, position := contents, 0;
    }

    method ReadInto(buffer: array<bv8>, n: nat)
      requires position + n <= |contents| && n <= buffer.Length
      modifies this, buffer
      ensures position == old(position) + n
      ensures buffer[..n] == contents[old(position)..position]
    {
      Fill(buffer, contents[position..position + n]);
      position := position + n;
    }
  }

  method WriteFile(stream: Stream, contents: seq<bv8>)
    modifies stream`sent
    ensures stream.sent == old(stream.sent) + TransferFrames(contents)
  {
    hide Process, Text, Unsigned, Xor, Bytes, Tokens;
    var file := new InputFile(contents);
    var bytesRemaining: nat := |contents|;
    var chunkBuffer := new bv8[CHUNK_SIZE];
    var crc := new Crc();
    var fin := false;
    ghost var written: seq<Frame> := [];
    assert contents[..0] == [] && contents[0..] == contents;
    NothingProcessed(START);
    while !fin
      invariant file.contents == contents && file.position + bytesRemaining == |contents|
      invariant crc.register == Process(START, contents[..file.position])
      invariant stream.sent == old(stream.sent) + written
      invariant if fin then bytesRemaining == 0 && written == FileFrames(contents)
                else && written + FileFrames(contents[file.position..]) == FileFrames(contents)
                     && (bytesRemaining == 0 ==> file.position == 0)
      decreases !fin, bytesRemaining
    {
      ghost var offset, before := file.position, written;
      var chunkSize := if bytesRemaining < CHUNK_SIZE then bytesRemaining else CHUNK_SIZE;
      file.ReadInto(chunkBuffer, chunkSize);
      crc.ProcessBytes(chunkBuffer, chunkSize);
      bytesRemaining := bytesRemaining - chunkSize;
      if bytesRemaining == 0 {
        fin := true;
      }
      stream.WriteSome(fin, chunkBuffer[..chunkSize]);
      written := written + [Frame(fin, chunkBuffer[..chunkSize])];
      ChunkSummed(contents, offset, chunkSize);
      ChunkWritten(contents, offset, chunkSize, before);
    }
    assert contents[..|contents|] == contents;
    var value := crc.Value();
    stream.Write(Text(Unsigned(value)));
    assert written + [Frame(true, ChecksumText(contents))] == TransferFrames(contents);
  }

  /** The checksum covers one more chunk. */
  lemma ChunkSummed(file: seq<bv8>, offset: nat, n: nat)
    requires offset + n <= |file|
    ensures Process(Process(START, file[..offset]), file[offset..offset + n]) == Process(START, file[..offset + n])
  {
    hide Process;
    ProcessConcat(START, file[..offset], file[offset..offset + n]);
    assert file[..offset + n] == file[..offset] + file[offset..offset + n];
  }

  /** One more fragment of the file is written. */
  lemma ChunkWritten(file: seq<bv8>, offset: nat, n: nat, before: seq<Frame>)
    requires offset + n <= |file| && n == if |file| - offset < CHUNK_SIZE then |file| - offset else CHUNK_SIZE
    ensures before + FileFrames(file[offset..])
         == before + [Frame(offset + n == |file|, file[offset..offset + n])]
            + if offset + n == |file| then [] else FileFrames(file[offset + n..])
  {
    var tail := file[offset..];
    assert tail[..n] == file[offset..offset + n];
    assert tail[n..] == file[offset + n..];
    assert offset + n == |file| ==> tail[..n] == tail;
    var one := [Frame(offset + n == |file|, tail[..n])];
    var more := if offset + n == |file| then [] else FileFrames(tail[n..]);
    assert FileFrames(tail) == one + more;
    Associative(before, one, more);
  }

  /** `file` is what has been written to disk, whatever the outcome. */
  method ReadFile(stream: Stream) returns (result: Transfer, file: seq<bv8>)
    modifies stream`incoming, stream`messageDone
    ensures result == Receive(old(stream.incoming)).0 && stream.incoming == Receive(old(stream.incoming)).1
    ensures file == Arriving(old(stream.incoming))
    ensures !result.Lost? ==> file == result.file && stream.messageDone
  {
    hide Process, Text, Unsigned, Xor, TakeMessage, Arriving, Reading, Size;
    ghost var arriving := stream.incoming;
    var chunkBuffer := new bv8[CHUNK_SIZE];
    var crc := new Crc();
    file := [];
    NothingProcessed(START);
    ReadingStarts(arriving);
    var done := false;
    while !done
      invariant crc.register == Process(START, file)
      invariant Reading(arriving, file, done, stream.incoming)
      invariant done ==> stream.messageDone
      decreases !done, Size(stream.incoming)
    {
      ghost var before := stream.incoming;
      var chunkSize := stream.ReadSome(chunkBuffer);
      if chunkSize.None? {
        ReadingBreaksOff(arriving, file);
        return Lost, file;
      }
      ghost var chunk := chunkBuffer[..chunkSize.value];
      ProcessConcat(START, file, chunk);
      ReadingGoesOn(arriving, file, before, chunk, stream.messageDone, stream.incoming);
      file := file + chunkBuffer[..chunkSize.value];
      crc.ProcessBytes(chunkBuffer, chunkSize.value);
      done := stream.messageDone;
    }
    ReadingEnds(arriving, file, stream.incoming);
    var value := crc.Value();
    var localChecksum := Text(Unsigned(value));
    var remoteChecksum := stream.Read();
    if remoteChecksum.None? {
      return Lost, file;
    }
    result := if localChecksum == remoteChecksum.value then Received(file) else Mismatch(file);
  }

  // ---------- what goes over the wire ----------

  /** The writer emits exactly one message: its fragments hold the file's bytes in order, only the
      last is final, none exceeds the chunk size, and none but that of an empty file is empty. */
  lemma {:induction false} OneMessage(file: seq<bv8>)
    ensures Tokens(FileFrames(file)) == Message(file)
    ensures forall i :: 0 <= i < |FileFrames(file)| ==>
      var f := FileFrames(file)[i];
      && (f.fin <==> i == |FileFrames(file)| - 1)
      && |f.data| <= CHUNK_SIZE
      && (f.data == [] ==> file == [])
    ensures |FileFrames(file)| == if file == [] then 1 else (|file| + CHUNK_SIZE - 1) / CHUNK_SIZE
  {
    if |file| > CHUNK_SIZE {
      var head, tail := file[..CHUNK_SIZE], file[CHUNK_SIZE..];
      OneMessage(tail);
      assert FileFrames(file)[1..] == FileFrames(tail);
      assert Message(file) == Bytes(head) + Message(tail);
    } else {
      assert [Frame(true, file)][1..] == [];
      assert Tokens([]) == [];
      assert Tokens([Frame(true, file)]) == FrameTokens(Frame(true, file)) + Tokens([]);
    }
  }

  lemma TransferTokens(file: seq<bv8>)
    ensures Tokens(TransferFrames(file)) == Message(file) + Message(ChecksumText(file))
  {
    hide Text, Unsigned, Checksum;
    var last := Frame(true, ChecksumText(file));
    OneMessage(file);
    TokensConcat(FileFrames(file), [last]);
    assert [last][1..] == [];
    assert Tokens([]) == [];
    assert Tokens([last]) == FrameTokens(last) + Tokens([]);
  }

  /** Whatever two messages arrive, in whatever pieces: the reader accepts exactly when the second
      is the checksum text of the first. */
  lemma ReceiveTwo(pieces: seq<Frame>, file: seq<bv8>, text: seq<bv8>, more: seq<Token>)
    requires Tokens(pieces) == Message(file) + Message(text) + more
    ensures Receive(pieces).0 == if text == ChecksumText(file) then Received(file) else Mismatch(file)
    ensures Tokens(Receive(pieces).1) == more
  {
    hide Text, Unsigned, Checksum;
    assert Tokens(pieces) == Message(file) + (Message(text) + more);
    TakesWholeMessage(pieces, file, Message(text) + more);
    TakesWholeMessage(TakeMessage(pieces).value.1, text, more);
  }

  /** And whatever arrives at all: the transfer is lost exactly when fewer than two messages end. */
  lemma ReceiveMeans(pieces: seq<Frame>) returns (text: seq<bv8>)
    ensures Receive(pieces).0.Lost? <==> Ends(Tokens(pieces)) < 2
    ensures Receive(pieces).0 == Lost || Receive(pieces).0 ==
      if text == ChecksumText(Arriving(pieces)) then Received(Arriving(pieces)) else Mismatch(Arriving(pieces))
    ensures !Receive(pieces).0.Lost? ==>
      Tokens(pieces) == Message(Arriving(pieces)) + (Message(text) + Tokens(Receive(pieces).1))
  {
    hide Text, Unsigned, Checksum, Ends, Arriving;
    text := [];
    MessageTaken(pieces);
    if TakeMessage(pieces).Some? {
      var (file, rest) := TakeMessage(pieces).value;
      MessageTaken(rest);
      EndsOfBytes(file);
      EndsConcat(Message(file), Tokens(rest));
      if TakeMessage(rest).Some? {
        text := TakeMessage(rest).value.0;
        EndsOfBytes(text);
        EndsConcat(Message(text), Tokens(TakeMessage(rest).value.1));
      }
    }
  }

  /** Round trip: for every file, however its transfer is cut and joined on the way and whatever
      follows it, the reader rebuilds the file, accepts it, and leaves what follows unread. */
  lemma RoundTrip(file: seq<bv8>, pieces: seq<Frame>, more: seq<Token>)
    requires Tokens(pieces) == Tokens(TransferFrames(file)) + more
    ensures Receive(pieces).0 == Received(file) && Tokens(Receive(pieces).1) == more
  {
    TransferTokens(file);
    ReceiveTwo(pieces, file, ChecksumText(file), more);
  }

  /** If what arrives differs from what was sent only within four consecutive bytes, the reader
      refuses it, in whatever pieces it arrives. */
  lemma CorruptionRefused(sent: seq<bv8>, arrived: seq<bv8>, k: nat, pieces: seq<Frame>, more: seq<Token>)
    requires DifferOnlyWithin(sent, arrived, k, 4) && sent != arrived
    requires Tokens(pieces) == Message(arrived) + Message(ChecksumText(sent)) + more
    ensures Receive(pieces).0 == Mismatch(arrived)
  {
    hide Text, Unsigned, Checksum;
    ReceiveTwo(pieces, arrived, ChecksumText(sent), more);
    BurstDetected(sent, arrived, k);
    ChecksumTextDecides(sent, arrived);
  }

  /** Five bytes are too many: any file of at least that length can arrive changed and be accepted. */
  lemma CorruptionAccepted(sent: seq<bv8>, k: nat, pieces: seq<Frame>, more: seq<Token>)
    requires k + 5 <= |sent|
    requires Tokens(pieces) == Message(Flipped(sent, k)) + Message(ChecksumText(sent)) + more
    ensures Receive(pieces).0 == Received(Flipped(sent, k)) && Flipped(sent, k) != sent
  {
    hide Text, Unsigned, Checksum;
    ReceiveTwo(pieces, Flipped(sent, k), ChecksumText(sent), more);
    FiveByteBurstMissed(sent, k);
    ChecksumTextDecides(sent, Flipped(sent, k));
  }
}
