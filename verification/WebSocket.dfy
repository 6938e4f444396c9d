/** WebSocket messages: each a non-empty list of fragments of which the last is marked final
    (section 5.4 of RFC 6455). Fragments may be cut and joined between the two ends; what arrives
    intact is the bytes of every message and where each message ends. */
module WebSocket {
  import opened Options

  datatype Frame = Frame(fin: bool, data: seq<bv8>)

  /** What survives refragmentation. */
  datatype Token = Byte(value: bv8) | End

  function Bytes(data: seq<bv8>): (ts: seq<Token>)
    ensures |ts| == |data|
    ensures forall i :: 0 <= i < |data| ==> ts[i] == Byte(data[i])
  {
    seq(|data|, i requires 0 <= i < |data| => Byte(data[i]))
  }

  function FrameTokens(f: Frame): seq<Token> {
    Bytes(f.data) + if f.fin then [End] else []
  }

  function Tokens(frames: seq<Frame>): seq<Token> {
    if frames == [] then [] else FrameTokens(frames[0]) + Tokens(frames[1..])
  }

  /** A whole message on the wire. */
  function Message(data: seq<bv8>): seq<Token> {
    Bytes(data) + [End]
  }

  /** A message and the frames after it, if there is one. */
  type Taken = Option<(seq<bv8>, seq<Frame>)>

  /** The first message, when a final fragment ends one. */
  function TakeMessage(frames: seq<Frame>): Taken {
    if frames == [] then None
    else if frames[0].fin then Some((frames[0].data, frames[1..]))
    else match TakeMessage(frames[1..])
      case None => None
      case Some((data, rest)) => Some((frames[0].data + data, rest))
  }

  lemma TokensOnce(f: Frame, frames: seq<Frame>)
    ensures Tokens([f] + frames) == FrameTokens(f) + Tokens(frames)
  {
  }

  lemma {:induction false} TokensConcat(a: seq<Frame>, b: seq<Frame>)
    ensures Tokens(a + b) == Tokens(a) + Tokens(b)
  {
    if a == [] {
      assert a + b == b;
      assert Tokens([]) == [];
    } else {
      var f, rest := a[0], a[1..];
      TokensConcat(rest, b);
      TokensOnce(f, rest);
      TokensOnce(f, rest + b);
      Associative([f], rest, b);
      Associative(FrameTokens(f), Tokens(rest), Tokens(b));
      assert a == [f] + rest;
    }
  }

  lemma Associative<T>(a: seq<T>, b: seq<T>, c: seq<T>)
    ensures a + b + c == a + (b + c)
  {
  }

  /** A token stream reads as a message in one way only. */
  lemma FirstMessageUnique(a: seq<bv8>, x: seq<Token>, b: seq<bv8>, y: seq<Token>)
    requires Message(a) + x == Message(b) + y
    ensures a == b && x == y
  {
    var left, right := Message(a) + x, Message(b) + y;
    assert left[|a|] == End && right[|b|] == End;
    assert forall k :: 0 <= k < |a| ==> left[k] == Byte(a[k]);
    assert forall k :: 0 <= k < |b| ==> right[k] == Byte(b[k]);
    forall i | 0 <= i < |a| ensures a[i] == b[i] {
      assert left[i] == Byte(a[i]) && right[i] == Byte(b[i]);
    }
    assert x == left[|a| + 1..] && y == right[|b| + 1..];
  }

  lemma BytesConcat(a: seq<bv8>, b: seq<bv8>)
    ensures Bytes(a + b) == Bytes(a) + Bytes(b)
    ensures Message(a + b) == Bytes(a) + Message(b)
  {
  }

  /** How many messages end in ts. */
  function Ends(ts: seq<Token>): nat {
    if ts == [] then 0 else Ends(ts[..|ts| - 1]) + if ts[|ts| - 1].End? then 1 else 0
  }

  lemma {:induction false} EndsConcat(a: seq<Token>, b: seq<Token>)
    ensures Ends(a + b) == Ends(a) + Ends(b)
  {
    if b == [] {
      assert a + b == a;
    } else {
      EndsConcat(a, b[..|b| - 1]);
      assert (a + b)[..|a + b| - 1] == a + b[..|b| - 1];
    }
  }

  lemma {:induction false} EndsOfBytes(data: seq<bv8>)
    ensures Ends(Bytes(data)) == 0 && Ends(Message(data)) == 1
  {
    if data != [] {
      EndsOfBytes(data[..|data| - 1]);
      assert Bytes(data)[..|data| - 1] == Bytes(data[..|data| - 1]);
    }
    assert Message(data)[..|data|] == Bytes(data);
  }

  /** What is taken off is the first message and leaves the rest; nothing can be taken exactly when
      no message ends. */
  lemma {:induction false} MessageTaken(frames: seq<Frame>)
    ensures match TakeMessage(frames)
            case None => Ends(Tokens(frames)) == 0 && Tokens(frames) == Bytes(Arriving(frames))
            case Some((data, rest)) => Tokens(frames) == Message(data) + Tokens(rest) && Arriving(frames) == data
  {
    if frames == [] {
      assert Bytes([]) == [];
    } else {
      var f, rest := frames[0], frames[1..];
      FrameSays(f.data);
      assert Tokens(frames) == FrameTokens(f) + Tokens(rest);
      if !f.fin {
        MessageTaken(rest);
        EndsOfBytes(f.data);
        EndsConcat(Bytes(f.data), Tokens(rest));
        hide Tokens, FrameTokens, Bytes, Message, Ends;
        match TakeMessage(rest) {
          case None => BytesConcat(f.data, Arriving(rest));
          case Some((tail, more)) =>
            BytesConcat(f.data, tail);
            Associative(Bytes(f.data), Message(tail), Tokens(more));
        }
      }
    }
  }

  lemma FrameSays(data: seq<bv8>)
    ensures FrameTokens(Frame(false, data)) == Bytes(data) && FrameTokens(Frame(true, data)) == Message(data)
  {
  }

  /** The bytes that arrive of the first message begin what arrives, and are all of it when no
      message ends. */
  lemma ArrivingFirst(frames: seq<Frame>)
    ensures Bytes(Arriving(frames)) <= Tokens(frames)
    ensures Ends(Tokens(frames)) == 0 ==> Tokens(frames) == Bytes(Arriving(frames))
  {
    hide Ends, Arriving;
    MessageTaken(frames);
    if TakeMessage(frames).Some? {
      var (data, rest) := TakeMessage(frames).value;
      EndsOfBytes(data);
      EndsConcat(Message(data), Tokens(rest));
    }
  }

  /** However it is fragmented, a message is taken off as a whole. */
  lemma {:induction false} TakesWholeMessage(frames: seq<Frame>, data: seq<bv8>, more: seq<Token>)
    requires Tokens(frames) == Message(data) + more
    ensures TakeMessage(frames).Some?
    ensures TakeMessage(frames).value.0 == data && Tokens(TakeMessage(frames).value.1) == more
    decreases |frames|
  {
    var f := frames[0];
    if f.fin {
      assert Tokens(frames) == Message(f.data) + Tokens(frames[1..]);
      FirstMessageUnique(f.data, Tokens(frames[1..]), data, more);
    } else {
      NotYetEnded(f.data, Tokens(frames[1..]), data, more);
      TakesWholeMessage(frames[1..], data[|f.data|..], more);
      assert data == f.data + data[|f.data|..];
    }
  }

  lemma NotYetEnded(a: seq<bv8>, x: seq<Token>, data: seq<bv8>, more: seq<Token>)
    requires Bytes(a) + x == Message(data) + more
    ensures a <= data && x == Message(data[|a|..]) + more
  {
    var left, right := Bytes(a) + x, Message(data) + more;
    assert right[|data|] == End;
    assert forall k :: 0 <= k < |a| ==> left[k] == Byte(a[k]);
    forall i | 0 <= i < |a| ensures a[i] == data[i] {
      assert left[i] == Byte(a[i]) && right[i] == Byte(data[i]);
    }
    assert x == left[|a|..];
    assert right[|a|..] == Message(data[|a|..]) + more;
  }

  /** The message whose first bytes have been read: it ends there, or goes on in what is left. */
  function Rejoin(data: seq<bv8>, done: bool, left: seq<Frame>): Taken {
    if done then Some((data, left))
    else match TakeMessage(left)
      case None => None
      case Some((tail, rest)) => Some((data + tail, rest))
  }

  /** The bytes of the first message that will arrive at all, whether or not its end does. */
  function Arriving(frames: seq<Frame>): seq<bv8> {
    if frames == [] then []
    else frames[0].data + if frames[0].fin then [] else Arriving(frames[1..])
  }

  /** After reading `got` of the first message of `whole`, `left` is still to come: the rest of that
      message, or, when it is done, what follows it. */
  ghost predicate Reading(whole: seq<Frame>, got: seq<bv8>, done: bool, left: seq<Frame>) {
    && TakeMessage(whole) == Rejoin(got, done, left)
    && Arriving(whole) == got + if done then [] else Arriving(left)
  }

  lemma ReadingStarts(frames: seq<Frame>)
    ensures Reading(frames, [], false, frames)
  {
    var m := TakeMessage(frames);
    assert m.Some? ==> [] + m.value.0 == m.value.0;
    assert [] + Arriving(frames) == Arriving(frames);
  }

  lemma ReadingGoesOn(whole: seq<Frame>, got: seq<bv8>, before: seq<Frame>,
                      piece: seq<bv8>, done: bool, after: seq<Frame>)
    requires Reading(whole, got, false, before) && Reading(before, piece, done, after)
    ensures Reading(whole, got + piece, done, after)
  {
    Associative(got, piece, if done then [] else Arriving(after));
    if !done && TakeMessage(after).Some? {
      Associative(got, piece, TakeMessage(after).value.0);
    }
  }

  lemma ReadingEnds(whole: seq<Frame>, got: seq<bv8>, left: seq<Frame>)
    requires Reading(whole, got, true, left)
    ensures TakeMessage(whole) == Some((got, left)) && Arriving(whole) == got
  {
  }

  lemma ReadingBreaksOff(whole: seq<Frame>, got: seq<bv8>)
    requires Reading(whole, got, false, [])
    ensures TakeMessage(whole) == None && Arriving(whole) == got
  {
  }

  /** How much reading a list of frames can take. */
  function Size(frames: seq<Frame>): nat {
    if frames == [] then 0 else |frames[0].data| + 1 + Size(frames[1..])
  }

  datatype ReadError = ConnectionLost

  /** One end of a connection: the fragments written to it, and the pieces in which everything it
      will still receive arrives. When those run out the connection is gone and reads fail. */
  class Stream {
    var sent: seq<Frame>
    var incoming: seq<Frame>
    var messageDone: bool

    constructor (incoming: seq<Frame>)
      ensures sent == [] && this.incoming == incoming
    {
      sent, this.incoming, messageDone := [], incoming, true;
    }

    method WriteSome(fin: bool, data: seq<bv8>)
      modifies this`sent
      ensures sent == old(sent) + [Frame(fin, data)]
    {
      sent := sent + [Frame(fin, data)];
    }

    method Write(data: seq<bv8>)
      modifies this`sent
      ensures sent == old(sent) + [Frame(true, data)]
    {
      WriteSome(true, data);
    }

    /** Reads as much of the current message as is there and the buffer holds, and tells how much;
        nothing when the connection is gone. */
    method ReadSome(buffer: array<bv8>) returns (n: Option<nat>)
      requires buffer.Length > 0
      modifies this`incoming, this`messageDone, buffer
      ensures n.None? <==> old(incoming) == []
      ensures n.None? ==> incoming == [] && messageDone == old(messageDone)
      ensures n.Some? ==> n.value <= buffer.Length && Size(incoming) < Size(old(incoming))
      ensures n.Some? ==> Reading(old(incoming), buffer[..n.value], messageDone, incoming)
    {
      if incoming == [] {
        return None;
      }
      var piece := incoming[0];
      ghost var later := incoming[1..];
      if |piece.data| <= buffer.Length {
        Fill(buffer, piece.data);
        incoming := incoming[1..];
        messageDone := piece.fin;
        return Some(|piece.data|);
      } else {
        var head, rest := piece.data[..buffer.Length], Frame(piece.fin, piece.data[buffer.Length..]);
        assert piece.data == head + rest.data;
        Fill(buffer, head);
        incoming := [rest] + incoming[1..];
        assert incoming[1..] == later;
        messageDone := false;
        assert forall tail :: head + (rest.data + tail) == piece.data + tail;
        return Some(buffer.Length);
      }
    }

    /** Reads one whole message. */
    method Read() returns (message: Option<seq<bv8>>)
      modifies this`incoming, this`messageDone
      ensures match TakeMessage(old(incoming))
              case None => message == None && incoming == []
              case Some((data, rest)) => message == Some(data) && incoming == rest && messageDone
    {
      hide TakeMessage, Reading, Size;
      var got: seq<bv8> := [];
      var buffer := new bv8[1024];
      ReadingStarts(incoming);
      while true
        invariant Reading(old(incoming), got, false, incoming)
        decreases Size(incoming)
      {
        ghost var before := incoming;
        var n := ReadSome(buffer);
        if n.None? {
          ReadingBreaksOff(old(incoming), got);
          return None;
        }
        ReadingGoesOn(old(incoming), got, before, buffer[..n.value], messageDone, incoming);
        got := got + buffer[..n.value];
        if messageDone {
          ReadingEnds(old(incoming), got, incoming);
          return Some(got);
        }
      }
    }
  }

  method Fill(buffer: array<bv8>, data: seq<bv8>)
    requires |data| <= buffer.Length
    modifies buffer
    ensures buffer[..|data|] == data
  {
    forall i | 0 <= i < |data| {
      buffer[i] := data[i];
    }
  }
}
