/** TCPConnection (tcpconnection.cpp): frames of a type byte, a length in
    7-bit groups and the content; the reader's stage machine and the
    ping/timeout keepalive. */
module TcpFraming {

  type Byte = x: int | 0 <= x < 256

  /** `std::size_t`. */
  const SizeModulus: nat := 0x1_0000_0000_0000_0000

  type Size = x: nat | x < SizeModulus

  /** `TCPConnection::Type`. */
  const TextFrame: Byte := 0
  const BinaryFrame: Byte := 1
  const PingFrame: Byte := 2
  const PongFrame: Byte := 3

  /** `ReadStage`. */
  datatype Stage = TypeStage | SizeStage | ContentStage

  /** The frame kinds a listener sees or asks to send; any kind other than
      text and binary is `Other`. */
  datatype FrameKind = TextKind | BinaryKind | Other(code: int)

  /** What the connection reported to its listener. */
  datatype ListenerEvent = Closed | Delivered(kind: FrameKind, data: seq<Byte>)

  /** One completed read: the bytes it returned (none at the end of the
      stream or on a timeout) and whether the stream reported a timeout. */
  datatype Chunk = Chunk(data: seq<Byte>, timedOut: bool)

  /** create_number: the 7-bit groups of `s`, most significant first; the
      first byte has bit 0x80 clear, every later one has it set. */
  function Number(s: nat): (r: seq<Byte>)
    ensures |r| >= 1 && r[0] < 128
    ensures forall i | 1 <= i < |r| :: r[i] >= 128
    ensures s < 128 ==> r == [s]
    ensures s >= 128 ==> r[0] > 0
    decreases s
  {
    if s / 128 != 0 then Number(s / 128) + [s % 128 + 128] else [s % 128]
  }

  /** The number the low 7 bits of the groups spell, most significant first. */
  function GroupsValue(r: seq<Byte>): nat
  {
    if r == [] then 0 else GroupsValue(r[..|r| - 1]) * 128 + r[|r| - 1] % 128
  }

  /** The groups create_number writes spell the number back. */
  lemma {:induction false} NumberValue(s: nat)
    ensures GroupsValue(Number(s)) == s
    decreases s
  {
    if s / 128 != 0 {
      var r := Number(s);
      assert r[..|r| - 1] == Number(s / 128);
      NumberValue(s / 128);
    }
  }

  /** Distinct lengths are written differently. */
  lemma NumberInjective(a: nat, b: nat)
    requires Number(a) == Number(b)
    ensures a == b
  {
    NumberValue(a);
    NumberValue(b);
  }

  /** What send_message(type, data) writes. */
  function Frame(t: Byte, data: seq<Byte>): seq<Byte>
  {
    [t] + Number(|data|) + data
  }

  /** What process_frame hands to the listener. */
  function Delivery(t: Byte, data: seq<Byte>): seq<ListenerEvent>
  {
    if t == TextFrame then [Delivered(TextKind, data)]
    else if t == BinaryFrame then [Delivered(BinaryKind, data)]
    else []
  }

  function StageRank(s: Stage): nat
  {
    match s
    case TypeStage => 2
    case SizeStage => 1
    case ContentStage => 0
  }

  function Min(a: nat, b: nat): nat { if a <= b then a else b }

  class TcpConnection {
    var connected: bool
    var pingSent: bool
    /** Whether the stream accepts the next asynchronous write. */
    var writeOk: bool
    var stage: Stage
    var msgType: Byte
    var msgSize: Size
    var msgBuffer: seq<Byte>
    var fmtBuffer: seq<Byte>
    /** Everything handed to the stream, one entry per write. */
    var written: seq<seq<Byte>>
    var events: seq<ListenerEvent>
    var timeoutsCleared: nat

    /** The format buffer is empty between writes. */
    ghost predicate Valid()
      reads this`fmtBuffer
    {
      fmtBuffer == []
    }

    /** The loop of the reader never ends from here, though each pass still
        acts: a size byte with bit 0x80 set is never consumed, so the size
        keeps shifting in its low 7 bits; and a finished frame leaves the
        reader in the content stage with nothing left to read, so every pass
        processes an empty frame of the current type (an empty text or
        binary delivery, or an empty pong). */
    predicate Hangs(buff: seq<Byte>)
      reads this`stage, this`msgSize
    {
      |buff| > 0 && ((stage == SizeStage && buff[0] >= 128) || (stage == ContentStage && msgSize == 0))
    }

    constructor(writeOk: bool)
      ensures Valid() && connected && !pingSent && this.writeOk == writeOk
      ensures stage == TypeStage && msgSize == 0 && msgBuffer == []
      ensures written == [] && events == [] && timeoutsCleared == 0
    {
      connected := true;
      pingSent := false;
      this.writeOk := writeOk;
      stage := TypeStage;
      msgType := TextFrame;
      msgSize := 0;
      msgBuffer := [];
      fmtBuffer := [];
      written := [];
      events := [];
      timeoutsCleared := 0;
    }

    /** create_number appending to the format buffer. */
    method AppendNumber(s: nat)
      modifies this`fmtBuffer
      ensures fmtBuffer == old(fmtBuffer) + Number(s)
      decreases s
    {
      var nx := s / 128;
      var t := s % 128;
      if nx != 0 {
        AppendNumber(nx);
        fmtBuffer := fmtBuffer + [t + 128];
      } else {
        fmtBuffer := fmtBuffer + [t];
      }
    }

    /** send_message(type, data): refused when not connected; otherwise the
        frame is written, the write's outcome becomes the connected flag,
        and the answer is true whatever that outcome was. */
    method SendMessage(t: Byte, data: seq<Byte>) returns (ok: bool)
      requires Valid()
      modifies this`fmtBuffer, this`written, this`connected
      ensures Valid()
      ensures ok <==> old(connected)
      ensures ok ==> written == old(written) + [Frame(t, data)] && connected == writeOk
      ensures !ok ==> written == old(written) && !connected
    {
      if !connected {
        return false;
      }
      fmtBuffer := fmtBuffer + [t];
      AppendNumber(|data|);
      fmtBuffer := fmtBuffer + data;
      assert fmtBuffer == Frame(t, data);
      written := written + [fmtBuffer];
      connected := writeOk;
      fmtBuffer := [];
      ok := true;
    }

    /** send_message(MsgFrame): text and binary frames only. */
    method SendFrame(kind: FrameKind, data: seq<Byte>) returns (ok: bool)
      requires Valid()
      modifies this`fmtBuffer, this`written, this`connected
      ensures Valid()
      ensures ok <==> old(connected) && !kind.Other?
      ensures ok ==> written == old(written) + [Frame(if kind == TextKind then TextFrame else BinaryFrame, data)]
      ensures ok ==> connected == writeOk
      ensures !ok ==> written == old(written) && connected == old(connected)
    {
      match kind {
        case Other(_) => return false;
        case TextKind => ok := SendMessage(TextFrame, data);
        case BinaryKind => ok := SendMessage(BinaryFrame, data);
      }
    }

    /** process_frame: text and binary go to the listener, a ping is
        answered by a pong with the same data, anything else is ignored. */
    method ProcessFrame(t: Byte, data: seq<Byte>)
      requires Valid()
      modifies this`fmtBuffer, this`written, this`connected, this`events
      ensures Valid()
      ensures events == old(events) + Delivery(t, data)
      ensures t == PingFrame && old(connected) ==> written == old(written) + [Frame(PongFrame, data)] && connected == writeOk
      ensures !(t == PingFrame && old(connected)) ==> written == old(written) && connected == old(connected)
    {
      if t == TextFrame {
        events := events + [Delivered(TextKind, data)];
      } else if t == BinaryFrame {
        events := events + [Delivered(BinaryKind, data)];
      } else if t == PingFrame {
        var _ := SendMessage(PongFrame, data);
      }
    }

    /** One pass of the reader's switch over the unread bytes. */
    method Step(buff: seq<Byte>) returns (rest: seq<Byte>)
      requires Valid() && |buff| > 0
      modifies this`stage, this`msgType, this`msgSize, this`msgBuffer
      modifies this`fmtBuffer, this`written, this`connected, this`events
      ensures Valid()
      // type: the byte is the frame type
      ensures old(stage) == TypeStage ==>
        msgType == buff[0] && stage == SizeStage && rest == buff[1..]
        && msgSize == old(msgSize) && msgBuffer == old(msgBuffer)
        && events == old(events) && written == old(written) && connected == old(connected)
      // size: a 7-bit group is shifted in, but the byte is not consumed
      ensures old(stage) == SizeStage ==>
        msgSize == (old(msgSize) * 128) % SizeModulus + buff[0] % 128
        && stage == (if buff[0] < 128 then ContentStage else SizeStage) && rest == buff
        && msgType == old(msgType) && msgBuffer == old(msgBuffer)
        && events == old(events) && written == old(written) && connected == old(connected)
      // content: fragments accumulate until the size is used up, then the
      // whole payload is processed once and the buffer cleared
      ensures old(stage) == ContentStage ==>
        var n := Min(old(msgSize), |buff|);
        rest == buff[n..] && msgSize == old(msgSize) - n && stage == ContentStage && msgType == old(msgType)
        && (msgSize > 0 ==>
              msgBuffer == old(msgBuffer) + buff[..n]
              && events == old(events) && written == old(written) && connected == old(connected))
        && (msgSize == 0 ==>
              var payload := old(msgBuffer) + buff[..n];
              msgBuffer == [] && events == old(events) + Delivery(msgType, payload)
              && (msgType == PingFrame && old(connected) ==>
                    written == old(written) + [Frame(PongFrame, payload)] && connected == writeOk)
              && (!(msgType == PingFrame && old(connected)) ==>
                    written == old(written) && connected == old(connected)))
      ensures old(Hangs(buff)) ==> rest == buff && Hangs(rest)
      ensures Closed in events <==> Closed in old(events)
    {
      match stage {
        case TypeStage =>
          msgType := buff[0];
          stage := SizeStage;
          rest := buff[1..];
        case SizeStage =>
          msgSize := (msgSize * 128) % SizeModulus + buff[0] % 128;
          if buff[0] < 128 {
            stage := ContentStage;
          }
          rest := buff;
        case ContentStage =>
          var n := Min(msgSize, |buff|);
          var data := buff[..n];
          rest := buff[n..];
          msgSize := msgSize - n;
          if msgSize != 0 {
            msgBuffer := msgBuffer + data;
          } else {
            if msgBuffer == [] {
              assert msgBuffer + data == data;
              ProcessFrame(msgType, data);
            } else {
              msgBuffer := msgBuffer + data;
              ProcessFrame(msgType, msgBuffer);
            }
            msgBuffer := [];
          }
      }
    }

    /** The reader's loop over one chunk, stopped where the source would
        spin forever; `rest` is what it could never consume. */
    method Consume(buff: seq<Byte>) returns (rest: seq<Byte>)
      requires Valid()
      modifies this`stage, this`msgType, this`msgSize, this`msgBuffer
      modifies this`fmtBuffer, this`written, this`connected, this`events
      ensures Valid()
      ensures rest == [] || Hangs(rest)
      ensures |rest| <= |buff| && rest == buff[|buff| - |rest|..]
      ensures Closed in events <==> Closed in old(events)
      // a chunk holding exactly the rest of a frame's content completes it
      ensures old(stage) == ContentStage && 0 < |buff| == old(msgSize) ==>
        rest == [] && msgBuffer == [] && events == old(events) + Delivery(old(msgType), old(msgBuffer) + buff)
    {
      rest := buff;
      ghost var completes := stage == ContentStage && 0 < |buff| == msgSize;
      while |rest| > 0 && !Hangs(rest)
        invariant Valid()
        invariant |rest| <= |buff| && rest == buff[|buff| - |rest|..]
        invariant Closed in events <==> Closed in old(events)
        invariant completes ==>
          (rest == buff && stage == ContentStage && msgSize == old(msgSize) && msgType == old(msgType)
           && msgBuffer == old(msgBuffer) && events == old(events))
          || (rest == [] && msgBuffer == [] && events == old(events) + Delivery(old(msgType), old(msgBuffer) + buff))
        decreases |rest|, StageRank(stage)
      {
        rest := Step(rest);
        assert completes ==> buff[..|buff|] == buff;
      }
    }

    /** listener_loop's handler as written: on a timed-out empty read with
        no ping outstanding it pings and clears the timeout, but never
        records that a ping was sent. */
    method OnReadAsWritten(buff: seq<Byte>, timedOut: bool) returns (rest: seq<Byte>)
      requires Valid()
      modifies this`stage, this`msgType, this`msgSize, this`msgBuffer, this`pingSent, this`timeoutsCleared
      modifies this`fmtBuffer, this`written, this`connected, this`events
      ensures Valid()
      ensures buff == [] && timedOut && !old(pingSent) ==>
        timeoutsCleared == old(timeoutsCleared) + 1 && !pingSent && events == old(events)
        && written == old(written) + (if old(connected) then [Frame(PingFrame, [])] else [])
        && connected == (old(connected) && writeOk)
      ensures buff == [] && (!timedOut || old(pingSent)) ==>
        events == old(events) + [Closed] && !connected && written == old(written)
        && pingSent == old(pingSent) && timeoutsCleared == old(timeoutsCleared)
      ensures buff != [] ==> !pingSent && (rest == [] || Hangs(rest)) && timeoutsCleared == old(timeoutsCleared)
    {
      rest := [];
      if buff == [] {
        if timedOut {
          if pingSent {
            events := events + [Closed];
            connected := false;
          } else {
            var _ := SendMessage(PingFrame, []);
            timeoutsCleared := timeoutsCleared + 1;
          }
        } else {
          events := events + [Closed];
          connected := false;
        }
      } else {
        pingSent := false;
        rest := Consume(buff);
      }
    }

    /** listener_loop's handler with the ping recorded: a second timed-out
        empty read after the ping closes the connection. */
    method OnRead(buff: seq<Byte>, timedOut: bool) returns (rest: seq<Byte>)
      requires Valid()
      modifies this`stage, this`msgType, this`msgSize, this`msgBuffer, this`pingSent, this`timeoutsCleared
      modifies this`fmtBuffer, this`written, this`connected, this`events
      ensures Valid()
      ensures buff == [] && timedOut && !old(pingSent) ==>
        timeoutsCleared == old(timeoutsCleared) + 1 && pingSent && events == old(events)
        && written == old(written) + (if old(connected) then [Frame(PingFrame, [])] else [])
        && connected == (old(connected) && writeOk)
      ensures buff == [] && (!timedOut || old(pingSent)) ==>
        events == old(events) + [Closed] && !connected && written == old(written)
        && pingSent == old(pingSent) && timeoutsCleared == old(timeoutsCleared)
      ensures buff != [] ==> !pingSent && (rest == [] || Hangs(rest)) && timeoutsCleared == old(timeoutsCleared)
      ensures buff != [] ==> (Closed in events <==> Closed in old(events))
    {
      rest := [];
      if buff == [] {
        if timedOut {
          if pingSent {
            events := events + [Closed];
            connected := false;
          } else {
            var _ := SendMessage(PingFrame, []);
            pingSent := true;
            timeoutsCleared := timeoutsCleared + 1;
          }
        } else {
          events := events + [Closed];
          connected := false;
        }
      } else {
        pingSent := false;
        rest := Consume(buff);
      }
    }

    /** listener_loop as written: `_stream.read()` is armed once and the
        handler never arms it again, so only the first chunk the stream
        returns is handled (see PeerCloseMissedAsWritten). */
    method ListenAsWritten(chunks: seq<Chunk>) returns (handled: nat)
      requires Valid()
      modifies this`stage, this`msgType, this`msgSize, this`msgBuffer, this`pingSent, this`timeoutsCleared
      modifies this`fmtBuffer, this`written, this`connected, this`events
      ensures Valid()
      ensures handled == Min(1, |chunks|)
      ensures |chunks| > 0 && chunks[0] == Chunk([], true) && !old(pingSent) ==>
                events == old(events) && connected == (old(connected) && writeOk)
    {
      handled := 0;
      if |chunks| > 0 {
        var _ := OnReadAsWritten(chunks[0].data, chunks[0].timedOut);
        handled := 1;
      }
    }

    /** listener_loop with the read armed again after each chunk until the
        connection closes, as the WebSocket connection's receive loop does
        (wsconnection.cpp): every chunk up to the close is handled, the
        listener hears `on_close` at most once, and nothing after it. */
    method Listen(chunks: seq<Chunk>) returns (handled: nat)
      requires Valid() && Closed !in events
      modifies this`stage, this`msgType, this`msgSize, this`msgBuffer, this`pingSent, this`timeoutsCleared
      modifies this`fmtBuffer, this`written, this`connected, this`events
      ensures Valid()
      ensures handled <= |chunks|
      ensures handled < |chunks| ==> Closed in events
      ensures Closed in events ==>
                && handled > 0 && events[|events| - 1] == Closed && Closed !in events[..|events| - 1]
                && !connected
      ensures (exists k | 0 <= k < |chunks| :: chunks[k] == Chunk([], false)) ==> Closed in events
    {
      handled := 0;
      while handled < |chunks| && Closed !in events
        invariant Valid() && handled <= |chunks|
        invariant Closed in events ==>
                    && handled > 0 && events[|events| - 1] == Closed && Closed !in events[..|events| - 1]
                    && !connected
        invariant (exists k | 0 <= k < handled :: chunks[k] == Chunk([], false)) ==> Closed in events
      {
        var chunk := chunks[handled];
        ghost var before, pinged := events, pingSent;
        var _ := OnRead(chunk.data, chunk.timedOut);
        if chunk.data == [] && (!chunk.timedOut || pinged) {
          assert events[..|events| - 1] == before;
        }
        handled := handled + 1;
      }
    }
  }

  /** A timeout and then the end of the stream on a fresh connection, as
      written: the read is never armed again after the ping, so the
      listener never hears that the other side closed. */
  method PeerCloseMissedAsWritten() returns (events: seq<ListenerEvent>, connected: bool)
    ensures events == [] && connected
  {
    var c := new TcpConnection(true);
    var _ := c.ListenAsWritten([Chunk([], true), Chunk([], false)]);
    events := c.events;
    connected := c.connected;
  }

  /** The same reads with the read armed again after each chunk: the end of
      the stream reaches the listener as its close. */
  method PeerCloseReported() returns (events: seq<ListenerEvent>, connected: bool)
    ensures |events| > 0 && events[|events| - 1] == Closed && !connected
  {
    var c := new TcpConnection(true);
    var chunks := [Chunk([], true), Chunk([], false)];
    assert chunks[1] == Chunk([], false);
    var _ := c.Listen(chunks);
    events := c.events;
    connected := c.connected;
  }

  /** Two timed-out empty reads on a fresh connection, with the read armed
      again after the first (as Listen does) but the ping not recorded, as
      written: two pings go out and the connection is never closed. */
  method IdlePeerAsWritten() returns (written: seq<seq<Byte>>, events: seq<ListenerEvent>, connected: bool)
    ensures written == [Frame(PingFrame, []), Frame(PingFrame, [])]
    ensures events == [] && connected
  {
    var c := new TcpConnection(true);
    var _ := c.OnReadAsWritten([], true);
    var _ := c.OnReadAsWritten([], true);
    written := c.written;
    events := c.events;
    connected := c.connected;
  }

  /** The same two reads with the ping recorded: one ping, then the close. */
  method IdlePeer() returns (written: seq<seq<Byte>>, events: seq<ListenerEvent>, connected: bool)
    ensures written == [Frame(PingFrame, [])]
    ensures events == [Closed] && !connected
  {
    var c := new TcpConnection(true);
    var _ := c.OnRead([], true);
    var _ := c.OnRead([], true);
    written := c.written;
    events := c.events;
    connected := c.connected;
  }

  /** The frame send_message writes for three content bytes, read back by
      a fresh connection: the length byte is read again as content, so the
      listener gets it and the first two content bytes, and the last
      content byte is left where the reader spins. */
  method ShortFrameMisread() returns (events: seq<ListenerEvent>, rest: seq<Byte>, hangs: bool)
    ensures events == [Delivered(TextKind, [3, 10, 20])]
    ensures rest == [30] && hangs
  {
    var c;
    c, rest := ReadShortFrame();
    events := c.events;
    hangs := c.Hangs(rest);
  }

  /** A fresh connection after the three passes of the misread above. */
  method ReadShortFrame() returns (c: TcpConnection, rest: seq<Byte>)
    ensures fresh(c) && c.Valid() && rest == [30]
    ensures c.stage == ContentStage && c.msgSize == 0 && c.msgBuffer == [] && c.msgType == TextFrame
    ensures c.events == [Delivered(TextKind, [3, 10, 20])]
  {
    c := new TcpConnection(true);
    var frame := Frame(TextFrame, [10, 20, 30]);
    assert frame == [0, 3, 10, 20, 30];
    rest := c.Step(frame);
    assert rest == [3, 10, 20, 30] && c.stage == SizeStage;
    rest := c.Step(rest);
    assert c.stage == ContentStage && c.msgSize == 3 && c.msgBuffer == [];
    rest := c.Step(rest);
    assert [] + [3, 10, 20, 30][..3] == [3, 10, 20];
  }

  /** After that misread the loop spins on its last byte, and every pass
      processes an empty text frame: k passes deliver k empty frames, and
      the reader still hangs. */
  method ShortFrameFloods(k: nat) returns (events: seq<ListenerEvent>, hangs: bool)
    ensures events == [Delivered(TextKind, [3, 10, 20])] + seq(k, _ => Delivered(TextKind, []))
    ensures hangs
  {
    var c, rest := ReadShortFrame();
    assert seq(0, _ => Delivered(TextKind, [])) == [];
    var i := 0;
    while i < k
      invariant i <= k && rest == [30] && c.Valid()
      invariant c.stage == ContentStage && c.msgSize == 0 && c.msgBuffer == [] && c.msgType == TextFrame
      invariant c.events == [Delivered(TextKind, [3, 10, 20])] + seq(i, _ => Delivered(TextKind, []))
    {
      rest := c.Step(rest);
      assert [] + [30][..0] == [];
      assert seq(i + 1, _ => Delivered(TextKind, [])) == seq(i, _ => Delivered(TextKind, [])) + [Delivered(TextKind, [])];
      i := i + 1;
    }
    events := c.events;
    hangs := c.Hangs(rest);
  }
}
