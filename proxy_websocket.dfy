/**
 * The WebSocket bridge of the development API proxy (`WebSocketProxy` and
 * `websocket_handler`). Frames from the caller are queued in FIFO order and written
 * upstream by a drain task; frames from the server are forwarded to the caller
 * directly. The asynchronous tasks are modelled as steps: each pump and the drain
 * is a method that handles one message (or one queued frame), and `Proxy` runs the
 * steps in any interleaving a schedule names.
 */
module WebSocketBridge {
  import opened Common
  import ProxyHttp
  import ProxyRoutes

  // ---------------------------------------------------------------------------
  // Messages and frames
  // ---------------------------------------------------------------------------

  /**
   * aiohttp's message types. A message-loop iteration only yields the data, control and
   * ERROR kinds: it ends itself (StopAsyncIteration) on CLOSE, CLOSING and CLOSED, so
   * those three appear here only as kinds a schedule could name.
   */
  datatype MsgType = TEXT | BINARY | CONTINUATION | PING | PONG | CLOSE | CLOSING | CLOSED | ERROR

  /** A message payload: text for TEXT messages, bytes for BINARY ones. */
  datatype Data = Str(text: string) | Bin(bytes: Bytes)

  datatype Message = Message(kind: MsgType, data: Data)

  /** The two data-frame kinds of section 5.6 of RFC 6455. */
  datatype FrameKind = TextFrame | BinaryFrame

  /** What one `send_str` (TextFrame) or `send_bytes` (BinaryFrame) call writes. */
  datatype Frame = Frame(kind: FrameKind, data: Data)

  predicate IsData(m: Message)
  {
    m.kind == TEXT || m.kind == BINARY
  }

  /** The frame a data message is relayed as: same kind, same payload. */
  function FrameOf(m: Message): (f: Frame)
    requires IsData(m)
    ensures f.data == m.data
    ensures f.kind == TextFrame <==> m.kind == TEXT
  {
    Frame(if m.kind == TEXT then TextFrame else BinaryFrame, m.data)
  }

  /** The two pumps: client to server (`upstream()`) and server to client (`downstream()`). */
  datatype Side = ClientToServer | ServerToClient

  /**
   * The message types each pump's loop `break`s on. Since the iteration never yields
   * CLOSE or CLOSED, in the running program only ERROR reaches these `break`s; a closed
   * connection ends the loop by running out of messages, which is how `ClientEnds` and
   * `ServerEnds` end a pump.
   */
  predicate Stops(side: Side, kind: MsgType)
  {
    match side
    case ClientToServer => kind == ERROR || kind == CLOSE
    case ServerToClient => kind == CLOSED || kind == ERROR
  }

  /** The frames a pump relays from `msgs[from..]`: each data message before the first stop. */
  function PumpedFrom(msgs: seq<Message>, from: nat, side: Side): seq<Frame>
    requires from <= |msgs|
    decreases |msgs| - from
  {
    if from == |msgs| || Stops(side, msgs[from].kind) then []
    else (if IsData(msgs[from]) then [FrameOf(msgs[from])] else []) + PumpedFrom(msgs, from + 1, side)
  }

  /** The frames a pump relays from a whole message sequence. */
  function Pumped(msgs: seq<Message>, side: Side): seq<Frame>
  {
    PumpedFrom(msgs, 0, side)
  }

  /** A pump never relays anything that follows a stop message. */
  lemma {:induction false} PumpedIgnoresAfterStop(msgs: seq<Message>, k: nat, from: nat, side: Side)
    requires from <= k < |msgs| && Stops(side, msgs[k].kind)
    ensures PumpedFrom(msgs, from, side) == PumpedFrom(msgs[..k], from, side)
    decreases k - from
  {
    if from < k {
      assert msgs[..k][from] == msgs[from];
      PumpedIgnoresAfterStop(msgs, k, from + 1, side);
    }
  }

  /** Without a stop message every data message is relayed, in order and with its kind. */
  lemma {:induction false} PumpedKeepsAllData(msgs: seq<Message>, from: nat, side: Side)
    requires from <= |msgs|
    requires forall i :: from <= i < |msgs| ==> IsData(msgs[i])
    ensures |PumpedFrom(msgs, from, side)| == |msgs| - from
    ensures forall i :: from <= i < |msgs| ==> PumpedFrom(msgs, from, side)[i - from] == FrameOf(msgs[i])
    decreases |msgs| - from
  {
    if from < |msgs| {
      PumpedKeepsAllData(msgs, from + 1, side);
    }
  }

  /** A pump's progress: what it relayed so far, plus what the rest relays, is everything. */
  lemma PumpedFromStep(msgs: seq<Message>, i: nat, side: Side, out: seq<Frame>)
    requires i < |msgs| && out + PumpedFrom(msgs, i, side) == Pumped(msgs, side)
    ensures Stops(side, msgs[i].kind) ==> out == Pumped(msgs, side)
    ensures !Stops(side, msgs[i].kind) ==>
      out + (if IsData(msgs[i]) then [FrameOf(msgs[i])] else []) + PumpedFrom(msgs, i + 1, side) == Pumped(msgs, side)
  {
    if Stops(side, msgs[i].kind) {
      assert out + [] == out;
    }
  }

  // ---------------------------------------------------------------------------
  // Schedules: one interleaving of the bridge's three tasks
  // ---------------------------------------------------------------------------

  /**
   * One step of the running bridge. The caller's connection yields a message to
   * `upstream()` or ends its iteration (a normal end or a cancellation); the
   * scheduled `downstream()` task starts; the server's connection yields a message
   * to `downstream()` or ends; the drain task takes one queued frame.
   */
  datatype Event =
    | ClientSends(m: Message)
    | ClientEnds
    | ServerPumpStarts
    | ServerSends(m: Message)
    | ServerEnds
    | DrainRuns

  /** The event ends `upstream()`. */
  predicate ClientStops(e: Event)
  {
    e.ClientEnds? || (e.ClientSends? && Stops(ClientToServer, e.m.kind))
  }

  /** What `upstream()` queues on the event. */
  function ClientQueues(e: Event): seq<Frame>
  {
    if e.ClientSends? && IsData(e.m) then [FrameOf(e.m)] else []
  }

  /** The frames the caller sends through the bridge under `evs[from..]`, in order. */
  function ClientFramesFrom(evs: seq<Event>, from: nat): seq<Frame>
    requires from <= |evs|
    decreases |evs| - from
  {
    if from == |evs| || ClientStops(evs[from]) then []
    else ClientQueues(evs[from]) + ClientFramesFrom(evs, from + 1)
  }

  function ClientFrames(evs: seq<Event>): seq<Frame>
  {
    ClientFramesFrom(evs, 0)
  }

  /** The event ends `downstream()` whatever the state of the caller's connection. */
  predicate ServerStops(e: Event)
  {
    e.ServerEnds? || (e.ServerSends? && Stops(ServerToClient, e.m.kind))
  }

  /** What `downstream()` forwards on the event when the write succeeds. */
  function ServerRelays(e: Event): seq<Frame>
  {
    if e.ServerSends? && IsData(e.m) then [FrameOf(e.m)] else []
  }

  /** The frames the server sends through the bridge under `evs[from..]`, in order. */
  function ServerFramesFrom(evs: seq<Event>, from: nat): seq<Frame>
    requires from <= |evs|
    decreases |evs| - from
  {
    if from == |evs| || ServerStops(evs[from]) then []
    else ServerRelays(evs[from]) + ServerFramesFrom(evs, from + 1)
  }

  function ServerFrames(evs: seq<Event>): seq<Frame>
  {
    ServerFramesFrom(evs, 0)
  }

  predicate IsPrefix(a: seq<Frame>, b: seq<Frame>)
  {
    |a| <= |b| && b[..|a|] == a
  }

  /** One event's share of the caller's frames: what is queued so far, plus the rest, is everything. */
  lemma ClientFramesStep(evs: seq<Event>, i: nat, q: seq<Frame>, q': seq<Frame>)
    requires i < |evs| && q + ClientFramesFrom(evs, i) == ClientFrames(evs)
    requires q' == q + ClientQueues(evs[i])
    ensures ClientStops(evs[i]) ==> q' == ClientFrames(evs)
    ensures !ClientStops(evs[i]) ==> q' + ClientFramesFrom(evs, i + 1) == ClientFrames(evs)
  {
    if !ClientStops(evs[i]) {
      assert ClientFramesFrom(evs, i) == ClientQueues(evs[i]) + ClientFramesFrom(evs, i + 1);
    }
  }

  /** One event's share of the server's frames, as long as `downstream()` keeps running. */
  lemma ServerFramesStep(evs: seq<Event>, i: nat, f: seq<Frame>, f': seq<Frame>)
    requires i < |evs| && f + ServerFramesFrom(evs, i) == ServerFrames(evs)
    requires !ServerStops(evs[i]) && f' == f + ServerRelays(evs[i])
    ensures f' + ServerFramesFrom(evs, i + 1) == ServerFrames(evs)
  {
  }

  /** A pump that ends keeps what it relayed so far, a prefix of everything. */
  lemma ServerFramesPrefix(evs: seq<Event>, i: nat, f: seq<Frame>)
    requires i <= |evs| && f + ServerFramesFrom(evs, i) == ServerFrames(evs)
    ensures IsPrefix(f, ServerFrames(evs))
  {
    assert ServerFrames(evs)[..|f|] == f;
  }

  /** Frames written after `before` up to `d`, plus the frames still queued from `d` on, are all of them. */
  lemma DeliveredOrQueued(before: seq<Frame>, frames: seq<Frame>, d: nat, sent: seq<Frame>, queued: seq<Frame>)
    requires d <= |frames| && sent == before + frames[..d] && queued == frames[d..]
    ensures sent + queued == before + frames
  {
    assert frames[..d] + frames[d..] == frames;
  }

  /** A schedule made only of the caller's data messages sends all of them, in order and with their kind. */
  lemma {:induction false} ClientFramesOfMessages(evs: seq<Event>, from: nat)
    requires from <= |evs|
    requires forall i :: from <= i < |evs| ==> evs[i].ClientSends? && IsData(evs[i].m)
    ensures |ClientFramesFrom(evs, from)| == |evs| - from
    ensures forall i :: from <= i < |evs| ==> ClientFramesFrom(evs, from)[i - from] == FrameOf(evs[i].m)
    decreases |evs| - from
  {
    if from < |evs| {
      ClientFramesOfMessages(evs, from + 1);
    }
  }

  /** Events of the server's side and of the drain task leave what the caller sends unchanged. */
  lemma {:induction false} ClientFramesSkipOthers(evs: seq<Event>, from: nat, k: nat)
    requires from <= k <= |evs|
    requires forall i :: from <= i < k ==> !evs[i].ClientSends? && !evs[i].ClientEnds?
    ensures ClientFramesFrom(evs, from) == ClientFramesFrom(evs, k)
    decreases k - from
  {
    if from < k {
      ClientFramesSkipOthers(evs, from + 1, k);
    }
  }

  // ---------------------------------------------------------------------------
  // A WebSocket connection, as far as the bridge uses it
  // ---------------------------------------------------------------------------

  class WebSocket {
    var closed: bool
    /** Every data frame written to this connection, in order. */
    var sent: seq<Frame>

    constructor (closed: bool, sent: seq<Frame>)
      ensures this.closed == closed && this.sent == sent
    {
      this.closed := closed;
      this.sent := sent;
    }

    /** `send_str` / `send_bytes`: writing to a closed connection fails and writes nothing. */
    method Send(f: Frame) returns (ok: bool)
      modifies this
      ensures ok == !old(closed)
      ensures closed == old(closed)
      ensures sent == if ok then old(sent) + [f] else old(sent)
    {
      ok := !closed;
      if ok {
        sent := sent + [f];
      }
    }

    /** `close()`: the connection is closed afterwards; no data frame is written. */
    method Close()
      modifies this
      ensures closed && sent == old(sent)
    {
      closed := true;
    }
  }

  // ---------------------------------------------------------------------------
  // The bridge
  // ---------------------------------------------------------------------------

  /** `upstream_buffer_task`: None until `downstream()` creates it, then running until cancelled. */
  datatype TaskState = NotCreated | Running | Finished

  /** The `downstream()` task: scheduled but not yet started, pumping, or past its `finally`. */
  datatype PumpState = Scheduled | Pumping | Ended

  class WebSocketProxy {
    const upConn: WebSocket
    const downConn: WebSocket
    /** The FIFO of (payload, kind) pairs waiting to be written upstream. */
    var upstreamBuffer: seq<Frame>
    var upstreamBufferTask: TaskState
    /** `upstream()` has run its `finally`. */
    var clientPumpEnded: bool
    var serverPump: PumpState

    /** Every frame ever queued, how many were taken off the queue, and how many of those were written. */
    ghost var enqueued: seq<Frame>
    ghost var dequeued: nat
    ghost var delivered: nat
    /** What each connection had carried before the bridge was built. */
    ghost const upSentBefore: seq<Frame>

    /**
     * The bridge invariant. The queue holds exactly the frames not yet taken; what the
     * server received is the queued frames in order, up to `delivered`; a taken frame
     * is dropped only once the upstream connection is closed. Each pump's `finally`
     * leaves its target connection closed, and the drain task is finished with it.
     */
    ghost predicate Valid()
      reads this, upConn, downConn
    {
      && upConn != downConn
      && dequeued <= |enqueued|
      && upstreamBuffer == enqueued[dequeued..]
      && delivered <= dequeued
      && upConn.sent == upSentBefore + enqueued[..delivered]
      && (delivered < dequeued ==> upConn.closed)
      && (clientPumpEnded ==> downConn.closed)
      && (serverPump == Ended ==> upConn.closed && upstreamBufferTask == Finished)
      && (upstreamBufferTask == NotCreated <==> serverPump == Scheduled)
    }

    /** The state `__init__` leaves: nothing queued, relayed or started yet. */
    ghost predicate Fresh()
      reads this
    {
      && upstreamBuffer == [] && upstreamBufferTask == NotCreated
      && !clientPumpEnded && serverPump == Scheduled
      && enqueued == [] && dequeued == 0 && delivered == 0
    }

    constructor (up: WebSocket, down: WebSocket)
      requires up != down
      ensures upConn == up && downConn == down
      ensures Valid() && Fresh()
    {
      upConn, downConn := up, down;
      upstreamBuffer := [];
      upstreamBufferTask := NotCreated;
      clientPumpEnded := false;
      serverPump := Scheduled;
      enqueued, dequeued, delivered := [], 0, 0;
      upSentBefore := up.sent;
    }

    /** `send`: puts a frame at the back of the queue. */
    method Send(f: Frame)
      requires Valid()
      modifies this
      ensures Valid()
      ensures upstreamBuffer == old(upstreamBuffer) + [f]
      ensures enqueued == old(enqueued) + [f]
      ensures dequeued == old(dequeued) && delivered == old(delivered) && downConn.sent == old(downConn.sent)
      ensures upstreamBufferTask == old(upstreamBufferTask)
      ensures clientPumpEnded == old(clientPumpEnded) && serverPump == old(serverPump)
    {
      upstreamBuffer := upstreamBuffer + [f];
      enqueued := enqueued + [f];
    }

    /**
     * One turn of `consume_upstream_buffer`: when the task runs and a frame is queued,
     * take the front frame and write it upstream with its own kind if the upstream
     * connection is open; a frame taken while it is closed is dropped, not requeued.
     */
    method ConsumeOne() returns (took: bool)
      requires Valid()
      modifies this, upConn
      ensures Valid()
      ensures took == (old(upstreamBufferTask) == Running && old(upstreamBuffer) != [])
      ensures took ==> upstreamBuffer == old(upstreamBuffer)[1..]
      ensures took ==> upConn.sent == old(upConn.sent) + (if old(upConn.closed) then [] else [old(upstreamBuffer)[0]])
      ensures !took ==> upstreamBuffer == old(upstreamBuffer) && upConn.sent == old(upConn.sent)
      ensures upConn.closed == old(upConn.closed)
      ensures enqueued == old(enqueued) && downConn.sent == old(downConn.sent)
      ensures upstreamBufferTask == old(upstreamBufferTask)
      ensures clientPumpEnded == old(clientPumpEnded) && serverPump == old(serverPump)
    {
      if upstreamBufferTask != Running || upstreamBuffer == [] {
        return false;
      }
      var f := upstreamBuffer[0];
      upstreamBuffer := upstreamBuffer[1..];
      dequeued := dequeued + 1;
      if !upConn.closed {
        var _ := upConn.Send(f);
        delivered := delivered + 1;
      }
      took := true;
    }

    /**
     * `consume_upstream_buffer` running until it waits on an empty queue: every
     * queued frame is written upstream, in order, when the connection is open.
     */
    method ConsumeUpstreamBuffer()
      requires Valid()
      modifies this, upConn
      ensures Valid()
      ensures old(upstreamBufferTask) == Running ==> upstreamBuffer == []
      ensures old(upstreamBufferTask) == Running ==>
        upConn.sent == old(upConn.sent) + (if old(upConn.closed) then [] else old(upstreamBuffer))
      ensures old(upstreamBufferTask) != Running ==>
        upstreamBuffer == old(upstreamBuffer) && upConn.sent == old(upConn.sent)
      ensures upConn.closed == old(upConn.closed)
      ensures enqueued == old(enqueued) && downConn.sent == old(downConn.sent)
      ensures upstreamBufferTask == old(upstreamBufferTask)
      ensures clientPumpEnded == old(clientPumpEnded) && serverPump == old(serverPump)
    {
      ghost var queue := upstreamBuffer;
      ghost var k := 0;
      var took := true;
      while took
        invariant Valid()
        invariant 0 <= k <= |queue|
        invariant upstreamBufferTask == old(upstreamBufferTask)
        invariant old(upstreamBufferTask) == Running ==> upstreamBuffer == queue[k..]
        invariant old(upstreamBufferTask) == Running ==>
          upConn.sent == old(upConn.sent) + (if old(upConn.closed) then [] else queue[..k])
        invariant old(upstreamBufferTask) != Running ==>
          upstreamBuffer == old(upstreamBuffer) && upConn.sent == old(upConn.sent)
        invariant !took ==> old(upstreamBufferTask) != Running || upstreamBuffer == []
        invariant upConn.closed == old(upConn.closed)
        invariant enqueued == old(enqueued) && downConn.sent == old(downConn.sent)
        invariant clientPumpEnded == old(clientPumpEnded) && serverPump == old(serverPump)
        decreases |upstreamBuffer|, took
      {
        took := ConsumeOne();
        if took {
          assert queue[..k + 1] == queue[..k] + [queue[k]];
          k := k + 1;
        }
      }
    }

    /** `close_downstream`: closes the caller's connection if it is still open. */
    method CloseDownstream()
      requires Valid()
      modifies downConn
      ensures Valid()
      ensures downConn.closed && downConn.sent == old(downConn.sent)
    {
      if !downConn.closed {
        downConn.Close();
      }
    }

    /**
     * `close_upstream`: cancels the drain task if it is not done (the frames still
     * queued are abandoned), then closes the server connection if it is still open.
     * The task must exist: on None, `done()` would raise.
     */
    method CloseUpstream()
      requires Valid() && upstreamBufferTask != NotCreated
      modifies this, upConn
      ensures Valid()
      ensures upstreamBufferTask == Finished && upConn.closed
      ensures upConn.sent == old(upConn.sent)
      ensures upstreamBuffer == old(upstreamBuffer)
      ensures enqueued == old(enqueued) && dequeued == old(dequeued)
      ensures delivered == old(delivered) && downConn.sent == old(downConn.sent)
      ensures clientPumpEnded == old(clientPumpEnded) && serverPump == old(serverPump)
    {
      if upstreamBufferTask != Finished {
        upstreamBufferTask := Finished;
      }
      if !upConn.closed {
        upConn.Close();
      }
    }

    // -------------------------------------------------------------------------
    // upstream(): the client-to-server pump
    // -------------------------------------------------------------------------

    /** One pass of the `async for` body of `upstream()`; `stop` is its `break`. */
    method UpstreamReceive(m: Message) returns (stop: bool)
      requires Valid() && !clientPumpEnded
      modifies this
      ensures Valid()
      ensures stop == Stops(ClientToServer, m.kind)
      ensures enqueued == old(enqueued) + (if IsData(m) then [FrameOf(m)] else [])
      ensures upstreamBuffer == old(upstreamBuffer) + (if IsData(m) then [FrameOf(m)] else [])
      ensures dequeued == old(dequeued) && delivered == old(delivered) && downConn.sent == old(downConn.sent)
      ensures upstreamBufferTask == old(upstreamBufferTask)
      ensures clientPumpEnded == old(clientPumpEnded) && serverPump == old(serverPump)
    {
      stop := false;
      if m.kind == TEXT || m.kind == BINARY {
        Send(FrameOf(m));
      } else if m.kind == ERROR {
        // the failure is logged
        stop := true;
      } else if m.kind == CLOSE {
        stop := true;
      }
    }

    /** The `finally` of `upstream()`, reached on a stop message, the end of the stream or cancellation. */
    method UpstreamFinish()
      requires Valid()
      modifies this, downConn
      ensures Valid()
      ensures clientPumpEnded && downConn.closed
      ensures downConn.sent == old(downConn.sent)
      ensures upstreamBuffer == old(upstreamBuffer) && enqueued == old(enqueued)
      ensures dequeued == old(dequeued) && delivered == old(delivered) && downConn.sent == old(downConn.sent)
      ensures upstreamBufferTask == old(upstreamBufferTask) && serverPump == old(serverPump)
    {
      CloseDownstream();
      clientPumpEnded := true;
    }

    /**
     * `upstream()` over the finite sequence of messages the caller's connection
     * yields: the data messages before the first ERROR or CLOSE are queued in
     * order with their kind, and the caller's connection is closed at the end.
     */
    method Upstream(msgs: seq<Message>)
      requires Valid() && !clientPumpEnded
      modifies this, downConn
      ensures Valid()
      ensures clientPumpEnded && downConn.closed
      ensures enqueued == old(enqueued) + Pumped(msgs, ClientToServer)
      ensures upstreamBuffer == old(upstreamBuffer) + Pumped(msgs, ClientToServer)
      ensures dequeued == old(dequeued) && delivered == old(delivered) && downConn.sent == old(downConn.sent)
      ensures upstreamBufferTask == old(upstreamBufferTask) && serverPump == old(serverPump)
    {
      ghost var e0, b0 := enqueued, upstreamBuffer;
      // the frames queued so far
      ghost var out: seq<Frame> := [];
      var i := 0;
      while i < |msgs|
        invariant Valid() && !clientPumpEnded
        invariant 0 <= i <= |msgs|
        invariant enqueued == e0 + out && upstreamBuffer == b0 + out
        invariant out + PumpedFrom(msgs, i, ClientToServer) == Pumped(msgs, ClientToServer)
        invariant dequeued == old(dequeued) && delivered == old(delivered) && downConn.sent == old(downConn.sent)
        invariant upstreamBufferTask == old(upstreamBufferTask) && serverPump == old(serverPump)
      {
        PumpedFromStep(msgs, i, ClientToServer, out);
        var stop := UpstreamReceive(msgs[i]);
        if stop {
          break;
        }
        out := out + (if IsData(msgs[i]) then [FrameOf(msgs[i])] else []);
        i := i + 1;
      }
      if i == |msgs| {
        assert out + [] == out;
      }
      UpstreamFinish();
    }

    // -------------------------------------------------------------------------
    // downstream(): the server-to-client pump
    // -------------------------------------------------------------------------

    /** The start of `downstream()`: it creates the drain task. */
    method DownstreamStart()
      requires Valid() && serverPump == Scheduled
      modifies this
      ensures Valid()
      ensures serverPump == Pumping && upstreamBufferTask == Running
      ensures upstreamBuffer == old(upstreamBuffer) && enqueued == old(enqueued)
      ensures dequeued == old(dequeued) && delivered == old(delivered) && downConn.sent == old(downConn.sent)
      ensures clientPumpEnded == old(clientPumpEnded)
    {
      upstreamBufferTask := Running;
      serverPump := Pumping;
    }

    /**
     * One pass of the `async for` body of `downstream()`: TEXT is forwarded with
     * `send_str`, BINARY with `send_bytes`; CLOSED or ERROR is a `break`, and so is a
     * write that fails because the caller's connection is closed (the exception is
     * logged and the loop left).
     */
    method DownstreamReceive(m: Message) returns (stop: bool)
      requires Valid() && serverPump == Pumping
      modifies this, downConn
      ensures Valid()
      ensures stop == (Stops(ServerToClient, m.kind) || (IsData(m) && old(downConn.closed)))
      ensures downConn.sent == old(downConn.sent) + (if IsData(m) && !old(downConn.closed) then [FrameOf(m)] else [])
      ensures downConn.closed == old(downConn.closed)
      ensures upstreamBuffer == old(upstreamBuffer) && enqueued == old(enqueued)
      ensures dequeued == old(dequeued) && delivered == old(delivered)
      ensures upstreamBufferTask == old(upstreamBufferTask)
      ensures clientPumpEnded == old(clientPumpEnded) && serverPump == old(serverPump)
    {
      stop := false;
      if m.kind == TEXT || m.kind == BINARY {
        var ok := downConn.Send(FrameOf(m));
        stop := !ok;
      } else if m.kind == CLOSED {
        stop := true;
      } else if m.kind == ERROR {
        stop := true;
      }
    }

    /** The `finally` of `downstream()`: `close_upstream`. */
    method DownstreamFinish()
      requires Valid() && serverPump == Pumping
      modifies this, upConn
      ensures Valid()
      ensures serverPump == Ended && upstreamBufferTask == Finished && upConn.closed
      ensures upConn.sent == old(upConn.sent)
      ensures upstreamBuffer == old(upstreamBuffer) && enqueued == old(enqueued)
      ensures dequeued == old(dequeued) && delivered == old(delivered) && downConn.sent == old(downConn.sent)
      ensures clientPumpEnded == old(clientPumpEnded)
    {
      CloseUpstream();
      serverPump := Ended;
    }

    /**
     * The `async for` loop of `downstream()` over the finite sequence of messages the
     * server's connection yields: the data messages before the first CLOSED or ERROR
     * reach the caller in order with their kind, none if the caller's connection is
     * already closed (the first write fails and ends the loop).
     */
    method DownstreamLoop(msgs: seq<Message>)
      requires Valid() && serverPump == Pumping
      modifies this, downConn
      ensures Valid() && serverPump == Pumping
      ensures downConn.sent == old(downConn.sent) + (if old(downConn.closed) then [] else Pumped(msgs, ServerToClient))
      ensures downConn.closed == old(downConn.closed)
      ensures upstreamBuffer == old(upstreamBuffer) && enqueued == old(enqueued)
      ensures dequeued == old(dequeued) && delivered == old(delivered)
      ensures upstreamBufferTask == old(upstreamBufferTask) && clientPumpEnded == old(clientPumpEnded)
    {
      ghost var closed, f0 := downConn.closed, downConn.sent;
      // the frames relayed so far
      ghost var out: seq<Frame> := [];
      var i := 0;
      while i < |msgs|
        invariant Valid() && serverPump == Pumping
        invariant 0 <= i <= |msgs|
        invariant downConn.closed == closed
        invariant downConn.sent == f0 + out
        invariant closed ==> out == []
        invariant !closed ==> out + PumpedFrom(msgs, i, ServerToClient) == Pumped(msgs, ServerToClient)
        invariant upstreamBuffer == old(upstreamBuffer) && enqueued == old(enqueued)
        invariant dequeued == old(dequeued) && delivered == old(delivered)
        invariant upstreamBufferTask == old(upstreamBufferTask) && clientPumpEnded == old(clientPumpEnded)
      {
        var m := msgs[i];
        if !closed {
          PumpedFromStep(msgs, i, ServerToClient, out);
        }
        var stop := DownstreamReceive(m);
        if stop {
          break;
        }
        out := out + (if IsData(m) && !closed then [FrameOf(m)] else []);
        i := i + 1;
      }
      if i == |msgs| && !closed {
        assert out + [] == out;
      }
    }

    /**
     * `downstream()` run without interruption: the drain task is created, the
     * server's messages are relayed as `DownstreamLoop` states, and then the drain
     * task is cancelled and the server connection closed.
     */
    method Downstream(msgs: seq<Message>)
      requires Valid() && serverPump == Scheduled
      modifies this, upConn, downConn
      ensures Valid()
      ensures serverPump == Ended && upstreamBufferTask == Finished && upConn.closed
      ensures downConn.sent == old(downConn.sent) + (if old(downConn.closed) then [] else Pumped(msgs, ServerToClient))
      ensures upConn.sent == old(upConn.sent) && upstreamBuffer == old(upstreamBuffer)
      ensures enqueued == old(enqueued) && clientPumpEnded == old(clientPumpEnded)
    {
      DownstreamStart();
      DownstreamLoop(msgs);
      DownstreamFinish();
    }

    /**
     * One event of a schedule, applied to the running bridge. Events aimed at a pump
     * that has already ended are not delivered to it; a server event that arrives
     * before `downstream()` has started starts it first.
     */
    method Step(e: Event) returns (ghost relayed: seq<Frame>)
      requires Valid()
      modifies this, upConn, downConn
      ensures Valid()
      ensures downConn.sent == old(downConn.sent) + relayed
      ensures old(clientPumpEnded) ==> clientPumpEnded && enqueued == old(enqueued)
      ensures !old(clientPumpEnded) ==>
        clientPumpEnded == ClientStops(e) && enqueued == old(enqueued) + ClientQueues(e)
      ensures old(serverPump) == Ended ==> serverPump == Ended && relayed == []
      ensures old(serverPump) != Ended && serverPump == Ended ==> relayed == []
      ensures old(serverPump) != Ended && serverPump != Ended ==> !ServerStops(e) && relayed == ServerRelays(e)
    {
      relayed := [];
      match e
      case ClientSends(m) =>
        if !clientPumpEnded {
          var stop := UpstreamReceive(m);
          if stop {
            UpstreamFinish();
          }
        }
      case ClientEnds =>
        if !clientPumpEnded {
          UpstreamFinish();
        }
      case ServerPumpStarts =>
        if serverPump == Scheduled {
          DownstreamStart();
        }
      case ServerSends(m) =>
        if serverPump != Ended {
          if serverPump == Scheduled {
            DownstreamStart();
          }
          var stop := DownstreamReceive(m);
          if stop {
            DownstreamFinish();
          } else {
            relayed := ServerRelays(e);
          }
        }
      case ServerEnds =>
        if serverPump != Ended {
          if serverPump == Scheduled {
            DownstreamStart();
          }
          DownstreamFinish();
        }
      case DrainRuns =>
        var _ := ConsumeOne();
    }

    /**
     * `proxy()` together with the tasks it starts, run under a finite schedule; when
     * the schedule ends while `upstream()` still runs, the caller's iteration ends.
     * The server receives a prefix of the caller's frames in order, and while its
     * connection is open every frame the caller sent is either delivered or still
     * queued; the caller receives a prefix of the server's frames in order. When
     * `proxy()` returns the caller's connection is closed, and once `downstream()`
     * has ended the server connection is closed and the drain task is finished.
     */
    method Proxy(schedule: seq<Event>) returns (ghost forwarded: seq<Frame>)
      requires Valid() && Fresh()
      modifies this, upConn, downConn
      ensures Valid()
      ensures clientPumpEnded && downConn.closed
      ensures enqueued == ClientFrames(schedule)
      ensures upConn.sent == old(upConn.sent) + ClientFrames(schedule)[..delivered]
      ensures !upConn.closed ==> upConn.sent + upstreamBuffer == old(upConn.sent) + ClientFrames(schedule)
      ensures downConn.sent == old(downConn.sent) + forwarded
      ensures IsPrefix(forwarded, ServerFrames(schedule))
      ensures serverPump == Ended ==> upConn.closed && upstreamBufferTask == Finished
    {
      forwarded := [];
      assert upConn.sent == upSentBefore;
      var i := 0;
      while i < |schedule|
        invariant Valid()
        invariant downConn.sent == old(downConn.sent) + forwarded
        invariant 0 <= i <= |schedule|
        invariant clientPumpEnded ==> enqueued == ClientFrames(schedule)
        invariant !clientPumpEnded ==> enqueued + ClientFramesFrom(schedule, i) == ClientFrames(schedule)
        invariant serverPump != Ended ==> forwarded + ServerFramesFrom(schedule, i) == ServerFrames(schedule)
        invariant serverPump == Ended ==> IsPrefix(forwarded, ServerFrames(schedule))
      {
        ghost var q, f, clientWasOn, serverWasOn := enqueued, forwarded, !clientPumpEnded, serverPump != Ended;
        var relayed := Step(schedule[i]);
        forwarded := forwarded + relayed;
        if clientWasOn {
          ClientFramesStep(schedule, i, q, enqueued);
        }
        if serverWasOn {
          if serverPump != Ended {
            ServerFramesStep(schedule, i, f, forwarded);
          } else {
            ServerFramesPrefix(schedule, i, f);
          }
        }
        i := i + 1;
      }
      if !clientPumpEnded {
        UpstreamFinish();
      }
      if !upConn.closed {
        DeliveredOrQueued(upSentBefore, enqueued, delivered, upConn.sent, upstreamBuffer);
      }
    }
  }
  // ---------------------------------------------------------------------------
  // websocket_handler
  // ---------------------------------------------------------------------------

  /** The request `websocket_handler` opens upstream: the caller's method, query and content type, the rewritten path. */
  datatype WsRequest = WsRequest(httpMethod: string, path: string, query: seq<(string, string)>, contentType: string)

  /** What opening the upstream WebSocket through the signed API client gave. */
  datatype ConnectOutcome = Connected(conn: WebSocket) | ConnectFailed(fault: ProxyHttp.Fault)

  datatype WsResult = Bridged(down: WebSocket) | WsReplied(reply: ProxyHttp.Reply)

  /**
   * `websocket_handler`: rewrites the path as `web_handler` does, opens the upstream
   * WebSocket, prepares the caller's WebSocket and runs the bridge over it until
   * `proxy()` returns, then hands the caller's (now closed) connection back; leaving
   * `async with api_rqst.connect_websocket() as up_conn` closes the upstream WebSocket.
   * A failure to connect is answered with the same reply `web_handler` gives.
   */
  method WebSocketHandler(httpMethod: string, path: string, query: seq<(string, string)>,
                          contentType: string, upstream: ConnectOutcome, schedule: seq<Event>)
    returns (sent: WsRequest, result: WsResult)
    modifies if upstream.Connected? then {upstream.conn} else {}
    ensures sent == WsRequest(httpMethod, ProxyRoutes.RewritePath(path), query, contentType)
    ensures upstream.ConnectFailed? ==> result == WsReplied(ProxyHttp.ErrorReply(upstream.fault))
    ensures upstream.Connected? ==>
      result.Bridged? && fresh(result.down) && result.down.closed &&
      IsPrefix(result.down.sent, ServerFrames(schedule)) &&
      exists k :: 0 <= k <= |ClientFrames(schedule)| &&
        upstream.conn.sent == old(upstream.conn.sent) + ClientFrames(schedule)[..k]
    ensures upstream.Connected? ==> upstream.conn.closed
  {
    sent := WsRequest(httpMethod, ProxyRoutes.RewritePath(path), query, contentType);
    match upstream
    case ConnectFailed(f) =>
      result := WsReplied(ProxyHttp.ErrorReply(f));
    case Connected(up) =>
      var down := new WebSocket(false, []);
      var bridge := new WebSocketProxy(up, down);
      ghost var forwarded := bridge.Proxy(schedule);
      assert down.sent == forwarded;
      up.Close();
      result := Bridged(down);
  }
}
