/**
 * Whole rendezvous runs over a fresh kernel, composed from the system calls
 * of `Sockets`: a listen on an occupied port, the order in which an accept
 * serves connectors, the outcome of a connect as `sys_Accept` is written,
 * and the same run with an accept that connects both sides.
 */
module Rendezvous {
  import opened Wrappers
  import opened Pipes
  import opened Sockets

  /** PORT_MAP at kernel start: every slot NULL. */
  function NoPorts(): (r: seq<Option<FcbId>>)
  {
    seq(MAX_PORT + 1, _ => None)
  }

  /** The tables with two UNBOUND sockets on `port`, behind file ids 0 and 1 and FCBs 10 and 11. */
  function Unbound(port: int): (r: Tables)
  {
    Tables(NoPorts(), map[0 := 10, 1 := 11], map[10 := 0, 11 := 1],
           map[0 := NewUnbound(port, 10), 1 := NewUnbound(port, 11)], map[], 2, 0)
  }

  /** Listening with socket 0 on its free port gives `Listening(port)`. */
  lemma ListenFirst(port: int)
    requires 1 <= port <= MAX_PORT
    ensures Lookup(Unbound(port), 0) == Some(0) && Unbound(port).portMap[port].None?
    ensures Listened(Unbound(port), 0) == Listening(port)
  {
  }

  /** A new kernel with two UNBOUND sockets on `port`, behind file ids 0 and 1 and FCBs 10 and 11. */
  method TwoSockets(port: int) returns (k: Kernel)
    requires 1 <= port <= MAX_PORT
    ensures fresh(k) && k.Valid()
    ensures k.View() == Unbound(port)
  {
    k := new Kernel();
    var f0 := k.SysSocket(port, Some((0, 10)));
    assert k.fidt == map[0 := 10] && k.fidt.Values == {10};
    var f1 := k.SysSocket(port, Some((1, 11)));
  }

  /**
   * The tables with a LISTENER on `port` behind file id 0 (FCB 10) and an
   * UNBOUND socket on the same port behind file id 1 (FCB 11).
   */
  function Listening(port: int): (r: Tables)
    requires 1 <= port <= MAX_PORT
  {
    Tables(NoPorts()[port := Some(10)], map[0 := 10, 1 := 11], map[10 := 0, 11 := 1],
           map[0 := NewUnbound(port, 10).(stype := SocketListener), 1 := NewUnbound(port, 11)], map[], 2, 0)
  }

  /** A new kernel whose tables are `Listening(port)`; the listen succeeds. */
  method Setup(port: int) returns (k: Kernel)
    requires 1 <= port <= MAX_PORT
    ensures fresh(k) && k.Valid() && k.View() == Listening(port)
  {
    k := TwoSockets(port);
    ListenFirst(port);
    var r := k.SysListen(0);
  }

  /**
   * PORT_MAP has room for one listener per port: with socket 0 listening on
   * `port`, socket 1, UNBOUND on the same port, cannot listen too.
   */
  method ListenTwice(port: int) returns (first: int, second: int)
    requires 1 <= port <= MAX_PORT
    ensures first == 0 && second == -1
  {
    var k := TwoSockets(port);
    ListenFirst(port);
    first := k.SysListen(0);
    assert Lookup(Listening(port), 1) == Some(1);
    second := k.SysListen(1);
  }

  /**
   * Once socket 0 is closed, its file id no longer reaches it: listening
   * through file id 0 fails with -1 and PORT_MAP stays empty.
   */
  method ListenAfterClose(port: int) returns (closed: int, listened: int)
    requires 1 <= port <= MAX_PORT
    ensures closed == 0 && listened == -1
  {
    var k := TwoSockets(port);
    closed := k.SocketClose(0);
    listened := k.SysListen(0);
  }

  /** What `Setup` gives lets socket 1 connect to `port`, where socket 0 listens. */
  lemma ConnectFirst(port: int)
    requires 1 <= port <= MAX_PORT
    ensures var t := Listening(port);
      && Lookup(t, 1) == Some(1) && t.sockets[1].stype == SocketUnbound
      && ListenerAt(t, port) == Some(0) && t.sockets[0].stype == SocketListener
  {
  }

  /** The tables once socket 1 has queued its request (request 0) at socket 0. */
  function Queued(port: int): (r: Tables)
    requires 1 <= port <= MAX_PORT
  {
    Enqueued(Listening(port), 1, 0)
  }

  /** A new kernel whose tables are `Queued(port)`: socket 1's connect is waiting. */
  method Queue(port: int) returns (k: Kernel)
    requires 1 <= port <= MAX_PORT
    ensures fresh(k) && k.Valid() && k.View() == Queued(port)
  {
    k := Setup(port);
    ConnectFirst(port);
    var pending := k.ConnectBegin(1, port);
  }

  /** With request 0 waiting, socket 0 can accept into file id 2 and FCB 12. */
  lemma QueuedFacts(port: int)
    requires 1 <= port <= MAX_PORT
    ensures var t := Queued(port);
      && Lookup(t, 0) == Some(0) && t.sockets[0].stype == SocketListener
      && t.sockets[0].queue == [0] && Oldest(t, 0) == 0 && t.requests[0] == Request(false, 1, 0)
      && t.sockets[1].fcb == Some(11) && t.nextSock == 2
      && FreshReservation(t, (2, 12)) && Connectable(t, 0)
  {
    var t := Queued(port);
    assert t.fidt == map[0 := 10, 1 := 11];
    forall v | v in t.fidt.Values
      ensures v != 12
    {
      var f :| f in t.fidt && t.fidt[f] == v;
    }
  }

  /**
   * After `sys_Accept` as written and the end of `sys_Connect`, the requester
   * is still UNBOUND while the new socket is a PEER on NULL pipes.
   */
  lemma ServedFacts(port: int)
    requires 1 <= port <= MAX_PORT
    ensures var t := Accepted(Queued(port), 0, 2, 12);
      && 0 in t.requests && t.requests[0].admitted
      && t.requests[0].peer in t.sockets && t.requests[0].listener in t.sockets
      && var t' := Dequeued(t, 0);
      && 1 in t'.sockets && t'.sockets[1].stype == SocketUnbound && t'.sockets[1].writePipe == null
      && 2 in t'.sockets && t'.sockets[2].stype == SocketPeer
      && t'.sockets[2].readPipe == null && t'.sockets[2].writePipe == null
  {
    QueuedFacts(port);
  }

  /**
   * A connect that `sys_Accept` serves, as the code is written: the accept
   * returns the new file id and the connect reports success (0), yet the
   * connecting socket was never made a PEER, so writing to it fails with -1,
   * and the accepted socket is a PEER whose read pipe is NULL.
   */
  method RendezvousAsWritten(port: int, data: seq<byte>)
    returns (accepted: Fid, connected: int, sent: int, acceptorPipe: PipeCB?)
    requires 1 <= port <= MAX_PORT
    ensures accepted == 2 && connected == 0 && sent == -1 && acceptorPipe == null
  {
    var k;
    k, accepted, connected := ServeAsWritten(port);
    sent := k.SocketWrite(1, data, |data|);
    acceptorPipe := k.sockets[2].readPipe;
  }

  /** `sys_Accept` as written serving socket 1's request, then the end of its connect. */
  method ServeAsWritten(port: int) returns (k: Kernel, accepted: Fid, connected: int)
    requires 1 <= port <= MAX_PORT
    ensures fresh(k) && k.Valid() && accepted == 2 && connected == 0
    ensures 1 in k.sockets && k.sockets[1].stype == SocketUnbound && k.sockets[1].writePipe == null
    ensures 2 in k.sockets && k.sockets[2].stype == SocketPeer && k.sockets[2].readPipe == null
  {
    k := Queue(port);
    QueuedFacts(port);
    accepted := k.SysAccept(0, Some((2, 12)));
    ServedFacts(port);
    connected := k.ConnectFinish(0);
  }

  /**
   * After the accept that connects both sides, request 0 is admitted and the
   * requester writes into `toA`, which the new socket reads from.
   */
  lemma ConnectedFacts(port: int, toA: PipeCB, toC: PipeCB)
    requires 1 <= port <= MAX_PORT
    ensures var t := AcceptConnected(Queued(port), 0, 2, 12, toA, toC);
      && 0 in t.requests && t.requests[0].admitted
      && t.requests[0].peer in t.sockets && t.requests[0].listener in t.sockets
      && 1 in t.sockets && t.sockets[1].stype == SocketPeer && t.sockets[1].writePipe == toA
      && t.sockets[1].readPipe == toC && Lookup(t, 1) == Some(1)
      && 2 in t.sockets && t.sockets[2].stype == SocketPeer && t.sockets[2].readPipe == toA
  {
    QueuedFacts(port);
  }

  /**
   * The same run with the accept that connects both sides: the connect
   * succeeds, and the bytes the requester writes are the bytes the accepted
   * socket reads.
   */
  method RendezvousConnected(port: int, data: seq<byte>)
    returns (connected: int, sent: int, received: int, got: seq<byte>)
    requires 1 <= port <= MAX_PORT && |data| <= PIPE_BUFFER_SIZE - 1
    ensures connected == 0 && sent == 0 && received == 0 && got == data
  {
    var k, toA, toC;
    k, toA, toC, connected, sent := Send(port, data);
    var buf := new byte[|data|];
    received := k.SocketRead(2, buf, |data|);
    got := buf[..];
  }

  /**
   * A kernel where socket 0 has accepted socket 1's request through the
   * accept that connects both sides; `toA` carries data from socket 1 to the
   * new socket 2.
   */
  method AcceptBoth(port: int) returns (k: Kernel, toA: PipeCB, toC: PipeCB)
    requires 1 <= port <= MAX_PORT
    ensures fresh(k) && fresh(toA) && fresh(toA.buffer) && fresh(toC) && fresh(toC.buffer) && k.Valid()
    ensures 0 in k.requests && k.requests[0].admitted
    ensures k.requests[0].peer in k.sockets && k.requests[0].listener in k.sockets
    ensures 1 in k.sockets && k.sockets[1].stype == SocketPeer && k.sockets[1].writePipe == toA
    ensures k.sockets[1].readPipe == toC && Lookup(k.View(), 1) == Some(1)
    ensures 2 in k.sockets && k.sockets[2].stype == SocketPeer && k.sockets[2].readPipe == toA
    ensures EmptyPipe(toA, Some(12), Some(11)) && EmptyPipe(toC, Some(11), Some(12))
  {
    k := Queue(port);
    QueuedFacts(port);
    assert k.sockets[Lookup(k.View(), 0).value].stype == SocketListener;
    var fid, a, c := k.SysAcceptConnected(0, Some((2, 12)));
    toA, toC := a, c;
    ConnectedFacts(port, toA, toC);
  }

  /** `AcceptBoth` followed by the end of socket 1's connect, which succeeds. */
  method ConnectBoth(port: int) returns (k: Kernel, toA: PipeCB, toC: PipeCB, connected: int)
    requires 1 <= port <= MAX_PORT
    ensures fresh(k) && fresh(toA) && fresh(toA.buffer) && fresh(toC) && fresh(toC.buffer) && k.Valid()
    ensures 1 in k.sockets && k.sockets[1].stype == SocketPeer && k.sockets[1].writePipe == toA
    ensures k.sockets[1].readPipe == toC && Lookup(k.View(), 1) == Some(1)
    ensures 2 in k.sockets && k.sockets[2].stype == SocketPeer && k.sockets[2].readPipe == toA
    ensures EmptyPipe(toA, Some(12), Some(11)) && EmptyPipe(toC, Some(11), Some(12)) && connected == 0
  {
    k, toA, toC := AcceptBoth(port);
    DequeueKeeps(k.View(), 0, 1);
    DequeueKeeps(k.View(), 0, 2);
    connected := k.ConnectFinish(0);
  }

  /**
   * Half-close between two PEERs: socket 1 (file id 1) writes `data` and
   * shuts its write side down; socket 2 then asks for more than was sent and
   * gets exactly `data`, which leaves its pipe empty with the writer closed,
   * so that the next read of that pipe returns 0 (end of data).
   */
  method RendezvousHalfClose(port: int, data: seq<byte>, extra: nat)
    returns (shut: int, received: int, got: seq<byte>, left: int, eof: bool, next: int)
    requires 1 <= port <= MAX_PORT && 0 < |data| <= PIPE_BUFFER_SIZE - 1
    ensures shut == 0 && received == 0 && got == data && left == 0
    ensures eof && next == 0
  {
    var k, toA;
    k, toA, shut := SendAndShut(port, data);
    var buf := new byte[|data| + extra];
    received := k.SocketRead(2, buf, |data| + extra);
    got := buf[..|data|];
    left := toA.dataSize;
    eof := toA.writer.None? && toA.dataSize == 0;
    next := toA.Read(buf, 1);
  }

  /**
   * `ConnectBoth`, then socket 1 writes `data` and shuts its write side
   * down: the pipe socket 2 reads from holds `data` and has lost its writer.
   */
  method SendAndShut(port: int, data: seq<byte>) returns (k: Kernel, toA: PipeCB, shut: int)
    requires 1 <= port <= MAX_PORT && |data| <= PIPE_BUFFER_SIZE - 1
    ensures fresh(toA.buffer) && 2 in k.sockets && k.sockets[2].stype == SocketPeer && k.sockets[2].readPipe == toA
    ensures toA.Valid() && !toA.freed && toA.reader.Some? && toA.writer.None? && toA.Contents == data
    ensures shut == 0
  {
    var toC, connected, sent;
    k, toA, toC, connected, sent := Send(port, data);
    shut := k.SysShutDown(1, SHUTDOWN_WRITE);
  }

  /** `ConnectBoth`, then socket 1 writes `data`, which the pipe socket 2 reads from now holds. */
  method Send(port: int, data: seq<byte>) returns (k: Kernel, toA: PipeCB, toC: PipeCB, connected: int, sent: int)
    requires 1 <= port <= MAX_PORT && |data| <= PIPE_BUFFER_SIZE - 1
    ensures fresh(k) && fresh(toA) && fresh(toA.buffer) && fresh(toC) && fresh(toC.buffer) && k.Valid()
    ensures 1 in k.sockets && k.sockets[1].stype == SocketPeer && k.sockets[1].writePipe == toA
    ensures k.sockets[1].readPipe == toC && Lookup(k.View(), 1) == Some(1)
    ensures 2 in k.sockets && k.sockets[2].stype == SocketPeer && k.sockets[2].readPipe == toA
    ensures toA.Valid() && !toA.freed && toA.reader.Some? && toA.writer.Some? && toA.Contents == data
    ensures EmptyPipe(toC, Some(11), Some(12)) && connected == 0 && sent == 0
  {
    k, toA, toC, connected := ConnectBoth(port);
    sent := k.SocketWrite(1, data, |data|);
    assert data[..|data|] == data;
  }
}
