/**
 * The socket rendezvous of kernel_socket.c. A socket control block carries a
 * type tag (UNBOUND, LISTENER or PEER), a reference count, its FCB and a port,
 * plus the fields of the union payload: a listener's request queue and a
 * peer's read pipe, write pipe and partner. The global PORT_MAP array maps a
 * port to the FCB of the listener bound to it.
 *
 * The kernel tables are gathered in the value `Tables`: PORT_MAP, the file-id
 * table of the current process as `get_fcb` sees it, the `streamobj` of each
 * socket FCB, and arenas of socket control blocks and connection requests
 * that stand for the heap. Each system call is a method of `Kernel`, which
 * holds these tables in its fields; the function that describes its effect
 * on `Tables`, and the lemmas about that function, live beside it.
 * `sys_Connect` is split at its single wait: `ConnectBegin` enqueues the
 * request and `ConnectFinish` is what runs after the wait, so `SysAccept` can
 * be called between the two.
 */
module Sockets {
  import opened Wrappers
  import opened Pipes

  const MAX_PORT: int := 1023
  const MAX_FILEID: int := 16
  const NOFILE: int := -1
  const NOPORT: int := 0

  /** The values of `shutdown_mode`. */
  const SHUTDOWN_READ: int := 1
  const SHUTDOWN_WRITE: int := 2
  const SHUTDOWN_BOTH: int := 3

  /** Identity of a socket control block in the socket arena. */
  type SockId = nat

  /** Identity of a connection request in the request arena. */
  type ReqId = nat

  datatype SocketType = SocketListener | SocketUnbound | SocketPeer

  /**
   * A socket control block. The union of the source is kept as separate
   * fields: `queue` is `listener_s.queue`; `readPipe`, `writePipe` and `peer`
   * are the `peer_s` fields.
   */
  datatype Socket = Socket(
    refcount: int,
    fcb: Option<FcbId>,
    stype: SocketType,
    port: int,
    queue: seq<ReqId>,
    readPipe: PipeCB?,
    writePipe: PipeCB?,
    peer: Option<SockId>)

  /**
   * A connection request: the `admitted` flag, the connecting socket, and the
   * listener whose queue its `queue_node` was linked into.
   */
  datatype Request = Request(admitted: bool, peer: SockId, listener: SockId)

  /** The kernel tables the socket calls read and write. */
  datatype Tables = Tables(
    portMap: seq<Option<FcbId>>,
    fidt: map<Fid, FcbId>,
    streamObj: map<FcbId, SockId>,
    sockets: map<SockId, Socket>,
    requests: map<ReqId, Request>,
    nextSock: nat,
    nextReq: nat)

  /** A fresh UNBOUND socket, as `sys_Socket` builds it; its pipe references start NULL. */
  function NewUnbound(port: int, fcb: FcbId): (r: Socket)
  {
    Socket(0, Some(fcb), SocketUnbound, port, [], null, null, None)
  }

  /** The socket that file id `fid` refers to, if any (`get_fcb(fid)->streamobj`). */
  function Lookup(t: Tables, fid: Fid): (r: Option<SockId>)
  {
    if fid in t.fidt && t.fidt[fid] in t.streamObj then Some(t.streamObj[t.fidt[fid]]) else None
  }

  /** The socket that `PORT_MAP[port]->streamobj` names, if any. */
  function ListenerAt(t: Tables, port: int): (r: Option<SockId>)
    requires 0 <= port < |t.portMap|
  {
    if t.portMap[port].Some? && t.portMap[port].value in t.streamObj then Some(t.streamObj[t.portMap[port].value])
    else None
  }

  /** `q` with every occurrence of `x` unlinked, the rest in its order. */
  function Without(q: seq<ReqId>, x: ReqId): (r: seq<ReqId>)
    ensures x !in r
    ensures forall y :: y in r <==> y in q && y != x
    ensures |r| <= |q|
    ensures x !in q ==> r == q
  {
    if q == [] then []
    else if q[0] == x then Without(q[1..], x)
    else [q[0]] + Without(q[1..], x)
  }

  /** Unlinking a node that occurs once leaves the nodes before and after it, in order. */
  lemma {:induction false} WithoutSplit(a: seq<ReqId>, x: ReqId, b: seq<ReqId>)
    requires x !in a && x !in b
    ensures Without(a + [x] + b, x) == a + b
  {
    if a == [] {
      assert a + [x] + b == [x] + b;
      assert ([x] + b)[1..] == b;
    } else {
      assert (a + [x] + b)[0] == a[0];
      assert (a + [x] + b)[1..] == a[1..] + [x] + b;
      WithoutSplit(a[1..], x, b);
      assert [a[0]] + (a[1..] + b) == a + b;
    }
  }

  /** PORT_MAP has MAX_PORT + 1 slots and every socket's port is in 1..MAX_PORT. */
  ghost predicate PortsOk(t: Tables)
  {
    && |t.portMap| == MAX_PORT + 1
    && (forall s :: s in t.sockets ==> 1 <= t.sockets[s].port <= MAX_PORT)
  }

  /**
   * Every file id is an index of the FIDT array, and the allocators are ahead
   * of every socket and request identity in use.
   */
  ghost predicate AllocOk(t: Tables)
  {
    && (forall f :: f in t.fidt ==> 0 <= f < MAX_FILEID)
    && (forall s :: s in t.sockets ==> s < t.nextSock)
    && (forall r :: r in t.requests ==> r < t.nextReq)
  }

  /**
   * An FCB's `streamobj` is an open socket whose FCB it is, and an open
   * socket is the `streamobj` of its own FCB.
   */
  ghost predicate ObjsOk(t: Tables)
  {
    && (forall f :: f in t.streamObj ==> t.streamObj[f] in t.sockets && t.sockets[t.streamObj[f]].fcb == Some(f))
    && (forall s :: s in t.sockets && t.sockets[s].fcb.Some? ==>
          t.sockets[s].fcb.value in t.streamObj && t.streamObj[t.sockets[s].fcb.value] == s)
  }

  /** Every request names two different existing sockets. */
  ghost predicate ReqsOk(t: Tables)
  {
    forall r :: r in t.requests ==>
      t.requests[r].peer in t.sockets && t.requests[r].listener in t.sockets &&
      t.requests[r].peer != t.requests[r].listener
  }

  /** Every queued request exists and names the socket whose queue holds it. */
  ghost predicate QueuesOk(t: Tables)
  {
    forall s, r :: s in t.sockets && r in t.sockets[s].queue ==>
      r in t.requests && t.requests[r].listener == s
  }

  /** Each occupied PORT_MAP slot leads to a LISTENER on that port. */
  ghost predicate SlotsOk(t: Tables)
    requires ObjsOk(t)
  {
    forall p :: 0 <= p < |t.portMap| && t.portMap[p].Some? ==>
      t.portMap[p].value in t.streamObj &&
      t.sockets[t.streamObj[t.portMap[p].value]].stype == SocketListener &&
      t.sockets[t.streamObj[t.portMap[p].value]].port == p
  }

  /** Every open LISTENER is the one its port's slot names. */
  ghost predicate ListenersOk(t: Tables)
    requires PortsOk(t)
  {
    forall s {:trigger t.portMap[t.sockets[s].port]} ::
      s in t.sockets && t.sockets[s].stype == SocketListener && t.sockets[s].fcb.Some? ==>
      t.portMap[t.sockets[s].port] == t.sockets[s].fcb
  }

  /** The kernel-state invariant. */
  ghost predicate Inv(t: Tables)
  {
    PortsOk(t) && AllocOk(t) && ObjsOk(t) && ReqsOk(t) && QueuesOk(t) && SlotsOk(t) && ListenersOk(t)
  }

  /** An open LISTENER: its FCB has not been closed. */
  ghost predicate OpenListener(t: Tables, s: SockId)
  {
    s in t.sockets && t.sockets[s].stype == SocketListener && t.sockets[s].fcb.Some?
  }

  /** Two open LISTENERs on one port are the same socket: PORT_MAP has room for one. */
  lemma ListenerUnique(t: Tables, s1: SockId, s2: SockId)
    requires Inv(t) && OpenListener(t, s1) && OpenListener(t, s2)
    requires t.sockets[s1].port == t.sockets[s2].port
    ensures s1 == s2
  {
    var f1 := t.sockets[s1].fcb.value;
    var f2 := t.sockets[s2].fcb.value;
    assert t.portMap[t.sockets[s1].port] == Some(f1);
    assert t.portMap[t.sockets[s2].port] == Some(f2);
  }

  /**
   * Under `Inv`, a file id leads only to an open socket, the one whose FCB it
   * holds, and an open socket is reached from every file id that holds its FCB.
   */
  lemma LookupOpen(t: Tables, fid: Fid)
    requires Inv(t)
    ensures Lookup(t, fid).Some? ==>
      Lookup(t, fid).value in t.sockets && t.sockets[Lookup(t, fid).value].fcb == Some(t.fidt[fid])
    ensures forall s :: s in t.sockets && t.sockets[s].fcb.Some? && fid in t.fidt && t.fidt[fid] == t.sockets[s].fcb.value ==>
      Lookup(t, fid) == Some(s)
  {
  }

  /**
   * Under `Inv`, a PORT_MAP slot leads to a socket exactly when it is
   * occupied, and then to the open LISTENER on that port whose FCB it holds;
   * every open LISTENER is the one its port's slot leads to.
   */
  lemma ListenerAtOpen(t: Tables, port: int)
    requires Inv(t) && 0 <= port <= MAX_PORT
    ensures ListenerAt(t, port).Some? <==> t.portMap[port].Some?
    ensures ListenerAt(t, port).Some? ==>
      var s := ListenerAt(t, port).value;
      OpenListener(t, s) && t.sockets[s].port == port && t.sockets[s].fcb == t.portMap[port]
    ensures forall s :: OpenListener(t, s) && t.sockets[s].port == port ==> ListenerAt(t, port) == Some(s)
  {
  }

  /** `y` keeps the port, the FCB and the listener-ness of `x`, which are what `Inv` looks at besides the queue. */
  ghost predicate SameFrame(x: Socket, y: Socket)
  {
    x.port == y.port && x.fcb == y.fcb && (x.stype == SocketListener <==> y.stype == SocketListener)
  }

  /**
   * `t'` differs from `t` only in socket fields `Inv` does not look at, in
   * the queue of socket `s`, which becomes `q`, and in request fields other
   * than the two sockets a request names.
   */
  ghost predicate Evolves(t: Tables, t': Tables, s: SockId, q: seq<ReqId>)
  {
    && t'.portMap == t.portMap && t'.fidt == t.fidt && t'.streamObj == t.streamObj
    && t'.nextSock == t.nextSock && t'.nextReq == t.nextReq
    && t'.sockets.Keys == t.sockets.Keys && t'.requests.Keys == t.requests.Keys
    && (forall x :: x in t.sockets ==> SameFrame(t.sockets[x], t'.sockets[x]))
    && (forall x :: x in t.sockets && x != s ==> t'.sockets[x].queue == t.sockets[x].queue)
    && s in t.sockets && t'.sockets[s].queue == q
    && (forall r :: r in t.requests ==>
          t'.requests[r].peer == t.requests[r].peer && t'.requests[r].listener == t.requests[r].listener)
  }

  lemma EvolvesPorts(t: Tables, t': Tables, s: SockId, q: seq<ReqId>)
    requires PortsOk(t) && Evolves(t, t', s, q)
    ensures PortsOk(t')
  {
  }

  lemma EvolvesAlloc(t: Tables, t': Tables, s: SockId, q: seq<ReqId>)
    requires AllocOk(t) && Evolves(t, t', s, q)
    ensures AllocOk(t')
  {
  }

  lemma EvolvesObjs(t: Tables, t': Tables, s: SockId, q: seq<ReqId>)
    requires ObjsOk(t) && Evolves(t, t', s, q)
    ensures ObjsOk(t')
  {
  }

  lemma EvolvesReqs(t: Tables, t': Tables, s: SockId, q: seq<ReqId>)
    requires ReqsOk(t) && Evolves(t, t', s, q)
    ensures ReqsOk(t')
  {
  }

  lemma EvolvesQueues(t: Tables, t': Tables, s: SockId, q: seq<ReqId>)
    requires QueuesOk(t) && Evolves(t, t', s, q)
    requires forall r :: r in q ==> r in t.requests && t.requests[r].listener == s
    ensures QueuesOk(t')
  {
  }

  lemma EvolvesSlots(t: Tables, t': Tables, s: SockId, q: seq<ReqId>)
    requires ObjsOk(t) && SlotsOk(t) && Evolves(t, t', s, q)
    ensures ObjsOk(t') && SlotsOk(t')
  {
    EvolvesObjs(t, t', s, q);
  }

  lemma EvolvesListeners(t: Tables, t': Tables, s: SockId, q: seq<ReqId>)
    requires PortsOk(t) && ListenersOk(t) && Evolves(t, t', s, q)
    ensures PortsOk(t') && ListenersOk(t')
  {
    EvolvesPorts(t, t', s, q);
  }

  /** Such a change keeps `Inv` when every request in the new queue exists and names `s`. */
  lemma InvEvolves(t: Tables, t': Tables, s: SockId, q: seq<ReqId>)
    requires Inv(t) && Evolves(t, t', s, q)
    requires forall r :: r in q ==> r in t.requests && t.requests[r].listener == s
    ensures Inv(t')
  {
    EvolvesPorts(t, t', s, q);
    EvolvesAlloc(t, t', s, q);
    EvolvesObjs(t, t', s, q);
    EvolvesReqs(t, t', s, q);
    EvolvesQueues(t, t', s, q);
    EvolvesSlots(t, t', s, q);
    EvolvesListeners(t, t', s, q);
  }

  // ---------------------------------------------------------------- sys_Socket

  /** A reservation `FCB_reserve(1, ...)` can hand out: an unused file id and an unused FCB. */
  ghost predicate FreshReservation(t: Tables, res: (Fid, FcbId))
  {
    0 <= res.0 < MAX_FILEID && res.0 !in t.fidt && res.1 !in t.streamObj && res.1 !in t.fidt.Values
  }

  /** The tables after `sys_Socket` has made a new UNBOUND socket behind file id `f` and FCB `fcb`. */
  function AddSocket(t: Tables, f: Fid, fcb: FcbId, port: int): (r: Tables)
  {
    t.(fidt := t.fidt[f := fcb], streamObj := t.streamObj[fcb := t.nextSock],
       sockets := t.sockets[t.nextSock := NewUnbound(port, fcb)], nextSock := t.nextSock + 1)
  }

  /** A new socket on a port in 1..MAX_PORT behind an unused FCB keeps `Inv`. */
  lemma AddSocketCounts(t: Tables, res: (Fid, FcbId), port: int)
    requires PortsOk(t) && AllocOk(t) && ReqsOk(t) && QueuesOk(t)
    requires FreshReservation(t, res) && 1 <= port <= MAX_PORT
    ensures var t' := AddSocket(t, res.0, res.1, port);
      PortsOk(t') && AllocOk(t') && ReqsOk(t') && QueuesOk(t')
  {
  }

  lemma AddSocketLinks(t: Tables, res: (Fid, FcbId), port: int)
    requires PortsOk(t) && AllocOk(t) && ObjsOk(t) && SlotsOk(t) && ListenersOk(t)
    requires FreshReservation(t, res) && 1 <= port <= MAX_PORT
    ensures var t' := AddSocket(t, res.0, res.1, port);
      PortsOk(t') && ObjsOk(t') && SlotsOk(t') && ListenersOk(t')
  {
  }

  /** A new socket on a port in 1..MAX_PORT behind an unused FCB keeps `Inv`. */
  lemma AddSocketInv(t: Tables, res: (Fid, FcbId), port: int)
    requires Inv(t) && FreshReservation(t, res) && 1 <= port <= MAX_PORT
    ensures Inv(AddSocket(t, res.0, res.1, port))
  {
    AddSocketCounts(t, res, port);
    AddSocketLinks(t, res, port);
  }

  /**
   * After `sys_Socket` the reserved file id refers to a new UNBOUND socket
   * with reference count 0 on the requested port; every other file id refers
   * to what it did, and no existing socket changes.
   */
  lemma AddSocketEffect(t: Tables, res: (Fid, FcbId), port: int)
    requires FreshReservation(t, res) && t.nextSock !in t.sockets
    ensures var t' := AddSocket(t, res.0, res.1, port);
      && Lookup(t', res.0) == Some(t.nextSock)
      && t'.sockets[t.nextSock].stype == SocketUnbound && t'.sockets[t.nextSock].refcount == 0
      && t'.sockets[t.nextSock].port == port && t'.sockets[t.nextSock].fcb == Some(res.1)
      && (forall g :: g != res.0 ==> Lookup(t', g) == Lookup(t, g))
      && (forall s :: s in t.sockets ==> s in t'.sockets && t'.sockets[s] == t.sockets[s])
  {
    var t' := AddSocket(t, res.0, res.1, port);
    forall g | g != res.0
      ensures Lookup(t', g) == Lookup(t, g)
    {
      if g in t.fidt {
        assert t.fidt[g] in t.fidt.Values;
      }
    }
  }

  // ---------------------------------------------------------------- sys_Listen

  /** The tables after socket `s` has become the LISTENER of its port. */
  function Listened(t: Tables, s: SockId): (r: Tables)
    requires s in t.sockets && 0 <= t.sockets[s].port < |t.portMap|
  {
    var o := t.sockets[s];
    t.(portMap := t.portMap[o.port := o.fcb], sockets := t.sockets[s := o.(stype := SocketListener, queue := [])])
  }

  lemma ListenCounts(t: Tables, s: SockId)
    requires PortsOk(t) && AllocOk(t) && ReqsOk(t) && QueuesOk(t) && s in t.sockets
    ensures var t' := Listened(t, s);
      PortsOk(t') && AllocOk(t') && ReqsOk(t') && QueuesOk(t')
  {
  }

  lemma ListenLinks(t: Tables, s: SockId)
    requires PortsOk(t) && ObjsOk(t) && SlotsOk(t) && ListenersOk(t)
    requires s in t.sockets && t.sockets[s].stype == SocketUnbound && t.portMap[t.sockets[s].port].None?
    ensures var t' := Listened(t, s);
      PortsOk(t') && ObjsOk(t') && SlotsOk(t') && ListenersOk(t')
  {
  }

  /**
   * Listening with an UNBOUND socket on a free port keeps `Inv`; afterwards
   * the port leads to the socket when it is open, the socket is a LISTENER
   * with an empty queue, and every other slot is as it was.
   */
  lemma ListenSpec(t: Tables, s: SockId)
    requires Inv(t) && s in t.sockets && t.sockets[s].stype == SocketUnbound
    requires t.portMap[t.sockets[s].port].None?
    ensures var t' := Listened(t, s);
      var port := t.sockets[s].port;
      && Inv(t')
      && ListenerAt(t', port) == (if t.sockets[s].fcb.Some? then Some(s) else None)
      && t'.sockets[s].stype == SocketListener && t'.sockets[s].queue == []
      && (forall p :: 0 <= p < |t.portMap| && p != port ==> t'.portMap[p] == t.portMap[p])
  {
    ListenCounts(t, s);
    ListenLinks(t, s);
  }

  // ---------------------------------------------------------------- socket_close

  /**
   * The tables after `socket_close` on socket `s` (its pipes are not part of
   * the tables). `socket_close` is the Close of the socket's FCB and runs as
   * that FCB is released, so the FCB no longer leads to the socket.
   */
  function Closed(t: Tables, s: SockId): (r: Tables)
    requires s in t.sockets && 0 <= t.sockets[s].port < |t.portMap|
  {
    var o := t.sockets[s];
    t.(portMap := if o.stype == SocketListener then t.portMap[o.port := None] else t.portMap,
       streamObj := if o.fcb.Some? then t.streamObj - {o.fcb.value} else t.streamObj,
       sockets := t.sockets[s := o.(fcb := None, peer := if o.stype == SocketPeer then None else o.peer)])
  }

  lemma CloseCounts(t: Tables, s: SockId)
    requires PortsOk(t) && AllocOk(t) && ReqsOk(t) && QueuesOk(t) && s in t.sockets
    ensures var t' := Closed(t, s);
      PortsOk(t') && AllocOk(t') && ReqsOk(t') && QueuesOk(t')
  {
  }

  lemma CloseLinks(t: Tables, s: SockId)
    requires PortsOk(t) && ObjsOk(t) && SlotsOk(t) && ListenersOk(t)
    requires s in t.sockets && t.sockets[s].fcb.Some?
    ensures var t' := Closed(t, s);
      PortsOk(t') && ObjsOk(t') && SlotsOk(t') && ListenersOk(t')
  {
    var t' := Closed(t, s);
    forall x {:trigger t'.portMap[t'.sockets[x].port]}
      | x in t'.sockets && t'.sockets[x].stype == SocketListener && t'.sockets[x].fcb.Some?
      ensures t'.portMap[t'.sockets[x].port] == t'.sockets[x].fcb
    {
      assert x != s && t'.sockets[x] == t.sockets[x];
      assert t.portMap[t.sockets[x].port] == t.sockets[x].fcb;
      assert t.sockets[s].stype == SocketListener ==> t.sockets[x].port != t.sockets[s].port;
    }
  }

  /**
   * Closing keeps `Inv`; the socket has no FCB afterwards and no file id
   * leads to it, a closed LISTENER's port leads nowhere, and a closed PEER
   * has no partner.
   */
  lemma CloseSpec(t: Tables, s: SockId)
    requires Inv(t) && s in t.sockets && t.sockets[s].fcb.Some?
    ensures var t' := Closed(t, s);
      && Inv(t')
      && t'.sockets[s].fcb.None? && (forall fid :: Lookup(t', fid) != Some(s))
      && (t.sockets[s].stype == SocketListener ==> ListenerAt(t', t.sockets[s].port).None?)
      && (t.sockets[s].stype == SocketPeer ==> t'.sockets[s].peer.None?)
  {
    CloseCounts(t, s);
    CloseLinks(t, s);
  }

  // ---------------------------------------------------------------- sys_Accept

  /** The tables after a LISTENER has raised its count and popped its oldest request. */
  function Popped(t: Tables, l: SockId): (r: Tables)
    requires l in t.sockets && t.sockets[l].queue != []
  {
    var o := t.sockets[l];
    t.(sockets := t.sockets[l := o.(refcount := o.refcount + 1, queue := o.queue[1..])])
  }

  lemma PopEvolves(t: Tables, l: SockId)
    requires QueuesOk(t) && l in t.sockets && t.sockets[l].queue != []
    ensures Evolves(t, Popped(t, l), l, t.sockets[l].queue[1..])
    ensures forall r :: r in t.sockets[l].queue[1..] ==> r in t.requests && t.requests[r].listener == l
  {
  }

  /** Popping keeps `Inv`. */
  lemma PopInv(t: Tables, l: SockId)
    requires Inv(t) && l in t.sockets && t.sockets[l].queue != []
    ensures Inv(Popped(t, l))
  {
    PopEvolves(t, l);
    InvEvolves(t, Popped(t, l), l, t.sockets[l].queue[1..]);
  }

  /**
   * The tables after the wiring at the end of `sys_Accept`: the new socket
   * `a` becomes a PEER paired with the requester `c` and takes its pipes
   * crossed, `c` points back at `a`, the listener's count drops by one
   * and the request is admitted.
   */
  function Wired(t: Tables, l: SockId, a: SockId, c: SockId, rq: ReqId): (r: Tables)
    requires l in t.sockets && a in t.sockets && c in t.sockets && rq in t.requests
  {
    var sa := t.sockets[a].(stype := SocketPeer, peer := Some(c),
                            readPipe := t.sockets[c].writePipe, writePipe := t.sockets[c].readPipe);
    var s1 := t.sockets[a := sa];
    var s2 := s1[c := s1[c].(peer := Some(a))];
    t.(sockets := s2[l := s2[l].(refcount := s2[l].refcount - 1)],
       requests := t.requests[rq := t.requests[rq].(admitted := true)])
  }

  lemma WireEvolves(t: Tables, l: SockId, a: SockId, c: SockId, rq: ReqId)
    requires l in t.sockets && a in t.sockets && c in t.sockets && rq in t.requests
    requires t.sockets[a].stype != SocketListener
    ensures Evolves(t, Wired(t, l, a, c, rq), l, t.sockets[l].queue)
  {
    var t' := Wired(t, l, a, c, rq);
    forall x | x in t.sockets
      ensures SameFrame(t.sockets[x], t'.sockets[x]) && t'.sockets[x].queue == t.sockets[x].queue
    {
    }
  }

  /** The requests in a socket's queue exist and name it. */
  lemma QueueLinked(t: Tables, s: SockId)
    requires QueuesOk(t) && s in t.sockets
    ensures forall r :: r in t.sockets[s].queue ==> r in t.requests && t.requests[r].listener == s
  {
  }

  /** The wiring keeps `Inv` when `a` is no LISTENER. */
  lemma WireInv(t: Tables, l: SockId, a: SockId, c: SockId, rq: ReqId)
    requires Inv(t) && l in t.sockets && a in t.sockets && c in t.sockets && rq in t.requests
    requires t.sockets[a].stype != SocketListener
    ensures Inv(Wired(t, l, a, c, rq))
  {
    WireEvolves(t, l, a, c, rq);
    QueueLinked(t, l);
    InvEvolves(t, Wired(t, l, a, c, rq), l, t.sockets[l].queue);
  }

  /** The request a LISTENER serves next: the front of its queue. */
  function Oldest(t: Tables, l: SockId): (r: ReqId)
    requires l in t.sockets && t.sockets[l].queue != []
  {
    t.sockets[l].queue[0]
  }

  /** What `sys_Accept` does to the tables, with `f` and `fcb` the reservation of its `sys_Socket`. */
  function Accepted(t: Tables, l: SockId, f: Fid, fcb: FcbId): (r: Tables)
    requires l in t.sockets && t.sockets[l].queue != []
    requires Oldest(t, l) in t.requests && t.requests[Oldest(t, l)].peer in t.sockets
  {
    var rq := Oldest(t, l);
    var t2 := AddSocket(Popped(t, l), f, fcb, t.sockets[l].port);
    Wired(t2, l, t.nextSock, t.requests[rq].peer, rq)
  }

  /** The request at the front of a LISTENER's queue exists and names a requester other than the listener. */
  lemma OldestLinked(t: Tables, l: SockId)
    requires Inv(t) && l in t.sockets && t.sockets[l].queue != []
    ensures Oldest(t, l) in t.requests && t.requests[Oldest(t, l)].listener == l
    ensures t.requests[Oldest(t, l)].peer in t.sockets && t.requests[Oldest(t, l)].peer != l
    ensures t.nextSock !in t.sockets
  {
    assert Oldest(t, l) in t.sockets[l].queue;
  }

  /** `sys_Accept` keeps `Inv`. */
  lemma AcceptInv(t: Tables, l: SockId, res: (Fid, FcbId))
    requires Inv(t) && l in t.sockets && t.sockets[l].queue != []
    requires FreshReservation(t, res)
    ensures Oldest(t, l) in t.requests && t.requests[Oldest(t, l)].peer in t.sockets
    ensures Inv(Accepted(t, l, res.0, res.1))
  {
    OldestLinked(t, l);
    PopInv(t, l);
    var t1 := Popped(t, l);
    AddSocketInv(t1, res, t.sockets[l].port);
    var t2 := AddSocket(t1, res.0, res.1, t.sockets[l].port);
    WireInv(t2, l, t.nextSock, t.requests[Oldest(t, l)].peer, Oldest(t, l));
  }

  /**
   * `sys_Accept` serves the oldest request: the listener's queue loses
   * exactly its front and its reference count is back where it was; the new
   * socket, reachable from `f`, is a PEER on the listener's port paired with
   * the requester, reading from the requester's write pipe and writing to its
   * read pipe; the requester points back at the new socket and otherwise keeps
   * every field, its type included; the request is admitted; no other socket
   * changes.
   */
  lemma AcceptEffect(t: Tables, l: SockId, res: (Fid, FcbId))
    requires l in t.sockets && t.sockets[l].queue != []
    requires Oldest(t, l) in t.requests && t.requests[Oldest(t, l)].peer in t.sockets
    requires t.requests[Oldest(t, l)].peer != l && t.nextSock !in t.sockets
    requires FreshReservation(t, res)
    ensures var t' := Accepted(t, l, res.0, res.1);
      var rq := Oldest(t, l);
      var c := t.requests[rq].peer;
      var a := t.nextSock;
      && t'.sockets[l] == t.sockets[l].(queue := t.sockets[l].queue[1..])
      && Lookup(t', res.0) == Some(a)
      && t'.sockets[a] == Socket(0, Some(res.1), SocketPeer, t.sockets[l].port, [],
                                 t.sockets[c].writePipe, t.sockets[c].readPipe, Some(c))
      && t'.sockets[c] == t.sockets[c].(peer := Some(a))
      && t'.requests == t.requests[rq := t.requests[rq].(admitted := true)]
      && (forall s :: s in t.sockets && s != l && s != c ==> t'.sockets[s] == t.sockets[s])
  {
  }

  // ------------------------------------------------ sys_Accept, with pipes

  /**
   * The requester at the front of a LISTENER's queue can become a PEER: it
   * exists, it is no LISTENER and its FCB is still open.
   */
  ghost predicate Connectable(t: Tables, l: SockId)
    requires l in t.sockets && t.sockets[l].queue != []
  {
    && Oldest(t, l) in t.requests && t.requests[Oldest(t, l)].peer in t.sockets
    && t.sockets[t.requests[Oldest(t, l)].peer].stype != SocketListener
    && t.sockets[t.requests[Oldest(t, l)].peer].fcb.Some?
  }

  /**
   * The tables after a wiring that connects both sides: `a` and `c` both
   * become PEERs paired with each other, data from `c` to `a` goes through
   * `toA` and data from `a` to `c` through `toC`; the listener's count drops
   * by one and the request is admitted.
   */
  function Connected(t: Tables, l: SockId, a: SockId, c: SockId, rq: ReqId, toA: PipeCB?, toC: PipeCB?): (r: Tables)
    requires l in t.sockets && a in t.sockets && c in t.sockets && rq in t.requests
  {
    var s1 := t.sockets[a := t.sockets[a].(stype := SocketPeer, peer := Some(c), readPipe := toA, writePipe := toC)];
    var s2 := s1[c := s1[c].(stype := SocketPeer, peer := Some(a), readPipe := toC, writePipe := toA)];
    t.(sockets := s2[l := s2[l].(refcount := s2[l].refcount - 1)],
       requests := t.requests[rq := t.requests[rq].(admitted := true)])
  }

  lemma ConnectedEvolves(t: Tables, l: SockId, a: SockId, c: SockId, rq: ReqId, toA: PipeCB?, toC: PipeCB?)
    requires l in t.sockets && a in t.sockets && c in t.sockets && rq in t.requests
    requires t.sockets[a].stype != SocketListener && t.sockets[c].stype != SocketListener
    ensures Evolves(t, Connected(t, l, a, c, rq, toA, toC), l, t.sockets[l].queue)
  {
    var t' := Connected(t, l, a, c, rq, toA, toC);
    forall x | x in t.sockets
      ensures SameFrame(t.sockets[x], t'.sockets[x]) && t'.sockets[x].queue == t.sockets[x].queue
    {
    }
  }

  /** Connecting two sockets that are no LISTENERs keeps `Inv`. */
  lemma ConnectedInv(t: Tables, l: SockId, a: SockId, c: SockId, rq: ReqId, toA: PipeCB?, toC: PipeCB?)
    requires Inv(t) && l in t.sockets && a in t.sockets && c in t.sockets && rq in t.requests
    requires t.sockets[a].stype != SocketListener && t.sockets[c].stype != SocketListener
    ensures Inv(Connected(t, l, a, c, rq, toA, toC))
  {
    ConnectedEvolves(t, l, a, c, rq, toA, toC);
    QueueLinked(t, l);
    InvEvolves(t, Connected(t, l, a, c, rq, toA, toC), l, t.sockets[l].queue);
  }

  /** What an accept that connects both sides does to the tables. */
  function AcceptConnected(t: Tables, l: SockId, f: Fid, fcb: FcbId, toA: PipeCB?, toC: PipeCB?): (r: Tables)
    requires l in t.sockets && t.sockets[l].queue != [] && Connectable(t, l)
  {
    var rq := Oldest(t, l);
    var t2 := AddSocket(Popped(t, l), f, fcb, t.sockets[l].port);
    Connected(t2, l, t.nextSock, t.requests[rq].peer, rq, toA, toC)
  }

  /** Between popping and wiring, an accept leaves the requester as it was. */
  lemma ServeFrame(t: Tables, l: SockId, res: (Fid, FcbId))
    requires l in t.sockets && t.sockets[l].queue != [] && Connectable(t, l)
    requires t.requests[Oldest(t, l)].peer != l && t.nextSock !in t.sockets
    ensures var t2 := AddSocket(Popped(t, l), res.0, res.1, t.sockets[l].port);
      var c := t.requests[Oldest(t, l)].peer;
      && c in t2.sockets && t2.sockets[c] == t.sockets[c]
      && t.nextSock in t2.sockets && t2.sockets[t.nextSock].stype == SocketUnbound
  {
  }

  /** An accept that connects both sides keeps `Inv`. */
  lemma AcceptConnectedInv(t: Tables, l: SockId, res: (Fid, FcbId), toA: PipeCB?, toC: PipeCB?)
    requires Inv(t) && l in t.sockets && t.sockets[l].queue != [] && Connectable(t, l)
    requires FreshReservation(t, res)
    ensures Inv(AcceptConnected(t, l, res.0, res.1, toA, toC))
  {
    OldestLinked(t, l);
    PopInv(t, l);
    var t1 := Popped(t, l);
    AddSocketInv(t1, res, t.sockets[l].port);
    var t2 := AddSocket(t1, res.0, res.1, t.sockets[l].port);
    var c := t.requests[Oldest(t, l)].peer;
    assert t2.sockets[c] == t.sockets[c];
    ConnectedInv(t2, l, t.nextSock, c, Oldest(t, l), toA, toC);
  }

  /**
   * An accept that connects both sides serves the oldest request as
   * `sys_Accept` does, and both the new socket and the requester end up
   * PEERs paired with each other, each reading from the pipe the other
   * writes to; no other socket changes.
   */
  lemma AcceptConnectedEffect(t: Tables, l: SockId, res: (Fid, FcbId), toA: PipeCB?, toC: PipeCB?)
    requires l in t.sockets && t.sockets[l].queue != [] && Connectable(t, l)
    requires t.requests[Oldest(t, l)].peer != l && t.nextSock !in t.sockets
    requires FreshReservation(t, res)
    ensures var t' := AcceptConnected(t, l, res.0, res.1, toA, toC);
      var rq := Oldest(t, l);
      var c := t.requests[rq].peer;
      var a := t.nextSock;
      && t'.sockets[l] == t.sockets[l].(queue := t.sockets[l].queue[1..])
      && Lookup(t', res.0) == Some(a)
      && t'.sockets[a] == Socket(0, Some(res.1), SocketPeer, t.sockets[l].port, [], toA, toC, Some(c))
      && t'.sockets[c] == t.sockets[c].(stype := SocketPeer, peer := Some(a), readPipe := toC, writePipe := toA)
      && t'.sockets[a].readPipe == t'.sockets[c].writePipe && t'.sockets[a].writePipe == t'.sockets[c].readPipe
      && t'.requests == t.requests[rq := t.requests[rq].(admitted := true)]
      && (forall s :: s in t.sockets && s != l && s != c ==> t'.sockets[s] == t.sockets[s])
  {
  }

  // ---------------------------------------------------------------- sys_Connect

  /** The tables after the part of `sys_Connect` before its wait: `s` queues a request at `l`. */
  function Enqueued(t: Tables, s: SockId, l: SockId): (r: Tables)
    requires s in t.sockets && l in t.sockets
  {
    var s1 := t.sockets[s := t.sockets[s].(refcount := t.sockets[s].refcount + 1)];
    t.(sockets := s1[l := s1[l].(queue := s1[l].queue + [t.nextReq])],
       requests := t.requests[t.nextReq := Request(false, s, l)],
       nextReq := t.nextReq + 1)
  }

  /** The tables with a new request from `s` to `l` allocated and nothing else changed. */
  function WithRequest(t: Tables, s: SockId, l: SockId): (r: Tables)
  {
    t.(requests := t.requests[t.nextReq := Request(false, s, l)], nextReq := t.nextReq + 1)
  }

  /** No queue holds an identity the request allocator has not handed out yet. */
  lemma FreshNotQueued(t: Tables)
    requires Inv(t)
    ensures t.nextReq !in t.requests
    ensures forall s :: s in t.sockets ==> t.nextReq !in t.sockets[s].queue
  {
    forall s | s in t.sockets
      ensures t.nextReq !in t.sockets[s].queue
    {
      QueueLinked(t, s);
    }
  }

  /** Allocating a request between two different sockets keeps `Inv`. */
  lemma WithRequestInv(t: Tables, s: SockId, l: SockId)
    requires Inv(t) && s in t.sockets && l in t.sockets && s != l
    ensures Inv(WithRequest(t, s, l))
  {
    FreshNotQueued(t);
  }

  lemma EnqueueEvolves(t: Tables, s: SockId, l: SockId)
    requires AllocOk(t) && QueuesOk(t) && s in t.sockets && l in t.sockets
    ensures var t1 := WithRequest(t, s, l);
      && Evolves(t1, Enqueued(t, s, l), l, t.sockets[l].queue + [t.nextReq])
      && (forall r :: r in t.sockets[l].queue + [t.nextReq] ==> r in t1.requests && t1.requests[r].listener == l)
  {
  }

    /** Enqueueing a request from one socket at another keeps `Inv`. */
  lemma ConnectInv(t: Tables, s: SockId, l: SockId)
    requires Inv(t) && s in t.sockets && l in t.sockets && s != l
    ensures Inv(Enqueued(t, s, l))
  {
    WithRequestInv(t, s, l);
    EnqueueEvolves(t, s, l);
    InvEvolves(WithRequest(t, s, l), Enqueued(t, s, l), l, t.sockets[l].queue + [t.nextReq]);
  }

  /**
   * Enqueueing keeps `Inv`; the new request, not admitted, is the last one in
   * the listener's queue, behind every request that was already waiting, and
   * the requester's count is one higher.
   */
  lemma ConnectSpec(t: Tables, s: SockId, l: SockId)
    requires Inv(t) && s in t.sockets && l in t.sockets && s != l
    ensures var t' := Enqueued(t, s, l);
      && Inv(t')
      && t.nextReq !in t.requests && t'.requests[t.nextReq] == Request(false, s, l)
      && t'.sockets[l].queue == t.sockets[l].queue + [t.nextReq]
      && t'.sockets[s].refcount == t.sockets[s].refcount + 1
  {
    ConnectInv(t, s, l);
    FreshNotQueued(t);
  }

  /**
   * Requests are served in the order they were made: after two connects to
   * a listener with an empty queue, the queue holds the two requests in
   * order, an accept serves the first one, and the second one waits.
   */
  lemma ServedInOrder(t: Tables, s1: SockId, s2: SockId, l: SockId)
    requires s1 in t.sockets && s2 in t.sockets && l in t.sockets && t.sockets[l].queue == []
    ensures var t2 := Enqueued(Enqueued(t, s1, l), s2, l);
      && t2.sockets[l].queue == [t.nextReq, t.nextReq + 1]
      && Oldest(t2, l) == t.nextReq && t2.requests[Oldest(t2, l)].peer == s1
      && t2.requests[t.nextReq + 1].peer == s2
      && Popped(t2, l).sockets[l].queue == [t.nextReq + 1]
  {
  }

  /** The tables after the part of `sys_Connect` after its wait. */
  function Dequeued(t: Tables, rq: ReqId): (r: Tables)
    requires rq in t.requests && t.requests[rq].peer in t.sockets && t.requests[rq].listener in t.sockets
  {
    var p := t.requests[rq].peer;
    var l := t.requests[rq].listener;
    var s1 := t.sockets[p := t.sockets[p].(refcount := t.sockets[p].refcount - 1)];
    t.(sockets := s1[l := s1[l].(queue := Without(s1[l].queue, rq))])
  }

  lemma DequeueEvolves(t: Tables, rq: ReqId)
    requires rq in t.requests && t.requests[rq].peer in t.sockets && t.requests[rq].listener in t.sockets
    ensures var l := t.requests[rq].listener;
      Evolves(t, Dequeued(t, rq), l, Without(t.sockets[l].queue, rq))
  {
  }

  /** Completing a connect changes no socket's type, port, FCB, pipes or partner. */
  lemma DequeueKeeps(t: Tables, rq: ReqId, s: SockId)
    requires rq in t.requests && t.requests[rq].peer in t.sockets && t.requests[rq].listener in t.sockets
    requires s in t.sockets
    ensures var o := Dequeued(t, rq).sockets[s];
      s in Dequeued(t, rq).sockets && SameFrame(t.sockets[s], o) && o.stype == t.sockets[s].stype &&
      o.readPipe == t.sockets[s].readPipe && o.writePipe == t.sockets[s].writePipe && o.peer == t.sockets[s].peer
  {
  }

  /** Completing a connect keeps `Inv` and leaves the request in no queue of its listener. */
  lemma DisconnectSpec(t: Tables, rq: ReqId)
    requires Inv(t) && rq in t.requests
    ensures var t' := Dequeued(t, rq);
      Inv(t') && rq !in t'.sockets[t.requests[rq].listener].queue
  {
    var l := t.requests[rq].listener;
    DequeueEvolves(t, rq);
    QueueLinked(t, l);
    InvEvolves(t, Dequeued(t, rq), l, Without(t.sockets[l].queue, rq));
  }

  /**
   * A connect that nobody accepts gives the sockets back as they were: the
   * requester's reference count returns to its value and the listener's
   * queue to its contents; only the request record stays behind.
   */
  lemma ConnectRoundTrip(t: Tables, s: SockId, l: SockId)
    requires Inv(t) && s in t.sockets && l in t.sockets && s != l
    ensures t.nextReq in Enqueued(t, s, l).requests
    ensures Dequeued(Enqueued(t, s, l), t.nextReq).sockets == t.sockets
  {
    var q := t.sockets[l].queue;
    FreshNotQueued(t);
    WithoutSplit(q, t.nextReq, []);
    assert q + [t.nextReq] + [] == q + [t.nextReq];
    assert q + [] == q;
    var t2 := Dequeued(Enqueued(t, s, l), t.nextReq);
    assert t2.sockets[l] == t.sockets[l];
    assert t2.sockets[s] == t.sockets[s];
  }

  // ---------------------------------------------------------------- sys_ShutDown

  /** A PEER after `sys_ShutDown` with mode `how`: the pipe references that mode closes are NULL. */
  function ShutSocket(o: Socket, how: int): (r: Socket)
    ensures SameFrame(o, r) && r.queue == o.queue
    ensures r.stype == o.stype && r.peer == o.peer && r.refcount == o.refcount
    ensures r.readPipe == (if how == SHUTDOWN_READ || how == SHUTDOWN_BOTH then null else o.readPipe)
    ensures r.writePipe == (if how == SHUTDOWN_WRITE || how == SHUTDOWN_BOTH then null else o.writePipe)
  {
    if how == SHUTDOWN_READ then o.(readPipe := null)
    else if how == SHUTDOWN_WRITE then o.(writePipe := null)
    else if how == SHUTDOWN_BOTH then o.(readPipe := null, writePipe := null)
    else o
  }

  /** The tables after `sys_ShutDown` with mode `how` on socket `s`. */
  function ShutDown(t: Tables, s: SockId, how: int): (r: Tables)
    requires s in t.sockets
  {
    t.(sockets := t.sockets[s := ShutSocket(t.sockets[s], how)])
  }

  /** Shutting a socket down keeps `Inv`. */
  lemma ShutDownInv(t: Tables, s: SockId, how: int)
    requires Inv(t) && s in t.sockets
    ensures Inv(ShutDown(t, s, how))
  {
    assert Evolves(t, ShutDown(t, s, how), s, t.sockets[s].queue);
    InvEvolves(t, ShutDown(t, s, how), s, t.sockets[s].queue);
  }

  /** A pipe reference that is NULL or leads to a well-formed pipe control block. */
  ghost predicate PipeOk(p: PipeCB?)
    reads p, if p != null then {p.buffer} else {}
  {
    p != null ==> p.Valid()
  }

  /** A live pipe with nothing buffered whose ends are `reader` and `writer`. */
  ghost predicate EmptyPipe(p: PipeCB, reader: Option<FcbId>, writer: Option<FcbId>)
    reads p, p.buffer
  {
    p.Valid() && !p.freed && p.Contents == [] && p.reader == reader && p.writer == writer
  }

  /**
   * The pipe closes of `socket_close` and `sys_ShutDown`: the reader end of
   * the read pipe when `closeRead`, then the writer end of the write pipe
   * when `closeWrite`; the two references may name the same pipe.
   */
  method CloseEnds(rp: PipeCB?, wp: PipeCB?, closeRead: bool, closeWrite: bool)
    requires PipeOk(rp) && PipeOk(wp)
    modifies rp, wp
    ensures rp != null ==> EndsClosed(rp, closeRead, closeWrite && rp == wp)
    ensures wp != null ==> EndsClosed(wp, closeRead && rp == wp, closeWrite)
    ensures !closeRead && rp != null && rp != wp ==> unchanged(rp)
    ensures !closeWrite && wp != null && wp != rp ==> unchanged(wp)
  {
    if closeRead {
      var _ := ReaderClose(rp);
    }
    if closeWrite {
      var _ := WriterClose(wp);
    }
  }

  class Kernel {
    /** `PORT_MAP[0..MAX_PORT]`: the FCB of the listener bound to each port. */
    var portMap: seq<Option<FcbId>>

    /** The current process's file-id table, as `get_fcb` reads it. */
    var fidt: map<Fid, FcbId>

    /** The `streamobj` of every FCB that holds a socket. */
    var streamObj: map<FcbId, SockId>

    /** The socket control blocks that have been allocated. */
    var sockets: map<SockId, Socket>

    /** The connection requests that have been allocated. */
    var requests: map<ReqId, Request>

    /** Next free socket and request identities (the allocators). */
    var nextSock: nat
    var nextReq: nat

    /** The current tables. */
    function View(): (v: Tables)
      reads this
    {
      Tables(portMap, fidt, streamObj, sockets, requests, nextSock, nextReq)
    }

    ghost predicate Valid()
      reads this
    {
      Inv(View())
    }

    /** The pipes socket `s` references, which its close and shutdown may touch. */
    function PipesOf(s: SockId): (ps: set<PipeCB?>)
      reads this
    {
      if s in sockets then {sockets[s].readPipe, sockets[s].writePipe} else {}
    }

    /** Kernel start: PORT_MAP is all NULL and no socket or request exists. */
    constructor ()
      ensures Valid()
      ensures View() == Tables(seq(MAX_PORT + 1, _ => None), map[], map[], map[], map[], 0, 0)
    {
      portMap := seq(MAX_PORT + 1, _ => None);
      fidt := map[];
      streamObj := map[];
      sockets := map[];
      requests := map[];
      nextSock := 0;
      nextReq := 0;
    }

    /**
     * `sys_Socket`: NOPORT for port 0, NOFILE for a port outside 0..MAX_PORT
     * or when no file id can be reserved, and nothing changes; otherwise the
     * tables become `AddSocket` of the reservation and its file id is
     * returned.
     */
    method SysSocket(port: int, reserved: Option<(Fid, FcbId)>) returns (fid: Fid)
      requires Valid()
      requires reserved.Some? ==> FreshReservation(View(), reserved.value)
      modifies this
      ensures port == 0 ==> fid == NOPORT
      ensures port != 0 && (port < 0 || port > MAX_PORT || reserved.None?) ==> fid == NOFILE
      ensures port <= 0 || port > MAX_PORT || reserved.None? ==> unchanged(this)
      ensures 0 < port <= MAX_PORT && reserved.Some? ==>
        fid == reserved.value.0 && View() == AddSocket(old(View()), reserved.value.0, reserved.value.1, port)
      ensures Valid()
    {
      if port == 0 {
        return NOPORT;
      }
      if port < 0 || port > MAX_PORT {
        return NOFILE;
      }
      if reserved.None? {
        return NOFILE;
      }
      var (f, fcb) := reserved.value;
      AddSocketInv(View(), (f, fcb), port);
      var s := nextSock;
      nextSock := nextSock + 1;
      fidt := fidt[f := fcb];
      streamObj := streamObj[fcb := s];
      sockets := sockets[s := NewUnbound(port, fcb)];
      return f;
    }

    /**
     * `socket_read`: -1 for a socket that is not a PEER; for a PEER, a
     * `pipe_read` on its read pipe whose count is dropped, and 0.
     */
    method SocketRead(s: SockId, buf: array<byte>, n: nat) returns (ret: int)
      requires s in sockets
      requires sockets[s].stype == SocketPeer ==>
        var p := sockets[s].readPipe;
        p != null && p.Valid() && !p.freed && buf != p.buffer && n <= buf.Length &&
        (p.reader.Some? && p.writer.Some? ==> n <= p.dataSize)
      modifies sockets[s].readPipe, buf
      ensures sockets[s].stype != SocketPeer ==>
        ret == -1 && unchanged(buf) && (sockets[s].readPipe != null ==> unchanged(sockets[s].readPipe))
      ensures sockets[s].stype == SocketPeer ==>
        var p := sockets[s].readPipe;
        var k := ReadResult(n, old(p.dataSize), old(p.reader).Some?, old(p.writer).Some?);
        && ret == 0 && p.Valid() && !p.freed && p.reader == old(p.reader) && p.writer == old(p.writer)
        && p.buffer == old(p.buffer)
        && (k > 0 ==> p.Contents == old(p.Contents)[k..] && buf[..k] == old(p.Contents)[..k])
        && (k <= 0 ==> p.Contents == old(p.Contents) && unchanged(buf))
        && (k > 0 ==> forall i :: k <= i < buf.Length ==> buf[i] == old(buf[i]))
    {
      if sockets[s].stype == SocketPeer {
        var _ := sockets[s].readPipe.Read(buf, n);
        return 0;
      }
      return -1;
    }

    /**
     * `socket_write`: -1 for a socket that is not a PEER; for a PEER, a
     * `pipe_write` on its write pipe whose count is dropped, and 0.
     */
    method SocketWrite(s: SockId, buf: seq<byte>, n: nat) returns (ret: int)
      requires s in sockets
      requires sockets[s].stype == SocketPeer ==>
        var p := sockets[s].writePipe;
        p != null && p.Valid() && !p.freed && n <= |buf| &&
        (p.reader.Some? && p.writer.Some? ==> p.dataSize + n <= PIPE_BUFFER_SIZE - 1)
      modifies sockets[s].writePipe, if sockets[s].writePipe != null then {sockets[s].writePipe.buffer} else {}
      ensures sockets[s].stype != SocketPeer ==>
        ret == -1 && (sockets[s].writePipe != null ==> unchanged(sockets[s].writePipe))
      ensures sockets[s].stype == SocketPeer ==>
        var p := sockets[s].writePipe;
        && ret == 0 && p.Valid() && !p.freed && p.buffer == old(p.buffer)
        && p.reader == old(p.reader) && p.writer == old(p.writer)
        && p.Contents == (if old(p.reader).None? || old(p.writer).None? then old(p.Contents)
                          else old(p.Contents) + buf[..n])
    {
      if sockets[s].stype == SocketPeer {
        var _ := sockets[s].writePipe.Write(buf, n);
        return 0;
      }
      return -1;
    }

    /**
     * `socket_close`: the tables become `Closed`; a PEER also closes the
     * reader end of its read pipe and the writer end of its write pipe. Always
     * 0; the reference count is not consulted.
     */
    method SocketClose(s: SockId) returns (ret: int)
      requires Valid() && s in sockets && sockets[s].fcb.Some?
      requires sockets[s].stype == SocketPeer ==> PipeOk(sockets[s].readPipe) && PipeOk(sockets[s].writePipe)
      modifies this, PipesOf(s)
      ensures ret == 0
      ensures View() == Closed(old(View()), s)
      ensures Valid()
      ensures old(sockets[s]).stype == SocketPeer ==>
        var o := old(sockets[s]);
        && (o.readPipe != null ==> EndsClosed(o.readPipe, true, o.readPipe == o.writePipe))
        && (o.writePipe != null ==> EndsClosed(o.writePipe, o.readPipe == o.writePipe, true))
      ensures old(sockets[s]).stype != SocketPeer ==>
        var o := old(sockets[s]);
        (o.readPipe != null ==> unchanged(o.readPipe)) && (o.writePipe != null ==> unchanged(o.writePipe))
    {
      var sock := sockets[s];
      Unbind(s);
      if sock.stype == SocketPeer {
        CloseEnds(sock.readPipe, sock.writePipe, true, true);
      }
      return 0;
    }

    /**
     * The table part of `socket_close`: the FCB is cleared, a LISTENER frees
     * its PORT_MAP slot and a PEER forgets its partner.
     */
    method Unbind(s: SockId)
      requires Valid() && s in sockets && sockets[s].fcb.Some?
      modifies this
      ensures View() == Closed(old(View()), s)
      ensures Valid()
    {
      CloseSpec(View(), s);
      var sock := sockets[s];
      streamObj := streamObj - {sock.fcb.value};
      sockets := sockets[s := sock.(fcb := None)];
      if sock.stype == SocketListener {
        portMap := portMap[sock.port := None];
      } else if sock.stype == SocketPeer {
        sockets := sockets[s := sockets[s].(peer := None)];
      }
    }

    /**
     * `sys_Listen`: succeeds (0) exactly for a file id that refers to an
     * UNBOUND socket with a non-zero port whose PORT_MAP slot is empty, and the
     * tables become `Listened`. Every failure returns -1 and changes nothing.
     */
    method SysListen(sock: Fid) returns (ret: int)
      requires Valid()
      modifies this
      ensures ret == 0 || ret == -1
      ensures ret == 0 <==>
        && 0 <= sock <= MAX_FILEID && Lookup(old(View()), sock).Some?
        && old(sockets[Lookup(View(), sock).value]).stype == SocketUnbound
        && old(sockets[Lookup(View(), sock).value]).port != 0
        && old(portMap[sockets[Lookup(View(), sock).value].port]).None?
      ensures ret == -1 ==> unchanged(this)
      ensures ret == 0 ==> View() == Listened(old(View()), Lookup(old(View()), sock).value)
      ensures Valid()
    {
      if sock < 0 || sock > MAX_FILEID {
        return -1;
      }
      var found := Lookup(View(), sock);
      if found.None? {
        return -1;
      }
      var s := found.value;
      var socket := sockets[s];
      if socket.port == 0 || socket.stype != SocketUnbound {
        return -1;
      }
      if portMap[socket.port].Some? {
        return -1;
      }
      ListenSpec(View(), s);
      sockets := sockets[s := socket.(stype := SocketListener)];
      portMap := portMap[socket.port := socket.fcb];
      sockets := sockets[s := sockets[s].(queue := [])];
      return 0;
    }

    /**
     * `sys_Accept`, with the wait for a request already over: NOFILE and no
     * change unless the file id refers to a LISTENER; otherwise the tables
     * become `Accepted` (see `AcceptEffect`) and the new file id is returned.
     */
    method SysAccept(lsock: Fid, reserved: Option<(Fid, FcbId)>) returns (fid: Fid)
      requires Valid()
      requires 0 <= lsock <= MAX_FILEID && Lookup(View(), lsock).Some? &&
               sockets[Lookup(View(), lsock).value].stype == SocketListener ==>
        sockets[Lookup(View(), lsock).value].queue != [] && reserved.Some? && FreshReservation(View(), reserved.value)
      modifies this
      ensures !(0 <= lsock <= MAX_FILEID && Lookup(old(View()), lsock).Some? &&
                old(sockets[Lookup(View(), lsock).value]).stype == SocketListener) ==>
        fid == NOFILE && unchanged(this)
      ensures 0 <= lsock <= MAX_FILEID && Lookup(old(View()), lsock).Some? &&
              old(sockets[Lookup(View(), lsock).value]).stype == SocketListener ==>
        var l := Lookup(old(View()), lsock).value;
        && Oldest(old(View()), l) in old(requests) && old(requests)[Oldest(old(View()), l)].peer in old(sockets)
        && fid == reserved.value.0
        && View() == Accepted(old(View()), l, reserved.value.0, reserved.value.1)
      ensures Valid()
    {
      if lsock < 0 || lsock > MAX_FILEID {
        return NOFILE;
      }
      var found := Lookup(View(), lsock);
      if found.None? {
        return NOFILE;
      }
      var l := found.value;
      if sockets[l].stype != SocketListener {
        return NOFILE;
      }
      OldestLinked(View(), l);
      var lo := sockets[l];
      var rq := PopRequest(l);
      var c := requests[rq].peer;
      var ns := nextSock;
      fid := SysSocket(lo.port, reserved);
      Wire(l, ns, c, rq);
    }

    /**
     * The first half of `sys_Accept` once a request is waiting: the listener's
     * count goes up and the front of its queue is popped and returned.
     */
    method PopRequest(l: SockId) returns (rq: ReqId)
      requires Valid() && l in sockets && sockets[l].queue != []
      modifies this
      ensures rq == Oldest(old(View()), l)
      ensures View() == Popped(old(View()), l)
      ensures Valid()
    {
      PopInv(View(), l);
      var lo := sockets[l];
      rq := lo.queue[0];
      sockets := sockets[l := lo.(refcount := lo.refcount + 1, queue := lo.queue[1..])];
    }

    /**
     * The wiring at the end of `sys_Accept`: `a` becomes a PEER paired with
     * `c` on crossed pipes, `c` points back at `a`, the request is admitted
     * and the listener's count drops by one.
     */
    method Wire(l: SockId, a: SockId, c: SockId, rq: ReqId)
      requires Valid() && l in sockets && a in sockets && c in sockets && rq in requests
      requires sockets[a].stype != SocketListener
      modifies this
      ensures View() == Wired(old(View()), l, a, c, rq)
      ensures Valid()
    {
      WireInv(View(), l, a, c, rq);
      Pair(l, a, c, rq);
    }

    /** The field updates of `Wire`. */
    method Pair(l: SockId, a: SockId, c: SockId, rq: ReqId)
      requires l in sockets && a in sockets && c in sockets && rq in requests
      modifies this
      ensures View() == Wired(old(View()), l, a, c, rq)
    {
      var s1 := sockets[a := sockets[a].(stype := SocketPeer, peer := Some(c),
                                         readPipe := sockets[c].writePipe, writePipe := sockets[c].readPipe)];
      var s2 := s1[c := s1[c].(peer := Some(a))];
      sockets := s2[l := s2[l].(refcount := s2[l].refcount - 1)];
      requests := requests[rq := requests[rq].(admitted := true)];
    }

    /**
     * `sys_Accept` as it is evidently meant to work: as `SysAccept`, and in
     * addition two new pipes are made, one from the requester to the new
     * socket (`toAcceptor`) and one back (`toConnector`), each with the
     * receiving socket's FCB as reader and the sending one's as writer, and
     * both sockets become PEERs on them.
     */
    method SysAcceptConnected(lsock: Fid, reserved: Option<(Fid, FcbId)>)
      returns (fid: Fid, toAcceptor: PipeCB?, toConnector: PipeCB?)
      requires Valid()
      requires 0 <= lsock <= MAX_FILEID && Lookup(View(), lsock).Some? &&
               sockets[Lookup(View(), lsock).value].stype == SocketListener ==>
        sockets[Lookup(View(), lsock).value].queue != [] && Connectable(View(), Lookup(View(), lsock).value) &&
        reserved.Some? && FreshReservation(View(), reserved.value)
      modifies this
      ensures !(0 <= lsock <= MAX_FILEID && Lookup(old(View()), lsock).Some? &&
                old(sockets[Lookup(View(), lsock).value]).stype == SocketListener) ==>
        fid == NOFILE && unchanged(this) && toAcceptor == null && toConnector == null
      ensures 0 <= lsock <= MAX_FILEID && Lookup(old(View()), lsock).Some? &&
              old(sockets[Lookup(View(), lsock).value]).stype == SocketListener ==>
        var l := Lookup(old(View()), lsock).value;
        var cf := old(sockets[requests[Oldest(View(), l)].peer]).fcb;
        && fid == reserved.value.0
        && toAcceptor != null && toConnector != null && fresh(toAcceptor) && fresh(toConnector)
        && fresh(toAcceptor.buffer) && fresh(toConnector.buffer)
        && View() == AcceptConnected(old(View()), l, reserved.value.0, reserved.value.1, toAcceptor, toConnector)
        && EmptyPipe(toAcceptor, Some(reserved.value.1), cf)
        && EmptyPipe(toConnector, cf, Some(reserved.value.1))
      ensures Valid()
    {
      toAcceptor, toConnector := null, null;
      if lsock < 0 || lsock > MAX_FILEID {
        return NOFILE, null, null;
      }
      var found := Lookup(View(), lsock);
      if found.None? {
        return NOFILE, null, null;
      }
      var l := found.value;
      if sockets[l].stype != SocketListener {
        return NOFILE, null, null;
      }
      var cf := sockets[requests[Oldest(View(), l)].peer].fcb.value;
      fid, toAcceptor, toConnector := Serve(l, reserved.value, cf);
    }

    /** The listener part of `SysAcceptConnected`, once a request is waiting. */
    method Serve(l: SockId, res: (Fid, FcbId), cf: FcbId) returns (fid: Fid, toA: PipeCB, toC: PipeCB)
      requires Valid() && l in sockets && sockets[l].queue != [] && Connectable(View(), l)
      requires FreshReservation(View(), res)
      modifies this
      ensures fid == res.0 && fresh(toA) && fresh(toC) && fresh(toA.buffer) && fresh(toC.buffer)
      ensures View() == AcceptConnected(old(View()), l, res.0, res.1, toA, toC)
      ensures EmptyPipe(toA, Some(res.1), Some(cf)) && EmptyPipe(toC, Some(cf), Some(res.1))
      ensures Valid()
    {
      toA, toC := PipePair(res.1, cf);
      fid := ServeConnected(l, res, toA, toC);
    }

    /** The listener part of `SysAcceptConnected`, once a request is waiting and the pipes exist. */
    method ServeConnected(l: SockId, res: (Fid, FcbId), toA: PipeCB?, toC: PipeCB?) returns (fid: Fid)
      requires Valid() && l in sockets && sockets[l].queue != [] && Connectable(View(), l)
      requires FreshReservation(View(), res)
      modifies this
      ensures fid == res.0 && View() == AcceptConnected(old(View()), l, res.0, res.1, toA, toC)
      ensures Valid()
    {
      OldestLinked(View(), l);
      ServeFrame(View(), l, res);
      var lo := sockets[l];
      var rq := PopRequest(l);
      var c := requests[rq].peer;
      var ns := nextSock;
      fid := SysSocket(lo.port, Some(res));
      Connect(l, ns, c, rq, toA, toC);
    }

    /**
     * Two new empty pipes between the FCBs `a` and `c`: `toA` is read by `a`
     * and written by `c`, `toC` the other way round.
     */
    static method PipePair(a: FcbId, c: FcbId) returns (toA: PipeCB, toC: PipeCB)
      ensures fresh(toA) && fresh(toC) && fresh(toA.buffer) && fresh(toC.buffer) && toA != toC
      ensures EmptyPipe(toA, Some(a), Some(c)) && EmptyPipe(toC, Some(c), Some(a))
    {
      toA := new PipeCB(a, c);
      toC := new PipeCB(c, a);
    }

    /** The wiring that connects both sides: see `Connected`. */
    method Connect(l: SockId, a: SockId, c: SockId, rq: ReqId, toA: PipeCB?, toC: PipeCB?)
      requires Valid() && l in sockets && a in sockets && c in sockets && rq in requests
      requires sockets[a].stype != SocketListener && sockets[c].stype != SocketListener
      modifies this
      ensures View() == Connected(old(View()), l, a, c, rq, toA, toC)
      ensures Valid()
    {
      ConnectedInv(View(), l, a, c, rq, toA, toC);
      PairBoth(l, a, c, rq, toA, toC);
    }

    /** The field updates of `Connect`. */
    method PairBoth(l: SockId, a: SockId, c: SockId, rq: ReqId, toA: PipeCB?, toC: PipeCB?)
      requires l in sockets && a in sockets && c in sockets && rq in requests
      modifies this
      ensures View() == Connected(old(View()), l, a, c, rq, toA, toC)
    {
      var s1 := sockets[a := sockets[a].(stype := SocketPeer, peer := Some(c), readPipe := toA, writePipe := toC)];
      var s2 := s1[c := s1[c].(stype := SocketPeer, peer := Some(a), readPipe := toC, writePipe := toA)];
      sockets := s2[l := s2[l].(refcount := s2[l].refcount - 1)];
      requests := requests[rq := requests[rq].(admitted := true)];
    }

    /**
     * The part of `sys_Connect` before its wait: None (the call returns -1)
     * and no change when the file id is out of range, the port is 0 or
     * outside 0..MAX_PORT, the file id has no socket, the socket is not
     * UNBOUND, or the port does not lead to a LISTENER. Otherwise the tables
     * become `Enqueued` and the new request is returned.
     */
    method ConnectBegin(sock: Fid, port: int) returns (pending: Option<ReqId>)
      requires Valid()
      modifies this
      ensures pending.None? <==>
        || sock < 0 || sock > MAX_FILEID - 1 || port <= 0 || port > MAX_PORT
        || Lookup(old(View()), sock).None? || old(sockets[Lookup(View(), sock).value]).stype != SocketUnbound
        || ListenerAt(old(View()), port).None?
        || old(sockets[ListenerAt(View(), port).value]).stype != SocketListener
      ensures pending.None? ==> unchanged(this)
      ensures pending.Some? ==>
        var s := Lookup(old(View()), sock).value;
        var l := ListenerAt(old(View()), port).value;
        && pending.value == old(nextReq) && s != l
        && View() == Enqueued(old(View()), s, l)
      ensures Valid()
    {
      if sock < 0 || sock > MAX_FILEID - 1 {
        return None;
      }
      if port == 0 {
        return None;
      }
      if port < 0 || port > MAX_PORT {
        return None;
      }
      var found := Lookup(View(), sock);
      if found.None? {
        return None;
      }
      var s := found.value;
      if sockets[s].stype != SocketUnbound {
        return None;
      }
      if portMap[port].None? {
        return None;
      }
      var lf := portMap[port].value;
      if lf !in streamObj || sockets[streamObj[lf]].stype != SocketListener {
        return None;
      }
      var l := streamObj[lf];
      var rq := Enqueue(s, l);
      return Some(rq);
    }

    /**
     * The middle of `sys_Connect`: the requester's count goes up and a new
     * request, not admitted, joins the back of the listener's queue.
     */
    method Enqueue(s: SockId, l: SockId) returns (rq: ReqId)
      requires Valid() && s in sockets && l in sockets && s != l
      modifies this
      ensures rq == old(nextReq)
      ensures View() == Enqueued(old(View()), s, l)
      ensures Valid()
    {
      ConnectInv(View(), s, l);
      sockets := sockets[s := sockets[s].(refcount := sockets[s].refcount + 1)];
      rq := nextReq;
      nextReq := nextReq + 1;
      requests := requests[rq := Request(false, s, l)];
      sockets := sockets[l := sockets[l].(queue := sockets[l].queue + [rq])];
    }

    /**
     * The part of `sys_Connect` after its single wait: the tables become
     * `Dequeued` and the result is 0 exactly when the request was admitted.
     */
    method ConnectFinish(rq: ReqId) returns (ret: int)
      requires Valid() && rq in requests
      modifies this
      ensures ret == (if old(requests[rq]).admitted then 0 else -1)
      ensures View() == Dequeued(old(View()), rq)
      ensures Valid()
    {
      DisconnectSpec(View(), rq);
      var r := requests[rq];
      Disconnect(rq);
      if !r.admitted {
        return -1;
      }
      return 0;
    }

    /** The requester's count drops and the request is unlinked from its listener's queue. */
    method Disconnect(rq: ReqId)
      requires rq in requests && requests[rq].peer in sockets && requests[rq].listener in sockets
      modifies this
      ensures View() == Dequeued(old(View()), rq)
    {
      var r := requests[rq];
      var requester := sockets[r.peer];
      sockets := sockets[r.peer := requester.(refcount := requester.refcount - 1)];
      var listener := sockets[r.listener];
      sockets := sockets[r.listener := listener.(queue := Without(listener.queue, rq))];
    }

    /**
     * `sys_ShutDown`: -1 and no change for a file id out of range, without a
     * socket, or whose socket is not a PEER, and for an unknown mode;
     * otherwise closes the reader end of the read pipe (READ), the writer end
     * of the write pipe (WRITE) or both (BOTH), sets exactly those pipe
     * references to NULL, and returns 0.
     */
    method SysShutDown(sock: Fid, how: int) returns (ret: int)
      requires Valid()
      requires 0 <= sock < MAX_FILEID && Lookup(View(), sock).Some? ==>
        PipeOk(sockets[Lookup(View(), sock).value].readPipe) && PipeOk(sockets[Lookup(View(), sock).value].writePipe)
      modifies this, if Lookup(View(), sock).Some? then PipesOf(Lookup(View(), sock).value) else {}
      ensures ret == 0 <==>
        && 0 <= sock < MAX_FILEID && Lookup(old(View()), sock).Some?
        && old(sockets[Lookup(View(), sock).value]).stype == SocketPeer
        && how in {SHUTDOWN_READ, SHUTDOWN_WRITE, SHUTDOWN_BOTH}
      ensures ret != 0 ==> ret == -1 && unchanged(this)
      ensures ret != 0 && Lookup(old(View()), sock).Some? ==>
        var o := old(sockets[Lookup(View(), sock).value]);
        (o.readPipe != null ==> unchanged(o.readPipe)) && (o.writePipe != null ==> unchanged(o.writePipe))
      ensures ret == 0 ==>
        var s := Lookup(old(View()), sock).value;
        var o := old(sockets[s]);
        var closeRead, closeWrite := how != SHUTDOWN_WRITE, how != SHUTDOWN_READ;
        && View() == ShutDown(old(View()), s, how)
        && (o.readPipe != null ==> EndsClosed(o.readPipe, closeRead, closeWrite && o.readPipe == o.writePipe))
        && (o.writePipe != null ==> EndsClosed(o.writePipe, closeRead && o.readPipe == o.writePipe, closeWrite))
        && (!closeRead && o.readPipe != null && o.readPipe != o.writePipe ==> unchanged(o.readPipe))
        && (!closeWrite && o.writePipe != null && o.writePipe != o.readPipe ==> unchanged(o.writePipe))
      ensures Valid()
    {
      if sock < 0 || sock >= MAX_FILEID {
        return -1;
      }
      var found := Lookup(View(), sock);
      if found.None? {
        return -1;
      }
      var s := found.value;
      var o := sockets[s];
      if o.stype != SocketPeer {
        return -1;
      }
      if how != SHUTDOWN_READ && how != SHUTDOWN_WRITE && how != SHUTDOWN_BOTH {
        return -1;
      }
      ShutPeer(s, how);
      return 0;
    }

    /**
     * The effect of `sys_ShutDown` on a PEER once the mode is known: the pipe
     * ends the mode names are closed and the references to them become NULL.
     */
    method ShutPeer(s: SockId, how: int)
      requires Valid() && s in sockets && how in {SHUTDOWN_READ, SHUTDOWN_WRITE, SHUTDOWN_BOTH}
      requires PipeOk(sockets[s].readPipe) && PipeOk(sockets[s].writePipe)
      modifies this, PipesOf(s)
      ensures
        var o := old(sockets[s]);
        var closeRead, closeWrite := how != SHUTDOWN_WRITE, how != SHUTDOWN_READ;
        && View() == ShutDown(old(View()), s, how)
        && (o.readPipe != null ==> EndsClosed(o.readPipe, closeRead, closeWrite && o.readPipe == o.writePipe))
        && (o.writePipe != null ==> EndsClosed(o.writePipe, closeRead && o.readPipe == o.writePipe, closeWrite))
        && (!closeRead && o.readPipe != null && o.readPipe != o.writePipe ==> unchanged(o.readPipe))
        && (!closeWrite && o.writePipe != null && o.writePipe != o.readPipe ==> unchanged(o.writePipe))
      ensures Valid()
    {
      var o := sockets[s];
      CloseEnds(o.readPipe, o.writePipe, how != SHUTDOWN_WRITE, how != SHUTDOWN_READ);
      Unplug(s, how);
    }

    /** The references `sys_ShutDown` with mode `how` has closed become NULL. */
    method Unplug(s: SockId, how: int)
      requires Valid() && s in sockets
      modifies this
      ensures View() == ShutDown(old(View()), s, how)
      ensures Valid()
    {
      ShutDownInv(View(), s, how);
      var o := sockets[s];
      if how == SHUTDOWN_READ || how == SHUTDOWN_BOTH {
        o := o.(readPipe := null);
      }
      if how == SHUTDOWN_WRITE || how == SHUTDOWN_BOTH {
        o := o.(writePipe := null);
      }
      sockets := sockets[s := o];
    }
  }
}
