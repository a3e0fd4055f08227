# Pipes and socket rendezvous of a teaching kernel

This project models two parts of the tinyos3 kernel: the pipe channel and
the socket rendezvous.

- **Pipe channel** (`kernel_pipe.c`). A `pipe_cb` owns a circular buffer of
  `PIPE_BUFFER_SIZE` bytes, a read cursor, a write cursor, a byte count, and
  its reader and writer ends.
  - The model is the class `Pipes.PipeCB`, whose fields are updated in place.
  - Its ghost `Contents` is the FIFO sequence of buffered bytes.
  - `Valid()` ties `Contents` to the ring: the count is the cursor distance
    modulo the capacity.
  - `pipe_write` and `pipe_read` are `for` loops built on two byte steps,
    `StoreByte` and `TakeByte`.
  - The close functions and `sys_Pipe` are module methods.
- **Socket rendezvous** (`kernel_socket.c`, types from `kernel_socket.h`).
  - A socket control block is the datatype `Sockets.Socket`. It has a type tag,
    a reference count, an FCB, a port, and the union payload as flat fields:
    queue, read pipe, write pipe and partner.
  - The kernel tables live in the class `Sockets.Kernel`, whose methods are
    the system calls. The tables are:
    - `PORT_MAP`;
    - the file-id table as `get_fcb` reads it, whose ids `Inv` keeps below
      MAX_FILEID, the size of the process's FIDT array;
    - the `streamobj` of each FCB;
    - arenas of socket control blocks and connection requests.
  - Each method is specified by a function on the value `Tables` (`AddSocket`,
    `Listened`, `Closed`, `Accepted`, `Enqueued`, `Dequeued`, `ShutDown`).
  - Lemmas prove the kernel invariant `Inv` and the effects of each call about
    those functions.
  - `sys_Connect` is split at its single wait. `ConnectBegin` enqueues the
    request. `ConnectFinish` is the code after the wait. An accept can run in
    between.
  - `rendezvous.dfy` composes whole runs over a fresh kernel.

Where the code and the behaviour one would expect differ, the model follows
the code:
- `socket_read` and `socket_write` return 0, not a byte count.
- `socket_close` ignores the reference count.
- `sys_Connect` waits only once.
- `sys_Accept` neither promotes the connecting socket nor creates pipes
  (see Findings).

## Model

| member | source | states |
|---|---|---|
| Pipes.SysPipe | kernel_pipe.c:23-50 | -1 when no file ids can be reserved; otherwise 0, a new pipe with both cursors and the count at 0, nothing buffered, the reserved FCBs as reader and writer, and the two file ids in the `pipe_t` |
| Pipes.PipeCB.constructor | kernel_pipe.c:32-41 | a new control block is valid, empty, with both ends set |
| Pipes.StoreSlot | kernel_pipe.c:62-66 | ring arithmetic: the write cursor is the slot just past the buffered bytes and holds none of them; a store into a non-full buffer adds exactly one byte to the count |
| Pipes.PipeCB.StoreByte | kernel_pipe.c:62-66 | only on a non-full buffer: the byte lands at the write cursor, no other slot changes, the cursor advances modulo the capacity, the count grows by 1, `Contents` gains the byte at its end, and the invariant is kept |
| Pipes.PipeCB.TakeByte | kernel_pipe.c:99-103 | only on a non-empty buffer: returns the byte at the read cursor, which is the oldest buffered byte; the cursor advances modulo the capacity, the count drops by 1, and `Contents` loses its first byte |
| Pipes.PipeCB.Write | kernel_pipe.c:54-86 | -1 and no change when either end is closed; otherwise the first `n` bytes are appended to `Contents` in order and `n` is returned; both ends and the buffer identity are kept |
| Pipes.PipeCB.Read | kernel_pipe.c:88-121 | -1 with the reader closed; 0 and no change at end of stream; otherwise returns `ReadResult` (the bytes left when the writer is closed and the buffer drains, else `n`); copies exactly that many of the oldest bytes into `buf` in order; removes them from `Contents`; leaves the rest of `buf` alone |
| Pipes.ReadResultBounds | kernel_pipe.c:92-107 | a read on an open reader returns between 0 and `n` and no more than was buffered; it returns 0 only at end of stream or for an empty request, and returns short only when the writer is closed |
| Pipes.FullIffCapacity | kernel_pipe.c:62 | the full test holds exactly when PIPE_BUFFER_SIZE - 1 bytes are buffered |
| Pipes.EmptyIffNoData | kernel_pipe.c:99 | the empty test holds exactly when no byte is buffered |
| Pipes.WriterClose | kernel_pipe.c:123-135 | -1 for NULL; otherwise 0; only the writer end becomes NULL; buffered bytes and cursors are kept; the block is released exactly when the reader end was already closed |
| Pipes.ReaderClose | kernel_pipe.c:148-160 | the same for the reader end |
| Pipes.ChunkedRoundTrip | kernel_pipe.c:54-121 | bytes written at once and read back in two chunks come out exactly as written (FIFO) |
| Pipes.DrainAfterWriterClose | kernel_pipe.c:88-121 | after the writer closes, a read that asks for more gets what is left, the next read gets 0 (end of stream), and a later write fails with -1 |
| Sockets.LookupOpen | kernel_socket.c:89-98 | under `Inv`, `get_fcb(fid)->streamobj` reaches only an open socket, the one whose FCB the file id holds, and every open socket is reached from each file id that holds its FCB |
| Sockets.ListenerAtOpen | kernel_socket.c:181-186 | under `Inv`, `PORT_MAP[port]->streamobj` is a socket exactly when the slot is occupied, and then it is the open LISTENER on that port whose FCB the slot holds; every open LISTENER is the one its port's slot leads to |
| Sockets.Without | kernel_socket.c:214 | unlinking a request leaves exactly the other queued requests, and never a longer queue |
| Sockets.WithoutSplit | kernel_socket.c:214 | unlinking a request that occurs once keeps the requests before and after it, in order |
| Sockets.ListenerUnique | kernel_socket.c:100-110 | under `Inv`, two open LISTENERs on one port are the same socket |
| Sockets.Kernel.constructor | kernel_socket.c:15 | kernel start: PORT_MAP is all NULL, there are no sockets or requests, and `Inv` holds |
| Sockets.AddSocketInv | kernel_socket.c:17-41 | creating a socket on a port in 1..MAX_PORT behind an unused file id and FCB keeps `Inv` |
| Sockets.AddSocketEffect | kernel_socket.c:29-37 | after `sys_Socket` the reserved file id leads to a new UNBOUND socket with count 0 on the requested port; every other file id leads where it did; no existing socket changes |
| Sockets.Kernel.SysSocket | kernel_socket.c:17-41 | NOPORT for port 0; NOFILE for a port outside 0..MAX_PORT or a failed reservation, with no change; otherwise the tables become `AddSocket`, the file id is returned, and `Inv` is kept |
| Sockets.Kernel.SocketRead | kernel_socket.c:43-55 | -1 for a non-PEER, with its read pipe and the buffer untouched; for a PEER the read pipe's `pipe_read` takes effect and 0 is returned. The buffer is untouched when that read gives -1 or 0, and only its first k bytes change when it reads k |
| Sockets.Kernel.SocketWrite | kernel_socket.c:57-68 | -1 for a non-PEER, with its write pipe untouched; for a PEER the write pipe's `pipe_write` takes effect and 0 is returned |
| Sockets.CloseSpec | kernel_socket.c:70-82 | closing keeps `Inv`; the socket loses its FCB and no file id leads to it any more, a closed LISTENER's port leads nowhere, and a closed PEER has no partner |
| Sockets.Kernel.Unbind | kernel_socket.c:72-77 | the table part of `socket_close`: the tables become `Closed` and `Inv` is kept |
| Sockets.CloseEnds | kernel_socket.c:77-78 | closes the reader end of the read pipe and then the writer end of the write pipe, each when asked; every pipe stays valid with its buffered bytes, the ends not asked for stay as they were, a pipe is released exactly when no end of it is left open, and a pipe not touched is unchanged |
| Sockets.Kernel.SocketClose | kernel_socket.c:70-82 | always 0; the tables become `Closed`; a PEER closes the reader end of its read pipe and the writer end of its write pipe, and each pipe stays valid, keeps its bytes and its other end, and is released exactly when its other end was already closed; the pipes of any other socket are unchanged |
| Sockets.ListenSpec | kernel_socket.c:100-110 | listening with an UNBOUND socket on a free port keeps `Inv`; the port then leads to the socket, which is a LISTENER with an empty queue; every other slot is unchanged |
| Sockets.Kernel.SysListen | kernel_socket.c:84-111 | 0 exactly for a file id in range that leads to an UNBOUND socket with a non-zero port whose slot is empty, and the tables become `Listened`; otherwise -1 and no change |
| Sockets.PopInv | kernel_socket.c:133-136 | popping the front of a listener's queue keeps `Inv` |
| Sockets.OldestLinked | kernel_socket.c:136-137 | under `Inv`, the front request exists, names the listener and a requester other than the listener, and the next socket identity is unused |
| Sockets.WireInv | kernel_socket.c:143-148 | the wiring at the end of `sys_Accept` keeps `Inv` |
| Sockets.AcceptInv | kernel_socket.c:114-153 | `sys_Accept` keeps `Inv` |
| Sockets.AcceptEffect | kernel_socket.c:133-150 | accept serves the oldest request. The queue loses exactly its front and the listener's count is back where it was. The new socket is a PEER on the listener's port paired with the requester, on the requester's pipes crossed. The requester only gains the partner and keeps its type. The request is admitted, and no other socket changes |
| Sockets.Kernel.PopRequest | kernel_socket.c:133-137 | the listener's count goes up, and the oldest request is popped and returned |
| Sockets.Kernel.Wire | kernel_socket.c:143-150 | the tables become `Wired` (the new socket becomes a PEER on the requester's crossed pipes, the requester points back at it, the request is admitted and the listener's count drops by one) and `Inv` is kept |
| Sockets.Kernel.Pair | kernel_socket.c:143-150 | the field updates of the wiring give exactly `Wired` |
| Sockets.Kernel.SysAccept | kernel_socket.c:114-153 | NOFILE and no change unless the file id leads to a LISTENER; otherwise the tables become `Accepted` and the new file id is returned |
| Sockets.FreshNotQueued | kernel_socket.c:194-203 | under `Inv` a new request identity is in no table and no queue |
| Sockets.WithRequestInv | kernel_socket.c:194-200 | allocating a request between two different sockets keeps `Inv` |
| Sockets.ConnectInv | kernel_socket.c:192-203 | enqueueing a request keeps `Inv` |
| Sockets.ConnectSpec | kernel_socket.c:192-203 | enqueueing keeps `Inv`; the new request is not admitted and is last in the listener's queue, behind every request already waiting; the requester's count is one higher |
| Sockets.Kernel.Enqueue | kernel_socket.c:192-203 | the tables become `Enqueued`, the new request is returned, and `Inv` is kept |
| Sockets.Kernel.ConnectBegin | kernel_socket.c:156-205 | no request, and no change, exactly when the file id is out of range, the port is 0 or out of range, the file id has no socket, the socket is not UNBOUND, or the port does not lead to a LISTENER; otherwise the tables become `Enqueued` |
| Sockets.ServedInOrder | kernel_socket.c:203 | requests join the back of the queue: two connects to an idle listener queue their requests in order, an accept (which pops the front) serves the first, and the second keeps waiting |
| Sockets.DisconnectSpec | kernel_socket.c:213-214 | completing a connect keeps `Inv` and leaves the request in no queue of its listener |
| Sockets.DequeueKeeps | kernel_socket.c:213-214 | completing a connect changes no socket's type, port, FCB, pipes or partner |
| Sockets.ConnectRoundTrip | kernel_socket.c:192-214 | a connect that nobody accepts gives every socket back as it was: the requester's count and the listener's queue return to their values |
| Sockets.Kernel.Disconnect | kernel_socket.c:213-214 | the requester's count drops by one and the request is unlinked from its listener's queue: the tables become `Dequeued` |
| Sockets.Kernel.ConnectFinish | kernel_socket.c:213-219 | the tables become `Dequeued`, and the result is 0 exactly when the request was admitted, else -1 |
| Sockets.ShutSocket | kernel_socket.c:238-257 | READ nulls the read pipe reference, WRITE the write pipe reference, and BOTH both of them; every other field is kept |
| Sockets.ShutDownInv | kernel_socket.c:223-264 | shutting a socket down keeps `Inv` |
| Sockets.Kernel.Unplug | kernel_socket.c:238-257 | the tables become `ShutDown` and `Inv` is kept |
| Sockets.Kernel.ShutPeer | kernel_socket.c:238-257 | for one of the three modes: the pipe ends that mode names are closed as `CloseEnds` states and the tables become `ShutDown`; `Inv` is kept |
| Sockets.Kernel.SysShutDown | kernel_socket.c:223-264 | 0 exactly for a file id in range that leads to a PEER and one of the three modes. That mode closes the reader end of the read pipe, the writer end of the write pipe, or both, and the tables become `ShutDown`; every pipe stays valid with its bytes, the end the mode leaves alone stays as it was, and a pipe the mode does not name is unchanged. Otherwise -1, and neither the tables nor the pipes change |
| Sockets.ConnectedInv | kernel_socket.c:143-148 | the wiring that connects both sides keeps `Inv` when neither socket is a LISTENER |
| Sockets.AcceptConnectedInv | kernel_socket.c:114-153 | the accept that connects both sides keeps `Inv` |
| Sockets.AcceptConnectedEffect | kernel_socket.c:143-148 | the accept that connects both sides serves the oldest request; both sockets become PEERs paired with each other, each reading from the pipe the other writes to; no other socket changes |
| Sockets.Kernel.PipePair | kernel_socket.c:143-147 | two new, distinct, empty pipes with crossed reader and writer ends |
| Sockets.Kernel.Connect | kernel_socket.c:143-150 | the tables become `Connected` (both sockets become PEERs of each other on the two new pipes, the request is admitted and the listener's count drops by one) and `Inv` is kept |
| Sockets.Kernel.PairBoth | kernel_socket.c:143-150 | the field updates of the two-sided wiring give exactly `Connected` |
| Sockets.Kernel.ServeConnected | kernel_socket.c:133-150 | the tables become `AcceptConnected` and `Inv` is kept |
| Sockets.Kernel.Serve | kernel_socket.c:133-150 | with a request waiting: two new empty pipes between the new FCB and the requester's, and the tables become `AcceptConnected` on them |
| Sockets.Kernel.SysAcceptConnected | kernel_socket.c:114-153 | as `SysAccept`, but both sockets end up PEERs on two new empty pipes: one from the requester to the new socket, one back |
| Rendezvous.ListenTwice | kernel_socket.c:100-110 | the first listen on a port succeeds; a second socket's listen on the same port returns -1 |
| Rendezvous.ListenAfterClose | kernel_socket.c:70-98 | after `socket_close`, listening through the closed socket's file id returns -1 |
| Rendezvous.RendezvousAsWritten | kernel_socket.c:143-147 | as written: accept returns the new file id and connect returns 0, but writing on the connecting socket returns -1 and the accepted socket's read pipe is NULL |
| Rendezvous.RendezvousConnected | kernel_socket.c:143-147 | with the corrected accept, connect returns 0 and the bytes the connecting socket writes are the bytes the accepted socket reads |
| Rendezvous.RendezvousHalfClose | kernel_socket.c:245-248 | with the corrected accept, the connecting socket writes and then shuts down writing; the accepted socket, asking for more, reads exactly what was sent, its pipe is left empty with no writer, and the next read of that pipe returns 0 (end of data, kernel_pipe.c:95-96 and 105-106) |

## Left out

- Blocking and wake-ups (`kernel_wait`, `kernel_timedwait`, `kernel_broadcast`, the condition variables) are not modelled. They are replaced by preconditions: room in the buffer, data in the buffer, a non-empty queue.
- Pipes.PipeCB.Write: requires room for all `n` bytes when both ends are open, in place of blocking on a full buffer.
- Pipes.PipeCB.Write: a write that the reader's close interrupts part way cannot happen in the model.
- Pipes.PipeCB.Read: requires `n` buffered bytes when the writer is open, in place of blocking on an empty buffer.
- Pipes.PipeCB.Read: the stale-byte read after a wait ends with the writer closed and nothing buffered is excluded. It would drive the count to -1.
- `FCB_reserve`, `get_fcb`, `malloc`, `xmalloc`, `free` and the `file_ops` tables are foreign calls into the file and memory layers, and are not modelled.
  - A reservation is a parameter: `None` when it fails, `Some` with an unused file id and FCB.
  - The file-id table and `streamobj` are maps.
  - A pipe's release is the ghost flag `freed`.
  - A FCB whose `streamobj` is not a socket counts as absent.
- The memory defects of the socket code are not modelled: the undersized request `malloc` (kernel_socket.c:194), the control block leaked before the port checks (kernel_socket.c:19-27), and the unchecked `sys_Socket` result in accept (kernel_socket.c:139-141).
- Sockets.Kernel.SysAccept: requires a non-empty queue, in place of waiting for a request, and a successful reservation for its `sys_Socket`.
- Sockets.Kernel.ConnectBegin: `sys_Connect` is split at its wait. `Sockets.Kernel.ConnectFinish` reads `admitted` from the tables rather than taking it as input, and the timeout itself is not modelled.
- Sockets.Kernel.SocketRead: for a PEER it requires a valid, non-NULL read pipe, because `pipe_read` dereferences it.
- Sockets.Kernel.SocketWrite: for a PEER it requires a valid, non-NULL write pipe, because `pipe_write` dereferences it. Each call also requires the room or data its pipe call needs.
- Sockets.Kernel.SocketClose: the reference count is ignored, as in the source. The socket control block is never freed; the model clears its FCB and drops the FCB from the `streamobj` table, standing for the release of the FCB whose Close it is. The file-id slot itself is released by `sys_Close`, which is not part of this model; the stale slot no longer reaches the socket.
- Sockets.Kernel.SysShutDown: requires the pipes a PEER references to be NULL or valid.
- Sockets.Kernel.SysAcceptConnected: requires the requester to be no LISTENER and to have an open FCB. Its pipes' ends are the two sockets' FCBs.
- Uninitialised union fields of a new socket are NULL (`null` pipes, no partner) rather than indeterminate.
- The union is kept as separate fields.
- A request records the listener whose queue holds it, standing for its `queue_node` link.
- Constants from headers that are not part of this model (`tinyos.h`, `kernel_pipe.h`) take assumed values: MAX_PORT 1023, MAX_FILEID 16, NOFILE -1, NOPORT 0, SHUTDOWN_READ/WRITE/BOTH 1/2/3, PIPE_BUFFER_SIZE 8192.
- `unsigned int n` is a `nat`; a `char` is a byte 0..255.
- kernel_threads.c is not part of this model: its join and detach are stubs and its exit is empty.
- kernel_proc.h is not part of this model: it holds only declarations.

## Findings

| source | as written | input that shows it | evidently intended | confidence | as-written member | corrected member |
|---|---|---|---|---|---|---|
| kernel_socket.c:143-147 | `sys_Accept` makes only the new socket a PEER. It copies the requester's pipe fields, which `sys_Socket` never set, and leaves the requester UNBOUND with no pipes | socket 0 listens on port p; socket 1 (UNBOUND, port p) connects to p; accept on file id 0 returns 2 and the connect returns 0; then `socket_write` on socket 1 returns -1, and socket 2's read pipe is a copy of the requester's never-set `write_pipe` (NULL in the model) | the requester also becomes a PEER, and the two sockets share two new pipes, each reading from the one the other writes to | high; not executed | Rendezvous.RendezvousAsWritten | Sockets.Kernel.SysAcceptConnected |
