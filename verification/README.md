# mpudp in Dafny

mpudp is a multipath UDP tunnel. Frames read from a TUN device are sent,
behind a frame header (mode, device id, length, global and per-path
sequence numbers), over several UDP sockets, one per network interface. Each socket is a `SOCKET_PACK`. In SPEED mode a frame goes over
one path; in STABLE mode it goes over every path. The repository also holds
a stand-alone relay (`main.cpp`). The relay spreads datagrams from one local
sender over several RX-side sockets in round-robin order, and it returns
datagrams that arrive on those sockets to the last sender.

This project models that core in five modules:

- `Basics` (basics.dfy): fixed-width integers, `Option`, and a `Result`
  whose `Error` cases stand for the exceptions the source throws.
- `RingBuffer` (ringbuf.dfy): `ringbuf<T, N>` as a class over an array.
  The class has the fields `head`, `tail` and `count`. Its contents are a
  window of the array. `Push` and `Pop` are proved against the sequence
  function `Pushed` and against slicing. The run lemmas then show that the
  buffer keeps exactly the newest `N` elements, in FIFO order.
- `Network` (network.dfy):
  - `is_same_addr`.
  - The layout of the 8-byte `TUN_HEADER` struct declared in network.h.
  - The move-only `SOCKET_PACK`, with a descriptor table
    `FdTable`. Its `Close` demands that the descriptor be open, and its
    invariant `Valid` says that the log of closed descriptors holds no
    descriptor twice and none that is open. The destructor, the move
    constructor and move assignment preserve `Valid` and an ownership
    invariant, `Exclusive`, so across any sequence of moves and
    destructions each descriptor is closed at most once.
  - `tun_eread`, `tun_ewrite` and the `tun_readn` loop, over a byte source
    and sink whose per-call results are parameters.
- `Mpudp` (mpudp.dfy): `MPUDPTunnel` as a class with these fields:
  - the global sequence number `seq`;
  - the header at the front of the shared buffer;
  - the payload array;
  - the paths.

  A ghost log records every sendto(2) and recvfrom(2) call. The log shows
  which header each frame carried.
- `Relay` (relay.dfy): the `main.cpp` loop.
  - Specification functions (`TxStep`, `RxFrom`, `ReadyStep`, `Run`) say
    what one wake-up and a run of wake-ups forward.
  - The imperative `RelayLoop` is proved equal to `Run`.
  - `Run`'s contract keeps `counter` in range. The lemmas `RoundRobin`
    and `TxSocketOfKthDatagram` state the round-robin order of a run.
    `RepliesGoToLatestSender` states that every reply of a run goes to the
    sender of the latest datagram received on the TX-side socket.
    `RxForwardsUnchanged` states, for one wake-up, that each reply carries
    exactly the bytes received.

Deleted copying of a `SOCKET_PACK` (network.h:49-51) has no member. No
operation in the model duplicates a pack's descriptor. Only `Take` and
`MoveAssign` hand a descriptor over, and both empty the source.

## Model

| member | source | states |
|---|---|---|
| RingBuffer.Next | ringbuf.h:22 | the next slot is in range and equals (i + 1) mod N |
| RingBuffer.Pushed | ringbuf.h:17-23 | a push appends the element and drops the oldest exactly when the buffer already held capacity elements |
| RingBuffer.RingBuf.constructor | ringbuf.h:12 | a new buffer has head, tail and count 0 and holds nothing |
| RingBuffer.RingBuf.Filled | ringbuf.h:13-15 | as the default constructor, and all N slots hold `def` |
| RingBuffer.RingBuf.Push | ringbuf.h:17-23 | only slot head is written; head advances cyclically by one; count saturates at N; the contents become `Pushed(old contents, x, N)`; the window invariant (tail + count) mod N == head while not full is kept |
| RingBuffer.RingBuf.Pop | ringbuf.h:25-36 | an empty buffer yields AllPopped and count stays 0; otherwise it returns the oldest stored element (the one at head when the buffer is full), count drops by one and the contents lose their first element |
| RingBuffer.PushAllKeepsNewest | ringbuf.h:17-23 | after any run of pushes the buffer holds exactly the newest N elements pushed, oldest first |
| RingBuffer.EarliestForgotten | ringbuf.h:17-23 | after more than N pushes, the first element pushed, if not pushed again, is no longer stored |
| RingBuffer.NothingLostBelowCapacity | ringbuf.h:17-36 | with at most N pushes nothing is lost and pops return the elements in push order |
| Network.IsSameAddr | network.cpp:4-8 | is_same_addr holds exactly when the two addresses are equal, i.e. agree on family, address and port |
| Network.IsSameAddrIsEquality | network.cpp:4-8 | is_same_addr holds iff the two addresses agree on family, address and port; it is reflexive, symmetric and transitive |
| Network.Width | network.h:32-35 | each header member is 1, 2 or 4 bytes wide |
| Network.TunHeaderLayout | network.h:29-36 | mode, device_id, length, seq in that order each sit at a multiple of their size and tile exactly 8 bytes |
| Network.WidthsMatchFieldTypes | network.h:32-35 | each member's byte width spans exactly the range of its type: 2^8 for mode and device_id, 2^16 for length, 2^32 for seq; every TUN_HEADER value fits its members' widths |
| Network.FdTable.constructor | network.h:44-47 | the descriptor table starts with the given open descriptors, nothing closed, and its invariant holding |
| Network.FdTable.Close | network.h:46 | close(2) removes an open descriptor and logs it; closing a descriptor that is not open cannot be called; the invariant (no descriptor closed twice, none closed and open) is kept |
| Network.SocketPack.constructor | network.h:44 | a default pack owns no descriptor (sock_fd == -1) |
| Network.SocketPack.Destroy | network.h:45-47 | the destructor closes sock_fd exactly when it is not -1 and keeps the descriptor table's invariant and the ownership invariant for the remaining packs |
| Network.SocketPack.Take | network.h:54-60 | the move constructor takes over both addresses, the interface name and the descriptor, leaves the source with sock_fd == -1, and keeps the ownership invariant |
| Network.SocketPack.MoveAssign | network.h:62-73 | a self-move changes nothing; otherwise the target's own descriptor, if any, is closed first, then everything is taken over and the source is emptied; the descriptor table's invariant and the ownership invariant are kept |
| Network.ReadCount | network.cpp:44 | a read returns at most the bytes asked for and available, and is positive exactly when the kernel offers bytes, some are asked for and some remain |
| Network.Source.Read | network.cpp:44 | read(2) copies the count it returns from the front of the pending bytes into the buffer at the offset, and touches nothing else |
| Network.TunERead | network.cpp:41-50 | fails with ReadFailed exactly when read returns <= 0; otherwise returns the positive count and the bytes read |
| Network.WriteCount | network.cpp:55 | a write takes at most the bytes offered and is negative exactly when the kernel fails |
| Network.Sink.Write | network.cpp:55 | write(2) appends the leading bytes it reports as written |
| Network.TunEWrite | network.cpp:52-61 | issues exactly one write; fails with WriteFailed exactly when write returns a negative value; otherwise returns the count that write returned (at most n) and the sink gains those bytes |
| Network.TunReadN | network.cpp:63-75 | n <= 0 returns n and touches nothing; otherwise the loop terminates, places the chunks contiguously so that buf[..n] is the first n stream bytes, consumes exactly those, and returns n; it fails with ReadFailed only after at least one read, and only when the last read returned 0 or less or the data ran out; it succeeds whenever every read offers bytes and n bytes are pending |
| Mpudp.Copied | mpudp.cpp:100-103 | recvfrom copies the smaller of the request and the datagram size |
| Mpudp.RecvRequestAsWritten | mpudp.cpp:100-103 | the request as written is the header plus the peer-announced length, anywhere up to 65535 bytes past the header whatever the buffer holds |
| Mpudp.AsWrittenRecvOverrunsBuffer | mpudp.cpp:100-103 | with the request as written, a peer announcing 2000 payload bytes makes recvfrom copy more than a 1500-byte payload buffer holds |
| Mpudp.RecvRequest | mpudp.cpp:100-103 | the capped request covers the header, never exceeds the buffer, and equals the as-written request whenever the announced length fits |
| Mpudp.RecvFitsBuffer | mpudp.cpp:100-103 | whatever the peer sends, a receive with the capped request copies at most the buffer's capacity |
| Mpudp.Tunnel.constructor | mpudp.cpp:3-7 | seq starts at 0, there is no TUN descriptor and no path, and the payload area of szbuf bytes starts right after the header |
| Mpudp.Tunnel.SetTunDevice | mpudp.cpp:19-26 | records the descriptor tun_alloc returned and reports success exactly when it is non-negative |
| Mpudp.Tunnel.Transmit | mpudp.cpp:28-49 | sends header plus data_len payload bytes to the path's peer; a failure returns -1 and leaves seq_dev alone; a success returns the count and increments seq_dev modulo 2^32 |
| Mpudp.Tunnel.SendTo | mpudp.cpp:52-65 | stamps device_id = sock_fd (low byte), length, seq_all = seq, seq_dev = the path's seq_dev and mode SPEED, sends once, and increments seq whether or not the send succeeded |
| Mpudp.Tunnel.StableFrame | mpudp.cpp:77-80 | a STABLE frame on a path goes to that path's peer with mode STABLE, the shared seq_all, that path's device_id, the payload length and header plus payload bytes |
| Mpudp.Tunnel.SendOnPath | mpudp.cpp:77-80 | one pass of the STABLE loop: the header gains path i's device_id and nothing else; the STABLE frame for path i is sent; only path i's seq_dev may change, as Transmit says |
| Mpudp.Tunnel.SendToAllDevices | mpudp.cpp:67-83 | with no path, returns 0 with seq unchanged; otherwise sends one frame per path in order, all with the same seq_all and mode STABLE and each with its own device_id; a failed path does not stop the rest; seq is incremented once; the last path's result is returned; of the paths only seq_dev changes |
| Mpudp.Tunnel.RecvFrom | mpudp.cpp:85-111 | peeks a header-sized read, then requests the header plus the peeked length (capped, see Findings); either failure is RecvFailed; on success the payload is copied and addr_from is written only when it is non-null |
| Relay.Advance | main.cpp:137 | the counter stays in [0, npathway) |
| Relay.Truncated | main.cpp:116 | recvfrom into a 2048-byte buffer keeps exactly the first min(length, 2048) bytes |
| Relay.TxStep | main.cpp:113-138 | an idle TX socket changes nothing; otherwise one forward on sock_rx[counter] to addr_rx_out, counter advances mod npathway; a received datagram's truncated bytes and count are forwarded and its sender becomes addr_tx_out; a failed receive forwards length -1 |
| Relay.RxOne | main.cpp:140-161 | one RX socket leaves counter and addr_tx_out alone; a received datagram's sender becomes addr_rx_out; a ready socket yields exactly one forward through sock_tx to addr_tx_out, an idle one none |
| Relay.RxFrom | main.cpp:139-162 | the loop over RX sockets forwards only through the TX-side socket |
| Relay.ReadyStep | main.cpp:113-162 | one wake-up with ready sockets leaves counter in range |
| Relay.Run | main.cpp:97-163 | a run keeps counter in range and handles at most the wake-ups given |
| Relay.RxKeepsCounter | main.cpp:139-162 | RX-side arrivals change neither counter nor the TX-side return address |
| Relay.RxForwardsUnchanged | main.cpp:139-162 | each ready RX socket, in index order, yields one forward through the TX socket to the last TX-side sender, carrying exactly the bytes received and their count |
| Relay.TimeoutForwardsNothing | main.cpp:108-111 | a select timeout forwards nothing, changes nothing, and the loop goes on |
| Relay.SelectErrorStops | main.cpp:104-107 | a select error ends the loop with nothing further handled |
| Relay.CycleAt | main.cpp:137 | the k-th index of the round-robin cycle from c is (c + k) mod npathway |
| Relay.RoundRobin | main.cpp:129-137 | the TX-side datagrams of any run go out on sock_rx[counter], sock_rx[counter + 1], ..., wrapping at npathway |
| Relay.ReadyReplies | main.cpp:113-161 | one ready wake-up replies once per ready RX-side socket, each time to the latest TX-side sender (the one just received, else the previous addr_tx_out), and leaves that sender as addr_tx_out |
| Relay.RepliesGoToLatestSender | main.cpp:97-163 | the destinations of a run's RX-side forwards, in order, are exactly those of the reference ReplyDests: each goes to the sender of the latest TX-side datagram before it |
| Relay.TxSocketOfKthDatagram | main.cpp:129-137 | from start-up, the k-th TX-side datagram goes out on sock_rx[k mod npathway] |
| Relay.MaxDescriptor | main.cpp:65-92 | rxmax is the maximum of 0 and all sock_rx[i]; nfds = max(sock_tx, rxmax) |
| Relay.TxBranch | main.cpp:113-138 | the TX-side branch forwards exactly as TxStep says and advances the counter |
| Relay.RxServe | main.cpp:140-161 | one pass of the RX-side loop body (receive, the sender becomes addr_rx_out, forward through sock_tx) does exactly what RxOne says |
| Relay.RxRound | main.cpp:139-162 | the loop over RX-side sockets forwards exactly as RxFrom says |
| Relay.HandleReady | main.cpp:113-162 | one ready wake-up forwards exactly as ReadyStep says |
| Relay.RelayLoop | main.cpp:97-163 | the loop computes nfds covering every socket and issues exactly the forwards of Run from the initial state; it ends with the same counter, number of wake-ups handled and stop flag |

## Left out

- Byte order and the wire encoding: `htons`/`ntohs`, the `IPV4_ADDR` union and `inet_ntoa`. Addresses and headers are abstract records. `TunHeaderLayout` states the member layout, not a byte encoding.
- `tun_alloc` (`open`/`ioctl` on `/dev/net/tun`). `SetTunDevice` takes its result as a parameter.
- The results of sendto(2), recvfrom(2), read(2), write(2) and select(2) are parameters. They are not kernel behaviour.
- All logging (print.cpp, `printf`, `perror`).
- The echo thread, the mutex `buf_mtx`, and the destructor of `MPUDPTunnel`. These are concurrency and thread joining.
- client.cpp, server.cpp, `MainLoop`, and the peer registry, RTT and score statistics. Only their declarations exist.
- `SocketManager`. It is declared and never defined.
- mpudpdef.h is not part of this model.
  - `sizeof(TUN_HEADER)` for the five-field header that mpudp.cpp writes is a constructor parameter.
  - `seq_dev` is taken to be a 32-bit unsigned counter.
  - `device_id` keeps the low byte of `sock_fd`.
- `ringbuf` with N = 1: the source does not characterise it, so the model requires N >= 2.
- A datagram shorter than the header: what the peek then leaves in the buffer is not modelled.
- Relay socket set-up (socket, bind, setsockopt, getsockname) and the final closes are left out. The number of RX-side sockets is any positive count, not the constant 2.
- Network.SocketPack.Take: does not state the new pack's `seq_dev`. The move constructor in network.h does not copy it; the field comes from mpudpdef.h, which is not part of this model.
- Network.SocketPack.MoveAssign: the target keeping its own `seq_dev` is a choice of the model. The move assignment in network.h does not mention the field, which comes from mpudpdef.h.
- Mpudp.Tunnel.Transmit: requires `data_len <= szbuf`. The source never compares them, and a larger `data_len` makes sendto read past `tun_buf`. The model leaves that out-of-bounds read to the caller.
- Mpudp.Tunnel.SendTo: requires `data_len <= szbuf`, for the same reason as `Transmit`.
- Mpudp.Tunnel.SendToAllDevices: requires `data_len <= szbuf`, for the same reason as `Transmit`.
- Mpudp.Tunnel.RecvFrom: the second request is capped at the buffer's capacity instead of the uncapped request the source issues (see Findings).

## Findings

| source | as written | input that shows it | evidently intended | confidence | as-written member | corrected member |
|---|---|---|---|---|---|---|
| mpudp.cpp:100-103 | the second recvfrom asks for `sizeof(TUN_HEADER) + phead->length` bytes into `tun_buf`, which holds `sizeof(TUN_HEADER) + szbuf`, and `length` comes from the peer | szbuf = 1500, a datagram whose header announces and carries 2000 payload bytes: 500 bytes are written past the buffer | never request more than the buffer holds | not executed | Mpudp.RecvRequestAsWritten, Mpudp.AsWrittenRecvOverrunsBuffer | Mpudp.RecvRequest, Mpudp.RecvFitsBuffer |
