/**
  The stand-alone UDP relay of main.cpp. One TX-side socket receives
  datagrams from a local sender and forwards each one over the RX-side
  sockets in strict round-robin order; datagrams arriving on any RX-side
  socket go back, unchanged, to the address the last TX-side datagram came
  from. A select(2) timeout just waits again; a select(2) error ends the
  loop.
 */
module Relay {
  import opened Basics
  import opened Network

  const BufSize: nat := 2048   // size of txbuf and rxbuf
  const AF_INET: u16 := 2

  /** 192.168.0.11:2222, where RX-side traffic goes until an RX-side
      datagram arrives from somewhere else. */
  const RxDefault: SockAddr := SockAddr(AF_INET, 0xC0A8_000B, 2222)

  /** What one socket reported in one round: not ready, a datagram (bytes
      and sender), or a failed recvfrom(2). */
  datatype Recv = Idle | Got(datagram: seq<byte>, from: SockAddr) | Failed

  /** One return of select(2): a timeout, an error, or readiness of the
      TX-side socket and of each RX-side socket (missing entries: idle). */
  datatype Wake = Timeout | SelectError | Ready(tx: Recv, rx: seq<Recv>)

  /** One sendto(2) issued by the relay: to RX-side socket `path`, or from
      RX-side socket `path` back through the TX-side socket. `length` is the
      count passed to sendto (-1 after a failed receive); `txDest` is None
      while `addr_tx_out` has never been written. */
  datatype Forward =
    | ToRx(path: nat, fd: int, rxDest: SockAddr, length: int, bytes: seq<byte>)
    | ToTx(path: nat, fd: int, txDest: Option<SockAddr>, length: int, bytes: seq<byte>)

  /** `counter`, `addr_tx_out` and `addr_rx_out`. */
  datatype State = State(counter: nat, txPeer: Option<SockAddr>, rxPeer: SockAddr)

  datatype Outcome = Outcome(st: State, out: seq<Forward>)

  /** Where a run of the loop ended: final state, every forward in order,
      how many wake-ups were handled, and whether a select error ended it. */
  datatype Trace = Trace(st: State, out: seq<Forward>, handled: nat, stopped: bool)

  const Init: State := State(0, None, RxDefault)

  /** `if (++counter == npathway) counter = 0;` */
  function Advance(c: nat, n: nat): (d: nat)
    requires c < n
    ensures d < n
    ensures d == (c + 1) % n
  {
    if c + 1 == n then ModUnique(c + 1, n, 1, 0); 0
    else ModUnique(c + 1, n, 0, c + 1); c + 1
  }

  /** What recvfrom(2) with a 2048-byte buffer keeps of a datagram. */
  function Truncated(d: seq<byte>): (b: seq<byte>)
    ensures b == d[..if |d| <= BufSize then |d| else BufSize]
  {
    if |d| <= BufSize then d else d[..BufSize]
  }

  function RxAt(rx: seq<Recv>, i: nat): Recv
  {
    if i < |rx| then rx[i] else Idle
  }

  // ---------------------------------------------------------------------
  // Specification of one wake-up and of a run.

  /** The TX-side branch: receive, forward on RX-side socket `counter` to
      `addr_rx_out`, advance `counter`. */
  function TxStep(st: State, r: Recv, sockRx: seq<int>): (o: Outcome)
    requires st.counter < |sockRx|
    ensures r.Idle? ==> o == Outcome(st, [])
    ensures !r.Idle? ==>
              && o.st.counter == (st.counter + 1) % |sockRx| && o.st.rxPeer == st.rxPeer
              && |o.out| == 1 && o.out[0].ToRx? && o.out[0].path == st.counter
              && o.out[0].fd == sockRx[st.counter] && o.out[0].rxDest == st.rxPeer
    ensures r.Got? ==> o.st.txPeer == Some(r.from) && o.out[0].bytes == Truncated(r.datagram)
                       && o.out[0].length == |o.out[0].bytes|
    ensures r.Failed? ==> o.st.txPeer == st.txPeer && o.out[0].length == -1
  {
    match r
    case Idle => Outcome(st, [])
    case Got(d, from) =>
      var b := Truncated(d);
      Outcome(st.(counter := Advance(st.counter, |sockRx|), txPeer := Some(from)),
              [ToRx(st.counter, sockRx[st.counter], st.rxPeer, |b|, b)])
    case Failed =>
      Outcome(st.(counter := Advance(st.counter, |sockRx|)),
              [ToRx(st.counter, sockRx[st.counter], st.rxPeer, -1, [])])
  }

  /** The RX-side branch for one socket: receive (the sender becomes
      `addr_rx_out`), forward through the TX-side socket to `addr_tx_out`. */
  function RxOne(st: State, r: Recv, i: nat, sockTx: int): (o: Outcome)
    ensures o.st.counter == st.counter && o.st.txPeer == st.txPeer
    ensures o.st.rxPeer == if r.Got? then r.from else st.rxPeer
    ensures |o.out| == if r.Idle? then 0 else 1
    ensures forall k :: 0 <= k < |o.out| ==>
              o.out[k] == ToTx(i, sockTx, st.txPeer, o.out[k].length, o.out[k].bytes)
  {
    match r
    case Idle => Outcome(st, [])
    case Got(d, from) =>
      var b := Truncated(d);
      Outcome(st.(rxPeer := from), [ToTx(i, sockTx, st.txPeer, |b|, b)])
    case Failed => Outcome(st, [ToTx(i, sockTx, st.txPeer, -1, [])])
  }

  /** The `for` loop over RX-side sockets `i` .. `n - 1`. */
  function RxFrom(st: State, rx: seq<Recv>, sockTx: int, i: nat, n: nat): (o: Outcome)
    ensures forall k :: 0 <= k < |o.out| ==> o.out[k].ToTx? && o.out[k].fd == sockTx
    decreases n - i
  {
    if i >= n then Outcome(st, [])
    else
      var a := RxOne(st, RxAt(rx, i), i, sockTx);
      var b := RxFrom(a.st, rx, sockTx, i + 1, n);
      Outcome(b.st, a.out + b.out)
  }

  /** The loop body for one wake-up that found sockets ready. */
  function ReadyStep(st: State, tx: Recv, rx: seq<Recv>, sockTx: int, sockRx: seq<int>): (o: Outcome)
    requires st.counter < |sockRx|
    ensures o.st.counter < |sockRx|
  {
    var a := TxStep(st, tx, sockRx);
    RxKeepsCounter(a.st, rx, sockTx, 0, |sockRx|);
    var b := RxFrom(a.st, rx, sockTx, 0, |sockRx|);
    Outcome(b.st, a.out + b.out)
  }

  /** The `while (true)` loop over a sequence of wake-ups. */
  function Run(st: State, ws: seq<Wake>, sockTx: int, sockRx: seq<int>): (t: Trace)
    requires st.counter < |sockRx|
    ensures t.st.counter < |sockRx|
    ensures t.handled <= |ws|
    decreases |ws|
  {
    if ws == [] then Trace(st, [], 0, false)
    else match ws[0]
      case SelectError => Trace(st, [], 1, true)
      case Timeout =>
        var t := Run(st, ws[1..], sockTx, sockRx);
        Trace(t.st, t.out, t.handled + 1, t.stopped)
      case Ready(tx, rx) =>
        var o := ReadyStep(st, tx, rx, sockTx, sockRx);
        var t := Run(o.st, ws[1..], sockTx, sockRx);
        Trace(t.st, o.out + t.out, t.handled + 1, t.stopped)
  }

  // ---------------------------------------------------------------------
  // Properties of the specification.

  /** RX-side arrivals change neither `counter` nor `addr_tx_out`. */
  lemma {:induction false} RxKeepsCounter(st: State, rx: seq<Recv>, sockTx: int, i: nat, n: nat)
    ensures RxFrom(st, rx, sockTx, i, n).st.counter == st.counter
    ensures RxFrom(st, rx, sockTx, i, n).st.txPeer == st.txPeer
    decreases n - i
  {
    if i < n {
      var a := RxOne(st, RxAt(rx, i), i, sockTx);
      RxKeepsCounter(a.st, rx, sockTx, i + 1, n);
    }
  }

  /** Every RX-side forward goes through the TX-side socket to the last
      TX-side sender, carrying exactly the bytes received and their count;
      ready sockets are served in index order, one forward each. */
  lemma {:induction false} RxForwardsUnchanged(st: State, rx: seq<Recv>, sockTx: int, i: nat, n: nat)
    ensures var out := RxFrom(st, rx, sockTx, i, n).out;
            && |out| == ReadyCount(rx, i, n)
            && forall k :: 0 <= k < |out| ==>
                 && out[k].ToTx? && out[k].fd == sockTx && out[k].txDest == st.txPeer
                 && i <= out[k].path < n && RxAt(rx, out[k].path) != Idle
                 && (k > 0 ==> out[k - 1].path < out[k].path)
                 && (RxAt(rx, out[k].path).Got? ==>
                       && out[k].bytes == Truncated(RxAt(rx, out[k].path).datagram)
                       && out[k].length == |out[k].bytes|)
    decreases n - i
  {
    if i < n {
      var a := RxOne(st, RxAt(rx, i), i, sockTx);
      RxForwardsUnchanged(a.st, rx, sockTx, i + 1, n);
      RxKeepsCounter(a.st, rx, sockTx, i + 1, n);
    }
  }

  /** Number of RX-side sockets among `i` .. `n - 1` that were ready. */
  function ReadyCount(rx: seq<Recv>, i: nat, n: nat): nat
    decreases n - i
  {
    if i >= n then 0 else (if RxAt(rx, i).Idle? then 0 else 1) + ReadyCount(rx, i + 1, n)
  }

  /** A timeout forwards nothing and changes nothing; the loop goes on. */
  lemma TimeoutForwardsNothing(st: State, ws: seq<Wake>, sockTx: int, sockRx: seq<int>)
    requires st.counter < |sockRx|
    ensures var t := Run(st, [Timeout] + ws, sockTx, sockRx);
            var u := Run(st, ws, sockTx, sockRx);
            t == u.(handled := u.handled + 1)
  {
    assert ([Timeout] + ws)[1..] == ws;
  }

  /** A select error ends the loop at once: nothing after it is handled. */
  lemma SelectErrorStops(st: State, ws: seq<Wake>, sockTx: int, sockRx: seq<int>)
    requires st.counter < |sockRx|
    ensures Run(st, [SelectError] + ws, sockTx, sockRx) == Trace(st, [], 1, true)
  {
  }

  /** Path indices of the TX-side forwards, in order. */
  function TxPaths(out: seq<Forward>): seq<nat>
  {
    if out == [] then [] else (if out[0].ToRx? then [out[0].path] else []) + TxPaths(out[1..])
  }

  lemma {:induction false} TxPathsAppend(a: seq<Forward>, b: seq<Forward>)
    ensures TxPaths(a + b) == TxPaths(a) + TxPaths(b)
  {
    if a != [] {
      assert (a + b)[1..] == a[1..] + b;
      TxPathsAppend(a[1..], b);
    } else {
      assert a + b == b;
    }
  }

  /** Number of TX-side datagrams (received or failed) handled by a run. */
  function TxCount(ws: seq<Wake>): nat
  {
    if ws == [] then 0
    else match ws[0]
      case SelectError => 0
      case Timeout => TxCount(ws[1..])
      case Ready(tx, _) => (if tx.Idle? then 0 else 1) + TxCount(ws[1..])
  }

  /** `m` path indices in round-robin order, starting from `c`. */
  function Cycle(c: nat, m: nat, n: nat): (s: seq<nat>)
    requires c < n
    ensures |s| == m
    decreases m
  {
    if m == 0 then [] else [c] + Cycle(Advance(c, n), m - 1, n)
  }

  /** The `k`-th index of the cycle from `c` is `(c + k) mod n`. */
  lemma {:induction false} CycleAt(c: nat, m: nat, n: nat, k: nat)
    requires c < n && k < m
    ensures Cycle(c, m, n)[k] == (c + k) % n
    decreases m
  {
    if k == 0 {
      ModUnique(c, n, 0, c);
    } else {
      var c' := Advance(c, n);
      CycleAt(c', m - 1, n, k - 1);
      if c + 1 == n {
        ModShift(k - 1, n);
      }
    }
  }

  /** The TX-side forwards of a run use the RX-side sockets in round-robin
      order, continuing from the current `counter`. */
  lemma {:induction false} RoundRobin(st: State, ws: seq<Wake>, sockTx: int, sockRx: seq<int>)
    requires st.counter < |sockRx|
    ensures TxPaths(Run(st, ws, sockTx, sockRx).out) == Cycle(st.counter, TxCount(ws), |sockRx|)
    decreases |ws|
  {
    if ws != [] {
      match ws[0]
      case SelectError =>
      case Timeout =>
        RoundRobin(st, ws[1..], sockTx, sockRx);
      case Ready(tx, rx) =>
        var o := ReadyStep(st, tx, rx, sockTx, sockRx);
        ReadyTxPaths(st, tx, rx, sockTx, sockRx);
        RoundRobin(o.st, ws[1..], sockTx, sockRx);
        TxPathsAppend(o.out, Run(o.st, ws[1..], sockTx, sockRx).out);
    }
  }

  /** One ready wake-up makes at most one TX-side forward, on the current
      `counter`, and advances `counter` exactly when it makes one. */
  lemma ReadyTxPaths(st: State, tx: Recv, rx: seq<Recv>, sockTx: int, sockRx: seq<int>)
    requires st.counter < |sockRx|
    ensures var o := ReadyStep(st, tx, rx, sockTx, sockRx);
            && TxPaths(o.out) == (if tx.Idle? then [] else [st.counter])
            && o.st.counter == (if tx.Idle? then st.counter else Advance(st.counter, |sockRx|))
  {
    var n := |sockRx|;
    var a := TxStep(st, tx, sockRx);
    var b := RxFrom(a.st, rx, sockTx, 0, n);
    RxKeepsCounter(a.st, rx, sockTx, 0, n);
    RxOnlyToTx(b.out);
    TxPathsAppend(a.out, b.out);
    if !tx.Idle? {
      assert TxPaths(a.out) == [st.counter];
    }
  }

  lemma {:induction false} RxOnlyToTx(out: seq<Forward>)
    requires forall k :: 0 <= k < |out| ==> out[k].ToTx?
    ensures TxPaths(out) == []
  {
    if out != [] {
      RxOnlyToTx(out[1..]);
    }
  }

  /** From start-up, the `k`-th TX-side datagram goes out on RX-side socket
      `k mod npathway`: period npathway, back to socket 0 after the last. */
  lemma TxSocketOfKthDatagram(ws: seq<Wake>, sockTx: int, sockRx: seq<int>, k: nat)
    requires |sockRx| >= 1 && k < TxCount(ws)
    ensures var p := TxPaths(Run(Init, ws, sockTx, sockRx).out);
            |p| == TxCount(ws) && p[k] == k % |sockRx|
  {
    RoundRobin(Init, ws, sockTx, sockRx);
    CycleAt(0, TxCount(ws), |sockRx|, k);
  }

  /** Destinations of the RX-side forwards (the replies to the TX side),
      in order. */
  function Replies(out: seq<Forward>): seq<Option<SockAddr>>
  {
    if out == [] then [] else (if out[0].ToTx? then [out[0].txDest] else []) + Replies(out[1..])
  }

  lemma {:induction false} RepliesAppend(a: seq<Forward>, b: seq<Forward>)
    ensures Replies(a + b) == Replies(a) + Replies(b)
  {
    if a != [] {
      assert (a + b)[1..] == a[1..] + b;
      RepliesAppend(a[1..], b);
    } else {
      assert a + b == b;
    }
  }

  /** Forwards that all go through the TX-side socket to `p` reply to `p`
      once each. */
  lemma {:induction false} AllRepliesTo(out: seq<Forward>, p: Option<SockAddr>)
    requires forall k :: 0 <= k < |out| ==> out[k].ToTx? && out[k].txDest == p
    ensures Replies(out) == seq(|out|, _ => p)
  {
    if out != [] {
      AllRepliesTo(out[1..], p);
    }
  }

  /** The TX-side sender a wake-up leaves behind: that of a datagram
      received on the TX-side socket, otherwise the previous one. */
  function LatestSender(p: Option<SockAddr>, tx: Recv): Option<SockAddr>
  {
    if tx.Got? then Some(tx.from) else p
  }

  /** Reference for where a run's replies go, from the TX-side sender `p`
      known at the start: each ready wake-up first updates the latest
      sender, then sends one reply to it per ready RX-side socket among
      the `n`; a select error ends the run. */
  function ReplyDests(p: Option<SockAddr>, ws: seq<Wake>, n: nat): seq<Option<SockAddr>>
    decreases |ws|
  {
    if ws == [] then []
    else match ws[0]
      case SelectError => []
      case Timeout => ReplyDests(p, ws[1..], n)
      case Ready(tx, rx) =>
        var q := LatestSender(p, tx);
        seq(ReadyCount(rx, 0, n), _ => q) + ReplyDests(q, ws[1..], n)
  }

  /** One ready wake-up replies to the latest TX-side sender once per ready
      RX-side socket, and leaves that sender as `addr_tx_out`. */
  lemma ReadyReplies(st: State, tx: Recv, rx: seq<Recv>, sockTx: int, sockRx: seq<int>)
    requires st.counter < |sockRx|
    ensures var o := ReadyStep(st, tx, rx, sockTx, sockRx);
            var q := LatestSender(st.txPeer, tx);
            && Replies(o.out) == seq(ReadyCount(rx, 0, |sockRx|), _ => q)
            && o.st.txPeer == q
  {
    var n := |sockRx|;
    var a := TxStep(st, tx, sockRx);
    var b := RxFrom(a.st, rx, sockTx, 0, n);
    RxKeepsCounter(a.st, rx, sockTx, 0, n);
    RxForwardsUnchanged(a.st, rx, sockTx, 0, n);
    AllRepliesTo(b.out, a.st.txPeer);
    RepliesAppend(a.out, b.out);
    if !tx.Idle? {
      assert Replies(a.out) == [];
    }
  }

  /** Every reply of a run goes to the sender of the latest datagram
      received on the TX-side socket before it (or to the sender known at
      the start, if none has arrived yet). */
  lemma {:induction false} RepliesGoToLatestSender(st: State, ws: seq<Wake>, sockTx: int, sockRx: seq<int>)
    requires st.counter < |sockRx|
    ensures Replies(Run(st, ws, sockTx, sockRx).out) == ReplyDests(st.txPeer, ws, |sockRx|)
    decreases |ws|
  {
    if ws != [] {
      match ws[0]
      case SelectError =>
      case Timeout =>
        RepliesGoToLatestSender(st, ws[1..], sockTx, sockRx);
      case Ready(tx, rx) =>
        var o := ReadyStep(st, tx, rx, sockTx, sockRx);
        ReadyReplies(st, tx, rx, sockTx, sockRx);
        RepliesGoToLatestSender(o.st, ws[1..], sockTx, sockRx);
        RepliesAppend(o.out, Run(o.st, ws[1..], sockTx, sockRx).out);
    }
  }

  // ---------------------------------------------------------------------
  // The program.

  /** Set-up: `rxmax` is the largest RX-side descriptor (at least 0) and
      `nfds` the larger of it and the TX-side descriptor, so that select(2)
      on `nfds + 1` descriptors watches every socket. */
  method MaxDescriptor(sockTx: int, sockRx: seq<int>) returns (rxmax: int, nfds: int)
    ensures rxmax >= 0 && forall i :: 0 <= i < |sockRx| ==> sockRx[i] <= rxmax
    ensures rxmax == 0 || rxmax in sockRx
    ensures sockTx <= nfds && rxmax <= nfds && (nfds == sockTx || nfds == rxmax)
  {
    rxmax := 0;
    for i := 0 to |sockRx|
      invariant rxmax >= 0 && forall j :: 0 <= j < i ==> sockRx[j] <= rxmax
      invariant rxmax == 0 || rxmax in sockRx[..i]
    {
      rxmax := if rxmax > sockRx[i] then rxmax else sockRx[i];
    }
    nfds := if sockTx > rxmax then sockTx else rxmax;
  }

  /** The TX-side branch of one wake-up. */
  method TxBranch(counter: nat, addrTxOut: Option<SockAddr>, addrRxOut: SockAddr,
                  tx: Recv, sockRx: seq<int>)
    returns (c: nat, txOut: Option<SockAddr>, fwd: seq<Forward>)
    requires counter < |sockRx|
    ensures Outcome(State(c, txOut, addrRxOut), fwd)
            == TxStep(State(counter, addrTxOut, addrRxOut), tx, sockRx)
  {
    c, txOut, fwd := counter, addrTxOut, [];
    match tx {
      case Idle =>
      case Got(d, from) =>
        var b := Truncated(d);
        fwd := [ToRx(c, sockRx[c], addrRxOut, |b|, b)];
        txOut := Some(from);
        c := Advance(c, |sockRx|);
      case Failed =>
        fwd := [ToRx(c, sockRx[c], addrRxOut, -1, [])];
        c := Advance(c, |sockRx|);
    }
  }

  /** The `for` loop over the `n` RX-side sockets of one wake-up. */
  method RxRound(counter: nat, addrTxOut: Option<SockAddr>, addrRxOut: SockAddr,
                 rx: seq<Recv>, sockTx: int, n: nat)
    returns (rxOut: SockAddr, fwd: seq<Forward>)
    ensures Outcome(State(counter, addrTxOut, rxOut), fwd)
            == RxFrom(State(counter, addrTxOut, addrRxOut), rx, sockTx, 0, n)
  {
    ghost var all := RxFrom(State(counter, addrTxOut, addrRxOut), rx, sockTx, 0, n);
    rxOut, fwd := addrRxOut, [];
    for i := 0 to n
      invariant var rest := RxFrom(State(counter, addrTxOut, rxOut), rx, sockTx, i, n);
                all.st == rest.st && all.out == fwd + rest.out
    {
      RxResumes(all, State(counter, addrTxOut, rxOut), rx, sockTx, i, n, fwd);
      var f;
      rxOut, f := RxServe(counter, addrTxOut, rxOut, RxAt(rx, i), i, sockTx);
      fwd := fwd + f;
    }
  }

  /** The loop invariant of `RxRound` survives serving socket `i`: what is
      still to come after it, behind the forwards made so far and its own,
      is the whole round. */
  lemma RxResumes(all: Outcome, st: State, rx: seq<Recv>, sockTx: int, i: nat, n: nat, fwd: seq<Forward>)
    requires i < n
    requires var rest := RxFrom(st, rx, sockTx, i, n);
             all.st == rest.st && all.out == fwd + rest.out
    ensures var o := RxOne(st, RxAt(rx, i), i, sockTx);
            var rest := RxFrom(o.st, rx, sockTx, i + 1, n);
            all.st == rest.st && all.out == (fwd + o.out) + rest.out
  {
    var o := RxOne(st, RxAt(rx, i), i, sockTx);
    var rest := RxFrom(o.st, rx, sockTx, i + 1, n);
    assert fwd + (o.out + rest.out) == (fwd + o.out) + rest.out;
  }

  /** The body of the RX-side loop for socket `i`: receive (the sender
      becomes `addr_rx_out`) and forward through the TX-side socket. */
  method RxServe(counter: nat, addrTxOut: Option<SockAddr>, addrRxOut: SockAddr,
                 r: Recv, i: nat, sockTx: int)
    returns (rxOut: SockAddr, fwd: seq<Forward>)
    ensures Outcome(State(counter, addrTxOut, rxOut), fwd)
            == RxOne(State(counter, addrTxOut, addrRxOut), r, i, sockTx)
  {
    rxOut, fwd := addrRxOut, [];
    match r {
      case Idle =>
      case Got(d, from) =>
        var b := Truncated(d);
        rxOut := from;
        fwd := [ToTx(i, sockTx, addrTxOut, |b|, b)];
      case Failed =>
        fwd := [ToTx(i, sockTx, addrTxOut, -1, [])];
    }
  }

  /** One wake-up that found sockets ready: the TX-side branch, then the
      RX-side loop. */
  method HandleReady(counter: nat, addrTxOut: Option<SockAddr>, addrRxOut: SockAddr,
                     tx: Recv, rx: seq<Recv>, sockTx: int, sockRx: seq<int>)
    returns (c: nat, txOut: Option<SockAddr>, rxOut: SockAddr, fwd: seq<Forward>)
    requires counter < |sockRx|
    ensures Outcome(State(c, txOut, rxOut), fwd)
            == ReadyStep(State(counter, addrTxOut, addrRxOut), tx, rx, sockTx, sockRx)
  {
    var f1, f2;
    c, txOut, f1 := TxBranch(counter, addrTxOut, addrRxOut, tx, sockRx);
    rxOut, f2 := RxRound(c, txOut, addrRxOut, rx, sockTx, |sockRx|);
    fwd := f1 + f2;
  }

  /** The loop invariant of `RelayLoop`: the whole run `total` is the
      forwards `out` made in the `h` wake-ups handled so far followed by
      what is still to come from state `st` over the wake-ups `ws`. */
  ghost predicate Resumes(total: Trace, st: State, ws: seq<Wake>, out: seq<Forward>, h: nat,
                          sockTx: int, sockRx: seq<int>)
    requires st.counter < |sockRx|
  {
    var t := Run(st, ws, sockTx, sockRx);
    total == Trace(t.st, out + t.out, h + t.handled, t.stopped)
  }

  /** `Resumes` survives wake-up `w`: a select error ends the whole run
      here; otherwise it holds again from the new state, with this
      wake-up's forwards added to those made so far. */
  lemma WakeResumes(total: Trace, st: State, w: Wake, rest: seq<Wake>,
                    out: seq<Forward>, h: nat, sockTx: int, sockRx: seq<int>)
    requires st.counter < |sockRx|
    requires Resumes(total, st, [w] + rest, out, h, sockTx, sockRx)
    ensures w.SelectError? ==> total == Trace(st, out, h + 1, true)
    ensures w.Timeout? ==> Resumes(total, st, rest, out, h + 1, sockTx, sockRx)
    ensures w.Ready? ==>
              var o := ReadyStep(st, w.tx, w.rx, sockTx, sockRx);
              Resumes(total, o.st, rest, out + o.out, h + 1, sockTx, sockRx)
  {
    assert ([w] + rest)[1..] == rest;
    assert out + [] == out;
    if w.Ready? {
      var o := ReadyStep(st, w.tx, w.rx, sockTx, sockRx);
      var t := Run(o.st, rest, sockTx, sockRx);
      assert out + (o.out + t.out) == (out + o.out) + t.out;
    }
  }

  /** `Resumes` at the start and at the end of the wake-ups. */
  lemma ResumesBounds(total: Trace, st: State, ws: seq<Wake>, out: seq<Forward>, h: nat,
                      sockTx: int, sockRx: seq<int>)
    requires st.counter < |sockRx|
    ensures total == Run(st, ws, sockTx, sockRx) ==> Resumes(total, st, ws, [], 0, sockTx, sockRx)
    ensures ws == [] && Resumes(total, st, ws, out, h, sockTx, sockRx) ==> total == Trace(st, out, h, false)
  {
    assert [] + Run(st, ws, sockTx, sockRx).out == Run(st, ws, sockTx, sockRx).out;
    assert out + [] == out;
  }

  /** The relay loop over the wake-ups `wakes` (the results select(2) and
      recvfrom(2) deliver), returning every sendto(2) it issues. */
  method RelayLoop(sockTx: int, sockRx: seq<int>, wakes: seq<Wake>)
    returns (nfds: int, out: seq<Forward>, counter: nat, handled: nat, stopped: bool)
    requires |sockRx| >= 1
    ensures sockTx <= nfds && forall i :: 0 <= i < |sockRx| ==> sockRx[i] <= nfds
    ensures var t := Run(Init, wakes, sockTx, sockRx);
            out == t.out && counter == t.st.counter && handled == t.handled && stopped == t.stopped
    ensures counter < |sockRx|
  {
    var rxmax;
    rxmax, nfds := MaxDescriptor(sockTx, sockRx);
    counter := 0;
    var addrTxOut: Option<SockAddr> := None;
    var addrRxOut := RxDefault;
    out, handled, stopped := [], 0, false;
    ghost var total := Run(Init, wakes, sockTx, sockRx);
    ResumesBounds(total, Init, wakes, out, handled, sockTx, sockRx);
    while handled < |wakes|
      invariant handled <= |wakes| && counter < |sockRx|
      invariant Resumes(total, State(counter, addrTxOut, addrRxOut), wakes[handled..], out, handled, sockTx, sockRx)
      decreases |wakes| - handled
    {
      var w := wakes[handled];
      ghost var rest := wakes[handled + 1..];
      assert wakes[handled..] == [w] + rest;
      WakeResumes(total, State(counter, addrTxOut, addrRxOut), w, rest, out, handled, sockTx, sockRx);
      handled := handled + 1;
      match w {
        case SelectError =>
          stopped := true;
          return;
        case Timeout =>
          continue;
        case Ready(tx, rx) =>
          var fwd;
          counter, addrTxOut, addrRxOut, fwd := HandleReady(counter, addrTxOut, addrRxOut, tx, rx, sockTx, sockRx);
          out := out + fwd;
      }
    }
    ResumesBounds(total, State(counter, addrTxOut, addrRxOut), wakes[handled..], out, handled, sockTx, sockRx);
  }
}
