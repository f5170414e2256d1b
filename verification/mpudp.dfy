/**
  The tunnel core `MPUDPTunnel`: one shared buffer holding a frame header
  followed by the payload, a global sequence number, and the set of paths
  (`SOCKET_PACK`s). Sending stamps the header in place and hands header and
  payload to sendto(2); receiving peeks the header to learn the payload
  length, then reads the whole frame.
 */
module Mpudp {
  import opened Basics
  import opened Network

  datatype Mode = Speed | Stable  // MODE_SPEED, MODE_STABLE

  /** The frame header with the fields the tunnel writes. */
  datatype Header = Header(mode: Mode, deviceId: u8, length: u16, seqAll: u32, seqDev: u32)

  /** One sendto(2) or recvfrom(2) call issued by the tunnel. */
  datatype SysCall =
    | SendCall(fd: int, dest: SockAddr, header: Header, payload: seq<byte>, size: nat)
    | RecvCall(fd: int, size: nat, peek: bool)

  /** A datagram waiting on a socket: the header at its front, the bytes
      after the header, and the sender's address. */
  datatype Datagram = Datagram(header: Header, payload: seq<byte>, from: SockAddr)

  /** The `sockaddr_in` that `addr_from` points to. */
  class AddrCell {
    var addr: SockAddr
    constructor (a: SockAddr)
      ensures addr == a
    {
      addr := a;
    }
  }

  /** Bytes that recvfrom(2) copies from a datagram of `size` bytes into a
      buffer when asked for `request` bytes. */
  function Copied(request: nat, size: nat): (n: nat)
    ensures n <= request && n <= size
    ensures n == request || n == size
  {
    if request <= size then request else size
  }

  /** The size the second recvfrom of `MPUDPTunnel::RecvFrom` asks for, as
      written: the header plus the peeked payload length, whatever the
      capacity of the buffer. */
  function RecvRequestAsWritten(h: Header, headerSize: nat): (n: nat)
    ensures headerSize <= n <= headerSize + 0xFFFF
    ensures n - headerSize == h.length
  {
    headerSize + h.length
  }

  /** A peer whose datagram announces and carries 2000 payload bytes makes
      the as-written request copy 2000 payload bytes into a tunnel whose
      payload buffer holds 1500: a write past the end of the buffer. */
  lemma AsWrittenRecvOverrunsBuffer(headerSize: nat, from: SockAddr)
    ensures var d := Datagram(Header(Speed, 3, 2000, 0, 0), seq(2000, _ => 0), from);
            Copied(RecvRequestAsWritten(d.header, headerSize), headerSize + |d.payload|)
              > headerSize + 1500
  {
  }

  /** The corrected request: the peeked length, capped at the payload
      capacity `szbuf`. It never exceeds the buffer, and it is the
      as-written request for every frame that fits. */
  function RecvRequest(h: Header, headerSize: nat, szbuf: nat): (n: nat)
    ensures n <= headerSize + szbuf
    ensures n >= headerSize
    ensures h.length <= szbuf ==> n == RecvRequestAsWritten(h, headerSize)
    ensures h.length > szbuf ==> n == headerSize + szbuf
  {
    headerSize + (if h.length <= szbuf then h.length else szbuf)
  }

  /** Whatever the peer announces or sends, a receive with the corrected
      request copies at most the buffer's capacity. */
  lemma RecvFitsBuffer(d: Datagram, headerSize: nat, szbuf: nat)
    ensures Copied(RecvRequest(d.header, headerSize, szbuf), headerSize + |d.payload|)
            <= headerSize + szbuf
  {
  }

  class Tunnel {
    var globalSeq: u32               // `seq`
    var header: Header               // the front of `tun_buf`
    const data: array<byte>          // the payload part of `tun_buf` (`data_buf`)
    const headerSize: nat            // sizeof(TUN_HEADER)
    const dataOffset: nat            // where `data_buf` starts inside `tun_buf`
    var socks: seq<SocketPack>
    var sockTun: int
    ghost var calls: seq<SysCall>    // every sendto/recvfrom issued, in order

    /** The paths are distinct objects (a vector of move-only values). */
    ghost predicate Valid()
      reads this
    {
      forall i, j :: 0 <= i < j < |socks| ==> socks[i] != socks[j]
    }

    /** `MPUDPTunnel(szbuf)`: sequence 0, no TUN device, no paths, and a
        buffer of `szbuf` payload bytes right behind the header. */
    constructor (szbuf: u32, headerSize: nat)
      ensures Valid() && fresh(data)
      ensures globalSeq == 0 && sockTun == -1 && socks == [] && calls == []
      ensures data.Length == szbuf && this.headerSize == headerSize
      ensures dataOffset == headerSize && dataOffset + data.Length == headerSize + szbuf
    {
      globalSeq := 0;
      data := new byte[szbuf];
      this.headerSize := headerSize;
      dataOffset := headerSize;
      socks := [];
      sockTun := -1;
      calls := [];
    }

    /** `SetTunDevice`: records the descriptor `tun_alloc` returned (even a
        negative one) and reports whether it is valid. */
    method SetTunDevice(tunFd: int) returns (ok: bool)
      modifies this`sockTun
      ensures sockTun == tunFd
      ensures ok <==> tunFd >= 0
    {
      sockTun := tunFd;
      ok := sockTun >= 0;
    }

    /** `_sendto`: transmits the header and `dataLen` payload bytes to the
        path's peer. `result` is what sendto(2) returned. A failure is
        reported as -1 and leaves `seq_dev` alone; a success counts it. */
    method Transmit(s: SocketPack, dataLen: u16, result: int) returns (nwrite: int)
      requires dataLen <= data.Length
      modifies this`calls, s`seqDev
      ensures calls == old(calls) + [SendCall(s.sockFd, s.remoteAddr, header, data[..dataLen], headerSize + dataLen)]
      ensures result < 0 ==> nwrite == -1 && s.seqDev == old(s.seqDev)
      ensures result >= 0 ==> nwrite == result && s.seqDev == Inc32(old(s.seqDev))
    {
      calls := calls + [SendCall(s.sockFd, s.remoteAddr, header, data[..dataLen], headerSize + dataLen)];
      if result < 0 {
        nwrite := -1;
      } else {
        nwrite := result;
        s.seqDev := Inc32(s.seqDev);
      }
    }

    /** `SendTo` (SPEED mode): stamps the whole header for path `s`, sends
        once, and advances the global sequence whether or not the send
        succeeded. */
    method SendTo(s: SocketPack, dataLen: u16, result: int) returns (nwrite: int)
      requires dataLen <= data.Length
      modifies this`header, this`globalSeq, this`calls, s`seqDev
      ensures header == Header(Speed, ToU8(s.sockFd), dataLen, old(globalSeq), old(s.seqDev))
      ensures calls == old(calls) + [SendCall(s.sockFd, s.remoteAddr, header, data[..dataLen], headerSize + dataLen)]
      ensures globalSeq == Inc32(old(globalSeq))
      ensures nwrite == if result < 0 then -1 else result
      ensures s.seqDev == if result < 0 then old(s.seqDev) else Inc32(old(s.seqDev))
    {
      header := header.(deviceId := ToU8(s.sockFd));
      header := header.(length := dataLen);
      header := header.(seqAll := globalSeq);
      header := header.(seqDev := s.seqDev);
      header := header.(mode := Speed);
      nwrite := Transmit(s, dataLen, result);
      globalSeq := Inc32(globalSeq);
    }

    /** The frame STABLE mode sends on the path with descriptor `fd` and
        peer `dest`: one shared sequence number, the path's own device id,
        and whatever `seq_dev` the buffer held. */
    ghost function StableFrame(fd: int, dest: SockAddr, dataLen: u16, seqAll: u32, seqDev: u32): (f: SysCall)
      reads data
      requires dataLen <= data.Length
      ensures f.SendCall? && f.fd == fd && f.dest == dest
      ensures f.header.mode == Stable && f.header.seqAll == seqAll
      ensures f.header.deviceId == ToU8(fd) && f.header.length == |f.payload|
      ensures f.size == headerSize + |f.payload| && f.payload == data[..dataLen]
    {
      SendCall(fd, dest, Header(Stable, ToU8(fd), dataLen, seqAll, seqDev),
               data[..dataLen], headerSize + dataLen)
    }

    /** One pass of the STABLE-mode loop: stamps path `i`'s device id into
        the header and transmits on that path; only that path's `seq_dev`
        may change. */
    method SendOnPath(i: nat, dataLen: u16, result: int) returns (nwrite: int)
      requires Valid() && i < |socks| && dataLen <= data.Length
      requires header.mode == Stable && header.length == dataLen
      modifies this`header, this`calls, {socks[i]}`seqDev
      ensures header == old(header).(deviceId := ToU8(socks[i].sockFd))
      ensures calls == old(calls)
                         + [StableFrame(socks[i].sockFd, socks[i].remoteAddr, dataLen, header.seqAll, header.seqDev)]
      ensures nwrite == if result < 0 then -1 else result
      ensures socks[i].seqDev == if result < 0 then old(socks[i].seqDev) else Inc32(old(socks[i].seqDev))
      ensures forall j :: 0 <= j < |socks| && j != i ==> socks[j].seqDev == old(socks[j].seqDev)
    {
      var s := socks[i];
      header := header.(deviceId := ToU8(s.sockFd));
      nwrite := Transmit(s, dataLen, result);
    }

    /** `SendToAllDevices` (STABLE mode): stamps length, sequence and mode;
        with no path, stops there and returns 0. Otherwise sends the same
        frame on every path in order, each with its own device id, a failed
        path not stopping the rest, advances the global sequence once, and
        returns the last path's result. `results[i]` is what sendto(2)
        returned on path `i`. */
    method SendToAllDevices(dataLen: u16, results: seq<int>) returns (nwrite: int)
      requires Valid()
      requires dataLen <= data.Length && |results| == |socks|
      modifies this`header, this`globalSeq, this`calls, set j | 0 <= j < |socks| :: socks[j]`seqDev
      ensures socks == old(socks)
      ensures forall j :: 0 <= j < |socks| ==>
                && socks[j].sockFd == old(socks[j].sockFd)
                && socks[j].remoteAddr == old(socks[j].remoteAddr)
                && socks[j].seqDev == if results[j] < 0 then old(socks[j].seqDev) else Inc32(old(socks[j].seqDev))
      ensures header.mode == Stable && header.length == dataLen && header.seqAll == old(globalSeq)
      ensures header.seqDev == old(header.seqDev)
      ensures header.deviceId == if socks == [] then old(header.deviceId) else ToU8(socks[|socks| - 1].sockFd)
      ensures globalSeq == if socks == [] then old(globalSeq) else Inc32(old(globalSeq))
      ensures |calls| == |old(calls)| + |socks| && calls[..|old(calls)|] == old(calls)
      ensures forall j :: 0 <= j < |socks| ==>
                calls[|old(calls)| + j]
                  == StableFrame(socks[j].sockFd, socks[j].remoteAddr, dataLen, old(globalSeq), old(header.seqDev))
      ensures nwrite == if socks == [] then 0
                        else if results[|socks| - 1] < 0 then -1
                        else results[|socks| - 1]
    {
      header := header.(length := dataLen);
      header := header.(seqAll := globalSeq);
      header := header.(mode := Stable);
      nwrite := 0;
      if |socks| == 0 {
        return 0;
      }
      var i := 0;
      while i < |socks|
        invariant 0 <= i <= |socks|
        invariant header.mode == Stable && header.length == dataLen && header.seqAll == old(globalSeq)
        invariant header.seqDev == old(header.seqDev) && globalSeq == old(globalSeq)
        invariant i > 0 ==> header.deviceId == ToU8(socks[i - 1].sockFd)
        invariant forall j :: 0 <= j < i ==>
                    socks[j].seqDev == if results[j] < 0 then old(socks[j].seqDev) else Inc32(old(socks[j].seqDev))
        invariant forall j :: i <= j < |socks| ==> socks[j].seqDev == old(socks[j].seqDev)
        invariant |calls| == |old(calls)| + i && calls[..|old(calls)|] == old(calls)
        invariant forall j :: 0 <= j < i ==>
                    calls[|old(calls)| + j]
                      == StableFrame(socks[j].sockFd, socks[j].remoteAddr, dataLen, old(globalSeq), old(header.seqDev))
        invariant i > 0 ==> nwrite == if results[i - 1] < 0 then -1 else results[i - 1]
      {
        nwrite := SendOnPath(i, dataLen, results[i]);
        i := i + 1;
      }
      globalSeq := Inc32(globalSeq);
    }

    /** `RecvFrom`: peeks the header (a failure throws `RecvFailed`), then
        reads the header and the payload length it announces (a failure
        throws too), reporting the sender through `addrFrom` when it is
        given. `d` is the datagram waiting on the socket; `peekOk` and
        `readOk` say whether each recvfrom(2) call succeeds. The second
        request is capped at the buffer's capacity (see `RecvRequest`). */
    method RecvFrom(s: SocketPack, addrFrom: AddrCell?, d: Datagram, peekOk: bool, readOk: bool)
      returns (r: Result<nat>)
      modifies this`header, this`calls, data, addrFrom
      ensures !peekOk ==>
                && r == Err(RecvFailed) && header == old(header)
                && calls == old(calls) + [RecvCall(s.sockFd, headerSize, true)]
      ensures peekOk ==>
                && header == d.header
                && calls == old(calls) + [RecvCall(s.sockFd, headerSize, true),
                                          RecvCall(s.sockFd, RecvRequest(d.header, headerSize, data.Length), false)]
      ensures !(peekOk && readOk) ==>
                r == Err(RecvFailed) && unchanged(data) && (addrFrom != null ==> unchanged(addrFrom))
      ensures peekOk && readOk ==>
                var n := Copied(RecvRequest(d.header, headerSize, data.Length), headerSize + |d.payload|);
                && r == Ok(n)
                && data[..n - headerSize] == d.payload[..n - headerSize]
                && data[n - headerSize..] == old(data[n - headerSize..])
                && (addrFrom != null ==> addrFrom.addr == d.from)
    {
      calls := calls + [RecvCall(s.sockFd, headerSize, true)];
      if !peekOk {
        return Err(RecvFailed);
      }
      header := d.header;
      var request := RecvRequest(header, headerSize, data.Length);
      calls := calls + [RecvCall(s.sockFd, request, false)];
      if !readOk {
        return Err(RecvFailed);
      }
      var n := Copied(request, headerSize + |d.payload|);
      forall i | 0 <= i < n - headerSize {
        data[i] := d.payload[i];
      }
      if addrFrom != null {
        addrFrom.addr := d.from;
      }
      return Ok(n);
    }
  }
}
