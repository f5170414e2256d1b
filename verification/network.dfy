/**
  Socket-level pieces: IPv4 socket addresses, the 8-byte TUN_HEADER layout,
  the move-only SOCKET_PACK that owns one socket descriptor, and the
  throwing read/write helpers used on the TUN device.
 */
module Network {
  import opened Basics

  /** The fields of a `sockaddr_in` that the code compares. */
  datatype SockAddr = SockAddr(family: u16, addr: u32, port: u16)

  /** `is_same_addr`: address, port and family all equal. */
  predicate IsSameAddr(a: SockAddr, b: SockAddr): (same: bool)
    ensures same <==> a == b
  {
    a.addr == b.addr && a.port == b.port && a.family == b.family
  }

  /** `is_same_addr` is exactly equality of the compared fields, hence an
      equivalence relation. */
  lemma IsSameAddrIsEquality(a: SockAddr, b: SockAddr, c: SockAddr)
    ensures IsSameAddr(a, b) <==> a == b
    ensures IsSameAddr(a, a)
    ensures IsSameAddr(a, b) ==> IsSameAddr(b, a)
    ensures IsSameAddr(a, b) && IsSameAddr(b, c) ==> IsSameAddr(a, c)
  {
  }

  // ---------------------------------------------------------------------
  // TUN_HEADER: mode, device_id, length, seq, in this order.

  datatype TunHeader = TunHeader(mode: u8, deviceId: u8, length: u16, seqNum: u32)

  datatype Field = ModeField | DeviceIdField | LengthField | SeqField

  /** Declaration order of the struct's members. */
  const Layout: seq<Field> := [ModeField, DeviceIdField, LengthField, SeqField]

  const TunHeaderSize: nat := 8

  /** Size in bytes of each member's C type. */
  function Width(f: Field): (w: nat)
    ensures w == 1 || w == 2 || w == 4
  {
    match f
    case ModeField => 1
    case DeviceIdField => 1
    case LengthField => 2
    case SeqField => 4
  }

  /** Offset of the `i`-th member when each member follows the previous one
      without padding. */
  function Offset(i: nat): nat
    requires i <= |Layout|
  {
    if i == 0 then 0 else Offset(i - 1) + Width(Layout[i - 1])
  }

  /** Every member already sits at a multiple of its own size, so a C
      compiler inserts no padding: the members tile exactly 8 bytes. */
  lemma TunHeaderLayout()
    ensures forall i :: 0 <= i < |Layout| ==> Offset(i) % Width(Layout[i]) == 0
    ensures Offset(|Layout|) == TunHeaderSize
    ensures Offset(|Layout|) % Width(SeqField) == 0
  {
    assert Offset(1) == 1 && Offset(2) == 2 && Offset(3) == 4 && Offset(4) == 8;
  }

  /** Each member's width in bytes spans exactly the range of the field's
      type in `TunHeader`: 2^8 for mode and device_id, 2^16 for length,
      2^32 for seq. */
  lemma WidthsMatchFieldTypes()
    ensures Pow256(Width(ModeField)) == 0x100
    ensures Pow256(Width(DeviceIdField)) == 0x100
    ensures Pow256(Width(LengthField)) == 0x1_0000
    ensures Pow256(Width(SeqField)) == 0x1_0000_0000
    ensures forall h: TunHeader ::
              && h.mode < Pow256(Width(ModeField)) && h.deviceId < Pow256(Width(DeviceIdField))
              && h.length < Pow256(Width(LengthField)) && h.seqNum < Pow256(Width(SeqField))
  {
    assert Pow256(1) == 0x100;
    assert Pow256(2) == 0x1_0000;
    assert Pow256(4) == 256 * Pow256(3) == 0x1_0000_0000;
  }

  /** 256 to the power `n`: the number of values an `n`-byte member holds. */
  function Pow256(n: nat): nat
  {
    if n == 0 then 1 else 256 * Pow256(n - 1)
  }

  // ---------------------------------------------------------------------
  // Descriptors and their owners.

  /** The kernel's descriptor table, reduced to which descriptors are open. */
  class FdTable {
    var open: set<int>
    ghost var closed: seq<int>  // every close(2) issued so far, in order

    /** Every descriptor closed so far was closed once, and none of them is
        open again. */
    ghost predicate Valid()
      reads this
    {
      && (forall i, j :: 0 <= i < j < |closed| ==> closed[i] != closed[j])
      && (forall i :: 0 <= i < |closed| ==> closed[i] !in open)
    }

    constructor (initiallyOpen: set<int>)
      requires forall fd :: fd in initiallyOpen ==> fd >= 0
      ensures Valid()
      ensures open == initiallyOpen && closed == []
    {
      open := initiallyOpen;
      closed := [];
    }

    /** close(2). Its precondition is the point: closing a descriptor that is
        not open (a double close) cannot be verified, and `Valid` records
        that each descriptor in the log was closed exactly once. */
    method Close(fd: int)
      requires Valid() && fd in open
      modifies this
      ensures Valid()
      ensures open == old(open) - {fd}
      ensures closed == old(closed) + [fd]
    {
      open := open - {fd};
      closed := closed + [fd];
    }
  }

  /** `SOCKET_PACK`: one path's socket descriptor (-1 when it owns none), its
      addresses and interface name, and the per-path sequence counter
      `seq_dev`. Copying is deleted in the source, and no operation here
      duplicates ownership: only the move constructor and move assignment
      hand a descriptor over, and they empty the source. */
  class SocketPack {
    var sockFd: int
    var remoteAddr: SockAddr
    var localAddr: SockAddr
    var ethName: string
    var seqDev: u32

    /** The default constructor owns no descriptor. */
    constructor ()
      ensures sockFd == -1 && ethName == ""
    {
      sockFd := -1;
      ethName := "";
    }

    /** The move constructor: takes over the addresses, the interface name
        and the descriptor; the moved-from pack owns nothing afterwards. */
    constructor Take(other: SocketPack, ghost live: set<SocketPack>, ghost k: FdTable)
      requires Exclusive(live, k) && other in live
      modifies other
      ensures remoteAddr == old(other.remoteAddr) && localAddr == old(other.localAddr)
      ensures ethName == old(other.ethName) && sockFd == old(other.sockFd)
      ensures other.sockFd == -1
      ensures other.remoteAddr == old(other.remoteAddr) && other.localAddr == old(other.localAddr)
      ensures other.ethName == old(other.ethName) && other.seqDev == old(other.seqDev)
      ensures Exclusive(live + {this}, k)
    {
      remoteAddr := other.remoteAddr;
      localAddr := other.localAddr;
      ethName := other.ethName;
      sockFd := other.sockFd;
      new;
      other.sockFd := -1;
    }

    /** The destructor: closes the descriptor exactly when it owns one. The
        pack leaves the live set. */
    method Destroy(k: FdTable, ghost live: set<SocketPack>)
      requires k.Valid() && Exclusive(live, k) && this in live
      modifies k
      ensures k.Valid()
      ensures k.open == if sockFd == -1 then old(k.open) else old(k.open) - {sockFd}
      ensures k.closed == if sockFd == -1 then old(k.closed) else old(k.closed) + [sockFd]
      ensures Exclusive(live - {this}, k)
    {
      if sockFd != -1 {
        k.Close(sockFd);
      }
    }

    /** Move assignment: unless it is a self-move, first closes the
        descriptor this pack owns (if any), then takes over everything the
        source owns and empties the source. */
    method MoveAssign(other: SocketPack, k: FdTable, ghost live: set<SocketPack>)
      requires k.Valid() && Exclusive(live, k) && this in live && other in live
      modifies this, other, k
      ensures k.Valid()
      ensures this == other ==> unchanged(this) && unchanged(k)
      ensures this != other ==>
                && k.open == (if old(sockFd) == -1 then old(k.open) else old(k.open) - {old(sockFd)})
                && k.closed == (if old(sockFd) == -1 then old(k.closed) else old(k.closed) + [old(sockFd)])
                && sockFd == old(other.sockFd) && other.sockFd == -1
                && remoteAddr == old(other.remoteAddr) && localAddr == old(other.localAddr)
                && ethName == old(other.ethName) && seqDev == old(seqDev)
                && unchanged(other`remoteAddr, other`localAddr, other`ethName, other`seqDev)
      ensures Exclusive(live, k)
    {
      if this != other {
        if sockFd != -1 {
          k.Close(sockFd);
        }
        remoteAddr := other.remoteAddr;
        localAddr := other.localAddr;
        ethName := other.ethName;
        sockFd := other.sockFd;
        other.sockFd := -1;
      }
    }
  }

  /** Ownership invariant over the live packs: every owned descriptor is
      open, and no descriptor is owned by two packs. Together with the
      precondition of `FdTable.Close`, it makes every close the first close
      of an open descriptor. */
  ghost predicate Exclusive(live: set<SocketPack>, k: FdTable)
    reads live, k
  {
    && (forall p :: p in live && p.sockFd != -1 ==> p.sockFd in k.open)
    && (forall p, q :: p in live && q in live && p != q && p.sockFd != -1 ==> p.sockFd != q.sockFd)
  }

  // ---------------------------------------------------------------------
  // Reading and writing the TUN descriptor.

  /** The bytes a descriptor will still deliver, and how many bytes the
      kernel is willing to hand out on each successive read(2) call
      (zero or negative: that call fails). */
  class Source {
    var pending: seq<byte>
    var calls: nat
    const offer: nat -> int

    constructor (bytes: seq<byte>, offer: nat -> int)
      ensures pending == bytes && calls == 0 && this.offer == offer
    {
      pending := bytes;
      calls := 0;
      this.offer := offer;
    }

    /** read(2) into `buf[off..off + want]`: a count in 1..want taken from
        the front of `pending`, 0 at end of data, or the kernel's failure. */
    method Read(buf: array<byte>, off: nat, want: nat) returns (nread: int)
      requires off + want <= buf.Length
      modifies this, buf
      ensures calls == old(calls) + 1
      ensures nread == ReadCount(offer(old(calls)), want, |old(pending)|)
      ensures nread <= want && nread <= |old(pending)|
      ensures nread > 0 ==>
                && buf[off..off + nread] == old(pending)[..nread]
                && pending == old(pending)[nread..]
      ensures nread <= 0 ==> pending == old(pending)
      ensures forall i :: 0 <= i < buf.Length && !(off <= i < off + (if nread > 0 then nread else 0))
                ==> buf[i] == old(buf[i])
    {
      nread := ReadCount(offer(calls), want, |pending|);
      calls := calls + 1;
      if nread > 0 {
        forall i | 0 <= i < nread {
          buf[off + i] := pending[i];
        }
        pending := pending[nread..];
      }
    }
  }

  /** What read(2) returns when the kernel offers `y` bytes, the caller
      asks for `want` and `avail` bytes remain. */
  function ReadCount(y: int, want: nat, avail: nat): (n: int)
    ensures n <= want && n <= avail
    ensures n > 0 <==> y > 0 && want > 0 && avail > 0
  {
    if y <= 0 then y
    else if y <= want && y <= avail then y
    else if want <= avail then want
    else avail
  }

  /** `tun_eread`: one read; any result <= 0 is thrown as `ReadFailed`,
      otherwise the (positive) count is returned. */
  method TunERead(src: Source, buf: array<byte>, off: nat, want: nat) returns (r: Result<nat>)
    requires off + want <= buf.Length
    modifies src, buf
    ensures src.calls == old(src.calls) + 1
    ensures r.Err? <==> ReadCount(src.offer(old(src.calls)), want, |old(src.pending)|) <= 0
    ensures r.Err? ==> r.error == ReadFailed && src.pending == old(src.pending)
    ensures r.Ok? ==>
              && 0 < r.value <= want && r.value <= |old(src.pending)|
              && buf[off..off + r.value] == old(src.pending)[..r.value]
              && src.pending == old(src.pending)[r.value..]
    ensures forall i :: 0 <= i < buf.Length && !(off <= i < off + (if r.Ok? then r.value else 0))
              ==> buf[i] == old(buf[i])
  {
    var nread := src.Read(buf, off, want);
    if nread <= 0 {
      return Err(ReadFailed);
    }
    return Ok(nread);
  }

  /** The receiving end of write(2): the bytes accepted so far, and how many
      bytes the kernel accepts on each successive call (negative: failure). */
  class Sink {
    var written: seq<byte>
    var calls: nat
    const accept: nat -> int

    constructor (accept: nat -> int)
      ensures written == [] && calls == 0 && this.accept == accept
    {
      written := [];
      calls := 0;
      this.accept := accept;
    }

    /** write(2) of `buf[..n]`: a count in 0..n of leading bytes taken, or a
        negative failure. */
    method Write(buf: array<byte>, n: nat) returns (nwrite: int)
      requires n <= buf.Length
      modifies this
      ensures calls == old(calls) + 1
      ensures nwrite == WriteCount(accept(old(calls)), n)
      ensures nwrite >= 0 ==> written == old(written) + buf[..nwrite]
      ensures nwrite < 0 ==> written == old(written)
    {
      nwrite := WriteCount(accept(calls), n);
      calls := calls + 1;
      if nwrite >= 0 {
        written := written + buf[..nwrite];
      }
    }
  }

  /** What write(2) returns when the kernel accepts `a` bytes of `n`. */
  function WriteCount(a: int, n: nat): (m: int)
    ensures m <= n
    ensures m < 0 <==> a < 0
  {
    if a < 0 then a else if a <= n then a else n
  }

  /** `tun_ewrite`: one write; a negative result is thrown as `WriteFailed`,
      otherwise the count written (possibly short, possibly 0). */
  method TunEWrite(dst: Sink, buf: array<byte>, n: nat) returns (r: Result<nat>)
    requires n <= buf.Length
    modifies dst
    ensures dst.calls == old(dst.calls) + 1
    ensures r.Err? <==> dst.accept(old(dst.calls)) < 0
    ensures r.Ok? ==> r.value == WriteCount(dst.accept(old(dst.calls)), n)
    ensures r.Err? ==> r.error == WriteFailed && dst.written == old(dst.written)
    ensures r.Ok? ==> r.value <= n && dst.written == old(dst.written) + buf[..r.value]
  {
    var nwrite := dst.Write(buf, n);
    if nwrite < 0 {
      return Err(WriteFailed);
    }
    return Ok(nwrite);
  }

  /** `tun_readn`: reads until `n` bytes have arrived, each chunk placed
      right after the previous one. A failed read aborts with its error;
      otherwise `n` is returned. The source's `return 0` on a zero-length
      read is kept, and is shown to be dead code. */
  method TunReadN(src: Source, buf: array<byte>, n: int) returns (r: Result<int>)
    requires n <= buf.Length
    modifies src, buf
    ensures r.Ok? ==> r.value == n
    ensures r.Ok? && n > 0 ==>
              && |old(src.pending)| >= n
              && buf[..n] == old(src.pending)[..n]
              && src.pending == old(src.pending)[n..]
    ensures r.Err? ==>
              && r.error == ReadFailed && src.calls > old(src.calls)
              && (src.offer(src.calls - 1) <= 0 || src.pending == [])
    ensures ((forall c: nat :: c >= old(src.calls) ==> src.offer(c) > 0) && |old(src.pending)| >= n)
              ==> r.Ok?
    ensures n <= 0 ==> r == Ok(n) && unchanged(src) && unchanged(buf)
    ensures forall i :: 0 <= i < buf.Length && (n <= 0 || n <= i) ==> buf[i] == old(buf[i])
  {
    if n <= 0 {
      return Ok(n);
    }
    var off: nat := 0;
    var left: nat := n;
    while left > 0
      invariant off + left == n
      invariant src.calls >= old(src.calls)
      invariant |old(src.pending)| >= off
      invariant buf[..off] == old(src.pending)[..off]
      invariant src.pending == old(src.pending)[off..]
      invariant forall i :: n <= i < buf.Length ==> buf[i] == old(buf[i])
      decreases left
    {
      var chunk := TunERead(src, buf, off, left);
      if chunk.Err? {
        return Err(chunk.error);
      }
      var nread := chunk.value;
      if nread == 0 {
        // tun_eread never returns 0: it throws instead.
        assert false;
        return Ok(0);
      }
      assert buf[..off + nread] == buf[..off] + buf[off..off + nread];
      assert old(src.pending)[..off + nread] == old(src.pending)[..off] + old(src.pending)[off..][..nread];
      left := left - nread;
      off := off + nread;
    }
    return Ok(n);
  }
}
