/**
 * The Linux I2C transport (`I2C`, an `ICom` implementation). It keeps one
 * descriptor of `/dev/i2c-<bus>` and caches the last slave address selected
 * on it. The kernel calls it makes (`open`, `ioctl(I2C_SLAVE)`, `write`,
 * `read`, `usleep`, `close`) are answered by a scripted kernel that also
 * records every call, so that which calls are made, with which bytes and in
 * which order can be stated.
 */
module I2CTransport {
  import opened Bytes

  /** The largest payload the transmit buffer holds (`MAX_WRITE_BUFFER_LEN`). */
  const MAX_WRITE_BUFFER_LEN: nat := 511

  /** `readCOM` gives up after this many partial reads. */
  const MAX_READ_TRIES: nat := 5

  /** The pause between two partial reads, in microseconds. */
  const RETRY_SLEEP_US: nat := 10000

  /** The cached slave after construction: -1 stored in a `uint8_t`. */
  const NO_SLAVE: Byte := 0xFF

  /** The descriptor an unscripted `open` returns. */
  const DEFAULT_FD: int := 3

  /** One kernel call, with the arguments that matter. */
  datatype Call =
    | Open(bus: int)
    | Ioctl(fd: int, slave: Byte)
    | Write(fd: int, bytes: seq<Byte>)
    | Read(fd: int, n: nat)
    | Sleep(us: nat)
    | Close(fd: int)

  /** What one `read` returns: an error, or the bytes the device sent (cut to the request). */
  datatype ReadResult = ReadError | Got(bytes: seq<Byte>)

  /**
   * The kernel: the results still to come for each kind of call, and the calls
   * made so far. Once a script is exhausted, `open` gives `DEFAULT_FD`,
   * `ioctl` 0 and `write` the whole count, while `read` reports an error.
   */
  datatype Sys = Sys(openResults: seq<int>, ioctlResults: seq<int>, writeCounts: seq<int>, readResults: seq<ReadResult>, log: seq<Call>)

  /** The transport's own state: its descriptor (0 when none), the cached slave, and the kernel. */
  datatype Port = Port(fd: int, slave: Byte, sys: Sys)

  /** The result of a `readCOM` call: the state after it, the verdict, and the bytes placed in the buffer. */
  datatype ReadComReply = ReadComReply(port: Port, ok: bool, got: seq<Byte>)

  function Head<T>(s: seq<T>, default: T): T
  {
    if s == [] then default else s[0]
  }

  function Tail<T>(s: seq<T>): seq<T>
  {
    if s == [] then [] else s[1..]
  }

  // ---------------------------------------------------------------------
  // Kernel calls
  // ---------------------------------------------------------------------

  function SysOpen(s: Sys, bus: int): (Sys, int)
  {
    (s.(openResults := Tail(s.openResults), log := s.log + [Open(bus)]), Head(s.openResults, DEFAULT_FD))
  }

  function SysIoctl(s: Sys, fd: int, slave: Byte): (Sys, int)
  {
    (s.(ioctlResults := Tail(s.ioctlResults), log := s.log + [Ioctl(fd, slave)]), Head(s.ioctlResults, 0))
  }

  /** The count the next `write` of `bytes` reports. */
  function WriteCount(s: Sys, bytes: seq<Byte>): int
  {
    Head(s.writeCounts, |bytes|)
  }

  function SysWrite(s: Sys, fd: int, bytes: seq<Byte>): (Sys, int)
  {
    (s.(writeCounts := Tail(s.writeCounts), log := s.log + [Write(fd, bytes)]), WriteCount(s, bytes))
  }

  /**
   * What the next `read` of at most `n` bytes returns: the count (negative on
   * error) and the bytes it stores in the buffer.
   */
  function ReadCount(rs: seq<ReadResult>, n: nat): (r: (int, seq<Byte>))
    ensures r.0 < 0 ==> r.1 == []
    ensures r.0 >= 0 ==> r.0 == |r.1| <= n
  {
    var h := Head(rs, ReadError);
    if h.ReadError? then (-1, [])
    else if |h.bytes| <= n then (|h.bytes|, h.bytes)
    else (n, h.bytes[..n])
  }

  // ---------------------------------------------------------------------
  // Descriptor and slave selection (`i2c_open`, `i2c_select_slave`, `i2c_close`)
  // ---------------------------------------------------------------------

  /** `i2c_open`: open the bus device unless a descriptor is held; a failed open leaves none. */
  function OpenTxn(p: Port, bus: int): (r: (Port, bool))
    ensures r.0.slave == p.slave
    ensures p.fd != 0 ==> r == (p, true)
    ensures p.fd == 0 ==> r.0.sys.log == p.sys.log + [Open(bus)] && (r.1 <==> Head(p.sys.openResults, DEFAULT_FD) >= 0)
    ensures !r.1 ==> r.0.fd == 0
  {
    if p.fd != 0 then (p, true)
    else
      var (s1, fd) := SysOpen(p.sys, bus);
      if fd < 0 then (Port(0, p.slave, s1), false) else (Port(fd, p.slave, s1), true)
  }

  /**
   * `i2c_select_slave`: a cache hit makes no kernel call; otherwise open if
   * needed and `ioctl(I2C_SLAVE)`, caching the address only when both succeed.
   */
  function SelectTxn(p: Port, bus: int, addr: Byte): (r: (Port, bool))
    ensures p.slave == addr ==> r == (p, true)
    ensures r.1 ==> r.0.slave == addr
    ensures !r.1 ==> r.0.slave == p.slave
    ensures p.slave != addr && OpenTxn(p, bus).1 ==>
      r.0.fd == OpenTxn(p, bus).0.fd && r.0.sys.log == OpenTxn(p, bus).0.sys.log + [Ioctl(r.0.fd, addr)]
  {
    if p.slave == addr then (p, true)
    else
      var (p1, isOpen) := OpenTxn(p, bus);
      if !isOpen then (p1, false)
      else
        var (s2, res) := SysIoctl(p1.sys, p1.fd, addr);
        if res < 0 then (p1.(sys := s2), false) else (Port(p1.fd, addr, s2), true)
  }

  /** A selection only appends to the kernel log. */
  lemma SelectExtendsLog(p: Port, bus: int, addr: Byte)
    ensures var r := SelectTxn(p, bus, addr);
      |r.0.sys.log| >= |p.sys.log| && r.0.sys.log[..|p.sys.log|] == p.sys.log
  {
  }

  /**
   * The constructor caches 0xFF, which no 7-bit address equals: the first
   * selection of any device opens the bus and issues the `ioctl`.
   */
  lemma {:induction false} FirstSelectionMisses(s: Sys, bus: int, addr: Byte)
    requires addr < 0x80
    requires Head(s.openResults, DEFAULT_FD) >= 0
    ensures var r := SelectTxn(Port(0, NO_SLAVE, s), bus, addr);
      r.0.sys.log[..|s.log| + 2] == s.log + [Open(bus), Ioctl(Head(s.openResults, DEFAULT_FD), addr)]
  {
    var r := SelectTxn(Port(0, NO_SLAVE, s), bus, addr);
    assert r.0.sys.log == s.log + [Open(bus)] + [Ioctl(Head(s.openResults, DEFAULT_FD), addr)];
  }

  /**
   * `i2c_close` caches slave 0 with no descriptor, so a later selection of
   * address 0 is a cache hit that opens nothing.
   */
  lemma SelectAfterCloseSkipsOpen(s: Sys, bus: int)
    ensures SelectTxn(Port(0, 0, s), bus, 0) == (Port(0, 0, s), true)
  {
  }

  // ---------------------------------------------------------------------
  // `writeCOM` and `readCOM`
  // ---------------------------------------------------------------------

  /**
   * `writeCOM(device, reg, data, size)`: select the device, then one `write`
   * of the register byte followed by the payload. An empty payload succeeds
   * only when exactly one byte was written; otherwise the write succeeds
   * when the count reaches `size`.
   */
  function WriteComTxn(p: Port, bus: int, device: Byte, reg: Byte, payload: seq<Byte>): (r: (Port, bool))
    ensures !SelectTxn(p, bus, device).1 ==> r == (SelectTxn(p, bus, device).0, false)
    ensures SelectTxn(p, bus, device).1 ==>
      var q := SelectTxn(p, bus, device).0;
      var n := WriteCount(q.sys, [reg] + payload);
      r.0.fd == q.fd && r.0.slave == device &&
      r.0.sys.log == q.sys.log + [Write(q.fd, [reg] + payload)] &&
      (r.1 <==> if payload == [] then n == 1 else n >= |payload|)
  {
    var (q, selected) := SelectTxn(p, bus, device);
    if !selected then (q, false)
    else
      var (s1, result) := SysWrite(q.sys, q.fd, [reg] + payload);
      var ok := if result < 0 then false else if payload == [] then result == 1 else result >= |payload|;
      (q.(sys := s1), ok)
  }

  /**
   * Every payload a `uint8_t` size can describe fits the transmit buffer, so
   * the length check of `writeCOM` never fires; `WriteCom` relies on this to
   * fill the buffer without it.
   */
  lemma SizeCheckNeverFires(size: Byte)
    ensures size as int <= MAX_WRITE_BUFFER_LEN
  {
  }

  /**
   * The success test compares the count with the payload size, not the frame
   * size: a write that sends every byte but the last is reported as a success.
   */
  lemma {:induction false} ShortWriteReported(p: Port, bus: int, device: Byte, reg: Byte, payload: seq<Byte>)
    requires payload != [] && SelectTxn(p, bus, device).1
    requires WriteCount(SelectTxn(p, bus, device).0.sys, [reg] + payload) == |payload|
    ensures WriteComTxn(p, bus, device, reg, payload).1
    ensures WriteCount(SelectTxn(p, bus, device).0.sys, [reg] + payload) < |[reg] + payload|
  {
  }

  /** The read loop's effect: the read results left, the kernel calls it made, and the bytes it placed. */
  datatype LoopResult = LoopResult(rest: seq<ReadResult>, calls: seq<Call>, got: seq<Byte>)

  /**
   * The read loop of `readCOM`: at most `MAX_READ_TRIES - tries` further
   * reads, each asking for what is still missing; stop on an error or once
   * everything arrived, and sleep between partial reads.
   */
  function ReadLoop(rs: seq<ReadResult>, fd: int, need: nat, tries: nat): LoopResult
    decreases MAX_READ_TRIES - tries
  {
    if need == 0 || tries >= MAX_READ_TRIES then LoopResult(rs, [], [])
    else
      var rd := ReadCount(rs, need);
      if rd.0 < 0 then LoopResult(Tail(rs), [Read(fd, need)], [])
      else if rd.0 == need then LoopResult(Tail(rs), [Read(fd, need)], rd.1)
      else
        var more := ReadLoop(Tail(rs), fd, need - rd.0, tries + 1);
        LoopResult(more.rest, [Read(fd, need), Sleep(RETRY_SLEEP_US)] + more.calls, rd.1 + more.got)
  }

  /** The loop never places more bytes than were asked for. */
  lemma {:induction false} ReadLoopGotBound(rs: seq<ReadResult>, fd: int, need: nat, tries: nat)
    ensures |ReadLoop(rs, fd, need, tries).got| <= need
    decreases MAX_READ_TRIES - tries
  {
    if need != 0 && tries < MAX_READ_TRIES {
      var rd := ReadCount(rs, need);
      if 0 <= rd.0 < need {
        ReadLoopGotBound(Tail(rs), fd, need - rd.0, tries + 1);
      }
    }
  }

  /** The kernel after the read loop: its read results consumed and its calls logged. */
  function AfterLoop(s: Sys, l: LoopResult): Sys
  {
    s.(readResults := l.rest, log := s.log + l.calls)
  }

  /**
   * `readCOM(device, reg, data, size)`: the register-addressing write, then
   * the read loop; true exactly when all `size` bytes arrived.
   */
  function ReadComTxn(p: Port, bus: int, device: Byte, reg: Byte, size: nat): (r: ReadComReply)
    ensures |r.got| <= size
    ensures !WriteComTxn(p, bus, device, reg, []).1 ==> r == ReadComReply(WriteComTxn(p, bus, device, reg, []).0, false, [])
    ensures r.ok <==> WriteComTxn(p, bus, device, reg, []).1 && |r.got| == size
    ensures size == 0 ==> r.port == WriteComTxn(p, bus, device, reg, []).0
  {
    var (q, primed) := WriteComTxn(p, bus, device, reg, []);
    if !primed then ReadComReply(q, false, []) else ReadPrimedTxn(q, size)
  }

  /** The part of `readCOM` after a successful register-addressing write: the read loop. */
  function ReadPrimedTxn(q: Port, size: nat): (r: ReadComReply)
    ensures |r.got| <= size
    ensures r.ok <==> |r.got| == size
    ensures r.port.fd == q.fd && r.port.slave == q.slave
  {
    var l := ReadLoop(q.sys.readResults, q.fd, size, 0);
    ReadLoopGotBound(q.sys.readResults, q.fd, size, 0);
    ReadComReply(q.(sys := AfterLoop(q.sys, l)), |l.got| == size, l.got)
  }

  /**
   * The read loop as the driver runs it: resumed after `calls` were made and
   * `got` stored, with `rs` the results still to come.
   */
  function ReadLoopFrom(rs: seq<ReadResult>, fd: int, need: nat, tries: nat, calls: seq<Call>, got: seq<Byte>): LoopResult
    decreases MAX_READ_TRIES - tries
  {
    if need == 0 || tries >= MAX_READ_TRIES then LoopResult(rs, calls, got)
    else
      var rd := ReadCount(rs, need);
      if rd.0 < 0 then LoopResult(Tail(rs), calls + [Read(fd, need)], got)
      else if rd.0 == need then LoopResult(Tail(rs), calls + [Read(fd, need)], got + rd.1)
      else ReadLoopFrom(Tail(rs), fd, need - rd.0, tries + 1, calls + [Read(fd, need)] + [Sleep(RETRY_SLEEP_US)], got + rd.1)
  }

  /** One turn of the resumed loop: a read, then either the end or the next turn. */
  lemma ReadLoopFromStep(rs: seq<ReadResult>, fd: int, need: nat, tries: nat, calls: seq<Call>, got: seq<Byte>)
    requires need > 0 && tries < MAX_READ_TRIES
    ensures var rd := ReadCount(rs, need);
      var calls1 := calls + [Read(fd, need)];
      ReadLoopFrom(rs, fd, need, tries, calls, got) ==
        if rd.0 < 0 then LoopResult(Tail(rs), calls1, got)
        else if rd.0 == need then LoopResult(Tail(rs), calls1, got + rd.1)
        else ReadLoopFrom(Tail(rs), fd, need - rd.0, tries + 1, calls1 + [Sleep(RETRY_SLEEP_US)], got + rd.1)
  {
  }

  /** Resuming the loop is running the rest of it after what was already done. */
  lemma {:induction false} ReadLoopFromResumes(rs: seq<ReadResult>, fd: int, need: nat, tries: nat, calls: seq<Call>, got: seq<Byte>)
    ensures var l := ReadLoop(rs, fd, need, tries);
      ReadLoopFrom(rs, fd, need, tries, calls, got) == LoopResult(l.rest, calls + l.calls, got + l.got)
    decreases MAX_READ_TRIES - tries
  {
    if need == 0 || tries >= MAX_READ_TRIES {
      assert calls + [] == calls && got + [] == got;
    } else {
      var rd := ReadCount(rs, need);
      if rd.0 < 0 {
        assert got + [] == got;
      } else if rd.0 < need {
        var more := ReadLoop(Tail(rs), fd, need - rd.0, tries + 1);
        var turn := [Read(fd, need), Sleep(RETRY_SLEEP_US)];
        assert calls + [Read(fd, need)] + [Sleep(RETRY_SLEEP_US)] == calls + turn;
        ReadLoopFromResumes(Tail(rs), fd, need - rd.0, tries + 1, calls + turn, got + rd.1);
        AppendAssoc(calls, turn, more.calls);
        AppendAssoc(got, rd.1, more.got);
      }
    }
  }

  lemma AppendAssoc<T>(a: seq<T>, b: seq<T>, c: seq<T>)
    ensures a + b + c == a + (b + c)
  {
  }

  /** Run from the start, the resumed loop is the read loop itself. */
  lemma ReadLoopFromStart(rs: seq<ReadResult>, fd: int, need: nat)
    ensures ReadLoopFrom(rs, fd, need, 0, [], []) == ReadLoop(rs, fd, need, 0)
  {
    var l := ReadLoop(rs, fd, need, 0);
    ReadLoopFromResumes(rs, fd, need, 0, [], []);
    assert [] + l.calls == l.calls && [] + l.got == l.got;
  }

  /** How many `read` calls a log holds. */
  function ReadCalls(log: seq<Call>): nat
  {
    if log == [] then 0 else (if log[0].Read? then 1 else 0) + ReadCalls(log[1..])
  }

  /** The read loop makes at most `MAX_READ_TRIES - tries` reads. */
  lemma {:induction false} ReadLoopBounded(rs: seq<ReadResult>, fd: int, need: nat, tries: nat)
    requires tries <= MAX_READ_TRIES
    ensures ReadCalls(ReadLoop(rs, fd, need, tries).calls) <= MAX_READ_TRIES - tries
    decreases MAX_READ_TRIES - tries
  {
    if need != 0 && tries < MAX_READ_TRIES {
      var rd := ReadCount(rs, need);
      if 0 <= rd.0 < need {
        var more := ReadLoop(Tail(rs), fd, need - rd.0, tries + 1);
        ReadLoopBounded(Tail(rs), fd, need - rd.0, tries + 1);
        var calls := [Read(fd, need), Sleep(RETRY_SLEEP_US)] + more.calls;
        assert calls[1..][1..] == more.calls;
      }
    }
  }

  /** A failed read ends the loop at once: one `read`, nothing placed. */
  lemma ReadLoopStopsOnError(rs: seq<ReadResult>, fd: int, need: nat, tries: nat)
    requires need > 0 && tries < MAX_READ_TRIES && rs != [] && rs[0] == ReadError
    ensures ReadLoop(rs, fd, need, tries) == LoopResult(rs[1..], [Read(fd, need)], [])
  {
  }

  /** The bytes of `chunks`, in order. */
  function Flatten(chunks: seq<seq<Byte>>): (all: seq<Byte>)
  {
    if chunks == [] then [] else chunks[0] + Flatten(chunks[1..])
  }

  /**
   * Whatever way the device splits its bytes over successive reads, as long
   * as it needs no more reads than are left, the loop places them all, in order.
   */
  lemma {:induction false} ChunkedReadDelivers(rs: seq<ReadResult>, fd: int, chunks: seq<seq<Byte>>, tries: nat)
    requires tries + |chunks| <= MAX_READ_TRIES
    requires |chunks| <= |rs|
    requires forall i :: 0 <= i < |chunks| ==> rs[i] == Got(chunks[i])
    ensures ReadLoop(rs, fd, |Flatten(chunks)|, tries).got == Flatten(chunks)
    decreases |chunks|
  {
    var need := |Flatten(chunks)|;
    if need != 0 {
      assert chunks != [];
      var rd := ReadCount(rs, need);
      assert Head(rs, ReadError) == Got(chunks[0]);
      assert rd.1 == chunks[0];
      if rd.0 != need {
        assert forall i :: 0 <= i < |chunks[1..]| ==> Tail(rs)[i] == Got(chunks[1..][i]);
        ChunkedReadDelivers(Tail(rs), fd, chunks[1..], tries + 1);
      } else {
        assert Flatten(chunks[1..]) == [];
      }
    }
  }

  // ---------------------------------------------------------------------
  // The transport object
  // ---------------------------------------------------------------------

  class I2C {
    const bus: int
    var fd: int
    var currentSlave: Byte
    var sys: Sys

    function State(): Port
      reads this
    {
      Port(fd, currentSlave, sys)
    }

    /** `I2C(bus)`: no descriptor yet, and no slave cached. */
    constructor (bus: int, sys: Sys)
      ensures this.bus == bus && State() == Port(0, NO_SLAVE, sys)
    {
      this.bus := bus;
      fd := 0;
      currentSlave := NO_SLAVE;
      this.sys := sys;
    }

    method Open() returns (ok: bool)
      modifies this
      ensures (State(), ok) == OpenTxn(old(State()), bus)
    {
      if fd == 0 {
        var r := SysOpen(sys, bus);
        sys, fd := r.0, r.1;
        if fd < 0 {
          fd := 0;
          return false;
        }
      }
      return true;
    }

    /** `i2c_close` (also what the destructor does): only when a descriptor is held. */
    method Close()
      modifies this
      ensures old(fd) == 0 ==> State() == old(State())
      ensures old(fd) != 0 ==> State() == Port(0, 0, old(sys).(log := old(sys).log + [Call.Close(old(fd))]))
    {
      if fd != 0 {
        sys := sys.(log := sys.log + [Call.Close(fd)]);
        fd := 0;
        currentSlave := 0;
      }
    }

    method SelectSlave(addr: Byte) returns (ok: bool)
      modifies this
      ensures (State(), ok) == SelectTxn(old(State()), bus, addr)
    {
      if currentSlave == addr {
        return true;
      }
      var isOpen := Open();
      if !isOpen {
        return false;
      }
      var r := SysIoctl(sys, fd, addr);
      sys := r.0;
      if r.1 < 0 {
        return false;
      }
      currentSlave := addr;
      return true;
    }

    /** `writeCOM`: the frame is assembled in a 512-byte transmit buffer. */
    method WriteCom(device: Byte, reg: Byte, data: array?<Byte>, size: Byte) returns (ok: bool)
      requires size == 0 || (data != null && size as int <= data.Length)
      modifies this
      ensures var payload := if size == 0 then [] else old(data[..size]);
        (State(), ok) == WriteComTxn(old(State()), bus, device, reg, payload)
    {
      ghost var payload := if size == 0 then [] else data[..size];
      var selected := SelectSlave(device);
      if !selected {
        return false;
      }
      var result;
      if size == 0 {
        assert [reg] + payload == [reg];
        var r := SysWrite(sys, fd, [reg]);
        sys, result := r.0, r.1;
        if result < 0 {
          return false;
        } else if result != 1 {
          return false;
        }
      } else {
        SizeCheckNeverFires(size);
        var frame := Frame(reg, data, size as int);
        var r := SysWrite(sys, fd, frame);
        sys, result := r.0, r.1;
        if result < 0 {
          return false;
        } else if result < size as int {
          return false;
        }
      }
      return true;
    }

    /** The transmit buffer of `writeCOM`: the register byte, then the first `n` bytes of `data`. */
    static method Frame(reg: Byte, data: array<Byte>, n: nat) returns (frame: seq<Byte>)
      requires n <= data.Length && n <= MAX_WRITE_BUFFER_LEN
      ensures frame == [reg] + data[..n]
    {
      var txBuff := new Byte[MAX_WRITE_BUFFER_LEN + 1];
      txBuff[0] := reg;
      var i := 0;
      while i < n
        invariant 0 <= i <= n
        invariant txBuff[0] == reg && txBuff[1..i + 1] == data[..i]
      {
        txBuff[i + 1] := data[i];
        i := i + 1;
      }
      frame := txBuff[..n + 1];
      assert frame == [txBuff[0]] + txBuff[1..n + 1];
    }

    /** `readCOM`: the addressing write, then the read loop into `data`. */
    method ReadCom(device: Byte, reg: Byte, data: array<Byte>, size: Byte) returns (ok: bool)
      requires size as int <= data.Length
      modifies this, data
      ensures var r := ReadComTxn(old(State()), bus, device, reg, size as int);
        State() == r.port && ok == r.ok &&
        data[..|r.got|] == r.got && data[|r.got|..] == old(data[|r.got|..])
    {
      var primed := WriteCom(device, reg, null, 0);
      if !primed {
        return false;
      }
      ok := ReadPrimed(data, size);
    }

    /** `readCOM` once the register address was written: the read loop and its verdict. */
    method ReadPrimed(data: array<Byte>, size: Byte) returns (ok: bool)
      requires size as int <= data.Length
      modifies this`sys, data
      ensures var r := ReadPrimedTxn(old(State()), size as int);
        State() == r.port && ok == r.ok &&
        data[..|r.got|] == r.got && data[|r.got|..] == old(data[|r.got|..])
    {
      ReadLoopFromStart(sys.readResults, fd, size as int);
      var total, rest, calls := ReadChunks(data, size as int, fd, sys.readResults);
      sys := AfterLoop(sys, LoopResult(rest, calls, []));
      if total < size as int {
        return false;
      }
      return true;
    }

    /**
     * The loop of `readCOM` on descriptor `fd`, with `rs` the kernel's read
     * results to come: the chunks land one after another in `data`; the
     * results left over and the calls made are returned.
     */
    static method ReadChunks(data: array<Byte>, n: nat, fd: int, rs: seq<ReadResult>) returns (total: nat, rest: seq<ReadResult>, calls: seq<Call>)
      requires n <= data.Length
      modifies data
      ensures total <= n
      ensures ReadLoopFrom(rs, fd, n, 0, [], []) == LoopResult(rest, calls, data[..total])
      ensures data[total..] == old(data[total..])
    {
      rest := rs;
      calls := [];
      ghost var got: seq<Byte> := [];
      total := 0;
      var tries := 0;
      var stop := false;
      while !stop && total < n && tries < MAX_READ_TRIES
        invariant 0 <= total <= n && tries <= MAX_READ_TRIES
        invariant ReadLoopFrom(rs, fd, n, 0, [], []) ==
          if stop then LoopResult(rest, calls, got) else ReadLoopFrom(rest, fd, n - total, tries, calls, got)
        invariant data[..total] == got && data[total..] == old(data[total..])
        decreases MAX_READ_TRIES - tries, if stop then 0 else 1
      {
        stop, total, tries, rest, calls, got := ReadTurn(data, n, total, tries, fd, rest, calls, got);
      }
    }

    /**
     * One turn of the loop: a read of what is still missing, then either the
     * end of the loop (an error, or everything arrived) or a sleep before the next turn.
     */
    static method ReadTurn(data: array<Byte>, n: nat, total: nat, tries: nat, fd: int, rest: seq<ReadResult>, calls: seq<Call>, ghost got: seq<Byte>)
      returns (stop: bool, total': nat, tries': nat, rest': seq<ReadResult>, calls': seq<Call>, ghost got': seq<Byte>)
      requires total < n <= data.Length && tries < MAX_READ_TRIES && data[..total] == got
      modifies data
      ensures total <= total' <= n && data[..total'] == got' && data[total'..] == old(data[total'..])
      ensures ReadLoopFrom(rest, fd, n - total, tries, calls, got) ==
        if stop then LoopResult(rest', calls', got') else ReadLoopFrom(rest', fd, n - total', tries', calls', got')
      ensures if stop then tries' == tries else tries' == tries + 1
    {
      ghost var rd := ReadCount(rest, n - total);
      ReadLoopFromStep(rest, fd, n - total, tries, calls, got);
      var result := ReadInto(data, total, n - total, rest);
      rest' := Tail(rest);
      calls' := calls + [Read(fd, n - total)];
      total', tries', got' := total, tries, got;
      if result < 0 {
        return true, total', tries', rest', calls', got';
      }
      got' := got + rd.1;
      total' := total + result;
      if total' == n {
        return true, total', tries', rest', calls', got';
      }
      tries' := tries + 1;
      calls' := calls' + [Sleep(RETRY_SLEEP_US)];
      stop := false;
    }

    /** `::read(fd, data + at, need)`: the kernel stores what it read from `data[at]` on. */
    static method ReadInto(data: array<Byte>, at: nat, need: nat, rs: seq<ReadResult>) returns (result: int)
      requires at + need <= data.Length
      modifies data
      ensures var rd := ReadCount(rs, need);
        result == rd.0 &&
        (result >= 0 ==> data[..at + result] == old(data[..at]) + rd.1 && data[at + result..] == old(data[at + result..])) &&
        (result < 0 ==> data[..] == old(data[..]))
    {
      var rd := ReadCount(rs, need);
      result := rd.0;
      if result >= 0 {
        forall j | 0 <= j < result {
          data[at + j] := rd.1[j];
        }
        assert data[..at + result] == data[..at] + rd.1;
      }
    }
  }
}
