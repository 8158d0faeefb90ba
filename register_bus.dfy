/**
 * The register bus a driver is attached to (the `ICom` interface), modelled
 * as an abstract register file `(device, register) -> byte` together with a
 * scripted oracle that decides, transaction by transaction, whether the
 * transfer succeeds. Every transaction and every call of the attached delay
 * routine is appended to a trace, so that the order in which a driver issues
 * them can be stated and checked.
 */
module RegisterBus {
  import opened Bytes

  /** One observable action, in the order the driver issued it. */
  datatype Event =
    | Read(dev: Byte, reg: Byte, size: nat, ok: bool)
    | Write(dev: Byte, reg: Byte, data: seq<Byte>, ok: bool)
    | Delay(us: nat)

  /**
   * The oracle's decision for one transaction. A failed transfer leaves
   * whatever the caller's buffer happened to hold: `junk`.
   */
  datatype Outcome = Pass | Fail(junk: seq<Byte>)

  /** Register contents, the outcomes still to come, and what happened so far. */
  datatype BusState = BusState(regs: map<(Byte, Byte), Byte>, script: seq<Outcome>, trace: seq<Event>)

  datatype ReadReply = ReadReply(bus: BusState, ok: bool, data: seq<Byte>)

  datatype WriteReply = WriteReply(bus: BusState, ok: bool)

  /** The content of a register; a register never written reads as 0. */
  function Peek(regs: map<(Byte, Byte), Byte>, dev: Byte, reg: Byte): Byte
  {
    if (dev, reg) in regs then regs[(dev, reg)] else 0
  }

  /** The outcome of the next transaction; once the script is exhausted every transfer succeeds. */
  function Next(script: seq<Outcome>): Outcome
  {
    if script == [] then Pass else script[0]
  }

  function Rest(script: seq<Outcome>): seq<Outcome>
  {
    if script == [] then [] else script[1..]
  }

  /** Whether the next `k` transactions all succeed. */
  predicate Passes(script: seq<Outcome>, k: nat)
  {
    forall i :: 0 <= i < k && i < |script| ==> script[i].Pass?
  }

  /** A burst read: `n` consecutive registers starting at `reg` (the address wraps at 0xFF). */
  function Burst(regs: map<(Byte, Byte), Byte>, dev: Byte, reg: Byte, n: nat): (data: seq<Byte>)
    requires n <= 256
    ensures |data| == n
  {
    seq(n, i requires 0 <= i < n => Peek(regs, dev, reg + i as bv8))
  }

  /** A burst write: the bytes of `data` stored in consecutive registers from `reg`. */
  function Store(regs: map<(Byte, Byte), Byte>, dev: Byte, reg: Byte, data: seq<Byte>): map<(Byte, Byte), Byte>
    decreases |data|
  {
    if data == [] then regs else Store(regs[(dev, reg) := data[0]], dev, reg + 1, data[1..])
  }

  /** The caller's buffer after a failed transfer: the junk, cut or padded to `n` bytes. */
  function Fit(junk: seq<Byte>, n: nat): (data: seq<Byte>)
    ensures |data| == n
  {
    if |junk| >= n then junk[..n] else junk + seq(n - |junk|, _ => 0)
  }

  /** `readCOM(dev, reg, data, n)`: a read changes no register. */
  function ReadTxn(s: BusState, dev: Byte, reg: Byte, n: nat): (r: ReadReply)
    requires n <= 256
    ensures |r.data| == n
    ensures r.ok <==> Next(s.script).Pass?
    ensures r.ok ==> r.data == Burst(s.regs, dev, reg, n)
    ensures r.ok ==> forall i :: 0 <= i < n ==> r.data[i] == Peek(s.regs, dev, reg + i as bv8)
    ensures r.bus == BusState(s.regs, Rest(s.script), s.trace + [Read(dev, reg, n, r.ok)])
  {
    var o := Next(s.script);
    var data := if o.Pass? then Burst(s.regs, dev, reg, n) else Fit(o.junk, n);
    ReadReply(BusState(s.regs, Rest(s.script), s.trace + [Read(dev, reg, n, o.Pass?)]), o.Pass?, data)
  }

  /** `writeCOM(dev, reg, data, |data|)`: a failed write changes no register. */
  function WriteTxn(s: BusState, dev: Byte, reg: Byte, data: seq<Byte>): (r: WriteReply)
    ensures r.ok <==> Next(s.script).Pass?
    ensures !r.ok ==> r.bus.regs == s.regs
    ensures r.bus.script == Rest(s.script)
    ensures r.bus.trace == s.trace + [Write(dev, reg, data, r.ok)]
    ensures data == [] ==> r.bus.regs == s.regs
  {
    var ok := Next(s.script).Pass?;
    var regs := if ok then Store(s.regs, dev, reg, data) else s.regs;
    WriteReply(BusState(regs, Rest(s.script), s.trace + [Write(dev, reg, data, ok)]), ok)
  }

  /** A call of the attached delay routine: it only takes time. */
  function DelayTxn(s: BusState, us: nat): BusState
  {
    s.(trace := s.trace + [Delay(us)])
  }

  /** The next `k + 1` transactions succeed when the next one does and the `k` after it do. */
  lemma PassesStep(script: seq<Outcome>, k: nat)
    ensures Passes(script, k + 1) <==> Next(script).Pass? && Passes(Rest(script), k)
  {
    if script != [] {
      assert forall i :: 0 <= i < k && i < |script[1..]| ==> script[1..][i] == script[i + 1];
    }
  }

  /** The next two transactions succeed. */
  lemma {:induction false} PassesTwo(script: seq<Outcome>)
    ensures Passes(script, 2) <==> Next(script).Pass? && Next(Rest(script)).Pass?
  {
    PassesStep(script, 1);
    PassesStep(Rest(script), 0);
  }

  /** Two register files that differ at most in register `reg` of device `dev`. */
  ghost predicate SameExcept(r1: map<(Byte, Byte), Byte>, r2: map<(Byte, Byte), Byte>, dev: Byte, reg: Byte)
  {
    forall d: Byte, g: Byte :: (d, g) != (dev, reg) ==> Peek(r1, d, g) == Peek(r2, d, g)
  }

  lemma SameExceptTransitive(r1: map<(Byte, Byte), Byte>, r2: map<(Byte, Byte), Byte>, r3: map<(Byte, Byte), Byte>, dev: Byte, reg: Byte)
    requires SameExcept(r2, r1, dev, reg) && SameExcept(r3, r2, dev, reg)
    ensures SameExcept(r3, r1, dev, reg)
  {
  }

  /** A one-byte write sets exactly its register when it succeeds and nothing when it fails. */
  lemma {:induction false} WriteOne(s: BusState, dev: Byte, reg: Byte, b: Byte)
    ensures WriteTxn(s, dev, reg, [b]).ok ==> Peek(WriteTxn(s, dev, reg, [b]).bus.regs, dev, reg) == b
    ensures SameExcept(WriteTxn(s, dev, reg, [b]).bus.regs, s.regs, dev, reg)
  {
    StoreOne(s.regs, dev, reg, b);
  }

  /** Storing one byte sets exactly that register. */
  lemma StoreOne(regs: map<(Byte, Byte), Byte>, dev: Byte, reg: Byte, b: Byte)
    ensures Store(regs, dev, reg, [b]) == regs[(dev, reg) := b]
  {
    assert [b][1..] == [];
  }

  /** The attached bus (an `ICom` implementation) seen from a driver. */
  class Com {
    var regs: map<(Byte, Byte), Byte>
    var script: seq<Outcome>
    var trace: seq<Event>

    function State(): BusState
      reads this
    {
      BusState(regs, script, trace)
    }

    constructor (regs0: map<(Byte, Byte), Byte>, script0: seq<Outcome>)
      ensures State() == BusState(regs0, script0, [])
    {
      regs, script, trace := regs0, script0, [];
    }

    method ReadCom(dev: Byte, reg: Byte, size: nat) returns (ok: bool, data: seq<Byte>)
      requires size <= 256
      modifies this
      ensures ReadReply(State(), ok, data) == ReadTxn(old(State()), dev, reg, size)
    {
      var r := ReadTxn(State(), dev, reg, size);
      regs, script, trace := r.bus.regs, r.bus.script, r.bus.trace;
      ok, data := r.ok, r.data;
    }

    method WriteCom(dev: Byte, reg: Byte, data: seq<Byte>) returns (ok: bool)
      modifies this
      ensures WriteReply(State(), ok) == WriteTxn(old(State()), dev, reg, data)
    {
      var r := WriteTxn(State(), dev, reg, data);
      regs, script, trace := r.bus.regs, r.bus.script, r.bus.trace;
      ok := r.ok;
    }

    method Delay(us: nat)
      modifies this
      ensures State() == DelayTxn(old(State()), us)
    {
      trace := trace + [Event.Delay(us)];
    }
  }
}
