/**
 * The MPU9250 accelerometer/gyroscope driver. As for the magnetometer, each
 * bus-level operation is specified by a function on the bus state, and the
 * `MPU9250` class ties its methods and its cached range fields to them.
 */
module MPU9250Driver {
  import opened Bytes
  import opened RegisterBus
  import opened MPU9250Registers

  /** The driver's cached ranges and the resolutions derived from them. */
  datatype Config = Config(grange: Byte, gRes: real, arange: Byte, aRes: real)

  /** One step of `initialize`. */
  datatype Step =
    | WriteReg(reg: Byte, value: Byte, delayUs: nat)  // one-byte write, then the attached delay (0: none)
    | GyroRange(gcode: Byte)                          // `setGyroRange`
    | AccelRange(acode: Byte)                         // `setAccelRange`

  datatype StepReply = StepReply(bus: BusState, ok: bool, cfg: Config)

  /** One three-axis sample. */
  datatype Triple = Triple(x: Int16, y: Int16, z: Int16)

  /** The bus after a sample read, whether it succeeded, and the sample (all zero when it failed). */
  datatype TripleReply = TripleReply(bus: BusState, ok: bool, sample: Triple)

  // ---------------------------------------------------------------------
  // Range codes and resolutions (`getBaseGyroRange`, `getBaseAccelRange`)
  // ---------------------------------------------------------------------

  /** Full scale in degrees per second of a gyroscope range code; 0 for a code outside the table. */
  function GyroFullScale(code: Byte): (dps: int)
    ensures dps > 0 <==> code < 4
  {
    if code == GYRO_RANGE_250DPS then 250
    else if code == GYRO_RANGE_500DPS then 500
    else if code == GYRO_RANGE_1000DPS then 1000
    else if code == GYRO_RANGE_2000DPS then 2000
    else 0
  }

  /** Full scale in g of an accelerometer range code; 0 for a code outside the table. */
  function AccelFullScale(code: Byte): (g: int)
    ensures g > 0 <==> code < 4
  {
    if code == ACCEL_RANGE_2G then 2
    else if code == ACCEL_RANGE_4G then 4
    else if code == ACCEL_RANGE_8G then 8
    else if code == ACCEL_RANGE_16G then 16
    else 0
  }

  /** Degrees per second per count: full scale over `base`. */
  function GyroResolution(code: Byte): (res: real)
    ensures code < 4 ==> res > 0.0
    ensures code >= 4 ==> res == 0.0
  {
    GyroFullScale(code) as real / BASE
  }

  /** g per count: full scale over `base`. */
  function AccelResolution(code: Byte): (res: real)
    ensures code < 4 ==> res > 0.0
    ensures code >= 4 ==> res == 0.0
  {
    AccelFullScale(code) as real / BASE
  }

  /** The resolution table: the smallest range first, each next code doubling the resolution. */
  lemma ResolutionTable(code: Byte)
    requires 0 < code < 4
    ensures GyroResolution(0) == 250.0 / 32768.0 && AccelResolution(0) == 2.0 / 32768.0
    ensures GyroResolution(code) == 2.0 * GyroResolution(code - 1)
    ensures AccelResolution(code) == 2.0 * AccelResolution(code - 1)
  {
  }

  /** A full-scale reading, `base` counts, is the range's full scale. */
  lemma FullScaleReading(code: Byte)
    requires code < 4
    ensures GyroResolution(code) * BASE == GyroFullScale(code) as real
    ensures AccelResolution(code) * BASE == AccelFullScale(code) as real
  {
  }

  // ---------------------------------------------------------------------
  // Range setters (`setGyroRange`, `setAccelRange`)
  // ---------------------------------------------------------------------

  /** The byte a range setter writes back: `config | (code << 3)`, in 8 bits. */
  function RangeByte(config: Byte, code: Byte): Byte
  {
    config | (code << 3)
  }

  /**
   * The setter never clears a bit: the old range bits stay set, bits 2:0
   * are untouched, and a code in the table is ORed into the range field
   * without touching bits 7:5.
   */
  lemma RangeByteKeepsBits(config: Byte, code: Byte)
    ensures RangeByte(config, code) & config == config
    ensures RangeByte(config, code) & 7 == config & 7
    ensures RangeField(RangeByte(config, code)) & RangeField(config) == RangeField(config)
    ensures code < 4 ==> RangeField(RangeByte(config, code)) == RangeField(config) | code
    ensures code < 4 ==> RangeByte(config, code) & 0xE0 == config & 0xE0
  {
  }

  /** The setter never lowers the range: once the field is 3, every code leaves it 3. */
  lemma RangeSetterCannotLower(config: Byte, code: Byte)
    requires RangeField(config) == 3
    ensures RangeField(RangeByte(config, code)) == 3
  {
  }

  /** From a register whose range field is clear, the setter's code is exactly the new field. */
  lemma RangeFromClearField(config: Byte, code: Byte)
    requires RangeField(config) == 0 && code < 4
    ensures RangeField(RangeByte(config, code)) == code
  {
  }

  /** A range setter's bus traffic: read the configuration register, OR the code in, write it back. */
  function RangeTxn(s: BusState, dev: Byte, reg: Byte, code: Byte): (r: WriteReply)
    ensures r.ok <==> Passes(s.script, 2)
    ensures !r.ok ==> r.bus.regs == s.regs
    ensures !Next(s.script).Pass? ==> r.bus == BusState(s.regs, Rest(s.script), s.trace + [Read(dev, reg, 1, false)])
    ensures Next(s.script).Pass? ==> r.bus.script == Rest(Rest(s.script))
    ensures r.ok ==> Peek(r.bus.regs, dev, reg) == RangeByte(Peek(s.regs, dev, reg), code)
  {
    var rd := ReadTxn(s, dev, reg, 1);
    PassesTwo(s.script);
    if !rd.ok then WriteReply(rd.bus, false)
    else
      assert rd.data[0] == Peek(s.regs, dev, reg + 0);
      var b := RangeByte(rd.data[0], code);
      WriteOne(rd.bus, dev, reg, b);
      WriteTxn(rd.bus, dev, reg, [b])
  }

  /** A range setter changes no register but its own. */
  lemma RangeTxnKeepsOthers(s: BusState, dev: Byte, reg: Byte, code: Byte)
    ensures SameExcept(RangeTxn(s, dev, reg, code).bus.regs, s.regs, dev, reg)
  {
    var rd := ReadTxn(s, dev, reg, 1);
    if rd.ok {
      WriteOne(rd.bus, dev, reg, RangeByte(rd.data[0], code));
    }
  }

  /** The cached gyroscope range after `setGyroRange`: changed only when both transfers succeeded. */
  function GyroRangeStep(s: BusState, dev: Byte, code: Byte, cfg: Config): (r: StepReply)
    ensures r.ok <==> Passes(s.script, 2)
    ensures r.ok ==> r.cfg == cfg.(grange := code, gRes := GyroResolution(code))
    ensures !r.ok ==> r.cfg == cfg
    ensures r.ok ==> Peek(r.bus.regs, dev, GYRO_CONFIG) == RangeByte(Peek(s.regs, dev, GYRO_CONFIG), code)
  {
    var w := RangeTxn(s, dev, GYRO_CONFIG, code);
    StepReply(w.bus, w.ok, if w.ok then cfg.(grange := code, gRes := GyroResolution(code)) else cfg)
  }

  /** The cached accelerometer range after `setAccelRange`: changed only when both transfers succeeded. */
  function AccelRangeStep(s: BusState, dev: Byte, code: Byte, cfg: Config): (r: StepReply)
    ensures r.ok <==> Passes(s.script, 2)
    ensures r.ok ==> r.cfg == cfg.(arange := code, aRes := AccelResolution(code))
    ensures !r.ok ==> r.cfg == cfg
    ensures r.ok ==> Peek(r.bus.regs, dev, ACCEL_CONFIG) == RangeByte(Peek(s.regs, dev, ACCEL_CONFIG), code)
  {
    var w := RangeTxn(s, dev, ACCEL_CONFIG, code);
    StepReply(w.bus, w.ok, if w.ok then cfg.(arange := code, aRes := AccelResolution(code)) else cfg)
  }

  /**
   * Setting a smaller gyroscope range after a larger one succeeds and
   * updates the cache, but the register keeps the larger range.
   */
  lemma {:induction false} CachedRangeCanDisagree(s: BusState, dev: Byte, cfg: Config)
    requires RangeField(Peek(s.regs, dev, GYRO_CONFIG)) == GYRO_RANGE_2000DPS && Passes(s.script, 2)
    ensures GyroRangeStep(s, dev, GYRO_RANGE_250DPS, cfg).cfg.grange == GYRO_RANGE_250DPS
    ensures RangeField(Peek(GyroRangeStep(s, dev, GYRO_RANGE_250DPS, cfg).bus.regs, dev, GYRO_CONFIG)) == GYRO_RANGE_2000DPS
  {
    RangeSetterCannotLower(Peek(s.regs, dev, GYRO_CONFIG), GYRO_RANGE_250DPS);
  }

  // ---------------------------------------------------------------------
  // Reset and initialisation
  // ---------------------------------------------------------------------

  /** A one-byte register write followed by the attached delay, which runs whatever the outcome. */
  function WriteRegTxn(s: BusState, dev: Byte, reg: Byte, value: Byte, delayUs: nat): (r: WriteReply)
    ensures r.ok <==> Next(s.script).Pass?
    ensures r.ok ==> Peek(r.bus.regs, dev, reg) == value
    ensures !r.ok ==> r.bus.regs == s.regs
    ensures r.bus.script == Rest(s.script)
    ensures r.bus.trace == s.trace + [Write(dev, reg, [value], r.ok)] + (if delayUs == 0 then [] else [Delay(delayUs)])
  {
    var w := WriteTxn(s, dev, reg, [value]);
    WriteOne(s, dev, reg, value);
    WriteReply(if delayUs == 0 then w.bus else DelayTxn(w.bus, delayUs), w.ok)
  }

  /** A register write changes no register but its own. */
  lemma WriteRegKeepsOthers(s: BusState, dev: Byte, reg: Byte, value: Byte, delayUs: nat)
    ensures SameExcept(WriteRegTxn(s, dev, reg, value, delayUs).bus.regs, s.regs, dev, reg)
  {
    WriteOne(s, dev, reg, value);
  }

  /** `reset`: H_RESET into PWR_MGMT_1, then 100 us; the result is the write's. */
  function ResetTxn(s: BusState, dev: Byte): (r: WriteReply)
    ensures r.ok <==> Next(s.script).Pass?
    ensures r.ok ==> Peek(r.bus.regs, dev, PWR_MGMT_1) == H_RESET
    ensures r.bus.trace == s.trace + [Write(dev, PWR_MGMT_1, [H_RESET], r.ok), Delay(100)]
  {
    WriteRegTxn(s, dev, PWR_MGMT_1, H_RESET, 100)
  }

  /** One step of a step plan. */
  function StepTxn(s: BusState, dev: Byte, step: Step, cfg: Config): (r: StepReply)
    ensures !r.ok ==> r.cfg == cfg
    ensures step.WriteReg? ==> r.cfg == cfg
  {
    match step
    case WriteReg(reg, value, d) =>
      var w := WriteRegTxn(s, dev, reg, value, d);
      StepReply(w.bus, w.ok, cfg)
    case GyroRange(code) => GyroRangeStep(s, dev, code, cfg)
    case AccelRange(code) => AccelRangeStep(s, dev, code, cfg)
  }

  /** Run the steps in order, stopping after the first one that fails. */
  function RunSteps(s: BusState, dev: Byte, steps: seq<Step>, cfg: Config): (r: StepReply)
    ensures !r.ok ==> steps != []
    decreases |steps|
  {
    if steps == [] then StepReply(s, true, cfg)
    else
      var r := StepTxn(s, dev, steps[0], cfg);
      if !r.ok then r else RunSteps(r.bus, dev, steps[1..], r.cfg)
  }

  /** A step only appends to the trace: it issues at least one transaction and rewrites no earlier event. */
  lemma StepExtendsTrace(s: BusState, dev: Byte, step: Step, cfg: Config)
    ensures var r := StepTxn(s, dev, step, cfg);
      |r.bus.trace| > |s.trace| && r.bus.trace[..|s.trace|] == s.trace
  {
  }

  /** A run only appends to the trace. */
  lemma {:induction false} RunStepsExtendsTrace(s: BusState, dev: Byte, steps: seq<Step>, cfg: Config)
    ensures var r := RunSteps(s, dev, steps, cfg);
      |r.bus.trace| >= |s.trace| && r.bus.trace[..|s.trace|] == s.trace
    decreases |steps|
  {
    if steps != [] {
      var r := StepTxn(s, dev, steps[0], cfg);
      StepExtendsTrace(s, dev, steps[0], cfg);
      if r.ok {
        RunStepsExtendsTrace(r.bus, dev, steps[1..], r.cfg);
        assert s.trace == r.bus.trace[..|s.trace|];
      }
    }
  }

  /**
   * Once the steps before `k` have succeeded and step `k` fails, the run
   * ends with step `k`'s result: no later step reaches the bus.
   */
  lemma {:induction false} RunStepsStopsAtFirstFailure(s: BusState, dev: Byte, steps: seq<Step>, cfg: Config, k: nat)
    requires k < |steps|
    decreases k
    requires RunSteps(s, dev, steps[..k], cfg).ok
    requires !StepTxn(RunSteps(s, dev, steps[..k], cfg).bus, dev, steps[k], RunSteps(s, dev, steps[..k], cfg).cfg).ok
    ensures RunSteps(s, dev, steps, cfg)
         == StepTxn(RunSteps(s, dev, steps[..k], cfg).bus, dev, steps[k], RunSteps(s, dev, steps[..k], cfg).cfg)
    ensures !RunSteps(s, dev, steps, cfg).ok
  {
    if k == 0 {
      assert steps[..0] == [];
    } else {
      var r := StepTxn(s, dev, steps[0], cfg);
      assert steps[..k][0] == steps[0];
      assert steps[..k][1..] == steps[1..][..k - 1];
      RunStepsStopsAtFirstFailure(r.bus, dev, steps[1..], r.cfg, k - 1);
    }
  }

  /** A run succeeds only if every step succeeded, so its last step's effects are in place. */
  lemma {:induction false} RunStepsOkMeansAllRan(s: BusState, dev: Byte, steps: seq<Step>, cfg: Config)
    requires RunSteps(s, dev, steps, cfg).ok && steps != []
    ensures RunSteps(s, dev, steps[..|steps| - 1], cfg).ok
    ensures RunSteps(s, dev, steps, cfg)
         == StepTxn(RunSteps(s, dev, steps[..|steps| - 1], cfg).bus, dev, steps[|steps| - 1],
                    RunSteps(s, dev, steps[..|steps| - 1], cfg).cfg)
    decreases |steps|
  {
    var r := StepTxn(s, dev, steps[0], cfg);
    if |steps| == 1 {
      assert steps[..0] == [];
    } else {
      assert steps[1..][..|steps| - 2] == steps[..|steps| - 1][1..];
      RunStepsOkMeansAllRan(r.bus, dev, steps[1..], r.cfg);
    }
  }

  /** The seven steps of `initialize`, in order. */
  function InitPlan(grange: Byte, arange: Byte): (plan: seq<Step>)
    ensures |plan| == 7
  {
    [WriteReg(PWR_MGMT_1, H_RESET, 100),
     WriteReg(PWR_MGMT_1, CLKSEL, 200),
     WriteReg(ACCEL_CONFIG2, ACCEL_FCHOICE_B, 0),
     WriteReg(GYRO_CONFIG, GYRO_FCHOICE_B, 0),
     WriteReg(INT_PIN_CFG, BYPASS_EN, 0),
     GyroRange(grange),
     AccelRange(arange)]
  }

  /**
   * Steps 2 to 5 of `initialize`: the clock source (followed by 200 us
   * whatever the outcome), the two filter bytes and the bypass byte, each
   * write tried only when the ones before it succeeded.
   */
  function DefaultConfigTxn(s: BusState, dev: Byte): (r: WriteReply)
    ensures r.ok <==> Passes(s.script, 4)
  {
    var w2 := WriteRegTxn(s, dev, PWR_MGMT_1, CLKSEL, 200);
    PassesStep(s.script, 3);
    if !w2.ok then w2 else
    var w3 := WriteRegTxn(w2.bus, dev, ACCEL_CONFIG2, ACCEL_FCHOICE_B, 0);
    PassesStep(w2.bus.script, 2);
    if !w3.ok then w3 else
    var w4 := WriteRegTxn(w3.bus, dev, GYRO_CONFIG, GYRO_FCHOICE_B, 0);
    PassesStep(w3.bus.script, 1);
    if !w4.ok then w4 else
    PassesStep(w4.bus.script, 0);
    WriteRegTxn(w4.bus, dev, INT_PIN_CFG, BYPASS_EN, 0)
  }

  /** `initialize` as written: reset, the default configuration, then both range setters, stopping at the first failure. */
  function InitializeTxn(s: BusState, dev: Byte, cfg: Config): (r: StepReply)
    ensures r.cfg.grange == cfg.grange && r.cfg.arange == cfg.arange
  {
    var w1 := ResetTxn(s, dev);
    if !w1.ok then StepReply(w1.bus, false, cfg) else
    var w := DefaultConfigTxn(w1.bus, dev);
    if !w.ok then StepReply(w.bus, false, cfg) else
    var g := GyroRangeStep(w.bus, dev, cfg.grange, cfg);
    if !g.ok then g else AccelRangeStep(g.bus, dev, cfg.arange, g.cfg)
  }

  /** The default configuration when its four writes succeed: each byte in place, ACCEL_CONFIG untouched. */
  lemma {:induction false} DefaultConfigAllPass(s: BusState, dev: Byte, k: nat)
    requires Passes(s.script, 4 + k)
    ensures var w := DefaultConfigTxn(s, dev);
      w.ok && Passes(w.bus.script, k) &&
      Peek(w.bus.regs, dev, PWR_MGMT_1) == CLKSEL &&
      Peek(w.bus.regs, dev, ACCEL_CONFIG2) == ACCEL_FCHOICE_B &&
      Peek(w.bus.regs, dev, GYRO_CONFIG) == GYRO_FCHOICE_B &&
      Peek(w.bus.regs, dev, INT_PIN_CFG) == BYPASS_EN &&
      Peek(w.bus.regs, dev, ACCEL_CONFIG) == Peek(s.regs, dev, ACCEL_CONFIG)
  {
    PassesStep(s.script, 3 + k);
    var w2 := WriteRegTxn(s, dev, PWR_MGMT_1, CLKSEL, 200);
    WriteRegKeepsOthers(s, dev, PWR_MGMT_1, CLKSEL, 200);
    PassesStep(w2.bus.script, 2 + k);
    var w3 := WriteRegTxn(w2.bus, dev, ACCEL_CONFIG2, ACCEL_FCHOICE_B, 0);
    WriteRegKeepsOthers(w2.bus, dev, ACCEL_CONFIG2, ACCEL_FCHOICE_B, 0);
    PassesStep(w3.bus.script, 1 + k);
    var w4 := WriteRegTxn(w3.bus, dev, GYRO_CONFIG, GYRO_FCHOICE_B, 0);
    WriteRegKeepsOthers(w3.bus, dev, GYRO_CONFIG, GYRO_FCHOICE_B, 0);
    PassesStep(w4.bus.script, k);
    WriteRegKeepsOthers(w4.bus, dev, INT_PIN_CFG, BYPASS_EN, 0);
  }

  /** Both range setters succeed when their four transfers do, and each ORs its code into its own register. */
  lemma {:induction false} RangeStepsAllPass(s: BusState, dev: Byte, cfg: Config)
    requires Passes(s.script, 4)
    ensures var g := GyroRangeStep(s, dev, cfg.grange, cfg);
      var a := AccelRangeStep(g.bus, dev, cfg.arange, g.cfg);
      g.ok && a.ok &&
      a.cfg == Config(cfg.grange, GyroResolution(cfg.grange), cfg.arange, AccelResolution(cfg.arange)) &&
      (forall r :: r != GYRO_CONFIG && r != ACCEL_CONFIG ==> Peek(a.bus.regs, dev, r) == Peek(s.regs, dev, r)) &&
      Peek(a.bus.regs, dev, GYRO_CONFIG) == RangeByte(Peek(s.regs, dev, GYRO_CONFIG), cfg.grange) &&
      Peek(a.bus.regs, dev, ACCEL_CONFIG) == RangeByte(Peek(s.regs, dev, ACCEL_CONFIG), cfg.arange)
  {
    PassesStep(s.script, 3);
    PassesStep(Rest(s.script), 2);
    var g := GyroRangeStep(s, dev, cfg.grange, cfg);
    RangeTxnKeepsOthers(s, dev, GYRO_CONFIG, cfg.grange);
    RangeTxnKeepsOthers(g.bus, dev, ACCEL_CONFIG, cfg.arange);
  }

  /**
   * When every transfer of `initialize` succeeds, it returns true, leaves the
   * clock, filter and bypass bytes in place, puts the cached gyroscope range
   * into the otherwise filter-only GYRO_CONFIG, ORs the accelerometer range
   * into ACCEL_CONFIG, and caches both resolutions.
   */
  lemma {:induction false} InitializeAllPass(s: BusState, dev: Byte, cfg: Config)
    requires Passes(s.script, 9)
    requires cfg.grange < 4
    ensures var r := InitializeTxn(s, dev, cfg);
      r.ok &&
      r.cfg == Config(cfg.grange, GyroResolution(cfg.grange), cfg.arange, AccelResolution(cfg.arange)) &&
      Peek(r.bus.regs, dev, PWR_MGMT_1) == CLKSEL &&
      Peek(r.bus.regs, dev, ACCEL_CONFIG2) == ACCEL_FCHOICE_B &&
      Peek(r.bus.regs, dev, INT_PIN_CFG) == BYPASS_EN &&
      Peek(r.bus.regs, dev, GYRO_CONFIG) == GYRO_FCHOICE_B | (cfg.grange << 3) &&
      RangeField(Peek(r.bus.regs, dev, GYRO_CONFIG)) == cfg.grange &&
      Peek(r.bus.regs, dev, ACCEL_CONFIG) == RangeByte(Peek(s.regs, dev, ACCEL_CONFIG), cfg.arange)
  {
    PassesStep(s.script, 8);
    var w1 := ResetTxn(s, dev);
    WriteRegKeepsOthers(s, dev, PWR_MGMT_1, H_RESET, 100);
    DefaultConfigAllPass(w1.bus, dev, 4);
    RangeStepsAllPass(DefaultConfigTxn(w1.bus, dev).bus, dev, cfg);
    FilterBytesLeaveRangeClear(cfg.grange);
  }

  /** A run is its first step followed, when that step succeeds, by the run of the rest. */
  lemma RunStepsUnfold(s: BusState, dev: Byte, steps: seq<Step>, cfg: Config)
    requires steps != []
    ensures var r := StepTxn(s, dev, steps[0], cfg);
      RunSteps(s, dev, steps, cfg) == if r.ok then RunSteps(r.bus, dev, steps[1..], r.cfg) else r
  {
  }

  /** A run whose first step is a register write. */
  lemma WriteRegRun(s: BusState, dev: Byte, steps: seq<Step>, cfg: Config, reg: Byte, value: Byte, d: nat)
    requires steps != [] && steps[0] == WriteReg(reg, value, d)
    ensures var w := WriteRegTxn(s, dev, reg, value, d);
      RunSteps(s, dev, steps, cfg) == if w.ok then RunSteps(w.bus, dev, steps[1..], cfg) else StepReply(w.bus, false, cfg)
  {
  }

  /** The default configuration, run as four plan steps. */
  lemma {:induction false} DefaultConfigRun(s: BusState, dev: Byte, steps: seq<Step>, cfg: Config)
    requires |steps| >= 4
    requires steps[..4] == [WriteReg(PWR_MGMT_1, CLKSEL, 200), WriteReg(ACCEL_CONFIG2, ACCEL_FCHOICE_B, 0),
                            WriteReg(GYRO_CONFIG, GYRO_FCHOICE_B, 0), WriteReg(INT_PIN_CFG, BYPASS_EN, 0)]
    ensures var w := DefaultConfigTxn(s, dev);
      RunSteps(s, dev, steps, cfg) == if w.ok then RunSteps(w.bus, dev, steps[4..], cfg) else StepReply(w.bus, false, cfg)
  {
    assert steps[0] == steps[..4][0];
    WriteRegRun(s, dev, steps, cfg, PWR_MGMT_1, CLKSEL, 200);
    var w2 := WriteRegTxn(s, dev, PWR_MGMT_1, CLKSEL, 200);
    assert steps[1..][0] == steps[..4][1];
    WriteRegRun(w2.bus, dev, steps[1..], cfg, ACCEL_CONFIG2, ACCEL_FCHOICE_B, 0);
    var w3 := WriteRegTxn(w2.bus, dev, ACCEL_CONFIG2, ACCEL_FCHOICE_B, 0);
    assert steps[2..][0] == steps[..4][2] && steps[1..][1..] == steps[2..];
    WriteRegRun(w3.bus, dev, steps[2..], cfg, GYRO_CONFIG, GYRO_FCHOICE_B, 0);
    var w4 := WriteRegTxn(w3.bus, dev, GYRO_CONFIG, GYRO_FCHOICE_B, 0);
    assert steps[3..][0] == steps[..4][3] && steps[2..][1..] == steps[3..] && steps[3..][1..] == steps[4..];
    WriteRegRun(w4.bus, dev, steps[3..], cfg, INT_PIN_CFG, BYPASS_EN, 0);
  }

  /** `initialize` as written is the run of its seven-step plan, so it too stops at the first failing step. */
  lemma {:induction false} InitializeRunsPlan(s: BusState, dev: Byte, cfg: Config)
    ensures InitializeTxn(s, dev, cfg) == RunSteps(s, dev, InitPlan(cfg.grange, cfg.arange), cfg)
  {
    var plan := InitPlan(cfg.grange, cfg.arange);
    WriteRegRun(s, dev, plan, cfg, PWR_MGMT_1, H_RESET, 100);
    var w1 := ResetTxn(s, dev);
    DefaultConfigRun(w1.bus, dev, plan[1..], cfg);
    assert plan[1..][4..] == [GyroRange(cfg.grange), AccelRange(cfg.arange)];
    RangeStepsRun(DefaultConfigTxn(w1.bus, dev).bus, dev, cfg);
  }

  /** The two range setters, run as plan steps. */
  lemma {:induction false} RangeStepsRun(s: BusState, dev: Byte, cfg: Config)
    ensures var g := GyroRangeStep(s, dev, cfg.grange, cfg);
      RunSteps(s, dev, [GyroRange(cfg.grange), AccelRange(cfg.arange)], cfg)
      == if !g.ok then g else AccelRangeStep(g.bus, dev, cfg.arange, g.cfg)
  {
    var steps := [GyroRange(cfg.grange), AccelRange(cfg.arange)];
    var g := GyroRangeStep(s, dev, cfg.grange, cfg);
    RunStepsUnfold(s, dev, steps, cfg);
    assert steps[1..] == [AccelRange(cfg.arange)];
    RunStepsUnfold(g.bus, dev, steps[1..], g.cfg);
    assert steps[1..][1..] == [];
  }

  // ---------------------------------------------------------------------
  // Samples (`readRawGyro`, `readRawAccel`)
  // ---------------------------------------------------------------------

  /** Three axes sent high byte first: the sign of each comes from its first byte. */
  function DecodeTriple(data: seq<Byte>): (t: Triple)
    requires |data| == 6
    ensures t.x < 0 <==> data[0] >= 0x80
    ensures t.y < 0 <==> data[2] >= 0x80
    ensures t.z < 0 <==> data[4] >= 0x80
  {
    Triple(Int16Of(data[0], data[1]), Int16Of(data[2], data[3]), Int16Of(data[4], data[5]))
  }

  /** The six bytes a device sends for a sample. */
  function EncodeTriple(t: Triple): (data: seq<Byte>)
    ensures |data| == 6
  {
    [HighByte(t.x), LowByte(t.x), HighByte(t.y), LowByte(t.y), HighByte(t.z), LowByte(t.z)]
  }

  lemma {:induction false} DecodeEncodeTriple(t: Triple)
    ensures DecodeTriple(EncodeTriple(t)) == t
  {
    DecodeEncode(t.x);
    DecodeEncode(t.y);
    DecodeEncode(t.z);
  }

  lemma {:induction false} EncodeDecodeTriple(data: seq<Byte>)
    requires |data| == 6
    ensures EncodeTriple(DecodeTriple(data)) == data
  {
    EncodeDecode(data[0], data[1]);
    EncodeDecode(data[2], data[3]);
    EncodeDecode(data[4], data[5]);
  }

  /** A 6-byte burst from the sample's first register, decoded. */
  function TripleTxn(s: BusState, dev: Byte, reg: Byte): (r: TripleReply)
    ensures r.bus.regs == s.regs
    ensures r.ok <==> Next(s.script).Pass?
    ensures r.ok ==> EncodeTriple(r.sample) == Burst(s.regs, dev, reg, 6)
    ensures r.bus.trace == s.trace + [Read(dev, reg, 6, r.ok)]
  {
    var rd := ReadTxn(s, dev, reg, 6);
    if rd.ok then
      EncodeDecodeTriple(rd.data);
      TripleReply(rd.bus, true, DecodeTriple(rd.data))
    else TripleReply(rd.bus, false, Triple(0, 0, 0))
  }

  /** A gyroscope sample read in register terms: each axis is the signed value of its `_OUT_H`/`_OUT_L` pair. */
  lemma {:induction false} GyroSampleRegisters(s: BusState, dev: Byte)
    requires Next(s.script).Pass?
    ensures TripleTxn(s, dev, GYRO_XOUT_H).sample ==
      Triple(Int16Of(Peek(s.regs, dev, GYRO_XOUT_H), Peek(s.regs, dev, GYRO_XOUT_L)),
             Int16Of(Peek(s.regs, dev, GYRO_YOUT_H), Peek(s.regs, dev, GYRO_YOUT_L)),
             Int16Of(Peek(s.regs, dev, GYRO_ZOUT_H), Peek(s.regs, dev, GYRO_ZOUT_L)))
  {
    SampleLayout();
    var b := Burst(s.regs, dev, GYRO_XOUT_H, 6);
    assert b[0] == Peek(s.regs, dev, GYRO_XOUT_H) && b[1] == Peek(s.regs, dev, GYRO_XOUT_L);
    assert b[2] == Peek(s.regs, dev, GYRO_YOUT_H) && b[3] == Peek(s.regs, dev, GYRO_YOUT_L);
    assert b[4] == Peek(s.regs, dev, GYRO_ZOUT_H) && b[5] == Peek(s.regs, dev, GYRO_ZOUT_L);
    assert TripleTxn(s, dev, GYRO_XOUT_H).sample == DecodeTriple(b);
  }

  /** An accelerometer sample read in register terms: each axis is the signed value of its `_OUT_H`/`_OUT_L` pair. */
  lemma {:induction false} AccelSampleRegisters(s: BusState, dev: Byte)
    requires Next(s.script).Pass?
    ensures TripleTxn(s, dev, ACCEL_XOUT_H).sample ==
      Triple(Int16Of(Peek(s.regs, dev, ACCEL_XOUT_H), Peek(s.regs, dev, ACCEL_XOUT_L)),
             Int16Of(Peek(s.regs, dev, ACCEL_YOUT_H), Peek(s.regs, dev, ACCEL_YOUT_L)),
             Int16Of(Peek(s.regs, dev, ACCEL_ZOUT_H), Peek(s.regs, dev, ACCEL_ZOUT_L)))
  {
    SampleLayout();
    var b := Burst(s.regs, dev, ACCEL_XOUT_H, 6);
    assert b[0] == Peek(s.regs, dev, ACCEL_XOUT_H) && b[1] == Peek(s.regs, dev, ACCEL_XOUT_L);
    assert b[2] == Peek(s.regs, dev, ACCEL_YOUT_H) && b[3] == Peek(s.regs, dev, ACCEL_YOUT_L);
    assert b[4] == Peek(s.regs, dev, ACCEL_ZOUT_H) && b[5] == Peek(s.regs, dev, ACCEL_ZOUT_L);
    assert TripleTxn(s, dev, ACCEL_XOUT_H).sample == DecodeTriple(b);
  }

  /** `getWhoAmI`: the WHO_AM_I byte, or the previously read one when the read fails. */
  function WhoAmITxn(s: BusState, dev: Byte, device: Byte): (r: (BusState, Byte))
    ensures r.0.regs == s.regs
    ensures r.1 == if Next(s.script).Pass? then Peek(s.regs, dev, WHO_A_MI) else device
  {
    var rd := ReadTxn(s, dev, WHO_A_MI, 1);
    (rd.bus, if rd.ok then rd.data[0] else device)
  }

  // ---------------------------------------------------------------------
  // The driver object
  // ---------------------------------------------------------------------

  class MPU9250 {
    const address: Byte
    var device: Byte
    var grange: Byte
    var arange: Byte
    var gRes: real
    var aRes: real
    var com: Com?

    function Cfg(): Config
      reads this
    {
      Config(grange, gRes, arange, aRes)
    }

    constructor (address: Byte)
      ensures this.address == address && com == null && device == INITIAL_DEVICE
      ensures Cfg() == Config(DEFAULT_GRANGE, 250.0 / 32768.0, DEFAULT_ARANGE, 2.0 / 32768.0)
    {
      this.address := address;
      device := INITIAL_DEVICE;
      grange, arange := DEFAULT_GRANGE, DEFAULT_ARANGE;
      gRes := GyroResolution(DEFAULT_GRANGE);
      aRes := AccelResolution(DEFAULT_ARANGE);
      com := null;
    }

    method AttachInterface(c: Com?)
      modifies this`com
      ensures com == c
    {
      com := c;
    }

    /** `_readBytes`: fails without a bus. */
    method ReadBytes(reg: Byte, size: nat) returns (ok: bool, data: seq<Byte>)
      requires size < 256
      modifies com
      ensures |data| == size
      ensures com == null ==> !ok
      ensures com != null ==> ReadReply(com.State(), ok, data) == ReadTxn(old(com.State()), address, reg, size)
    {
      if com == null {
        return false, seq(size, _ => 0);
      }
      ok, data := com.ReadCom(address, reg, size);
    }

    /** `_writeBytes`: fails without a bus. */
    method WriteBytes(reg: Byte, data: seq<Byte>) returns (ok: bool)
      modifies com
      ensures com == null ==> !ok
      ensures com != null ==> WriteReply(com.State(), ok) == WriteTxn(old(com.State()), address, reg, data)
    {
      if com == null {
        return false;
      }
      ok := com.WriteCom(address, reg, data);
    }

    /** `_writeByte`: a one-byte `_writeBytes`. */
    method WriteByte(reg: Byte, value: Byte) returns (ok: bool)
      modifies com
      ensures com == null ==> !ok
      ensures com != null ==> WriteReply(com.State(), ok) == WriteRegTxn(old(com.State()), address, reg, value, 0)
    {
      ok := WriteBytes(reg, [value]);
    }

    /** The attached delay routine. */
    method Delay(us: nat)
      modifies com
      ensures com != null ==> com.State() == DelayTxn(old(com.State()), us)
    {
      if com != null {
        com.Delay(us);
      }
    }

    /** `getBaseGyroRange`: the resolution of a code, cached in `gRes` unless the code is outside the table. */
    method GetBaseGyroRange(code: Byte) returns (res: real)
      modifies this`gRes
      ensures res == GyroResolution(code)
      ensures gRes == if code < 4 then res else old(gRes)
    {
      if code == GYRO_RANGE_250DPS {
        gRes := 250.0 / BASE;
        return gRes;
      } else if code == GYRO_RANGE_500DPS {
        gRes := 500.0 / BASE;
        return gRes;
      } else if code == GYRO_RANGE_1000DPS {
        gRes := 1000.0 / BASE;
        return gRes;
      } else if code == GYRO_RANGE_2000DPS {
        gRes := 2000.0 / BASE;
        return gRes;
      }
      return 0.0;
    }

    /** `getBaseAccelRange`: the resolution of a code, cached in `aRes` unless the code is outside the table. */
    method GetBaseAccelRange(code: Byte) returns (res: real)
      modifies this`aRes
      ensures res == AccelResolution(code)
      ensures aRes == if code < 4 then res else old(aRes)
    {
      if code == ACCEL_RANGE_2G {
        aRes := 2.0 / BASE;
        return aRes;
      } else if code == ACCEL_RANGE_4G {
        aRes := 4.0 / BASE;
        return aRes;
      } else if code == ACCEL_RANGE_8G {
        aRes := 8.0 / BASE;
        return aRes;
      } else if code == ACCEL_RANGE_16G {
        aRes := 16.0 / BASE;
        return aRes;
      }
      return 0.0;
    }

    method SetGyroRange(code: Byte) returns (ok: bool)
      modifies this`grange, this`gRes, com
      ensures com == null ==> !ok && Cfg() == old(Cfg())
      ensures com != null ==>
        var r := GyroRangeStep(old(com.State()), address, code, old(Cfg()));
        com.State() == r.bus && ok == r.ok && Cfg() == r.cfg
    {
      var readOk, data := ReadBytes(GYRO_CONFIG, 1);
      if readOk {
        var writeOk := WriteBytes(GYRO_CONFIG, [RangeByte(data[0], code)]);
        if writeOk {
          grange := code;
          gRes := GetBaseGyroRange(code);
          return true;
        }
      }
      return false;
    }

    method SetAccelRange(code: Byte) returns (ok: bool)
      modifies this`arange, this`aRes, com
      ensures com == null ==> !ok && Cfg() == old(Cfg())
      ensures com != null ==>
        var r := AccelRangeStep(old(com.State()), address, code, old(Cfg()));
        com.State() == r.bus && ok == r.ok && Cfg() == r.cfg
    {
      var readOk, data := ReadBytes(ACCEL_CONFIG, 1);
      if readOk {
        var writeOk := WriteBytes(ACCEL_CONFIG, [RangeByte(data[0], code)]);
        if writeOk {
          arange := code;
          aRes := GetBaseAccelRange(code);
          return true;
        }
      }
      return false;
    }

    method GetGyroRange() returns (code: Byte)
      ensures code == grange
    {
      code := grange;
    }

    method GetAccelRange() returns (code: Byte)
      ensures code == arange
    {
      code := arange;
    }

    method Reset() returns (ok: bool)
      modifies com
      ensures com == null ==> !ok
      ensures com != null ==> WriteReply(com.State(), ok) == ResetTxn(old(com.State()), address)
    {
      ok := WriteByte(PWR_MGMT_1, H_RESET);
      Delay(100);
    }

    method Initialize() returns (ok: bool)
      modifies this`grange, this`gRes, this`arange, this`aRes, com
      ensures com == null ==> !ok && Cfg() == old(Cfg())
      ensures com != null ==>
        var r := InitializeTxn(old(com.State()), address, old(Cfg()));
        com.State() == r.bus && ok == r.ok && Cfg() == r.cfg
    {
      ok := Reset();
      if !ok {
        return false;
      }
      ok := WriteDefaultConfig();
      if !ok {
        return false;
      }
      ok := SetGyroRange(grange);
      if !ok {
        return false;
      }
      ok := SetAccelRange(arange);
      if !ok {
        return false;
      }
      return true;
    }

    /** Steps 2 to 5 of `initialize`. */
    method WriteDefaultConfig() returns (ok: bool)
      modifies com
      ensures com == null ==> !ok
      ensures com != null ==> WriteReply(com.State(), ok) == DefaultConfigTxn(old(com.State()), address)
    {
      ok := WriteByte(PWR_MGMT_1, CLKSEL);
      Delay(200);
      if !ok {
        return false;
      }
      ok := WriteByte(ACCEL_CONFIG2, ACCEL_FCHOICE_B);
      if !ok {
        return false;
      }
      ok := WriteByte(GYRO_CONFIG, GYRO_FCHOICE_B);
      if !ok {
        return false;
      }
      ok := WriteByte(INT_PIN_CFG, BYPASS_EN);
    }

    method GetWhoAmI() returns (id: Byte)
      modifies this`device, com
      ensures com == null ==> id == device == old(device)
      ensures com != null ==>
        var r := WhoAmITxn(old(com.State()), address, old(device));
        com.State() == r.0 && id == device == r.1
    {
      var ok, data := ReadBytes(WHO_A_MI, 1);
      if ok {
        device := data[0];
      }
      id := device;
    }

    /** `readRawGyro`/`readRawAccel`: on success the sample goes to `out`; on failure `out` is untouched. */
    method ReadRawTriple(reg: Byte, out: array<Int16>) returns (ok: bool)
      requires out.Length == 3
      modifies com, out
      ensures com == null ==> !ok && out[..] == old(out[..])
      ensures com != null ==>
        var r := TripleTxn(old(com.State()), address, reg);
        com.State() == r.bus && ok == r.ok &&
        out[..] == if r.ok then [r.sample.x, r.sample.y, r.sample.z] else old(out[..])
    {
      var rawData;
      ok, rawData := ReadBytes(reg, 6);
      if ok {
        out[0] := Int16Of(rawData[0], rawData[1]);
        out[1] := Int16Of(rawData[2], rawData[3]);
        out[2] := Int16Of(rawData[4], rawData[5]);
        assert out[..] == [out[0], out[1], out[2]];
      }
    }

    method ReadRawGyro(gyr: array<Int16>) returns (ok: bool)
      requires gyr.Length == 3
      modifies com, gyr
      ensures com == null ==> !ok && gyr[..] == old(gyr[..])
      ensures com != null ==>
        var r := TripleTxn(old(com.State()), address, GYRO_XOUT_H);
        com.State() == r.bus && ok == r.ok &&
        gyr[..] == if r.ok then [r.sample.x, r.sample.y, r.sample.z] else old(gyr[..])
    {
      ok := ReadRawTriple(GYRO_XOUT_H, gyr);
    }

    method ReadRawAccel(acc: array<Int16>) returns (ok: bool)
      requires acc.Length == 3
      modifies com, acc
      ensures com == null ==> !ok && acc[..] == old(acc[..])
      ensures com != null ==>
        var r := TripleTxn(old(com.State()), address, ACCEL_XOUT_H);
        com.State() == r.bus && ok == r.ok &&
        acc[..] == if r.ok then [r.sample.x, r.sample.y, r.sample.z] else old(acc[..])
    {
      ok := ReadRawTriple(ACCEL_XOUT_H, acc);
    }

    method GetDataGyroRaw(data: array<Int16>) returns (ok: bool)
      requires data.Length == 3
      modifies com, data
      ensures com == null ==> !ok && data[..] == old(data[..])
      ensures com != null ==>
        var r := TripleTxn(old(com.State()), address, GYRO_XOUT_H);
        com.State() == r.bus && ok == r.ok &&
        data[..] == if r.ok then [r.sample.x, r.sample.y, r.sample.z] else old(data[..])
    {
      ok := ReadRawGyro(data);
    }

    method GetDataAccRaw(data: array<Int16>) returns (ok: bool)
      requires data.Length == 3
      modifies com, data
      ensures com == null ==> !ok && data[..] == old(data[..])
      ensures com != null ==>
        var r := TripleTxn(old(com.State()), address, ACCEL_XOUT_H);
        com.State() == r.bus && ok == r.ok &&
        data[..] == if r.ok then [r.sample.x, r.sample.y, r.sample.z] else old(data[..])
    {
      ok := ReadRawAccel(data);
    }

    /** The device is polled without a data-ready check: always ready. */
    method IsDataGyroReady() returns (ready: bool)
      ensures ready
    {
      ready := true;
    }

    method IsDataAccReady() returns (ready: bool)
      ensures ready
    {
      ready := true;
    }
  }
}
