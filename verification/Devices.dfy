/**
  The sensor and motor drivers. The three sensor drivers differ in their pin; the
  motor hangs on pin 9, in the same set/clear words as the display.
 */
module Devices {
  import opened Gpio
  import opened FunctionSelect
  import Debounce

  const MOTOR_PIN: nat := 9

  predicate IsSensor(d: Device) {
    d == Sens1 || d == Sens2 || d == Sens3
  }

  function SensorPin(d: Device): nat
    requires IsSensor(d)
  {
    if d == Sens1 then 18 else if d == Sens2 then 7 else 8
  }

  /** Opening a sensor makes the pin that it is read from an input and keeps the function of every other pin. */
  lemma SensorOpens(d: Device, w: Setup, p: nat)
    requires IsSensor(d) && p < 30
    ensures Mode(Open(d, w), p) == if p == SensorPin(d) then INPUT else Mode(w, p)
  {
    if d == Sens1 {
      ClearThenOrIsFieldUpdate(w.f1, 8, INPUT);
    } else {
      ClearThenOrIsFieldUpdate(w.f0, SensorPin(d), INPUT);
    }
  }

  /** Opening the motor makes pin 9 an output, and no other pin. */
  lemma MotorOpens(w: Setup, p: nat)
    requires p < 30
    ensures Mode(Open(Motor, w), p) == if p == 9 then OUTPUT else Mode(w, p)
  {
    ClearThenOrIsFieldUpdate(w.f0, 9, OUTPUT);
  }

  class SensorDriver {
    const device: Device
    const regs: Registers
    var usage: nat
    var tmpBuf: nat
    ghost var samples: seq<bool>

    ghost predicate Valid()
      reads this, regs
    {
      && regs.Valid() && IsSensor(device)
      && tmpBuf <= 1
      && (samples != [] ==> (tmpBuf == 1 <==> samples[|samples| - 1]))
    }

    constructor (device: Device, regs: Registers)
      requires IsSensor(device) && regs.Valid()
      ensures Valid() && this.device == device && this.regs == regs && usage == 0 && samples == []
    {
      this.device := device;
      this.regs := regs;
      usage, tmpBuf := 0, 0;
      samples := [];
    }

    method Open() returns (ok: bool)
      requires Valid()
      modifies this`usage, regs`fsel
      ensures Valid()
      ensures ok == (old(usage) == 0) && usage == if ok then 1 else old(usage)
      ensures regs.Words() == if ok then FunctionSelect.Open(device, old(regs.Words())) else old(regs.Words())
    {
      if usage != 0 {
        return false;
      }
      usage := 1;
      var word, field := SensorPin(device) / 10, SensorPin(device) % 10;
      regs.fsel := regs.fsel[word := regs.fsel[word] - Ones(3 * field, 3)];
      regs.fsel := regs.fsel[word := regs.fsel[word] + CodeAt(field, INPUT)];
      return true;
    }

    /**
      One sample of the pin. For the thread that counts, every read moves the debounce
      rule on by exactly the sample it returns.
     */
    method Read() returns (sample: nat)
      requires Valid()
      modifies this`tmpBuf, this`samples
      ensures Valid()
      ensures samples == old(samples) + [SensorPin(device) in regs.level]
      ensures sample == tmpBuf
      ensures Debounce.Scan(samples) == Debounce.Sampled(Debounce.Scan(old(samples)), sample == 1)
    {
      var high := SensorPin(device) in regs.level;
      Debounce.ScanSnoc(samples, high);
      sample := if high then 1 else 0;
      tmpBuf := sample;
      samples := samples + [high];
    }
  }

  /** The register writes of a one-byte write to the motor. */
  function MotorOps(data: nat): seq<RegOp> {
    if data == 1 then [SetPins({MOTOR_PIN})]
    else if data == 0 then [ClearPins({MOTOR_PIN})]
    else []
  }

  /**
    The driver writes with `|=`, so it also writes back whatever the set or clear word
    reads as. With `stray` read back, the motor write does its job and touches no other
    pin exactly when the stray bits name only pins that already are in the written state.
   */
  lemma MotorWriteIsClean(latch: Word, stray: Word, on: bool)
    ensures Apply(latch, if on then SetPins(stray + {MOTOR_PIN}) else ClearPins(stray + {MOTOR_PIN}))
         == Apply(latch, if on then SetPins({MOTOR_PIN}) else ClearPins({MOTOR_PIN}))
       <==> forall p | p in stray - {MOTOR_PIN} :: (p in latch <==> on)
  {
    var l := Apply(latch, if on then SetPins(stray + {MOTOR_PIN}) else ClearPins(stray + {MOTOR_PIN}));
    var m := Apply(latch, if on then SetPins({MOTOR_PIN}) else ClearPins({MOTOR_PIN}));
    if l == m {
      forall p | p in stray - {MOTOR_PIN}
        ensures p in latch <==> on
      {
        assert p in l <==> p in m;
      }
    } else {
      var p :| (p in l && p !in m) || (p in m && p !in l);
      assert p in stray - {MOTOR_PIN} && !(p in latch <==> on);
    }
  }

  class MotorDriver {
    const regs: Registers
    var usage: nat

    ghost predicate Valid()
      reads this, regs
    {
      regs.Valid()
    }

    constructor (regs: Registers)
      requires regs.Valid()
      ensures Valid() && this.regs == regs && usage == 0
    {
      this.regs := regs;
      usage := 0;
    }

    method Open() returns (ok: bool)
      requires Valid()
      modifies this`usage, regs`fsel
      ensures Valid()
      ensures ok == (old(usage) == 0) && usage == if ok then 1 else old(usage)
      ensures regs.Words() == if ok then FunctionSelect.Open(Motor, old(regs.Words())) else old(regs.Words())
    {
      if usage != 0 {
        return false;
      }
      usage := 1;
      regs.fsel := regs.fsel[0 := regs.fsel[0] - Ones(27, 3)];
      regs.fsel := regs.fsel[0 := regs.fsel[0] + CodeAt(9, OUTPUT)];
      return true;
    }

    /** 1 switches the motor on, 0 off, any other byte does nothing. */
    method Write(data: nat)
      requires Valid()
      modifies regs`latch, regs`writes
      ensures Valid()
      ensures regs.writes == old(regs.writes) + MotorOps(data)
      ensures regs.latch == ApplyAll(old(regs.latch), MotorOps(data))
      ensures regs.latch - {MOTOR_PIN} == old(regs.latch) - {MOTOR_PIN}
      ensures data <= 1 ==> (MOTOR_PIN in regs.latch <==> data == 1)
    {
      if data == 1 {
        ApplySnoc(regs.latch, [], SetPins({MOTOR_PIN}));
        assert [] + [SetPins({MOTOR_PIN})] == [SetPins({MOTOR_PIN})];
        regs.WriteSet({9});
      }
      if data == 0 {
        ApplySnoc(regs.latch, [], ClearPins({MOTOR_PIN}));
        assert [] + [ClearPins({MOTOR_PIN})] == [ClearPins({MOTOR_PIN})];
        regs.WriteClear({9});
      }
    }
  }
}
