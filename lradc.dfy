/** LRADC driver: the low-rate ADC's control word holds seven multi-bit
    fields, a hold-on bit and an enable bit; two data words hold the
    conversion results of channels 0 and 1. */
module Lradc {
  import Bits
  import Errno
  import RegisterWindow

  /** Physical address of the LRADC registers. */
  const IO_BASE: bv32 := 0x01c22800
  /** `sizeof(struct sunxi_lradc_reg)`: ctrl, intc, ints and data[2]. */
  const REG_SIZE: bv32 := 20

  /** Channel codes: `SUNXI_LRADC_CH0`, `_CH1` and `_CH0_CH1`. */
  const CH0: bv32 := 0
  const CH1: bv32 := 1
  const CH0_CH1: bv32 := 2

  /** `SUNXI_LRADC_KEY_MODE_CONTINUE`; `_NORMAL` is 0 and `_SINGLE` 1. */
  const KEY_MODE_CONTINUE: bv32 := 2

  /** `SUNXI_LRADC_HOLD_ON_DISABLE` */
  const HOLD_ON_DISABLE: bv32 := 0
  /** `SUNXI_LRADC_HOLD_ON` is bit 6 and `SUNXI_LRADC_EN` bit 0. */
  const HOLD_ON_BIT: bv32 := 6
  const EN_BIT: bv32 := 0

  /** The multi-bit fields of `ctrl`, one per setter. */
  datatype CtrlField =
    | FirstConvertDelay   // bits 24-31, `sunxi_lradc_set_first_convert_delay`
    | Channel             // bits 22-23, `sunxi_lradc_set_channel`
    | ContinueTime        // bits 16-19, `sunxi_lradc_set_continue_time_select`
    | KeyMode             // bits 12-13, `sunxi_lradc_set_key_mode`
    | LevelABCount        // bits 8-11, `sunxi_lradc_set_level_a_b_cnt`
    | LevelBVolt          // bits 4-5, `sunxi_lradc_set_level_b_volt`
    | SampleRate          // bits 2-3, `sunxi_lradc_set_sample_rate`

  /** The field's macro applied to `v`: `v` shifted to the field's lowest bit.
      Bits shifted past bit 31 are lost, as in C. */
  function FieldBits(f: CtrlField, v: bv32): bv32 {
    match f
    case FirstConvertDelay => v << 24
    case Channel => v << 22
    case ContinueTime => v << 16
    case KeyMode => v << 12
    case LevelABCount => v << 8
    case LevelBVolt => v << 4
    case SampleRate => v << 2
  }

  /** The argument the setter passes to the macro to clear the field: the
      field's largest value, a run of low ones. */
  function Max(f: CtrlField): (m: bv32)
    ensures m != 0 && m & (m + 1) == 0
  {
    match f
    case FirstConvertDelay => 255
    case Channel => 3
    case ContinueTime => 15
    case KeyMode => 3
    case LevelABCount => 15
    case LevelBVolt => 3
    case SampleRate => 3
  }

  /** The bits the setter clears. */
  function Mask(f: CtrlField): bv32 {
    FieldBits(f, Max(f))
  }

  /** The field's current value, at most the field's largest value. */
  function Value(ctrl: bv32, f: CtrlField): (v: bv32)
    ensures v <= Max(f)
  {
    match f
    case FirstConvertDelay => (ctrl >> 24) & 255
    case Channel => (ctrl >> 22) & 3
    case ContinueTime => (ctrl >> 16) & 15
    case KeyMode => (ctrl >> 12) & 3
    case LevelABCount => (ctrl >> 8) & 15
    case LevelBVolt => (ctrl >> 4) & 3
    case SampleRate => (ctrl >> 2) & 3
  }

  /** `ctrl` after a setter wrote `v` into field `f`:
      `ctrl &= ~MACRO(max); ctrl |= MACRO(v);` */
  function SetWord(ctrl: bv32, f: CtrlField, v: bv32): bv32 {
    Bits.Update(ctrl, Mask(f), FieldBits(f, v))
  }

  /** `ctrl` after `sunxi_lradc_set_hold_on(hold)`. */
  function HoldOnWord(ctrl: bv32, hold: bv32): bv32 {
    if hold == HOLD_ON_DISABLE then Bits.ClearBit(ctrl, HOLD_ON_BIT) else Bits.SetBit(ctrl, HOLD_ON_BIT)
  }

  /** The nine groups of bits the driver writes in `ctrl`: the seven
      fields, the hold-on bit and the enable bit. */
  datatype CtrlGroup = FieldGroup(f: CtrlField) | HoldOnGroup | EnableGroup

  /** The bits of a group. */
  function GroupMask(g: CtrlGroup): bv32 {
    match g
    case FieldGroup(f) => Mask(f)
    case HoldOnGroup => Bits.Bit(HOLD_ON_BIT)
    case EnableGroup => Bits.Bit(EN_BIT)
  }

  /** The nine groups are pairwise disjoint. */
  lemma MasksDisjoint(g: CtrlGroup, h: CtrlGroup)
    requires g != h
    ensures GroupMask(g) & GroupMask(h) == 0
  {
  }

  /** An argument up to the field's maximum stays inside the field. */
  lemma InRangeFits(f: CtrlField, v: bv32)
    requires v <= Max(f)
    ensures Bits.Within(FieldBits(f, v), Mask(f))
  {
  }

  /** An in-range setter stores its argument in the field and leaves every
      other bit of `ctrl` unchanged. */
  lemma SetterInRange(ctrl: bv32, f: CtrlField, v: bv32)
    requires v <= Max(f)
    ensures Value(SetWord(ctrl, f, v), f) == v
    ensures SetWord(ctrl, f, v) & !Mask(f) == ctrl & !Mask(f)
  {
    SetterStores(ctrl, f, v);
    SetterKeepsMask(ctrl, f, v);
  }

  lemma SetterKeepsMask(ctrl: bv32, f: CtrlField, v: bv32)
    requires v <= Max(f)
    ensures SetWord(ctrl, f, v) & !Mask(f) == ctrl & !Mask(f)
  {
    InRangeFits(f, v);
    Bits.UpdateKeepsOthers(ctrl, Mask(f), FieldBits(f, v));
  }

  lemma SetterStores(ctrl: bv32, f: CtrlField, v: bv32)
    requires v <= Max(f)
    ensures Value(SetWord(ctrl, f, v), f) == v
  {
  }

  /** Any setter stores the low bits of its argument in the field; the
      high bits are not masked and land in the bits above it. */
  lemma SetterAnyValue(ctrl: bv32, f: CtrlField, v: bv32)
    ensures Value(SetWord(ctrl, f, v), f) == v & Max(f)
    ensures SetWord(ctrl, f, v) & !Mask(f) == (ctrl | FieldBits(f, v)) & !Mask(f)
  {
    SetterStoresLowBits(ctrl, f, v);
    Bits.UpdateSpills(ctrl, Mask(f), FieldBits(f, v));
  }

  lemma SetterStoresLowBits(ctrl: bv32, f: CtrlField, v: bv32)
    ensures Value(SetWord(ctrl, f, v), f) == v & Max(f)
  {
  }

  /** The delay field is the top byte, so the 32-bit shift drops the high
      bits of any delay: it stores the delay modulo 256 and disturbs nothing
      else. */
  lemma DelayModulo(ctrl: bv32, delay: bv32)
    ensures Value(SetWord(ctrl, FirstConvertDelay, delay), FirstConvertDelay) == delay % 256
    ensures SetWord(ctrl, FirstConvertDelay, delay) & !Mask(FirstConvertDelay)
         == ctrl & !Mask(FirstConvertDelay)
  {
    SetterStoresLowBits(ctrl, FirstConvertDelay, delay);
    assert delay & 255 == delay % 256;
    DelayAlwaysFits(delay);
    Bits.UpdateKeepsOthers(ctrl, Mask(FirstConvertDelay), FieldBits(FirstConvertDelay, delay));
  }

  lemma DelayAlwaysFits(delay: bv32)
    ensures Bits.Within(FieldBits(FirstConvertDelay, delay), Mask(FirstConvertDelay))
  {
  }

  /** Writing the same value twice is the same as writing it once. */
  lemma SetterIdempotent(ctrl: bv32, f: CtrlField, v: bv32)
    ensures SetWord(SetWord(ctrl, f, v), f, v) == SetWord(ctrl, f, v)
  {
    Bits.UpdateIdempotent(ctrl, Mask(f), FieldBits(f, v));
  }

  /** In-range setters of different fields commute. */
  lemma SettersCommute(ctrl: bv32, f: CtrlField, v: bv32, g: CtrlField, w: bv32)
    requires f != g && v <= Max(f) && w <= Max(g)
    ensures SetWord(SetWord(ctrl, f, v), g, w) == SetWord(SetWord(ctrl, g, w), f, v)
  {
    WritesCommute(ctrl, WriteField(f, v), WriteField(g, w));
  }

  /** An in-range setter leaves the other fields' values alone. */
  lemma SetterKeepsOtherFields(ctrl: bv32, f: CtrlField, v: bv32, g: CtrlField)
    requires f != g && v <= Max(f)
    ensures Value(SetWord(ctrl, f, v), g) == Value(ctrl, g)
  {
    SetterKeepsMask(ctrl, f, v);
    OutsideAgree(SetWord(ctrl, f, v), ctrl, f, g);
  }

  /** Two words that agree outside field `f` agree on every other field. */
  lemma OutsideAgree(x: bv32, y: bv32, f: CtrlField, g: CtrlField)
    requires f != g && x & !Mask(f) == y & !Mask(f)
    ensures Value(x, g) == Value(y, g)
  {
    MaskAgree(x, y, f, g);
    ValueAgree(x, y, g);
  }

  lemma MaskAgree(x: bv32, y: bv32, f: CtrlField, g: CtrlField)
    requires f != g && x & !Mask(f) == y & !Mask(f)
    ensures x & Mask(g) == y & Mask(g)
  {
    MasksDisjoint(FieldGroup(f), FieldGroup(g));
    Bits.SameOutside(x, y, Mask(f), Mask(g));
  }

  /** A field's value depends only on the bits of its mask. */
  lemma ValueAgree(x: bv32, y: bv32, g: CtrlField)
    requires x & Mask(g) == y & Mask(g)
    ensures Value(x, g) == Value(y, g)
  {
    match g
    case FirstConvertDelay =>
    case Channel =>
    case ContinueTime =>
    case KeyMode =>
    case LevelABCount =>
    case LevelBVolt =>
    case SampleRate =>
  }

  /** Hold-on 0 clears bit 6, anything else sets it; no other bit moves. */
  lemma HoldOnBit(ctrl: bv32, hold: bv32)
    ensures Bits.Test(HoldOnWord(ctrl, hold), HOLD_ON_BIT) <==> hold != HOLD_ON_DISABLE
    ensures HoldOnWord(ctrl, hold) & !Bits.Bit(HOLD_ON_BIT) == ctrl & !Bits.Bit(HOLD_ON_BIT)
  {
    Bits.TestAfterWrite(ctrl, HOLD_ON_BIT);
    Bits.OneBitOnly(ctrl, HOLD_ON_BIT);
  }

  /** One write of the driver to `ctrl`: a field setter, `set_hold_on`,
      `enable` or `disable`. */
  datatype CtrlWrite =
    | WriteField(f: CtrlField, v: bv32)
    | WriteHoldOn(hold: bv32)
    | WriteEnable
    | WriteDisable

  /** The group a write changes. */
  function Target(w: CtrlWrite): CtrlGroup {
    match w
    case WriteField(f, _) => FieldGroup(f)
    case WriteHoldOn(_) => HoldOnGroup
    case _ => EnableGroup
  }

  /** `ctrl` after the write, as the controller's methods compute it. */
  function Apply(ctrl: bv32, w: CtrlWrite): bv32 {
    match w
    case WriteField(f, v) => SetWord(ctrl, f, v)
    case WriteHoldOn(hold) => HoldOnWord(ctrl, hold)
    case WriteEnable => Bits.SetBit(ctrl, EN_BIT)
    case WriteDisable => Bits.ClearBit(ctrl, EN_BIT)
  }

  /** A field setter's argument is at most the field's maximum; the one-bit
      writes are always in range. */
  predicate InRange(w: CtrlWrite) {
    w.WriteField? ==> w.v <= Max(w.f)
  }

  /** The bits a write puts into its group. */
  function NewBits(w: CtrlWrite): bv32 {
    match w
    case WriteField(f, v) => FieldBits(f, v)
    case WriteHoldOn(hold) => if hold == HOLD_ON_DISABLE then 0 else Bits.Bit(HOLD_ON_BIT)
    case WriteEnable => Bits.Bit(EN_BIT)
    case WriteDisable => 0
  }

  /** Every write is a read-modify-write of its own group, and an in-range
      write puts no bit outside it. */
  lemma WriteIsUpdate(ctrl: bv32, w: CtrlWrite)
    ensures Apply(ctrl, w) == Bits.Update(ctrl, GroupMask(Target(w)), NewBits(w))
    ensures InRange(w) ==> Bits.Within(NewBits(w), GroupMask(Target(w)))
  {
    match w
    case WriteField(f, v) => FieldWriteIsUpdate(ctrl, f, v);
    case WriteHoldOn(hold) => HoldOnWriteIsUpdate(ctrl, hold);
    case WriteEnable => EnableWriteIsUpdate(ctrl);
    case WriteDisable => DisableWriteIsUpdate(ctrl);
  }

  lemma FieldWriteIsUpdate(ctrl: bv32, f: CtrlField, v: bv32)
    ensures Apply(ctrl, WriteField(f, v)) == Bits.Update(ctrl, Mask(f), FieldBits(f, v))
    ensures v <= Max(f) ==> Bits.Within(FieldBits(f, v), Mask(f))
  {
    if v <= Max(f) {
      InRangeFits(f, v);
    }
  }

  lemma HoldOnWriteIsUpdate(ctrl: bv32, hold: bv32)
    ensures Apply(ctrl, WriteHoldOn(hold)) == Bits.Update(ctrl, Bits.Bit(HOLD_ON_BIT), NewBits(WriteHoldOn(hold)))
    ensures Bits.Within(NewBits(WriteHoldOn(hold)), Bits.Bit(HOLD_ON_BIT))
  {
    if hold == HOLD_ON_DISABLE {
      Bits.ClearBitIsUpdate(ctrl, HOLD_ON_BIT);
    } else {
      Bits.SetBitIsUpdate(ctrl, HOLD_ON_BIT);
    }
  }

  lemma EnableWriteIsUpdate(ctrl: bv32)
    ensures Apply(ctrl, WriteEnable) == Bits.Update(ctrl, Bits.Bit(EN_BIT), Bits.Bit(EN_BIT))
    ensures Bits.Within(Bits.Bit(EN_BIT), Bits.Bit(EN_BIT))
  {
    Bits.SetBitIsUpdate(ctrl, EN_BIT);
  }

  lemma DisableWriteIsUpdate(ctrl: bv32)
    ensures Apply(ctrl, WriteDisable) == Bits.Update(ctrl, Bits.Bit(EN_BIT), 0)
    ensures Bits.Within(0, Bits.Bit(EN_BIT))
  {
    Bits.ClearBitIsUpdate(ctrl, EN_BIT);
  }

  /** Writes to different groups commute, field setters in range: any two
      of the seven setters, `set_hold_on` and `enable` or `disable`. */
  lemma WritesCommute(ctrl: bv32, a: CtrlWrite, b: CtrlWrite)
    requires Target(a) != Target(b) && InRange(a) && InRange(b)
    ensures Apply(Apply(ctrl, a), b) == Apply(Apply(ctrl, b), a)
  {
    MasksDisjoint(Target(a), Target(b));
    WriteIsUpdate(ctrl, a);
    WriteIsUpdate(ctrl, b);
    WriteIsUpdate(Apply(ctrl, a), b);
    WriteIsUpdate(Apply(ctrl, b), a);
    Bits.UpdatesCommute(ctrl, GroupMask(Target(a)), NewBits(a), GroupMask(Target(b)), NewBits(b));
  }

  /** For each page size of the ARM kernels, the mapping reaches past the
      last register of the block. */
  lemma WindowCoversRegisters(p: bv32)
    requires RegisterWindow.ArmPageSize(p)
    ensures RegisterWindow.Covers(RegisterWindow.BlockWindow(IO_BASE, REG_SIZE, p), REG_SIZE)
  {
    if p == 0x1000 {
      assert RegisterWindow.BlockWindow(IO_BASE, REG_SIZE, p) == RegisterWindow.Window(0x01c22000, 0x800, 0x1000);
    } else if p == 0x4000 {
      assert RegisterWindow.BlockWindow(IO_BASE, REG_SIZE, p) == RegisterWindow.Window(0x01c20000, 0x2800, 0x4000);
    } else {
      assert RegisterWindow.BlockWindow(IO_BASE, REG_SIZE, p) == RegisterWindow.Window(0x01c20000, 0x2800, 0x1_0000);
    }
  }

  /** The LRADC as the library sees it. `initialized` stands for the
      register pointer being non-NULL. */
  class Controller {
    var initialized: bool
    var window: RegisterWindow.Window
    /** `sunxi_lradc_registers->ctrl` */
    var ctrl: bv32
    /** `sunxi_lradc_registers->data` */
    const data: array<bv32>

    predicate Valid() {
      data.Length == 2
    }

    /** Before `sunxi_lradc_init`: the register pointer is NULL. */
    constructor ()
      ensures Valid() && !initialized
      ensures fresh(data)
    {
      initialized := false;
      window := RegisterWindow.Window(0, 0, 0);
      ctrl := 0;
      data := new bv32[2];
    }

    /** `sunxi_lradc_init`: map the pages holding the register block. */
    method Init(pageSize: bv32, access: RegisterWindow.Access) returns (status: int)
      requires RegisterWindow.IsPageSize(pageSize)
      modifies this
      ensures ctrl == old(ctrl)
      ensures access.Mapped? ==> status == 0 && initialized
      ensures access.Mapped? ==> window == RegisterWindow.BlockWindow(IO_BASE, REG_SIZE, pageSize)
      ensures !access.Mapped? ==> status == -(access.errno as int)
      ensures status == 0 <==> access.Mapped?
      ensures !access.Mapped? ==> initialized == old(initialized) && window == old(window)
    {
      if !access.Mapped? {
        return -(access.errno as int);
      }
      window := RegisterWindow.BlockWindow(IO_BASE, REG_SIZE, pageSize);
      initialized := true;
      status := 0;
    }

    /** The seven field setters: `sunxi_lradc_set_first_convert_delay`,
        `_set_channel`, `_set_continue_time_select`, `_set_key_mode`,
        `_set_level_a_b_cnt`, `_set_level_b_volt` and `_set_sample_rate`. */
    method SetField(f: CtrlField, v: bv32) returns (status: int)
      modifies this`ctrl
      ensures !initialized ==> status == -Errno.EPERM && ctrl == old(ctrl)
      ensures initialized ==> status == 0 && ctrl == SetWord(old(ctrl), f, v)
    {
      if !initialized {
        return -Errno.EPERM;
      }
      ctrl := SetWord(ctrl, f, v);
      status := 0;
    }

    /** `sunxi_lradc_set_hold_on(hold)` */
    method SetHoldOn(hold: bv32) returns (status: int)
      modifies this`ctrl
      ensures !initialized ==> status == -Errno.EPERM && ctrl == old(ctrl)
      ensures initialized ==> status == 0 && ctrl == HoldOnWord(old(ctrl), hold)
    {
      if !initialized {
        return -Errno.EPERM;
      }
      if hold == HOLD_ON_DISABLE {
        ctrl := Bits.ClearBit(ctrl, HOLD_ON_BIT);
      } else {
        ctrl := Bits.SetBit(ctrl, HOLD_ON_BIT);
      }
      status := 0;
    }

    /** `sunxi_lradc_read(ch, val)`: `prior` is what `*val` held; it is
        overwritten only on success. */
    method Read(ch: bv32, prior: bv32) returns (status: int, val: bv32)
      requires Valid() && ch < 2
      ensures !initialized ==> status == -Errno.EPERM && val == prior
      ensures initialized ==> status == 0 && val == data[ch]
    {
      if !initialized {
        return -Errno.EPERM, prior;
      }
      val := data[ch];
      status := 0;
    }

    /** `sunxi_lradc_enable` */
    method Enable() returns (status: int)
      modifies this`ctrl
      ensures !initialized ==> status == -Errno.EPERM && ctrl == old(ctrl)
      ensures initialized ==> status == 0 && ctrl == Bits.SetBit(old(ctrl), EN_BIT)
    {
      if !initialized {
        return -Errno.EPERM;
      }
      ctrl := Bits.SetBit(ctrl, EN_BIT);
      status := 0;
    }

    /** `sunxi_lradc_disable` */
    method Disable() returns (status: int)
      modifies this`ctrl
      ensures !initialized ==> status == -Errno.EPERM && ctrl == old(ctrl)
      ensures initialized ==> status == 0 && ctrl == Bits.ClearBit(old(ctrl), EN_BIT)
    {
      if !initialized {
        return -Errno.EPERM;
      }
      ctrl := Bits.ClearBit(ctrl, EN_BIT);
      status := 0;
    }
  }

  /** A fresh controller, initialized, set to continuous key mode and
      enabled: the key-mode field reads back 2 and the enable bit is set. */
  method ContinuousKeyScenario() returns (mode: bv32, enabled: bool)
    ensures mode == KEY_MODE_CONTINUE && enabled
  {
    var lradc := new Controller();
    var status := lradc.Init(0x1000, RegisterWindow.Mapped);
    var before := lradc.ctrl;
    status := lradc.SetField(KeyMode, KEY_MODE_CONTINUE);
    SetterStores(before, KeyMode, KEY_MODE_CONTINUE);
    status := lradc.Enable();
    mode := Value(lradc.ctrl, KeyMode);
    enabled := Bits.Test(lradc.ctrl, EN_BIT);
  }
}
