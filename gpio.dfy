/** GPIO driver: nine banks of 32 pins. Each bank has four configuration
    words holding one 4-bit function slot per pin, and a data word holding
    one level bit per pin. A pin id packs the bank into bits 5 and up and the
    pin's position in its bank into bits 0-4. */
module Gpio {
  import Bits
  import Errno
  import RegisterWindow

  /** Physical address of the pin controller registers. */
  const IO_BASE: bv32 := 0x01c20800
  /** Size in bytes of the register block: nine banks of nine words, 0xbc
      reserved bytes and the six interrupt words. */
  const REG_SIZE: bv32 := 9 * 36 + 0xbc + 24
  const BANKS: bv32 := 9

  /** Pin function codes. */
  const INPUT: bv32 := 0
  const OUTPUT: bv32 := 1
  const PER: bv32 := 2

  // ---------------------------------------------------------------------
  // Pin ids

  /** A port letter of the chip. */
  predicate IsPort(port: char) {
    'A' <= port <= 'I'
  }

  /** `port - 'A'` */
  function PortIndex(port: char): (i: bv32)
    requires IsPort(port)
    ensures i < BANKS
  {
    (port as int - 'A' as int) as bv32
  }

  /** `SUNXI_GPIO_PIN(port, pin)`: `((port - 'A') << 5) + pin`, read with
      the parentheses the macro evidently means. */
  function PinId(port: char, n: bv32): (pin: bv32)
    requires IsPort(port)
    ensures n < 32 ==> Bank(pin) == PortIndex(port) && Num(pin) == n
  {
    (PortIndex(port) << 5) + n
  }

  /** `SUNXI_GPIO_BANK(pin)` */
  function Bank(pin: bv32): (b: bv32)
    ensures pin < 288 ==> b < BANKS
  {
    pin >> 5
  }

  /** `SUNXI_GPIO_NUM(pin)`: the pin's position in its bank. */
  function Num(pin: bv32): (n: bv32)
    ensures n < 32
  {
    pin & 0x1F
  }

  /** `SUNXI_GPIO_CFG_INDEX(pin)`: which of the bank's four configuration words. */
  function CfgIndex(pin: bv32): (i: bv32)
    ensures i < 4
  {
    (pin & 0x1F) >> 3
  }

  /** `SUNXI_GPIO_CFG_OFFSET(pin)`: the bit where the pin's slot starts. */
  function CfgOffset(pin: bv32): (o: bv32)
    ensures o <= 28 && o & 3 == 0
  {
    ((pin & 0x1F) & 0x7) << 2
  }

  /** Which of the eight slots of the configuration word: the offset is four
      times this. */
  function Slot(pin: bv32): (k: bv32)
    ensures k < 8 && CfgOffset(pin) == k << 2
  {
    (pin & 0x1F) & 0x7
  }

  /** Bank, word and slot put back together give the pin id: the decoding
      loses nothing. */
  lemma DecodeRecomposes(pin: bv32)
    ensures (Bank(pin) << 5) | (CfgIndex(pin) << 3) | Slot(pin) == pin
  {
  }

  /** Two pins of one bank never share a configuration slot. */
  lemma SlotsDistinct(p: bv32, q: bv32)
    requires Bank(p) == Bank(q) && Num(p) != Num(q)
    ensures CfgIndex(p) != CfgIndex(q) || CfgOffset(p) != CfgOffset(q)
  {
  }

  /** Pin `n` of a port lies in configuration word `n >> 3` of its bank,
      at slot `n & 7`: eight pins to a word, in order. */
  lemma DecodeEncode(port: char, n: bv32)
    requires IsPort(port) && n < 32
    ensures CfgIndex(PinId(port, n)) == n >> 3
    ensures Slot(PinId(port, n)) == n & 7
  {
  }

  /** The encoding is injective on ports A..I and pins 0..31. */
  lemma EncodeInjective(p1: char, n1: bv32, p2: char, n2: bv32)
    requires IsPort(p1) && IsPort(p2) && n1 < 32 && n2 < 32
    requires PinId(p1, n1) == PinId(p2, n2)
    ensures p1 == p2 && n1 == n2
  {
    assert PortIndex(p1) == PortIndex(p2);
  }

  /** The port letter of bank `b`. */
  function PortName(b: bv32): (port: char)
    requires b < BANKS
    ensures IsPort(port) && PortIndex(port) == b
  {
    if b == 0 then 'A'
    else if b == 1 then 'B'
    else if b == 2 then 'C'
    else if b == 3 then 'D'
    else if b == 4 then 'E'
    else if b == 5 then 'F'
    else if b == 6 then 'G'
    else if b == 7 then 'H'
    else 'I'
  }

  /** Every id below 288 is the encoding of its bank's port letter and its
      number in the bank. */
  lemma EncodeOnto(pin: bv32)
    requires pin < 288
    ensures PinId(PortName(Bank(pin)), Num(pin)) == pin
  {
    var b := Bank(pin);
    assert PortIndex(PortName(b)) == b;
    assert (b << 5) + Num(pin) == pin;
  }

  /** Every encoding of a port letter and a pin number is below 288. */
  lemma EncodeBelow(port: char, n: bv32)
    requires IsPort(port) && n < 32
    ensures PinId(port, n) < 288
  {
  }

  /** The image of the encoding is exactly the ids of the nine banks. */
  lemma EncodeImage(pin: bv32)
    ensures pin < 288 <==> exists port: char, n: bv32 :: IsPort(port) && n < 32 && PinId(port, n) == pin
  {
    if pin < 288 {
      EncodeOnto(pin);
      assert IsPort(PortName(Bank(pin))) && Num(pin) < 32;
    } else {
      forall port: char, n: bv32 | IsPort(port) && n < 32
        ensures PinId(port, n) != pin
      {
        EncodeBelow(port, n);
      }
    }
  }

  // ---------------------------------------------------------------------
  // Configuration slots. The shifts by the slot's offset are written out
  // slot by slot; PlaceIsShift and FieldIsShift show that they are the C
  // shifts by SUNXI_GPIO_CFG_OFFSET.

  /** `v << offset` for the slot `k`. */
  function Place(v: bv32, k: bv32): (w: bv32)
    requires k < 8
    ensures Field(w, k) == v & 0xF
  {
    if k == 0 then v
    else if k == 1 then v << 4
    else if k == 2 then v << 8
    else if k == 3 then v << 12
    else if k == 4 then v << 16
    else if k == 5 then v << 20
    else if k == 6 then v << 24
    else v << 28
  }

  /** `(w >> offset) & 0xf` for the slot `k`. */
  function Field(w: bv32, k: bv32): (v: bv32)
    requires k < 8
    ensures v < 16
  {
    if k == 0 then w & 0xF
    else if k == 1 then (w >> 4) & 0xF
    else if k == 2 then (w >> 8) & 0xF
    else if k == 3 then (w >> 12) & 0xF
    else if k == 4 then (w >> 16) & 0xF
    else if k == 5 then (w >> 20) & 0xF
    else if k == 6 then (w >> 24) & 0xF
    else (w >> 28) & 0xF
  }

  /** `0xf << offset`: the four bits of slot `k`. */
  function SlotMask(k: bv32): bv32
    requires k < 8
  {
    Place(0xF, k)
  }

  lemma PlaceIsShift(v: bv32, pin: bv32)
    ensures Place(v, Slot(pin)) == v << CfgOffset(pin)
  {
  }

  lemma FieldIsShift(w: bv32, pin: bv32)
    ensures Field(w, Slot(pin)) == (w >> CfgOffset(pin)) & 0xF
  {
  }

  /** The configuration word after `set_cfgpin` wrote `val` into slot `k`:
      `cfg &= ~(0xf << offset); cfg |= val << offset;` */
  function CfgWord(w: bv32, k: bv32, val: bv32): bv32
    requires k < 8
  {
    Bits.Update(w, SlotMask(k), Place(val, k))
  }

  /** The slot reads back the low four bits of what was written. */
  lemma CfgReadBack(w: bv32, k: bv32, val: bv32)
    requires k < 8
    ensures Field(CfgWord(w, k, val), k) == val & 0xF
  {
  }

  /** A value above 15 is not masked: its high bits land in the slots
      above, on top of what they held. */
  lemma CfgSpills(w: bv32, k: bv32, val: bv32)
    requires k < 8
    ensures CfgWord(w, k, val) & !SlotMask(k) == (w | Place(val, k)) & !SlotMask(k)
  {
    Bits.UpdateSpills(w, SlotMask(k), Place(val, k));
  }

  /** A value below 16 reads back whole, and every bit outside the slot keeps
      its value. */
  lemma CfgInRange(w: bv32, k: bv32, val: bv32)
    requires k < 8 && val < 16
    ensures Field(CfgWord(w, k, val), k) == val
    ensures CfgWord(w, k, val) & !SlotMask(k) == w & !SlotMask(k)
  {
    CfgReadBack(w, k, val);
    CfgKeepsOthers(w, k, val);
  }

  lemma CfgKeepsOthers(w: bv32, k: bv32, val: bv32)
    requires k < 8 && val < 16
    ensures CfgWord(w, k, val) & !SlotMask(k) == w & !SlotMask(k)
  {
    FitsSlot(k, val);
    Bits.UpdateKeepsOthers(w, SlotMask(k), Place(val, k));
  }

  lemma FitsSlot(k: bv32, val: bv32)
    requires k < 8 && val < 16
    ensures Bits.Within(Place(val, k), SlotMask(k))
  {
  }

  /** The other seven pins of the word read the same after an in-range write. */
  lemma CfgOtherSlots(w: bv32, k: bv32, j: bv32, val: bv32)
    requires k < 8 && j < 8 && j != k && val < 16
    ensures Field(CfgWord(w, k, val), j) == Field(w, j)
  {
  }

  /** Writing the same value twice is the same as writing it once. */
  lemma CfgIdempotent(w: bv32, k: bv32, val: bv32)
    requires k < 8
    ensures CfgWord(CfgWord(w, k, val), k, val) == CfgWord(w, k, val)
  {
    Bits.UpdateIdempotent(w, SlotMask(k), Place(val, k));
  }

  /** The three function codes fit a slot, so selecting any of them
      disturbs no other pin. */
  lemma FunctionCodesKeepOtherPins(w: bv32, k: bv32, code: bv32)
    requires k < 8 && (code == INPUT || code == OUTPUT || code == PER)
    ensures CfgWord(w, k, code) & !SlotMask(k) == w & !SlotMask(k)
    ensures Field(CfgWord(w, k, code), k) == code
  {
    CfgInRange(w, k, code);
  }

  // ---------------------------------------------------------------------
  // Data bits

  /** The data word after `output` wrote `val` to pin `n`. */
  function OutputWord(d: bv32, n: bv32, val: bv32): (w: bv32)
    requires n < 32
    ensures InputValue(w, n) == if val != 0 then 1 else 0
  {
    if val != 0 then Bits.SetBit(d, n) else Bits.ClearBit(d, n)
  }

  /** What `input` returns for pin `n`: `(dat >> num) & 0x1`. */
  function InputValue(d: bv32, n: bv32): (v: int)
    requires n < 32
    ensures v == 0 || v == 1
  {
    if Bits.Test(d, n) then 1 else 0
  }

  /** Reading a pin back after writing it gives 1 exactly when a nonzero
      value was written. */
  lemma InputAfterOutput(d: bv32, n: bv32, val: bv32)
    requires n < 32
    ensures InputValue(OutputWord(d, n, val), n) == (if val != 0 then 1 else 0)
  {
    Bits.TestAfterWrite(d, n);
  }

  /** Writing one pin leaves the other 31 pins of the bank as they were. */
  lemma OutputKeepsOtherPins(d: bv32, n: bv32, m: bv32, val: bv32)
    requires n < 32 && m < 32 && n != m
    ensures InputValue(OutputWord(d, n, val), m) == InputValue(d, m)
  {
    if val != 0 {
      Bits.SetOtherTestsSame(d, n, m);
    } else {
      Bits.ClearOtherTestsSame(d, n, m);
    }
  }

  /** Writing one pin changes no bit of the data word but its own. */
  lemma OutputOneBit(d: bv32, n: bv32, val: bv32)
    requires n < 32
    ensures OutputWord(d, n, val) & !Bits.Bit(n) == d & !Bits.Bit(n)
  {
    if val != 0 {
      Bits.SetKeepsOthers(d, n);
    } else {
      Bits.ClearKeepsOthers(d, n);
    }
  }

  /** Writing the same value twice is the same as writing it once. */
  lemma OutputIdempotent(d: bv32, n: bv32, val: bv32)
    requires n < 32
    ensures OutputWord(OutputWord(d, n, val), n, val) == OutputWord(d, n, val)
  {
    Bits.BitOpsIdempotent(d, n);
  }

  // ---------------------------------------------------------------------
  // The mapped window

  /** For each page size of the ARM kernels, the two mapped pages reach past
      the end of the register block. */
  lemma WindowCoversRegisters(p: bv32)
    requires RegisterWindow.ArmPageSize(p)
    ensures RegisterWindow.Covers(RegisterWindow.TwoPageWindow(IO_BASE, p), REG_SIZE)
  {
  }

  /** The pin controller as the library sees it. `initialized` stands for
      the global base address being non-zero. */
  class Controller {
    var initialized: bool
    var window: RegisterWindow.Window
    /** `gpio_bank[b].cfg[i]` */
    const cfg: array2<bv32>
    /** `gpio_bank[b].dat` */
    const dat: array<bv32>

    predicate Valid() {
      cfg.Length0 == 9 && cfg.Length1 == 4 && dat.Length == 9
    }

    /** Before `sunxi_gpio_init`: the base address is 0. */
    constructor ()
      ensures Valid() && !initialized
      ensures fresh(cfg) && fresh(dat)
    {
      initialized := false;
      window := RegisterWindow.Window(0, 0, 0);
      cfg := new bv32[9, 4];
      dat := new bv32[9];
    }

    /** `sunxi_gpio_init`: map two pages from the page holding the pin
        controller. `access` is how the `open` and `mmap` calls end and
        `pageSize` what `sysconf` returned. */
    method Init(pageSize: bv32, access: RegisterWindow.Access) returns (status: int)
      requires RegisterWindow.IsPageSize(pageSize)
      modifies this
      ensures access.Mapped? ==> status == 0 && initialized
      ensures access.Mapped? ==> window == RegisterWindow.TwoPageWindow(IO_BASE, pageSize)
      ensures !access.Mapped? ==> status == -(access.errno as int)
      ensures status == 0 <==> access.Mapped?
      ensures !access.Mapped? ==> initialized == old(initialized) && window == old(window)
    {
      if !access.Mapped? {
        return -(access.errno as int);
      }
      window := RegisterWindow.TwoPageWindow(IO_BASE, pageSize);
      initialized := true;
      status := 0;
    }

    /** `sunxi_gpio_set_cfgpin(pin, val)` */
    method SetCfgPin(pin: bv32, val: bv32) returns (status: int)
      requires Valid() && pin < 288
      modifies cfg
      ensures !initialized ==> status == -Errno.EPERM && unchanged(cfg)
      ensures initialized ==> status == 0
      ensures initialized ==> cfg[Bank(pin) as int, CfgIndex(pin) as int]
                              == CfgWord(old(cfg[Bank(pin) as int, CfgIndex(pin) as int]), Slot(pin), val)
      ensures forall b, i :: 0 <= b < 9 && 0 <= i < 4 && (b != Bank(pin) as int || i != CfgIndex(pin) as int)
                ==> cfg[b, i] == old(cfg[b, i])
    {
      if !initialized {
        return -Errno.EPERM;
      }
      var bank := Bank(pin) as int;
      var index := CfgIndex(pin) as int;
      var word := cfg[bank, index];
      word := word & !SlotMask(Slot(pin));
      word := word | Place(val, Slot(pin));
      cfg[bank, index] := word;
      status := 0;
    }

    /** `sunxi_gpio_get_cfgpin(pin)` */
    method GetCfgPin(pin: bv32) returns (r: int)
      requires Valid() && pin < 288
      ensures !initialized ==> r == -Errno.EPERM
      ensures initialized ==> r == Field(cfg[Bank(pin) as int, CfgIndex(pin) as int], Slot(pin)) as int
      ensures initialized ==> 0 <= r < 16
    {
      if !initialized {
        return -Errno.EPERM;
      }
      var word := cfg[Bank(pin) as int, CfgIndex(pin) as int];
      FieldIsShift(word, pin);
      word := word >> CfgOffset(pin);
      r := (word & 0xF) as int;
    }

    /** `sunxi_gpio_input(pin)` */
    method Input(pin: bv32) returns (r: int)
      requires Valid() && pin < 288
      ensures !initialized ==> r == -Errno.EPERM
      ensures initialized ==> r == InputValue(dat[Bank(pin) as int], Num(pin))
    {
      if !initialized {
        return -Errno.EPERM;
      }
      var d := dat[Bank(pin) as int];
      d := d >> Num(pin);
      r := (d & 1) as int;
    }

    /** `sunxi_gpio_output(pin, val)` */
    method Output(pin: bv32, val: bv32) returns (status: int)
      requires Valid() && pin < 288
      modifies dat
      ensures !initialized ==> status == -Errno.EPERM && unchanged(dat)
      ensures initialized ==> status == 0
      ensures initialized ==> dat[Bank(pin) as int] == OutputWord(old(dat[Bank(pin) as int]), Num(pin), val)
      ensures forall b :: 0 <= b < 9 && b != Bank(pin) as int ==> dat[b] == old(dat[b])
    {
      if !initialized {
        return -Errno.EPERM;
      }
      var bank := Bank(pin) as int;
      var d := dat[bank];
      if val != 0 {
        d := Bits.SetBit(d, Num(pin));
      } else {
        d := Bits.ClearBit(d, Num(pin));
      }
      dat[bank] := d;
      status := 0;
    }
  }

  /** A fresh controller, initialized, with pin PC5 selected as an output
      and driven high: the pin then reads back function 1 and level 1. */
  method OutputHighScenario() returns (mode: int, level: int)
    ensures mode == OUTPUT as int && level == 1
  {
    var gpio := new Controller();
    var status := gpio.Init(0x1000, RegisterWindow.Mapped);
    var pin := PinId('C', 5);
    var word := gpio.cfg[Bank(pin) as int, CfgIndex(pin) as int];
    status := gpio.SetCfgPin(pin, OUTPUT);
    CfgReadBack(word, Slot(pin), OUTPUT);
    status := gpio.Output(pin, 1);
    mode := gpio.GetCfgPin(pin);
    level := gpio.Input(pin);
  }
}
