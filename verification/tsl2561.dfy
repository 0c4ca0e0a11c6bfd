/**
 * The register-level logic of the TSL2561 light-sensor driver: command-byte
 * encoding, the exposure-mode state kept in `current_mode`, the choice of the
 * integration delay, and the decoding of the two channel words.
 *
 * The I2C bus is abstracted. Every byte written, every block read requested
 * and every sleep is appended to a trace; what the chip answers to a block
 * read is given by an oracle from the command byte to the two bytes returned.
 */
module Tsl2561 {
  import opened Wrappers
  import opened Text

  type Byte = b: int | 0 <= b < 256

  /** Python's `|` on non-negative integers, bit by bit from the least significant. */
  function BitOr(a: nat, b: nat): nat
    decreases a + b
  {
    if a == 0 then b
    else if b == 0 then a
    else 2 * BitOr(a / 2, b / 2) + (if a % 2 == 1 || b % 2 == 1 then 1 else 0)
  }

  function Pow2(k: nat): (p: nat)
    ensures p >= 1
  {
    if k == 0 then 1 else 2 * Pow2(k - 1)
  }

  /** OR-ing in a bit above every bit of `a` adds its value. */
  lemma {:induction false} BitOrHighBit(a: nat, k: nat)
    requires a < Pow2(k)
    ensures BitOr(a, Pow2(k)) == a + Pow2(k)
  {
    if k > 0 && a != 0 {
      BitOrHighBit(a / 2, k - 1);
    }
  }

  /** The command opcode `_tsl_cmd`, set in every register address sent to the chip. */
  const TslCmd := 0x80
  const ControlRegister := 0x00
  const TimingRegister := 0x01
  /** `_chan0` and `_chan1`: the low bytes of the two channel words. */
  const Chan0 := 0x0C
  const Chan1 := 0x0E

  const PowerUp := 0x03
  const PowerDown := 0x00
  const StartManual := 0x1F
  const EndManual := 0x1E
  /** The chip's default I2C address; 0x29 and 0x49 are the alternatives. */
  const DefaultAddress := 0x39

  /** `register | _tsl_cmd`: the byte that selects `register`. */
  function CommandByte(register: nat): nat {
    BitOr(register, TslCmd)
  }

  /**
   * For every register below 0x80, which are all the chip has, the command
   * byte is the register with the top bit set; in particular the four the
   * driver uses become 0x80, 0x81, 0x8C and 0x8E.
   */
  lemma CommandByteSetsTopBit(register: nat)
    requires register < 0x80
    ensures CommandByte(register) == 0x80 + register
    ensures CommandByte(register) < 256
  {
    assert Pow2(7) == 0x80;
    BitOrHighBit(register, 7);
  }

  lemma DriverCommandBytes()
    ensures CommandByte(ControlRegister) == 0x80
    ensures CommandByte(TimingRegister) == 0x81
    ensures CommandByte(Chan0) == 0x8C
    ensures CommandByte(Chan1) == 0x8E
  {
    CommandByteSetsTopBit(ControlRegister);
    CommandByteSetsTopBit(TimingRegister);
    CommandByteSetsTopBit(Chan0);
    CommandByteSetsTopBit(Chan1);
  }

  // ---------------------------------------------------------------------
  // Exposure modes
  // ---------------------------------------------------------------------

  const DefaultMode := "LowShort"

  /** The timing-register value of each exposure mode (gain x1 "Low", x16 "High"). */
  const Modes: map<string, Byte> := map[
    "LowShort" := 0x00, "LowMed" := 0x01, "LowLong" := 0x02, "LowManual" := 0x03,
    "HighShort" := 0x10, "HighMed" := 0x11, "HighLong" := 0x12, "HighManual" := 0x13]

  /**
   * What `set_mode(mode)` settles on: the new `current_mode` and the byte it
   * writes. `None` stands for the default argument. The source looks the name
   * up with the default's code as fallback and then compares CODES with the
   * default's; because no other mode shares code 0x00, that is the same as
   * falling back to the default name for `None` and unknown names.
   */
  function ResolveMode(mode: Option<string>): (r: (string, Byte))
    ensures r.0 in Modes && r.1 == Modes[r.0]
    ensures mode.None? || mode.value !in Modes ==> r == (DefaultMode, 0x00)
    ensures mode.Some? && mode.value in Modes ==> r == (mode.value, Modes[mode.value])
  {
    var name := if mode.None? then DefaultMode else mode.value;
    var code := if name in Modes then Modes[name] else Modes[DefaultMode];
    if code == Modes[DefaultMode] then (DefaultMode, code) else (name, code)
  }

  /** The `delays` table, in its iteration order: mode-name suffix and seconds to wait. */
  const Delays: seq<(string, real)> := [("Short", 0.014), ("Med", 0.101), ("Long", 0.403)]

  /**
   * `next(v for k, v in table if mode.endswith(k))`: the delay of the first
   * entry whose key ends the mode name; `None` where `next` raises
   * `StopIteration`.
   */
  function FindDelay(mode: string, table: seq<(string, real)>): (r: Option<real>)
    ensures r.None? <==> forall k :: 0 <= k < |table| ==> !EndsWith(mode, table[k].0)
    ensures r.Some? ==> exists k :: 0 <= k < |table| && EndsWith(mode, table[k].0) && r.value == table[k].1
                                     && forall j :: 0 <= j < k ==> !EndsWith(mode, table[j].0)
  {
    if table == [] then None
    else if EndsWith(mode, table[0].0) then Some(table[0].1)
    else
      var r := FindDelay(mode, table[1..]);
      if r.Some? then
        var k :| 0 <= k < |table| - 1 && EndsWith(mode, table[1..][k].0) && r.value == table[1..][k].1
                 && forall j :: 0 <= j < k ==> !EndsWith(mode, table[1..][j].0);
        assert EndsWith(mode, table[k + 1].0);
        r
      else r
  }

  /** The lookup over the driver's own table, one entry at a time. */
  lemma FindDelayInOrder(mode: string)
    ensures FindDelay(mode, Delays)
         == if EndsWith(mode, "Short") then Some(0.014)
            else if EndsWith(mode, "Med") then Some(0.101)
            else if EndsWith(mode, "Long") then Some(0.403)
            else None
  {
    FindDelayOfThree(mode, Delays[0], Delays[1], Delays[2]);
  }

  /** The lookup over a three-entry table, spelled out. */
  lemma FindDelayOfThree(mode: string, first: (string, real), second: (string, real), third: (string, real))
    ensures FindDelay(mode, [first, second, third])
         == if EndsWith(mode, first.0) then Some(first.1)
            else if EndsWith(mode, second.0) then Some(second.1)
            else if EndsWith(mode, third.0) then Some(third.1)
            else None
  {
    var last := [third];
    assert last[1..] == [];
    assert FindDelay(mode, last) == if EndsWith(mode, third.0) then Some(third.1) else None;
    var two := [second] + last;
    assert two[1..] == last;
    assert FindDelay(mode, two) == if EndsWith(mode, second.0) then Some(second.1) else FindDelay(mode, last);
    var table := [first] + two;
    assert table[1..] == two && table == [first, second, third];
  }

  /** A name whose last letter differs from the suffix's last letter does not end with it. */
  lemma NotEndsWith(s: string, suffix: string)
    requires s != [] && suffix != [] && s[|s| - 1] != suffix[|suffix| - 1]
    ensures !EndsWith(s, suffix)
  {
    if |suffix| <= |s| {
      var tail := s[|s| - |suffix|..];
      assert tail[|tail| - 1] == s[|s| - 1];
    }
  }

  lemma DelayLowShort()
    ensures FindDelay("LowShort", Delays) == Some(0.014)
  {
    assert "LowShort" == "Low" + "Short";
    DelayOfShortName("Low");
  }

  lemma DelayLowMed()
    ensures FindDelay("LowMed", Delays) == Some(0.101)
  {
    assert "LowMed" == "Low" + "Med";
    DelayOfMedName("Low");
  }

  lemma DelayLowLong()
    ensures FindDelay("LowLong", Delays) == Some(0.403)
  {
    assert "LowLong" == "Low" + "Long";
    DelayOfLongName("Low");
  }

  lemma DelayLowManual()
    ensures FindDelay("LowManual", Delays) == None
  {
    assert "LowManual" == "Low" + "Manual";
    DelayOfManualName("Low");
  }

  lemma DelayHighShort()
    ensures FindDelay("HighShort", Delays) == Some(0.014)
  {
    assert "HighShort" == "High" + "Short";
    DelayOfShortName("High");
  }

  lemma DelayHighMed()
    ensures FindDelay("HighMed", Delays) == Some(0.101)
  {
    assert "HighMed" == "High" + "Med";
    DelayOfMedName("High");
  }

  lemma DelayHighLong()
    ensures FindDelay("HighLong", Delays) == Some(0.403)
  {
    assert "HighLong" == "High" + "Long";
    DelayOfLongName("High");
  }

  lemma DelayHighManual()
    ensures FindDelay("HighManual", Delays) == None
  {
    assert "HighManual" == "High" + "Manual";
    DelayOfManualName("High");
  }

  /** A name ending in `Short` waits 14 ms. */
  lemma DelayOfShortName(prefix: string)
    ensures FindDelay(prefix + "Short", Delays) == Some(0.014)
  {
    var name := prefix + "Short";
    FindDelayInOrder(name);
    assert name[|prefix|..] == "Short";
  }

  /** A name ending in `Med` waits 101 ms. */
  lemma DelayOfMedName(prefix: string)
    ensures FindDelay(prefix + "Med", Delays) == Some(0.101)
  {
    var name := prefix + "Med";
    FindDelayInOrder(name);
    assert name[|name| - 1] == 'd';
    NotEndsWith(name, "Short");
    assert name[|prefix|..] == "Med";
  }

  /** A name ending in `Long` waits 403 ms. */
  lemma DelayOfLongName(prefix: string)
    ensures FindDelay(prefix + "Long", Delays) == Some(0.403)
  {
    var name := prefix + "Long";
    FindDelayInOrder(name);
    assert name[|name| - 1] == 'g';
    NotEndsWith(name, "Short");
    NotEndsWith(name, "Med");
    assert name[|prefix|..] == "Long";
  }

  /** A name ending in `Manual` matches no key, so the lookup raises `StopIteration`. */
  lemma DelayOfManualName(prefix: string)
    ensures FindDelay(prefix + "Manual", Delays) == None
  {
    var name := prefix + "Manual";
    FindDelayInOrder(name);
    assert name[|name| - 1] == 'l';
    NotEndsWith(name, "Short");
    NotEndsWith(name, "Med");
    NotEndsWith(name, "Long");
  }

  /** The eight names `modes` knows. */
  lemma ModeNames(mode: string)
    requires mode in Modes
    ensures mode == "LowShort" || mode == "LowMed" || mode == "LowLong" || mode == "LowManual"
         || mode == "HighShort" || mode == "HighMed" || mode == "HighLong" || mode == "HighManual"
  {
    assert mode in Modes.Keys;
  }

  predicate IsManual(mode: string) {
    mode == "LowManual" || mode == "HighManual"
  }

  /** The delay each mode waits for; the two manual modes have none. */
  lemma DelayOfEachMode(mode: string)
    requires mode in Modes
    ensures FindDelay(mode, Delays).None? <==> IsManual(mode)
    ensures FindDelay(mode, Delays).Some? ==>
              FindDelay(mode, Delays).value in {0.014, 0.101, 0.403}
  {
    ModeNames(mode);
    if mode == "LowShort" { DelayLowShort(); assert |mode| == 8; }
    else if mode == "LowMed" { DelayLowMed(); assert |mode| == 6; }
    else if mode == "LowLong" { DelayLowLong(); assert |mode| == 7; }
    else if mode == "LowManual" { DelayLowManual(); }
    else if mode == "HighShort" { DelayHighShort(); assert |mode| == 9; }
    else if mode == "HighMed" { DelayHighMed(); assert |mode| == 7; }
    else if mode == "HighLong" { DelayHighLong(); assert |mode| == 8; }
    else { DelayHighManual(); }
  }

  // ---------------------------------------------------------------------
  // Channel words
  // ---------------------------------------------------------------------

  /** `ch[1] * 256 + ch[0]`: the little-endian word of a two-byte block. */
  function Word(block: (Byte, Byte)): (v: nat)
    ensures v < 0x1_0000
  {
    block.1 * 256 + block.0
  }

  /** The two bytes of a 16-bit word, low byte first. */
  function Split(v: nat): (block: (Byte, Byte))
    requires v < 0x1_0000
  {
    (v % 256, v / 256)
  }

  /** Splitting and decoding undo each other. */
  lemma WordSplitRoundTrip(v: nat, block: (Byte, Byte))
    ensures v < 0x1_0000 ==> Word(Split(v)) == v
    ensures Split(Word(block)) == block
  {
  }

  // ---------------------------------------------------------------------
  // What the driver does on the bus
  // ---------------------------------------------------------------------

  /** One step of the driver's dealings with the chip. */
  datatype Action =
    | WriteByte(address: nat, command: nat, value: nat)
    | ReadBlock(address: nat, command: nat, length: nat)
    | Sleep(seconds: real)

  /** What `get_light_levels` returns: the two channel values, or the `StopIteration` the delay lookup raises. */
  datatype Reading = Channels(ch0: nat, ch1: nat) | StopIteration

  /** The mode after a call of `get_light_levels`, the actions it performs, and its result. */
  datatype Measurement = Measurement(mode: string, actions: seq<Action>, reading: Reading)

  /**
   * `get_light_levels(wait)` from `current_mode`, at bus address `address`,
   * with `block` the oracle for the two bytes the chip answers at a command byte.
   * With no mode set, the default mode is selected first and the wait is forced.
   */
  function Measure(address: nat, current: Option<string>, wait: bool, block: nat -> (Byte, Byte)): Measurement {
    if current.None? then
      var (name, code) := ResolveMode(None);
      var rest := Sample(address, name, true, block);
      Measurement(name, [WriteByte(address, CommandByte(TimingRegister), code)] + rest.actions, rest.reading)
    else
      Sample(address, current.value, wait, block)
  }

  /** The part of `get_light_levels` after the mode is known: the optional wait, then both channel reads. */
  function Sample(address: nat, mode: string, waits: bool, block: nat -> (Byte, Byte)): Measurement {
    var delay := FindDelay(mode, Delays);
    if waits && delay.None? then Measurement(mode, [], StopIteration)
    else
      var slept := if waits then [Sleep(delay.value)] else [];
      var c0 := CommandByte(Chan0);
      var c1 := CommandByte(Chan1);
      Measurement(mode, slept + [ReadBlock(address, c0, 2), ReadBlock(address, c1, 2)],
                  Channels(Word(block(c0)), Word(block(c1))))
  }

  /** `Measure` with the default-mode setup and the command bytes spelled out. */
  lemma MeasureSteps(address: nat, current: Option<string>, wait: bool, block: nat -> (Byte, Byte))
    ensures current.None? ==>
      var rest := Sample(address, DefaultMode, true, block);
      Measure(address, current, wait, block) ==
        Measurement(DefaultMode, [WriteByte(address, 0x81, 0x00)] + rest.actions, rest.reading)
    ensures current.Some? ==> Measure(address, current, wait, block) == Sample(address, current.value, wait, block)
  {
    DriverCommandBytes();
  }

  /** `Sample` with the command bytes of the two channels spelled out. */
  lemma SampleSteps(address: nat, mode: string, waits: bool, block: nat -> (Byte, Byte))
    ensures var delay := FindDelay(mode, Delays);
      Sample(address, mode, waits, block) ==
        if waits && delay.None? then Measurement(mode, [], StopIteration)
        else Measurement(mode, (if waits then [Sleep(delay.value)] else []) + [ReadBlock(address, 0x8C, 2), ReadBlock(address, 0x8E, 2)],
                         Channels(Word(block(0x8C)), Word(block(0x8E))))
  {
    DriverCommandBytes();
  }

  /**
   * A measurement that succeeds ends by reading channel 0 at 0x8C and then
   * channel 1 at 0x8E, two bytes each, and returns their little-endian words,
   * both below 65536.
   */
  lemma MeasureReadsBothChannels(address: nat, current: Option<string>, wait: bool, block: nat -> (Byte, Byte))
    requires Measure(address, current, wait, block).reading.Channels?
    ensures var m := Measure(address, current, wait, block);
      && |m.actions| >= 2
      && m.actions[|m.actions| - 2..] == [ReadBlock(address, 0x8C, 2), ReadBlock(address, 0x8E, 2)]
      && m.reading == Channels(Word(block(0x8C)), Word(block(0x8E)))
      && m.reading.ch0 < 0x1_0000 && m.reading.ch1 < 0x1_0000
  {
    DriverCommandBytes();
  }

  /**
   * With no mode set yet, a measurement first selects the default mode
   * (writing 0x00 to 0x81) and then waits its 14 ms whatever `wait` says;
   * it always succeeds.
   */
  lemma MeasureWithoutMode(address: nat, wait: bool, block: nat -> (Byte, Byte))
    ensures var m := Measure(address, None, wait, block);
      && m.mode == DefaultMode
      && m.reading.Channels?
      && |m.actions| == 4
      && m.actions[0] == WriteByte(address, 0x81, 0x00)
      && m.actions[1] == Sleep(0.014)
  {
    DriverCommandBytes();
    DelayLowShort();
  }

  /**
   * With a mode set, the mode is kept; the lookup raises exactly when the
   * caller asked to wait and the mode is a manual one, and then nothing is
   * done on the bus. Without waiting, only the two reads happen.
   */
  lemma MeasureWithMode(address: nat, mode: string, wait: bool, block: nat -> (Byte, Byte))
    requires mode in Modes
    ensures var m := Measure(address, Some(mode), wait, block);
      && m.mode == mode
      && (m.reading == StopIteration <==> wait && IsManual(mode))
      && (m.reading == StopIteration ==> m.actions == [])
      && (!wait ==> |m.actions| == 2)
  {
    DelayOfEachMode(mode);
  }

  /** `MeasureWithMode`'s condition for `StopIteration`, stated about a measurement already taken. */
  lemma StopsExactlyWhenManual(m: Measurement, address: nat, mode: string, wait: bool, block: nat -> (Byte, Byte))
    requires mode in Modes && m == Measure(address, Some(mode), wait, block)
    ensures m.reading == StopIteration <==> wait && IsManual(mode)
  {
    MeasureWithMode(address, mode, wait, block);
  }

  /** `manual_exposure(delay)`: start, wait, stop; a negative delay makes the wait raise `ValueError`. */
  function ManualExposureActions(address: nat, delay: real): (actions: seq<Action>)
    ensures delay >= 0.0 ==> actions == [WriteByte(address, 0x81, 0x1F), Sleep(delay), WriteByte(address, 0x81, 0x1E)]
    ensures delay < 0.0 ==> actions == [WriteByte(address, 0x81, 0x1F)]
  {
    CommandByteSetsTopBit(TimingRegister);
    var start := WriteByte(address, CommandByte(TimingRegister), StartManual);
    if delay < 0.0 then [start]
    else [start, Sleep(delay), WriteByte(address, CommandByte(TimingRegister), EndManual)]
  }

  // ---------------------------------------------------------------------
  // The driver object
  // ---------------------------------------------------------------------

  /** A `TSL2561` object: its bus address, `current_mode`, and the trace of what it did on the bus. */
  class Sensor {
    const address: nat
    var currentMode: Option<string>
    var trace: seq<Action>

    /**
     * `current_mode` is only ever set to a known mode. `GetLightLevels` relies
     * on it: from a valid state, a wait raises `StopIteration` exactly for the
     * manual modes.
     */
    ghost predicate Valid()
      reads this
    {
      currentMode.Some? ==> currentMode.value in Modes
    }

    /** `TSL2561(tsl_addr=0x39)`. */
    constructor (address: nat := DefaultAddress)
      ensures Valid()
      ensures this.address == address && currentMode == None && trace == []
    {
      this.address := address;
      currentMode := None;
      trace := [];
    }

    /** `_bus.write_byte_data(_tsl_addr, command, value)`. */
    method WriteByteData(command: nat, value: nat)
      modifies this`trace
      ensures trace == old(trace) + [WriteByte(address, command, value)]
    {
      trace := trace + [WriteByte(address, command, value)];
    }

    /** `_bus.read_i2c_block_data(_tsl_addr, command, 2)`, answered by the oracle. */
    method ReadWord(command: nat, block: nat -> (Byte, Byte)) returns (data: (Byte, Byte))
      modifies this`trace
      ensures trace == old(trace) + [ReadBlock(address, command, 2)]
      ensures data == block(command)
    {
      trace := trace + [ReadBlock(address, command, 2)];
      data := block(command);
    }

    method PowerOn()
      modifies this`trace
      ensures currentMode == old(currentMode)
      ensures trace == old(trace) + [WriteByte(address, 0x80, 0x03)]
    {
      DriverCommandBytes();
      WriteByteData(BitOr(ControlRegister, TslCmd), PowerUp);
    }

    method PowerOff()
      modifies this`trace
      ensures currentMode == old(currentMode)
      ensures trace == old(trace) + [WriteByte(address, 0x80, 0x00)]
    {
      DriverCommandBytes();
      WriteByteData(BitOr(ControlRegister, TslCmd), PowerDown);
    }

    /** `set_mode(mode)`; `None` is the default argument. */
    method SetMode(mode: Option<string>)
      modifies this`currentMode, this`trace
      ensures Valid()
      ensures currentMode == Some(ResolveMode(mode).0)
      ensures trace == old(trace) + [WriteByte(address, 0x81, ResolveMode(mode).1)]
    {
      var name := if mode.None? then DefaultMode else mode.value;
      var newMode := if name in Modes then Modes[name] else Modes[DefaultMode];
      if newMode == Modes[DefaultMode] {
        currentMode := Some(DefaultMode);
      } else {
        currentMode := Some(name);
      }
      DriverCommandBytes();
      WriteByteData(BitOr(TimingRegister, TslCmd), newMode);
    }

    method GetLightLevels(wait: bool := true, block: nat -> (Byte, Byte)) returns (reading: Reading)
      modifies this`currentMode, this`trace
      ensures old(Valid()) ==> Valid()
      ensures var m := Measure(address, old(currentMode), wait, block);
        && currentMode == Some(m.mode) && trace == old(trace) + m.actions && reading == m.reading
    ensures old(Valid()) && old(currentMode).Some? ==>
      (reading == StopIteration <==> wait && IsManual(old(currentMode).value))
    {
      if Valid() && currentMode.Some? {
        StopsExactlyWhenManual(Measure(address, currentMode, wait, block), address, currentMode.value, wait, block);
      }
      ghost var before := trace;
      MeasureSteps(address, currentMode, wait, block);
      DriverCommandBytes();
      var waits := wait;
      if currentMode.None? {
        SetMode(None);
        waits := true;
      }
      SampleSteps(address, currentMode.value, waits, block);
      if waits {
        var delay := FindDelay(currentMode.value, Delays);
        if delay.None? {
          return StopIteration;
        }
        trace := trace + [Sleep(delay.value)];
      }
      reading := ReadChannels(block);
    }

    /** The channel reads of `get_light_levels`: channel 0, then channel 1, each decoded little-endian. */
    method ReadChannels(block: nat -> (Byte, Byte)) returns (reading: Reading)
      modifies this`trace
      ensures trace == old(trace) + [ReadBlock(address, 0x8C, 2), ReadBlock(address, 0x8E, 2)]
      ensures reading == Channels(Word(block(0x8C)), Word(block(0x8E)))
    {
      DriverCommandBytes();
      var ch0 := ReadWord(BitOr(Chan0, TslCmd), block);
      var ch1 := ReadWord(BitOr(Chan1, TslCmd), block);
      reading := Channels(ch0.1 * 256 + ch0.0, ch1.1 * 256 + ch1.0);
    }

    /** `manual_exposure(delay, gain)`; `gain` is accepted and ignored, as in the source. */
    method ManualExposure(delay: real, gain: string := "Low") returns (raised: Option<string>)
      modifies this`trace
      ensures currentMode == old(currentMode)
      ensures trace == old(trace) + ManualExposureActions(address, delay)
      ensures raised.Some? <==> delay < 0.0
    {
      DriverCommandBytes();
      WriteByteData(BitOr(TimingRegister, TslCmd), StartManual);
      if delay < 0.0 {
        return Some("ValueError: sleep length must be non-negative");
      }
      trace := trace + [Sleep(delay)];
      WriteByteData(BitOr(TimingRegister, TslCmd), EndManual);
      raised := None;
    }
  }
}
