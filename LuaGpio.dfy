/**
 * The channel manager of the Lua binding: a numbering mode, a warnings flag,
 * the board revision with its pin table, and a 54-entry direction table,
 * updated in place by setmode, setwarnings, setup and cleanup.
 */
module LuaGpio {
  import opened Hardware
  import opened Results
  import opened PinMap
  import opened Directions

  /** Lua exposes the pull constants shifted by this offset (PUD_OFF is 20 in Lua). */
  const LUA_PUD_CONST_OFFSET: int := 20

  /** The pull value setup() uses when the caller passes none. */
  const LUA_PUD_OFF: int := PUD_OFF + LUA_PUD_CONST_OFFSET

  /** The initial level setup() uses when the caller passes none: write nothing. */
  const NO_INITIAL: int := -1

  // Raw function-select codes read back from the chip.
  const FSEL_INPUT: int := 0
  const FSEL_OUTPUT: int := 1
  const FSEL_ALT0: int := 4
  const FSEL_ALT1: int := 5

  /** The errors the binding raises, one per message. */
  datatype LuaError =
    | ModeNotSet        // no numbering mode chosen yet
    | InvalidChannel    // channel out of range, or a board pin that is not a gpio
    | InvalidMode       // setmode() given neither BOARD nor BCM
    | InvalidDirection  // setup() given neither INPUT nor OUTPUT
    | InvalidPull       // pull_up_down is not PUD_OFF, PUD_UP or PUD_DOWN
    | NotOutput         // output() on a channel not set up as OUTPUT
    | NotSetUp          // input() on a channel never set up
    | InitFailed        // gpio_function() could not initialise the module
    | NoDevMem          // loading: /dev/mem not accessible
    | NoMemory          // loading: allocation failed
    | MmapFailed        // loading: mapping the registers failed
    | NotRaspberryPi    // loading: no board revision detected

  /** The symbolic function gpio_function() reports for a channel. */
  datatype PinFunction = In | Out | I2C | Spi | Serial | Pwm | Unknown

  /** Calls the binding makes into the hardware layer. */
  datatype HwCall =
    | SetupGpio(gpio: int, direction: int, pud: int)
    | OutputGpio(gpio: int, value: int)

  /**
   * Channel to gpio number under the current numbering mode. BCM accepts
   * exactly 0..53 unchanged; BOARD accepts pins 1..26 that the pin table maps
   * to a gpio. Every gpio returned indexes the direction table.
   */
  function GpioNumber(mode: int, pinToGpio: seq<int>, channel: int): (r: Result<int, LuaError>)
    requires IsPinTable(pinToGpio)
    ensures r.Ok? ==> 0 <= r.value < NUM_GPIO
    ensures !IsMode(mode) ==> r == Err(ModeNotSet)
    ensures r.Err? ==> r.error == ModeNotSet || r.error == InvalidChannel
    ensures IsMode(mode) && r.Err? ==> r.error == InvalidChannel
    ensures mode == BCM ==> (r.Ok? <==> 0 <= channel < NUM_GPIO) && (r.Ok? ==> r.value == channel)
    ensures mode == BOARD ==> (r.Ok? <==> 1 <= channel <= 26 && pinToGpio[channel] != UNSET)
    ensures mode == BOARD && r.Ok? ==> r.value == pinToGpio[channel]
  {
    if !IsMode(mode) then Err(ModeNotSet)
    else if (mode == BCM && (channel < 0 || channel > 53)) || (mode == BOARD && (channel < 1 || channel > 26)) then
      Err(InvalidChannel)
    else if mode == BOARD then
      if pinToGpio[channel] == UNSET then Err(InvalidChannel)
      else PinEntryInRange(pinToGpio, channel); Ok(pinToGpio[channel])
    else Ok(channel)
  }

  /** What setup() hands to the hardware once its arguments are accepted. */
  datatype SetupPlan = SetupPlan(gpio: int, pud: int)

  /**
   * The checks setup() makes before touching anything: mode and channel
   * first, then the direction, then the pull value (forced to PUD_OFF for an
   * output, and taken with the Lua offset removed).
   */
  function CheckSetup(mode: int, pinToGpio: seq<int>, channel: int, direction: int, pud: int): (r: Result<SetupPlan, LuaError>)
    requires IsPinTable(pinToGpio)
    ensures var n := GpioNumber(mode, pinToGpio, channel);
      && (n.Err? ==> r == Err(n.error))
      && (n.Ok? && !IsDirection(direction) ==> r == Err(InvalidDirection))
      && (n.Ok? && direction == INPUT && !IsPull(pud - LUA_PUD_CONST_OFFSET) ==> r == Err(InvalidPull))
      && (r.Ok? <==> n.Ok? && (direction == OUTPUT || (direction == INPUT && IsPull(pud - LUA_PUD_CONST_OFFSET))))
      && (r.Ok? ==> r.value.gpio == n.value)
    ensures r.Err? ==> r.error in {ModeNotSet, InvalidChannel, InvalidDirection, InvalidPull}
    ensures r.Ok? ==> 0 <= r.value.gpio < NUM_GPIO && IsPull(r.value.pud)
    ensures r.Ok? && direction == OUTPUT ==> r.value.pud == PUD_OFF
    ensures r.Ok? && direction == INPUT ==> r.value.pud == pud - LUA_PUD_CONST_OFFSET
  {
    var n := GpioNumber(mode, pinToGpio, channel);
    if n.Err? then Err(n.error)
    else if !IsDirection(direction) then Err(InvalidDirection)
    else
      var pull := (if direction == OUTPUT then LUA_PUD_OFF else pud) - LUA_PUD_CONST_OFFSET;
      if !IsPull(pull) then Err(InvalidPull) else Ok(SetupPlan(n.value, pull))
  }

  /**
   * setup() warns that a channel is already in use when warnings are on and
   * the chip reports an alternate function, or an output this program has
   * not set up.
   */
  predicate AlreadyInUse(warnings: bool, fsel: int, entry: int): (b: bool)
    ensures b ==> warnings
    ensures fsel == FSEL_INPUT ==> !b
    ensures entry != UNSET && fsel == FSEL_OUTPUT ==> !b
    ensures warnings && fsel != FSEL_INPUT && fsel != FSEL_OUTPUT ==> b
    ensures warnings && entry == UNSET && fsel == FSEL_OUTPUT ==> b
  {
    warnings && ((fsel != FSEL_INPUT && fsel != FSEL_OUTPUT) || (entry == UNSET && fsel == FSEL_OUTPUT))
  }

  /** The level written before configuring: only for an output whose initial is LOW or HIGH. */
  function InitialWrite(gpio: int, direction: int, initial: int): (w: seq<HwCall>)
    ensures |w| <= 1
    ensures w != [] <==> direction == OUTPUT && (initial == LOW || initial == HIGH)
    ensures w != [] ==> w[0] == OutputGpio(gpio, initial)
  {
    if direction == OUTPUT && (initial == LOW || initial == HIGH) then [OutputGpio(gpio, initial)] else []
  }

  /** Nothing is written when the caller leaves initial at its default. */
  lemma DefaultInitialWritesNothing(gpio: int, direction: int)
    ensures InitialWrite(gpio, direction, NO_INITIAL) == []
  {
  }

  /** The hardware calls of a cleanup that resets the listed gpios, in order. */
  function ResetCalls(gpios: seq<int>): (calls: seq<HwCall>)
    ensures |calls| == |gpios|
    ensures forall k :: 0 <= k < |gpios| ==> calls[k] == SetupGpio(gpios[k], INPUT, PUD_OFF)
  {
    seq(|gpios|, k requires 0 <= k < |gpios| => SetupGpio(gpios[k], INPUT, PUD_OFF))
  }

  /**
   * A cleanup of table d resets gpio g to input, pull off, exactly
   * when its entry was set up. Every call in the list resets to input
   * (see ResetCalls), so it makes no other call.
   */
  lemma CleanupResetsExactlyConfigured(d: seq<int>, g: int)
    ensures SetupGpio(g, INPUT, PUD_OFF) in ResetCalls(Configured(d)) <==> 0 <= g < |d| && d[g] != UNSET
  {
    var cs := Configured(d);
    ConfiguredMembers(d, g);
    if SetupGpio(g, INPUT, PUD_OFF) in ResetCalls(cs) {
      var k :| 0 <= k < |cs| && ResetCalls(cs)[k] == SetupGpio(g, INPUT, PUD_OFF);
      assert cs[k] == g;
    }
    if 0 <= g < |d| && d[g] != UNSET {
      var k :| 0 <= k < |cs| && cs[k] == g;
      assert ResetCalls(cs)[k] == SetupGpio(g, INPUT, PUD_OFF);
    }
  }

  /** A cleanup resets each gpio at most once, in ascending order. */
  lemma CleanupResetsAscending(d: seq<int>)
    ensures var calls := ResetCalls(Configured(d));
      forall j, k :: 0 <= j < k < |calls| ==> calls[j].gpio < calls[k].gpio
  {
    ConfiguredAscending(d);
  }

  /**
   * The function gpio_function() reports for a raw function-select code:
   * codes 0 and 1 are input and output; alternate function 0 is I2C on the
   * revision's I2C pair, SPI on 7..11 and serial on 14/15; alternate
   * function 1 is PWM on gpio 18 only; everything else is unknown.
   */
  function DecodeFunction(fsel: int, gpio: int, revision: int): (f: PinFunction)
    ensures f == In <==> fsel == FSEL_INPUT
    ensures f == Out <==> fsel == FSEL_OUTPUT
    ensures f == I2C <==>
      fsel == FSEL_ALT0 && ((revision == 1 && (gpio == 0 || gpio == 1)) || (revision == 2 && (gpio == 2 || gpio == 3)))
    ensures f == Spi <==> fsel == FSEL_ALT0 && 7 <= gpio <= 11
    ensures f == Serial <==> fsel == FSEL_ALT0 && (gpio == 14 || gpio == 15)
    ensures f == Pwm <==> fsel == FSEL_ALT1 && gpio == 18
  {
    if fsel == FSEL_INPUT then In
    else if fsel == FSEL_OUTPUT then Out
    else if fsel == FSEL_ALT0 then
      if gpio == 0 || gpio == 1 then (if revision == 1 then I2C else Unknown)
      else if gpio == 2 || gpio == 3 then (if revision == 2 then I2C else Unknown)
      else if 7 <= gpio <= 11 then Spi
      else if gpio == 14 || gpio == 15 then Serial
      else Unknown
    else if fsel == FSEL_ALT1 then
      if gpio == 18 then Pwm else Unknown
    else Unknown
  }

  /**
   * On revision 1 and 2 boards the gpios reported as I2C are exactly the
   * ones wired to board pins 3 and 5 of that revision's table.
   */
  lemma I2CIsBoardPins3And5(revision: int, gpio: int)
    requires revision == 1 || revision == 2
    ensures DecodeFunction(FSEL_ALT0, gpio, revision) == I2C <==>
      gpio == TableFor(revision)[3] || gpio == TableFor(revision)[5]
  {
  }

  /** The state of the loaded Lua module. */
  class LuaModule {
    var mode: int
    var warnings: bool
    var revision: int
    var pinToGpio: seq<int>
    var direction: array<int>
    /** Every call made into the hardware layer, oldest first. */
    ghost var trace: seq<HwCall>

    ghost predicate Valid()
      reads this, direction
    {
      direction.Length == NUM_GPIO &&
      pinToGpio == TableFor(revision) &&
      WellFormed(direction[..])
    }

    /** The state right after loading: no mode, warnings on, no channel set up. */
    constructor (detectedRevision: int)
      ensures Valid() && fresh(direction)
      ensures direction[..] == Cleared(NUM_GPIO)
      ensures mode == MODE_UNKNOWN && warnings && revision == detectedRevision && trace == []
    {
      mode := MODE_UNKNOWN;
      warnings := true;
      revision := detectedRevision;
      pinToGpio := TableFor(detectedRevision);
      trace := [];
      var table := new int[NUM_GPIO];
      var i := 0;
      while i < NUM_GPIO
        invariant 0 <= i <= NUM_GPIO
        invariant forall g :: 0 <= g < i ==> table[g] == UNSET
      {
        table[i] := UNSET;
        i := i + 1;
      }
      direction := table;
    }

    /** setmode(): rejects anything but BOARD or BCM before storing it. */
    method SetMode(m: int) returns (r: Outcome<LuaError>)
      modifies this`mode
      ensures r == Pass <==> IsMode(m)
      ensures r.Fail? ==> r.error == InvalidMode
      ensures mode == if IsMode(m) then m else old(mode)
    {
      if !IsMode(m) {
        return Fail(InvalidMode);
      }
      mode := m;
      r := Pass;
    }

    /** setwarnings(): stores the flag. */
    method SetWarnings(on: bool)
      modifies this`warnings
      ensures warnings == on
    {
      warnings := on;
    }

    /**
     * setup(channel, direction, pull_up_down, initial); fsel is the chip's
     * current function-select code for the gpio. On success only the gpio's
     * direction entry changes, and it becomes the requested direction.
     */
    method Setup(channel: int, dir: int, pud: int, initial: int, fsel: int) returns (r: Outcome<LuaError>, warned: bool)
      requires Valid()
      modifies this`trace, direction
      ensures Valid()
      ensures var c := CheckSetup(mode, pinToGpio, channel, dir, pud);
        && (c.Err? ==> r == Fail(c.error) && !warned && direction[..] == old(direction[..]) && trace == old(trace))
        && (c.Ok? ==>
              && r == Pass
              && warned == AlreadyInUse(warnings, fsel, old(direction[c.value.gpio]))
              && direction[..] == old(direction[..])[c.value.gpio := dir]
              && trace == old(trace) + InitialWrite(c.value.gpio, dir, initial) + [SetupGpio(c.value.gpio, dir, c.value.pud)])
    {
      var c := CheckSetup(mode, pinToGpio, channel, dir, pud);
      if c.Err? {
        return Fail(c.error), false;
      }
      var gpio, pull := c.value.gpio, c.value.pud;
      warned := AlreadyInUse(warnings, fsel, direction[gpio]);
      if dir == OUTPUT && (initial == LOW || initial == HIGH) {
        trace := trace + [OutputGpio(gpio, initial)];
      }
      trace := trace + [SetupGpio(gpio, dir, pull)];
      direction[gpio] := dir;
      r := Pass;
    }

    /** output(channel, value): only on a channel set up as OUTPUT. */
    method Output(channel: int, value: int) returns (r: Outcome<LuaError>)
      requires Valid()
      modifies this`trace
      ensures var n := GpioNumber(mode, pinToGpio, channel);
        && (n.Err? ==> r == Fail(n.error))
        && (n.Ok? && direction[n.value] != OUTPUT ==> r == Fail(NotOutput))
        && (r == Pass <==> n.Ok? && direction[n.value] == OUTPUT)
        && trace == old(trace) + (if r == Pass then [OutputGpio(n.value, value)] else [])
    {
      var n := GpioNumber(mode, pinToGpio, channel);
      if n.Err? {
        return Fail(n.error);
      }
      if direction[n.value] != OUTPUT {
        return Fail(NotOutput);
      }
      trace := trace + [OutputGpio(n.value, value)];
      r := Pass;
    }

    /**
     * input(channel); level is what the chip reads. Allowed on a channel set
     * up in either direction; returns HIGH exactly when the level is nonzero.
     */
    method Input(channel: int, level: int) returns (r: Result<int, LuaError>)
      requires Valid()
      ensures var n := GpioNumber(mode, pinToGpio, channel);
        && (n.Err? ==> r == Err(n.error))
        && (n.Ok? && !IsDirection(direction[n.value]) ==> r == Err(NotSetUp))
        && (r.Ok? <==> n.Ok? && IsDirection(direction[n.value]))
      ensures r.Ok? ==> (r.value == HIGH || r.value == LOW) && (r.value == HIGH <==> level != 0)
    {
      var n := GpioNumber(mode, pinToGpio, channel);
      if n.Err? {
        return Err(n.error);
      }
      if direction[n.value] != INPUT && direction[n.value] != OUTPUT {
        return Err(NotSetUp);
      }
      if level != 0 {
        r := Ok(HIGH);
      } else {
        r := Ok(LOW);
      }
    }

    /**
     * cleanup(): resets every set-up gpio to input and clears the whole
     * table; warns when nothing was set up and warnings are on.
     */
    method Cleanup() returns (warned: bool)
      requires Valid()
      modifies this`trace, direction
      ensures Valid()
      ensures direction[..] == Cleared(NUM_GPIO)
      ensures trace == old(trace) + ResetCalls(Configured(old(direction[..])))
      ensures warned <==> warnings && NoneConfigured(old(direction[..]))
    {
      ghost var d0 := direction[..];
      var found := false;
      var i := 0;
      while i < NUM_GPIO
        invariant 0 <= i <= NUM_GPIO
        invariant forall g :: 0 <= g < i ==> direction[g] == UNSET
        invariant forall g :: i <= g < NUM_GPIO ==> direction[g] == d0[g]
        invariant trace == old(trace) + ResetCalls(Configured(d0[..i]))
        invariant found <==> Configured(d0[..i]) != []
      {
        ConfiguredSnoc(d0, i);
        if direction[i] != UNSET {
          trace := trace + [SetupGpio(i, INPUT, PUD_OFF)];
          direction[i] := UNSET;
          found := true;
        }
        i := i + 1;
      }
      assert d0[..NUM_GPIO] == d0;
      ConfiguredEmpty(d0);
      warned := !found && warnings;
    }

    /**
     * gpio_function(channel); initOk is whether the module could be
     * initialised and fsel the chip's function-select code for the gpio.
     */
    method GpioFunction(initOk: bool, channel: int, fsel: int) returns (r: Result<PinFunction, LuaError>)
      requires Valid()
      ensures !initOk ==> r == Err(InitFailed)
      ensures initOk ==> var n := GpioNumber(mode, pinToGpio, channel);
        && (n.Err? ==> r == Err(n.error))
        && (n.Ok? ==> r == Ok(DecodeFunction(fsel, n.value, revision)))
    {
      if !initOk {
        return Err(InitFailed);
      }
      var n := GpioNumber(mode, pinToGpio, channel);
      if n.Err? {
        return Err(n.error);
      }
      r := Ok(DecodeFunction(fsel, n.value, revision));
    }
  }

  /**
   * Loading the module: the register mapping must succeed and a board
   * revision must be detected; revision 1 selects the revision-1 pin table,
   * any other revision the revision-2 table.
   */
  method Open(setup: SetupResult, detectedRevision: int) returns (r: Result<LuaModule, LuaError>)
    ensures setup == SetupDevmemFail ==> r == Err(NoDevMem)
    ensures setup == SetupMallocFail ==> r == Err(NoMemory)
    ensures setup == SetupMmapFail ==> r == Err(MmapFailed)
    ensures setup == SetupOk && detectedRevision == -1 ==> r == Err(NotRaspberryPi)
    ensures r.Ok? <==> setup == SetupOk && detectedRevision != -1
    ensures r.Ok? ==>
      && fresh(r.value) && fresh(r.value.direction) && r.value.Valid()
      && r.value.direction[..] == Cleared(NUM_GPIO)
      && r.value.mode == MODE_UNKNOWN && r.value.warnings && r.value.trace == []
      && r.value.revision == detectedRevision
      && (r.value.pinToGpio == PIN_TO_GPIO_REV1 <==> detectedRevision == 1)
  {
    match setup
    case SetupDevmemFail => return Err(NoDevMem);
    case SetupMallocFail => return Err(NoMemory);
    case SetupMmapFail => return Err(MmapFailed);
    case SetupOk =>
    if detectedRevision == -1 {
      return Err(NotRaspberryPi);
    }
    var m := new LuaModule(detectedRevision);
    r := Ok(m);
  }

  /**
   * Two cleanups in a row: the second finds nothing set up, so it makes no
   * hardware call and warns exactly when warnings are on.
   */
  method CleanupTwice(m: LuaModule) returns (first: bool, second: bool)
    requires m.Valid()
    modifies m`trace, m.direction
    ensures m.Valid()
    ensures first <==> m.warnings && NoneConfigured(old(m.direction[..]))
    ensures second == m.warnings
    ensures m.trace == old(m.trace) + ResetCalls(Configured(old(m.direction[..])))
  {
    first := m.Cleanup();
    second := m.Cleanup();
    assert Configured(Cleared(NUM_GPIO)) == [] by {
      ConfiguredEmpty(Cleared(NUM_GPIO));
    }
  }
}
