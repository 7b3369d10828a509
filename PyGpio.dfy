/**
 * The channel manager of the Python binding: a numbering mode and a 54-entry
 * direction table. It has a single pin table (revision 1), checks the
 * direction before the mode in setup(), stores the mode before checking it in
 * setmode(), and lets input() read only channels set up as INPUT.
 */
module PyGpio {
  import opened Hardware
  import opened Results
  import opened PinMap
  import opened Directions

  /** The exceptions the binding raises. */
  datatype PyError =
    | WrongDirection    // output()/input() on a channel not set up in that direction
    | InvalidMode       // setmode() given neither BOARD nor BCM
    | InvalidDirection  // setup() given neither INPUT nor OUTPUT
    | InvalidChannel    // channel out of range, or a board pin that is not a gpio
    | ModeNotSet        // no valid numbering mode in force
    | SetupFailed       // loading: /dev/mem not accessible or mapping failed
    | NoMemory          // loading: allocation failed

  /** Calls the binding makes into the hardware layer. */
  datatype HwCall =
    | SetupGpio(gpio: int, direction: int)
    | OutputGpio(gpio: int, value: int)
    | Unmap   // cleanup(): release the register mapping

  /**
   * Channel to gpio number, as repeated in setup(), output() and input():
   * BCM accepts exactly 0..53 unchanged; BOARD accepts pins 1..26 that the
   * revision-1 table maps to a gpio. Every gpio returned indexes the
   * direction table.
   */
  function GpioNumber(mode: int, channel: int): (r: Result<int, PyError>)
    ensures r.Ok? ==> 0 <= r.value < NUM_GPIO
    ensures !IsMode(mode) ==> r == Err(ModeNotSet)
    ensures r.Err? ==> r.error == ModeNotSet || r.error == InvalidChannel
    ensures IsMode(mode) && r.Err? ==> r.error == InvalidChannel
    ensures mode == BCM ==> (r.Ok? <==> 0 <= channel < NUM_GPIO) && (r.Ok? ==> r.value == channel)
    ensures mode == BOARD ==> (r.Ok? <==> 1 <= channel <= 26 && PIN_TO_GPIO_REV1[channel] != UNSET)
    ensures mode == BOARD && r.Ok? ==> r.value == PIN_TO_GPIO_REV1[channel]
  {
    if !IsMode(mode) then Err(ModeNotSet)
    else if (mode == BCM && (channel < 0 || channel > 53)) || (mode == BOARD && (channel < 1 || channel > 26)) then
      Err(InvalidChannel)
    else if mode == BOARD then
      var gpio := PIN_TO_GPIO_REV1[channel];
      if gpio == UNSET then Err(InvalidChannel)
      else PinEntryInRange(PIN_TO_GPIO_REV1, channel); Ok(gpio)
    else Ok(channel)
  }

  /**
   * The checks setup() makes before touching anything: the direction first,
   * then the mode and the channel.
   */
  function CheckSetup(mode: int, channel: int, direction: int): (r: Result<int, PyError>)
    ensures !IsDirection(direction) ==> r == Err(InvalidDirection)
    ensures IsDirection(direction) && !IsMode(mode) ==> r == Err(ModeNotSet)
    ensures r.Ok? <==> IsDirection(direction) && GpioNumber(mode, channel).Ok?
    ensures r.Ok? ==> r.value == GpioNumber(mode, channel).value
    ensures r.Err? && r.error == InvalidChannel <==> IsDirection(direction) && IsMode(mode) && GpioNumber(mode, channel).Err?
  {
    if !IsDirection(direction) then Err(InvalidDirection)
    else GpioNumber(mode, channel)
  }

  /** The hardware calls that reset the listed gpios to input, in order. */
  function ResetCalls(gpios: seq<int>): (calls: seq<HwCall>)
    ensures |calls| == |gpios|
    ensures forall k :: 0 <= k < |gpios| ==> calls[k] == SetupGpio(gpios[k], INPUT)
  {
    seq(|gpios|, k requires 0 <= k < |gpios| => SetupGpio(gpios[k], INPUT))
  }

  /**
   * The exit-time cleanup of table d resets gpio g to input exactly
   * when its entry was set up. Every call in the list resets to input
   * (see ResetCalls), so it makes no other call.
   */
  lemma CleanupResetsExactlyConfigured(d: seq<int>, g: int)
    ensures SetupGpio(g, INPUT) in ResetCalls(Configured(d)) <==> 0 <= g < |d| && d[g] != UNSET
  {
    var cs := Configured(d);
    ConfiguredMembers(d, g);
    if SetupGpio(g, INPUT) in ResetCalls(cs) {
      var k :| 0 <= k < |cs| && ResetCalls(cs)[k] == SetupGpio(g, INPUT);
      assert cs[k] == g;
    }
    if 0 <= g < |d| && d[g] != UNSET {
      var k :| 0 <= k < |cs| && cs[k] == g;
      assert ResetCalls(cs)[k] == SetupGpio(g, INPUT);
    }
  }

  /** The state of the imported Python module. */
  class PyModule {
    var mode: int
    var direction: array<int>
    /** Every call made into the hardware layer, oldest first. */
    ghost var trace: seq<HwCall>

    ghost predicate Allocated()
      reads this
    {
      direction.Length == NUM_GPIO
    }

    ghost predicate Valid()
      reads this, direction
    {
      Allocated() && WellFormed(direction[..])
    }

    /** The static state before module_setup(): no mode, a zero-filled table. */
    constructor ()
      ensures Allocated() && fresh(direction)
      ensures direction[..] == seq(NUM_GPIO, _ => 0)
      ensures mode == MODE_UNKNOWN && trace == []
    {
      mode := MODE_UNKNOWN;
      direction := new int[NUM_GPIO](_ => 0);
      trace := [];
    }

    /**
     * module_setup(): clears the whole table, then maps the registers. The
     * table is cleared whatever the mapping's result. A failed mapping is
     * returned as SETUP_MALLOC_FAIL, like an allocation failure, though with
     * a different exception.
     */
    method ModuleSetup(setup: SetupResult) returns (code: SetupResult, r: Outcome<PyError>)
      requires Allocated()
      modifies direction
      ensures Valid()
      ensures direction[..] == Cleared(NUM_GPIO)
      ensures r == Pass <==> setup == SetupOk
      ensures code == SetupOk <==> setup == SetupOk
      ensures setup == SetupDevmemFail ==> code == SetupDevmemFail && r == Fail(SetupFailed)
      ensures setup == SetupMallocFail ==> code == SetupMallocFail && r == Fail(NoMemory)
      ensures setup == SetupMmapFail ==> code == SetupMallocFail && r == Fail(SetupFailed)
    {
      var i := 0;
      while i < NUM_GPIO
        invariant 0 <= i <= NUM_GPIO
        invariant forall g :: 0 <= g < i ==> direction[g] == UNSET
      {
        direction[i] := UNSET;
        i := i + 1;
      }
      match setup
      case SetupDevmemFail => code, r := SetupDevmemFail, Fail(SetupFailed);
      case SetupMallocFail => code, r := SetupMallocFail, Fail(NoMemory);
      case SetupMmapFail => code, r := SetupMallocFail, Fail(SetupFailed);
      case SetupOk => code, r := SetupOk, Pass;
    }

    /**
     * gpio_cleanup(), run at interpreter exit: resets every set-up gpio to
     * input, then releases the register mapping. The table itself is left
     * as it is.
     */
    method Cleanup()
      requires Valid()
      modifies this`trace
      ensures direction[..] == old(direction[..])
      ensures trace == old(trace) + ResetCalls(Configured(direction[..])) + [Unmap]
    {
      ghost var d := direction[..];
      var i := 0;
      while i < NUM_GPIO
        invariant 0 <= i <= NUM_GPIO
        invariant trace == old(trace) + ResetCalls(Configured(d[..i]))
      {
        ConfiguredSnoc(d, i);
        if direction[i] != UNSET {
          trace := trace + [SetupGpio(i, INPUT)];
        }
        i := i + 1;
      }
      assert d[..NUM_GPIO] == d;
      trace := trace + [Unmap];
    }

    /**
     * setup(channel, direction): on success only the gpio's direction entry
     * changes, and it becomes the requested direction.
     */
    method Setup(channel: int, dir: int) returns (r: Outcome<PyError>)
      requires Valid()
      modifies this`trace, direction
      ensures Valid()
      ensures var c := CheckSetup(mode, channel, dir);
        && (c.Err? ==> r == Fail(c.error) && direction[..] == old(direction[..]) && trace == old(trace))
        && (c.Ok? ==>
              && r == Pass
              && direction[..] == old(direction[..])[c.value := dir]
              && trace == old(trace) + [SetupGpio(c.value, dir)])
    {
      var c := CheckSetup(mode, channel, dir);
      if c.Err? {
        return Fail(c.error);
      }
      trace := trace + [SetupGpio(c.value, dir)];
      direction[c.value] := dir;
      r := Pass;
    }

    /** output(channel, value): only on a channel set up as OUTPUT; one hardware write. */
    method Output(channel: int, value: int) returns (r: Outcome<PyError>)
      requires Valid()
      modifies this`trace
      ensures var n := GpioNumber(mode, channel);
        && (n.Err? ==> r == Fail(n.error))
        && (n.Ok? && direction[n.value] != OUTPUT ==> r == Fail(WrongDirection))
        && (r == Pass <==> n.Ok? && direction[n.value] == OUTPUT)
        && trace == old(trace) + (if r == Pass then [OutputGpio(n.value, value)] else [])
    {
      var n := GpioNumber(mode, channel);
      if n.Err? {
        return Fail(n.error);
      }
      if direction[n.value] != OUTPUT {
        return Fail(WrongDirection);
      }
      trace := trace + [OutputGpio(n.value, value)];
      r := Pass;
    }

    /**
     * input(channel); level is what the chip reads. Only a channel set up
     * as INPUT can be read; the result is true exactly when the level is
     * nonzero.
     */
    method Input(channel: int, level: int) returns (r: Result<bool, PyError>)
      requires Valid()
      ensures var n := GpioNumber(mode, channel);
        && (n.Err? ==> r == Err(n.error))
        && (n.Ok? && direction[n.value] != INPUT ==> r == Err(WrongDirection))
        && (r.Ok? <==> n.Ok? && direction[n.value] == INPUT)
      ensures r.Ok? ==> (r.value <==> level != 0)
    {
      var n := GpioNumber(mode, channel);
      if n.Err? {
        return Err(n.error);
      }
      if direction[n.value] != INPUT {
        return Err(WrongDirection);
      }
      r := Ok(level != 0);
    }

    /** setmode(mode): stores the value first, then rejects it unless BOARD or BCM. */
    method SetMode(m: int) returns (r: Outcome<PyError>)
      modifies this`mode
      ensures mode == m
      ensures r == Pass <==> IsMode(m)
      ensures r.Fail? ==> r.error == InvalidMode
    {
      mode := m;
      if mode != BOARD && mode != BCM {
        return Fail(InvalidMode);
      }
      r := Pass;
    }
  }

  /**
   * Importing the module: clears the table and maps the registers; the
   * import fails when the mapping does.
   */
  method Import(setup: SetupResult) returns (r: Result<PyModule, PyError>)
    ensures r.Ok? <==> setup == SetupOk
    ensures setup == SetupMallocFail ==> r == Err(NoMemory)
    ensures setup == SetupDevmemFail || setup == SetupMmapFail ==> r == Err(SetupFailed)
    ensures r.Ok? ==>
      && fresh(r.value) && fresh(r.value.direction) && r.value.Valid()
      && r.value.direction[..] == Cleared(NUM_GPIO)
      && r.value.mode == MODE_UNKNOWN && r.value.trace == []
  {
    var m := new PyModule();
    var code, status := m.ModuleSetup(setup);
    if status.Fail? {
      return Err(status.error);
    }
    r := Ok(m);
  }

  /**
   * An invalid setmode() is kept: afterwards setup(), output() and input()
   * all fail with ModeNotSet rather than using the previous mode.
   */
  method InvalidModeIsKept(m: PyModule, bad: int, channel: int, dir: int, value: int, level: int)
    returns (setMode: Outcome<PyError>, setup: Outcome<PyError>, output: Outcome<PyError>, input: Result<bool, PyError>)
    requires m.Valid() && !IsMode(bad) && IsDirection(dir)
    modifies m`mode, m`trace, m.direction
    ensures m.mode == bad && m.direction[..] == old(m.direction[..]) && m.trace == old(m.trace)
    ensures setMode == Fail(InvalidMode)
    ensures setup == Fail(ModeNotSet) && output == Fail(ModeNotSet) && input == Err(ModeNotSet)
  {
    setMode := m.SetMode(bad);
    setup := m.Setup(channel, dir);
    output := m.Output(channel, value);
    input := m.Input(channel, level);
  }
}
