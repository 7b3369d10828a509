/**
 * How the two bindings' channel managers relate: the same channel lookup on
 * revision 1, and the points where their rules differ.
 */
module Bindings {
  import opened Hardware
  import opened Results
  import opened PinMap
  import Lua = LuaGpio
  import Py = PyGpio

  /** The Python error that corresponds to a Lua lookup error. */
  function LookupError(e: Lua.LuaError): Py.PyError {
    if e == Lua.ModeNotSet then Py.ModeNotSet else Py.InvalidChannel
  }

  /**
   * The Python lookup is the Lua lookup on the revision-1 table: the same
   * gpio when it succeeds, the same kind of error when it fails.
   */
  lemma PythonLookupIsLuaRevision1(mode: int, channel: int)
    ensures var l := Lua.GpioNumber(mode, PIN_TO_GPIO_REV1, channel);
      Py.GpioNumber(mode, channel) == if l.Ok? then Ok(l.value) else Err(LookupError(l.error))
  {
  }

  /**
   * On a revision-2 board the Python binding maps BOARD pins 3, 5 and 13 to
   * other gpios than the Lua binding does, and agrees on every other pin.
   */
  lemma PythonLookupOnRevision2(channel: int)
    requires 0 <= channel < NUM_PINS
    ensures var l := Lua.GpioNumber(BOARD, TableFor(2), channel);
      var p := Py.GpioNumber(BOARD, channel);
      (l.Ok? <==> p.Ok?) && (l.Ok? ==> (l.value != p.value <==> channel == 3 || channel == 5 || channel == 13))
  {
    TablesDifferOnlyAtRewiredPins(channel);
  }

  /**
   * With no mode set and a bad direction, Lua's setup() reports the mode
   * while Python's reports the direction: the checks run in opposite order.
   */
  lemma SetupCheckOrderDiffers(mode: int, pinToGpio: seq<int>, channel: int, direction: int, pud: int)
    requires IsPinTable(pinToGpio) && !IsMode(mode) && !IsDirection(direction)
    ensures Lua.CheckSetup(mode, pinToGpio, channel, direction, pud) == Err(Lua.ModeNotSet)
    ensures Py.CheckSetup(mode, channel, direction) == Err(Py.InvalidDirection)
  {
  }

  /** Lua's input() accepts a channel set up as OUTPUT; Python's rejects it. */
  method ReadOutputChannel(lm: Lua.LuaModule, pm: Py.PyModule, gpio: int, level: int)
    returns (l: Result<int, Lua.LuaError>, p: Result<bool, Py.PyError>)
    requires lm.Valid() && pm.Valid()
    requires lm.mode == BCM && pm.mode == BCM && 0 <= gpio < NUM_GPIO
    requires lm.direction[gpio] == OUTPUT && pm.direction[gpio] == OUTPUT
    ensures l.Ok? && (l.value == HIGH <==> level != 0)
    ensures p == Err(Py.WrongDirection)
  {
    l := lm.Input(gpio, level);
    p := pm.Input(gpio, level);
  }
}
