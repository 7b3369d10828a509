# RPi.GPIO channel manager, modelled in Dafny

This project models the GPIO channel manager of the RPi.GPIO bindings for a
Raspberry Pi. The repository has two implementations of it:

- The Lua binding (`lua/RPi_GPIO_Lua_module.c`). Its state is a numbering
  mode (unknown, BOARD or BCM), a warnings flag, the detected board revision
  with the board-pin table it selects, and a 54-entry direction table.
  `setmode`, `setwarnings`, `setup`, `output`, `input`, `cleanup` and
  `gpio_function` validate a channel, map it to a gpio number, check or
  update the direction table, and call the hardware layer.
- The Python binding (`source/py_gpio.c`). It keeps the same kind of state
  with slightly different rules. It uses only the revision-1 pin table. Its
  `setup` checks the direction before the mode. Its `setmode` stores the
  mode before validating it. Its `input` reads only channels set up as
  INPUT.

Layout, one module per file:

- `Hardware.dfy`: constants of the low-level layer, such as directions,
  levels, pulls and modes.
- `Results.dfy`: the `Result` and `Outcome` error wrappers.
- `PinMap.dfy`: the two board-pin tables and their properties.
- `Directions.dfy`: the direction table, and `Configured`, the gpios a
  cleanup visits.
- `LuaGpio.dfy`: the Lua binding. Pure lookups and decoding are functions.
  The module state is the class `LuaModule`, with an `array<int>` direction
  table updated in place.
- `PyGpio.dfy`: the Python binding, with the class `PyModule` built the same
  way.
- `Bindings.dfy`: lemmas that compare the two bindings.

Calls into the hardware layer (`setup_gpio`, `output_gpio`, and the Python
`cleanup()` unmapping) are appended to a ghost `trace`. Values read from the
hardware are method parameters:

- the function-select code for `gpio_function(gpio)`;
- the level returned by `input_gpio(gpio)`;
- the result of `setup()`;
- the detected board revision;
- the result of `init_module()`.

The binding's "already in use" and "nothing to clean up" warnings are a
`warned: bool` result. The constants come from `c_gpio.h` and `common.h`,
which are not part of this model. The model uses that layer's values (INPUT
1, OUTPUT 0, HIGH 1, LOW 0, PUD_OFF 0, PUD_DOWN 1, PUD_UP 2, BOARD 10, BCM
11, MODE_UNKNOWN -1); the proofs rely only on the constants of each group
being distinct, and on the -1 sentinels (UNSET in the direction table,
NO_INITIAL for `setup`'s initial level) differing from INPUT/OUTPUT and
LOW/HIGH. The direction table declared by the Lua binding's support code is
modelled as a field of `LuaModule`.

The Python `module_setup` returns SETUP_MALLOC_FAIL when the register
mapping fails (source/py_gpio.c:64-66). `PyGpio.PyModule.ModuleSetup`
models that. Its caller only compares the code with SETUP_OK, so the mix-up
cannot be observed.

## Model

| member | source | states |
|---|---|---|
| `PinMap.TableFor` | lua/RPi_GPIO_Lua_module.c:496-500 | revision 1 selects the revision-1 table; every other revision selects the revision-2 table |
| `PinMap.TablesMapIntoDirectionTable` | lua/RPi_GPIO_Lua_module.c:49-50 | every entry of both tables is -1 or a gpio in 0..53, so a board lookup never indexes the direction table out of bounds |
| `PinMap.TablesDifferOnlyAtRewiredPins` | lua/RPi_GPIO_Lua_module.c:49-50 | the revision-1 and revision-2 tables differ exactly at pins 3, 5 and 13 |
| `PinMap.TableInjective` | lua/RPi_GPIO_Lua_module.c:49-50 | two different board pins never map to the same gpio |
| `Directions.Configured` | lua/RPi_GPIO_Lua_module.c:220-228 | the gpios whose entry is not -1, in table order: the reference list both cleanup loops are proved against; never longer than the table |
| `Directions.ConfiguredMembers` | lua/RPi_GPIO_Lua_module.c:220-228 | the cleanup loop visits a gpio exactly when its direction entry is not -1 |
| `Directions.ConfiguredAscending` | lua/RPi_GPIO_Lua_module.c:220-228 | the cleanup loop visits each set-up gpio once, in ascending order |
| `Directions.ConfiguredEmpty` | lua/RPi_GPIO_Lua_module.c:230-232 | the cleanup loop finds nothing exactly when every entry is -1 |
| `LuaGpio.GpioNumber` | lua/RPi_GPIO_Lua_module.c:54-83 | fails with ModeNotSet unless the mode is BOARD or BCM, and under a valid mode every rejected channel fails with InvalidChannel; BCM accepts exactly 0..53 and returns the channel unchanged; BOARD accepts pins 1..26 whose table entry is not -1 and returns that entry; every gpio returned is in 0..53 |
| `LuaGpio.CheckSetup` | lua/RPi_GPIO_Lua_module.c:148-158 | mode and channel errors come before the direction check; the direction must be INPUT or OUTPUT, else InvalidDirection; OUTPUT forces the pull to PUD_OFF; an input's pull, minus the offset 20, must be PUD_OFF, PUD_DOWN or PUD_UP, else InvalidPull |
| `LuaGpio.AlreadyInUse` | lua/RPi_GPIO_Lua_module.c:161-163 | the "already in use" warning needs warnings on; it is given for every alternate function, never for a chip input, never for an output this program set up, and always for an output this program has not set up |
| `LuaGpio.InitialWrite` | lua/RPi_GPIO_Lua_module.c:168-171 | an initial level is written only for an OUTPUT whose initial value is LOW or HIGH |
| `LuaGpio.DefaultInitialWritesNothing` | lua/RPi_GPIO_Lua_module.c:107 | the default initial value -1 writes nothing |
| `LuaGpio.CleanupResetsExactlyConfigured` | lua/RPi_GPIO_Lua_module.c:219-228 | cleanup calls setup_gpio(g, INPUT, PUD_OFF) exactly for the gpios whose entry was not -1, and makes no other call |
| `LuaGpio.CleanupResetsAscending` | lua/RPi_GPIO_Lua_module.c:220-228 | cleanup resets each gpio at most once, in ascending order |
| `LuaGpio.DecodeFunction` | lua/RPi_GPIO_Lua_module.c:248-281 | code 0 is IN, code 1 is OUT; code 4 is I2C on gpios 0/1 for revision 1 and 2/3 for revision 2, SPI on 7..11, SERIAL on 14/15; code 5 is PWM on gpio 18 only; everything else is UNKNOWN |
| `LuaGpio.I2CIsBoardPins3And5` | lua/RPi_GPIO_Lua_module.c:253-261 | on revisions 1 and 2, the gpios reported as I2C are exactly those wired to board pins 3 and 5 of that revision's table |
| `LuaGpio.LuaModule.constructor` | lua/RPi_GPIO_Lua_module.c:415-416 | a loaded module starts with all 54 direction entries -1, no mode and warnings on |
| `LuaGpio.LuaModule.SetMode` | lua/RPi_GPIO_Lua_module.c:85-94 | a mode other than BOARD or BCM fails with InvalidMode and leaves the mode unchanged; a valid one is stored |
| `LuaGpio.LuaModule.SetWarnings` | lua/RPi_GPIO_Lua_module.c:96-100 | stores the warnings flag |
| `LuaGpio.LuaModule.Setup` | lua/RPi_GPIO_Lua_module.c:148-175 | a rejected setup changes nothing; an accepted one changes only the gpio's direction entry, to the requested direction; it first writes the initial level when there is one, then configures the gpio; it warns when warnings are on and the chip reports an alternate function, or an output not set up by this program |
| `LuaGpio.LuaModule.Output` | lua/RPi_GPIO_Lua_module.c:179-190 | fails with NotOutput unless the gpio's entry is OUTPUT; on success makes exactly one hardware write |
| `LuaGpio.LuaModule.Input` | lua/RPi_GPIO_Lua_module.c:193-208 | fails with NotSetUp unless the entry is INPUT or OUTPUT; returns HIGH exactly when the level read is nonzero, else LOW |
| `LuaGpio.LuaModule.Cleanup` | lua/RPi_GPIO_Lua_module.c:210-235 | afterwards all 54 entries are -1; the set-up gpios are reset to input; it warns exactly when warnings are on and no entry was set up |
| `LuaGpio.LuaModule.GpioFunction` | lua/RPi_GPIO_Lua_module.c:237-284 | fails with InitFailed when the module cannot be initialised, then with a lookup error; otherwise decodes the chip's function-select code |
| `LuaGpio.Open` | lua/RPi_GPIO_Lua_module.c:410-500 | loading fails when the register mapping fails, with the matching error, or when no revision is detected; otherwise the module starts cleared with the table for the detected revision |
| `LuaGpio.CleanupTwice` | test/test.py:186-192 | after one cleanup a second one resets nothing and warns exactly when warnings are on |
| `PyGpio.GpioNumber` | source/py_gpio.c:108-127 | fails with ModeNotSet unless the mode is BOARD or BCM, and under a valid mode every rejected channel fails with InvalidChannel; BCM accepts exactly 0..53 unchanged; BOARD accepts pins 1..26 with a revision-1 entry other than -1; every gpio returned is in 0..53 |
| `PyGpio.CheckSetup` | source/py_gpio.c:96-127 | setup checks the direction first, then the mode, then the channel range, then the -1 table entries |
| `PyGpio.CleanupResetsExactlyConfigured` | source/py_gpio.c:78-83 | the exit-time cleanup calls setup_gpio(g, INPUT) exactly for the gpios whose entry is not -1 |
| `PyGpio.PyModule.constructor` | source/py_gpio.c:39-45 | before module setup the mode is unknown |
| `PyGpio.PyModule.ModuleSetup` | source/py_gpio.c:48-70 | all 54 entries become -1 whatever the mapping result; each mapping failure gives its code and exception |
| `PyGpio.PyModule.Cleanup` | source/py_gpio.c:73-86 | resets exactly the set-up gpios to input, then unmaps; the direction table is left unchanged |
| `PyGpio.PyModule.Setup` | source/py_gpio.c:89-135 | a rejected setup changes nothing; an accepted one changes only the gpio's direction entry, to the requested direction, with one setup_gpio call |
| `PyGpio.PyModule.Output` | source/py_gpio.c:138-183 | fails with WrongDirection unless the entry is OUTPUT; on success issues exactly one hardware write |
| `PyGpio.PyModule.Input` | source/py_gpio.c:186-232 | fails with WrongDirection unless the entry is exactly INPUT; returns true exactly when the level read is nonzero |
| `PyGpio.PyModule.SetMode` | source/py_gpio.c:235-248 | stores the given mode before validating it; fails with InvalidMode unless it is BOARD or BCM |
| `PyGpio.Import` | source/py_gpio.c:321-328 | importing fails exactly when the register mapping fails; otherwise the module starts with all entries -1 and no mode |
| `PyGpio.InvalidModeIsKept` | source/py_gpio.c:235-244 | after an invalid setmode, the invalid value is kept and setup, output and input all fail with ModeNotSet |
| `Bindings.PythonLookupIsLuaRevision1` | source/py_gpio.c:108-127 | the Python lookup equals the Lua lookup on the revision-1 table, with the same kind of error |
| `Bindings.PythonLookupOnRevision2` | source/py_gpio.c:40 | on a revision-2 board the Python binding maps board pins 3, 5 and 13 to other gpios than the Lua binding, and agrees on all other pins |
| `Bindings.SetupCheckOrderDiffers` | source/py_gpio.c:96-106 | with no mode and a bad direction, Lua reports ModeNotSet while Python reports InvalidDirection |
| `Bindings.ReadOutputChannel` | source/py_gpio.c:220-224 | Lua's input reads a channel set up as OUTPUT; Python's rejects it with WrongDirection |

## Left out

- Event detection and callbacks (`add_event_detect`, `add_event_callback`, `wait_for_edge` and related entry points): the Lua binding only raises "not implemented" for them (lua/RPi_GPIO_Lua_module.c:393-397), and the edge-detection code is not part of this model.
- The darksidesync files (lua/darksidesync_aux.c, lua/darksidesync_aux.h, lua/darksidesync_api.h): they only forward calls to an external library.
- PWM objects (lua/RPi_GPIO_Lua_module.c:287-375): they use floating-point frequency and duty cycle and drive a software-PWM thread that is not part of this model.
- Register access (`setup`, `setup_gpio`, `output_gpio`, `input_gpio`, `gpio_function`, `init_module`, `get_rpi_revision`, and mapping /dev/mem): calls become trace entries, reads become method parameters.
- Argument marshalling (Lua table-form arguments, `luaL_checkint`, `PyArg_ParseTuple`): callers pass every argument explicitly. So the Lua "invalid number of args" error and Python's parse failures are not modelled. Lua's defaults are `LUA_PUD_OFF` and `NO_INITIAL`.
- Registration of the module's constants, exception classes and functions (lua/RPi_GPIO_Lua_module.c:428-489, source/py_gpio.c:274-319), and the Python exit hook (source/py_gpio.c:330-332).
- The warning texts: a warning is modelled as a boolean result.
- LuaGpio.Open: only the first load of the Lua binding in a process is modelled, as creating fresh state. In the source the mode, warnings flag, direction table and pin table are process-wide globals. A later load (another Lua state, or a reload) clears the direction table but keeps the earlier mode and warnings flag. A failed `setup()` in one Lua state clears the table another state is using. The model also clears the table after the mapping and revision checks rather than before them.
- LuaGpio.Open: when no revision is detected the source has already published the module's functions (lua/RPi_GPIO_Lua_module.c:434) before raising the error, so a later `require` gets a module whose pin table was never selected; the model returns no module in that case.
- LuaGpio.LuaModule.constructor: it ensures no mode and warnings on, which holds only for the first load in a process; `luaopen_GPIO` itself resets only the direction table and never assigns the mode or the warnings flag, whose starting values are static initialisers (lua/RPi_GPIO_Lua_module.c:48, 52).
- RPi/GPIO/__init__.py (a sysfs variant), source/exceptions.c and setup.py: these are packaging and alternative front ends, not the channel manager.
