# USB3813 hub driver, modelled in Dafny

A model of the Linux driver for the Microchip USB3813 USB hub, which controls
the chip over I2C. The model has three parts.

- **The configuration-bus protocol.** The driver sends the chip three kinds of
  exchange: a bare 16-bit command, a staged register write followed by a
  `CFG_ACCESS` (0x9937) commit, and a register read. A read is a select, then a
  commit, then a combined write-and-read fetch. `BusCodec` gives the exact
  byte frames and a decoder for them. It proves that encoding and decoding
  are inverse in both directions.
- **The hub lifecycle.** `usb3813_enable_hub` sequences the hub clock, the
  `hub_reset_n` GPIO, the `vdd_hsic` regulator and a delayed attach work.
  When that work runs, it resets the slimport, writes the `HS_P2_BOOST`
  (0x68CA) register and sends `USB_ATTACH` (0xAA55).
- **The debug channel.** These are the functions behind the debugfs files
  `enable_dbg`, `address`, `data` and `attach`.

`struct usb3813_info` becomes the class `Usb3813Hub.Usb3813Info`. Its fields
are `hubEnabled`, `debugEnabled`, `debugAddress` and `hsicEnabled`, plus three
abstract hardware fields:

- `attachPending`: the delayed work is scheduled;
- `clockOn`: the clock was left prepared and enabled;
- `resetHigh`: the last level driven on the reset line.

The class also keeps an append-only history `trace` of every call the driver
makes into another subsystem: I2C transfers with their exact messages, GPIO
writes, clock and regulator calls, scheduling and cancelling of the work,
and the slimport reset. Each foreign call's result is a parameter of the
method that makes the call, so the verifier checks both the success path and
the failure path. Those results are:

- the `i2c_transfer` count or error;
- the `clk_prepare_enable` result;
- the regulator result;
- the two bytes a read leaves in the buffer.

The timer is modelled as the `attachPending` flag. `FireAttach` is the timer
expiring; `AttachWork` is the body of `usb3813_attach_w`.

The class invariant `Valid()` says two things:

- the attach work is pending only while the hub is enabled, clocked and out
  of reset;
- every transfer in the history goes to the chip's address and has one of
  the four recognised shapes.

The entry points keep this invariant: `EnableHub`, `AttachWork`,
`FireAttach`, `GetReg`, `SetReg`, `DbgEnableWrite` and `DbgAttachWrite`
require and ensure `Valid()`. The helpers they call (`Emit`, `Transmit`,
`WriteCommand`, `SendStageWrite`, `WriteCfgReg`, `SendSelect`, `ReadCfgReg`,
`SetHsicState`, `PowerUp`, `PowerDown`) keep only the history half,
`TraceOk()`; `PowerUp` on its own may leave the work pending with the hub
flag clear, and it is `EnableHub`, which sets the flag first, that restores
the whole invariant. `SetDebugAddress` touches neither half. `Trace.BusLog` decodes a history into the
transactions seen on the bus. `Trace.BusLogIsFaithful` proves that it loses
no byte.

Error numbers are the Linux values: EIO 5, EFAULT 14, EBUSY 16, ENODEV 19,
EINVAL 22, EINPROGRESS 115. The C integer conversions are written out:

- `boost_val` is an `unsigned int` passed as a `u8`;
- a `u64` is cast to `u8` in `set_reg`;
- an `int` is converted to `u8` in `get_reg`.

## Behaviour of the code that the model keeps

The model follows the code, including these points where its behaviour is
easy to mistake:

- `usb3813_enable_hub` does not check `debug_enabled`, so the hub can be
  enabled while debug mode is on (`Scenarios.HubEnabledDuringDebug`). Only
  the opposite direction is refused, with -EBUSY.
- `usb3813_dbg_enable_write` sets `debug_enabled` before it starts the clock.
  When the clock fails, the flag stays set and the result is -EFAULT.
- `usb3813_enable_hub` sets `hub_enabled` before it starts the clock. When
  the clock fails, the flag stays set, nothing is rolled back, and no attach
  work is armed.
- `get_reg` always returns 0 past its debug check. A read error reaches the
  caller only as its low byte, for example 0xFB for -EIO
  (`Scenarios.GetRegAfterNack`).
- `usb3813_dbg_attach_write` ignores the result of `USB_ATTACH` and returns 0.
- In `usb3813_read_cfg_reg`, only a negative fetch result is an error. A
  non-negative count other than 2 still returns the second buffer byte.
- `boost_val` is not range-checked. Only its low byte reaches the bus.

## Model

| member | source | states |
|---|---|---|
| `BusCodec.CommandFrame` | drivers/misc/usb3813_hub.c:67-69 | the command frame is 3 bytes, its first two bytes reassemble big-endian to the command, and the third byte is 0 |
| `BusCodec.WriteFrame` | drivers/misc/usb3813_hub.c:96-103 | the register-write frame is 8 bytes: header 00 00 05 00 01, then the register big-endian, then the value |
| `BusCodec.SelectFrame` | drivers/misc/usb3813_hub.c:130-136 | the register-select frame is 7 bytes: header 00 00 04 01 01, then the register big-endian |
| `BusCodec.Encode` | drivers/misc/usb3813_hub.c:156-162 | only the fetch exchange has two messages; every other exchange is one write message |
| `BusCodec.DecodeEncode` | drivers/misc/usb3813_hub.c:60-172 | every exchange the driver builds is recognised on the bus as exactly that exchange |
| `BusCodec.EncodeDecode` | drivers/misc/usb3813_hub.c:60-172 | a transfer recognised as an exchange is byte for byte that exchange's encoding, so the frame shapes leave no byte free |
| `BusCodec.EncodeInjective` | drivers/misc/usb3813_hub.c:60-172 | two different exchanges never put the same traffic on the bus |
| `BusCodec.Status` | drivers/misc/usb3813_hub.c:80-86 | a transfer is judged successful exactly when it moved one message; a negative result passes through, and any other count is -EIO |
| `BusCodec.LowByte32` | drivers/misc/usb3813_hub.c:280 | passing `boost_val` as a `u8` keeps its low byte and drops only the bits above it |
| `BusCodec.LowByte64` | drivers/misc/usb3813_hub.c:318 | the `(u8)` cast of the debugfs value keeps its low byte and drops only the bits above it |
| `BusCodec.LowByteInt` | drivers/misc/usb3813_hub.c:301-302 | converting the read result to `u8` gives a byte congruent to it modulo 256, and a register value in 0..255 is unchanged |
| `Trace.BusLogIsFaithful` | drivers/misc/usb3813_hub.c:76-78 | on a well-formed history, re-encoding the decoded bus log gives exactly the messages of every transfer, in order |
| `Trace.BusLogAppend` | drivers/misc/usb3813_hub.c:76-78 | the bus log of two histories in sequence is the concatenation of their logs |
| `Trace.NoTransfersNoLog` | drivers/misc/usb3813_hub.c:251-260 | a history with only GPIO, clock, regulator and work events shows nothing on the bus |
| `Usb3813Hub.WriteCfgRegBusLog` | drivers/misc/usb3813_hub.c:110-119 | a register write shows the staged write on the bus, then the `CFG_ACCESS` commit only when the staged write returned exactly 1 |
| `Usb3813Hub.WriteCfgRegResult` | drivers/misc/usb3813_hub.c:114-119 | a register write returns 0 exactly when both transfers moved one message; otherwise it returns the first failure's code |
| `Usb3813Hub.ReadCfgRegBusLog` | drivers/misc/usb3813_hub.c:143-166 | a register read shows select, commit and fetch on the bus in that order, stopping after the first step that fails |
| `Usb3813Hub.ReadCfgRegResult` | drivers/misc/usb3813_hub.c:147-171 | a read result is non-negative exactly when select and commit succeeded and the fetch reported no error; it is then the second fetched byte, below 256; otherwise it is the failing step's error |
| `Usb3813Hub.AttachBusLog` | drivers/misc/usb3813_hub.c:278-287 | the attach work resets the slimport first; the bus then sees one `HS_P2_BOOST` write of `boost_val`'s low byte, its commit only if that write was acknowledged, and always one `USB_ATTACH` |
| `Usb3813Hub.Usb3813Info.constructor` | drivers/misc/usb3813_hub.c:446-455 | a freshly bound device has the hub and debug mode disabled, address 0, the rail off, no work pending and an empty history |
| `Usb3813Hub.Usb3813Info.WriteCommand` | drivers/misc/usb3813_hub.c:60-87 | appends exactly one transfer of the 3-byte command frame and returns the transfer's status |
| `Usb3813Hub.Usb3813Info.SendStageWrite` | drivers/misc/usb3813_hub.c:96-112 | fills the 8-byte staged-write frame for the register and value and appends exactly one transfer of it |
| `Usb3813Hub.Usb3813Info.SendSelect` | drivers/misc/usb3813_hub.c:130-145 | fills the 7-byte select frame in a fresh buffer, appends exactly one transfer of it, and hands the buffer back, still holding that frame, for the fetch to reuse |
| `Usb3813Hub.Usb3813Info.WriteCfgReg` | drivers/misc/usb3813_hub.c:89-120 | appends the staged write, plus the commit only after an acknowledged write, and returns the composite result |
| `Usb3813Hub.Usb3813Info.ReadCfgReg` | drivers/misc/usb3813_hub.c:122-172 | fills the 7-byte select frame, then reuses its first two bytes for the fetch; appends select, commit and fetch up to the first failure and returns the register value or that failure's error |
| `Usb3813Hub.Usb3813Info.SetHsicState` | drivers/misc/usb3813_hub.c:174-195 | calls the regulator only to toggle the rail; the flag changes only when that call returns 0; with no toggle there is no call, no change and no defined result |
| `Usb3813Hub.Usb3813Info.EnableHub` | drivers/misc/usb3813_hub.c:230-264 | a request for the current state gives -EINPROGRESS and changes nothing; otherwise the flag is set and the work is cancelled before any hardware call; a clock failure gives -EFAULT with the flag set and nothing armed; an enable turns the clock on, sets reset to 1, arms the work for 1000 ms, and raises the rail on the bridge path only, returning 0 whatever the regulator says; a disable sets reset to 0, stops the clock, drops the rail on every path, and leaves nothing pending |
| `Usb3813Hub.Usb3813Info.PowerUp` | drivers/misc/usb3813_hub.c:245-256 | on a clock failure appends only the clock call and returns -EFAULT with nothing else changed; otherwise turns the clock on, sets reset to 1, arms the work for 1000 ms, raises the rail on the bridge path only, and returns 0 |
| `Usb3813Hub.Usb3813Info.PowerDown` | drivers/misc/usb3813_hub.c:257-261 | sets reset to 0, stops the clock, and drops the rail if it was up; the rail flag clears only when the regulator call succeeds |
| `Usb3813Hub.Usb3813Info.AttachWork` | drivers/misc/usb3813_hub.c:267-289 | does nothing once the hub is disabled; otherwise appends the attach sequence, including `USB_ATTACH` after a failed boost write |
| `Usb3813Hub.Usb3813Info.FireAttach` | drivers/misc/usb3813_hub.c:252-253 | when the timer expires, pending work runs exactly once and is no longer pending; cancelled work never runs |
| `Usb3813Hub.Usb3813Info.SetDebugAddress` | drivers/misc/usb3813_hub.c:402-403 | writing the address file selects the register for later data reads and writes |
| `Usb3813Hub.Usb3813Info.GetReg` | drivers/misc/usb3813_hub.c:291-305 | -ENODEV with no activity unless debug mode is on; otherwise it reads the selected register, returns 0, and yields the low byte of the read's result |
| `Usb3813Hub.Usb3813Info.SetReg` | drivers/misc/usb3813_hub.c:307-325 | -ENODEV with no activity unless debug mode is on; otherwise it writes the value's low byte to the selected register and returns that write's result |
| `Usb3813Hub.Usb3813Info.DbgEnableWrite` | drivers/misc/usb3813_hub.c:337-362 | -EBUSY with no change at all while the hub is enabled, for any value; a non-zero value sets the flag, then starts the clock (-EFAULT with the flag left set on failure) and sets reset to 1; zero sets reset to 0, stops the clock and clears the flag |
| `Usb3813Hub.Usb3813Info.DbgAttachWrite` | drivers/misc/usb3813_hub.c:367-386 | -EINVAL with no activity unless debug mode is on; otherwise it returns 0; a non-zero value sends one `USB_ATTACH`; zero pulses reset to 0, waits 10 ms, sets it back to 1, and sends nothing on the bus |
| `Scenarios.BridgeLifecycle` | drivers/misc/usb3813_hub.c:230-289 | bridge-path enable, timer, disable, timer: the exact hardware history; the bus sees only the boost write, its commit and `USB_ATTACH`; the rail is up while enabled, and nothing is pending at the end |
| `Scenarios.DefaultBoostLifecycle` | drivers/misc/usb3813_hub.c:38-40 | with `boost_val` at its default `HS_BOOST_MAX`, the lifecycle puts the boost byte 0x07 on the bus, then the commit and `USB_ATTACH` |
| `Scenarios.LifecycleLog` | drivers/misc/usb3813_hub.c:251-287 | the bus log of that lifecycle is exactly boost write, commit, `USB_ATTACH` |
| `Scenarios.DisableBeforeAttach` | drivers/misc/usb3813_hub.c:242-243 | a disable before the timer expires suppresses the attach sequence, whatever the oracles return: the bus sees nothing |
| `Scenarios.EnableTwice` | drivers/misc/usb3813_hub.c:239-240 | a second enable returns -EINPROGRESS and adds nothing to the history |
| `Scenarios.DebugRefusedWhileEnabled` | drivers/misc/usb3813_hub.c:341-344 | with the hub enabled, every write to the debug enable file gives -EBUSY and no activity |
| `Scenarios.AccessBeforeDebug` | drivers/misc/usb3813_hub.c:291-386 | before debug mode, data reads and writes give -ENODEV, the attach file gives -EINVAL, and nothing happens |
| `Scenarios.DebugWriteThenRead` | drivers/misc/usb3813_hub.c:291-325 | a debug write then read of the selected register shows staged write, commit, select, commit, fetch, and yields the second fetched byte |
| `Scenarios.WriteReadLog` | drivers/misc/usb3813_hub.c:307-325 | the bus log of that write-then-read sequence |
| `Scenarios.HubEnabledDuringDebug` | drivers/misc/usb3813_hub.c:230-242 | the hub can be enabled while debug mode is on; both flags then hold |
| `Scenarios.GetRegAfterNack` | drivers/misc/usb3813_hub.c:301-304 | a failed select still makes the data read succeed, yielding 0xFB, the low byte of -EIO |

## Left out

- Device binding and file plumbing: `usb3813_probe`, `usb3813_remove`,
  `usb3813_debug_init`, `usb3813_hsic_vdd_show`, `usb3813_hsic_vdd_store`,
  `usb3813_dbg_enable_show`, and the driver and match tables. They do
  registration, devicetree parsing and text formatting. The constructor
  stands for the state that probe leaves.
- The `-EINVAL` return of `usb3813_enable_hub` for a client with no driver
  data. A modelled device is always bound.
- `i2c_mutex` and concurrency. Each `i2c_transfer` is one atomic event. The
  race between cancelling the work and a work already running is reflected
  only in that `AttachWork` can be called directly, and it keeps its own
  `hub_enabled` check. Races between debug and hub toggles are not modelled.
- Time. `schedule_delayed_work` with `msecs_to_jiffies(1000)` is a
  `ScheduleAttach(1000)` event plus the `attachPending` flag. `mdelay(10)` is
  a `Delay(10)` event.
- Internals of the I2C, clock, GPIO, regulator and slimport subsystems. Their
  results are method parameters.
- Clock reference counting. `clockOn` records only whether the last call left
  the clock enabled, not the clock framework's enable count (for example,
  after two debug enables).
- `vdd_hsic` being an error pointer when the regulator lookup failed at
  probe time.
- Kernel log messages (`dev_err`).
- The `debug_attach` field, which the code never uses.
- Runtime writes to the `boost_val` module parameter. The value is fixed
  when the device is bound.
- The values of `enum usb_ext_path` other than `USB_EXT_PATH_BRIDGE`. The
  header `linux/mods/usb3813.h` is not part of this model, so the model
  distinguishes only the bridge path from the rest.
- Usb3813Hub.Usb3813Info.SetHsicState: when no toggle is needed, the result
  is modelled as None, because the source returns an uninitialised variable.
