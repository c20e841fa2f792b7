/** The USB3813 hub driver: the per-device state of struct usb3813_info, the
    three bus transactions built on i2c_transfer, the hub enable/disable
    lifecycle with its delayed attach work, and the debug register channel.

    Every call into another subsystem is an event appended to `trace`; its
    result (a transfer count, a clock or regulator return code, the bytes a
    read brings back) is a parameter of the method that makes the call. */
module Usb3813Hub {
  import opened Errno
  import opened Wrappers
  import opened BusCodec
  import opened Trace

  /** The enum usb_ext_path argument of usb3813_enable_hub; only the bridge
      path is told apart by the driver. */
  datatype UsbExtPath = PathBridge | PathOther

  /** Delay before the attach work runs after the hub is enabled. */
  const ATTACH_DELAY_MS: nat := 1000
  /** Length of the manual reset pulse of the debug attach file. */
  const RESET_PULSE_MS: nat := 10

  // ---------------------------------------------------------------------
  // What each bus operation puts on the bus and returns, as functions of
  // the transfer results it receives.

  /** Events of usb3813_write_cfg_reg: the staged write, then the commit
      only if the staged write was acknowledged as exactly one message. */
  function WriteCfgRegEvents(addr: u16, reg: u16, val: u8, xfer: int): seq<Event>
  {
    [Xfer(addr, StageWrite(reg, val))] + (if xfer == 1 then [Xfer(addr, Command(CFG_ACCESS))] else [])
  }

  /** What an observer of the bus sees of usb3813_write_cfg_reg. */
  lemma WriteCfgRegBusLog(addr: u16, reg: u16, val: u8, xfer: int)
    ensures WellFormed(WriteCfgRegEvents(addr, reg, val, xfer), addr)
    ensures BusLog(WriteCfgRegEvents(addr, reg, val, xfer))
         == [StageWrite(reg, val)] + (if xfer == 1 then [Command(CFG_ACCESS)] else [])
  {
    var w, c := Xfer(addr, StageWrite(reg, val)), Xfer(addr, Command(CFG_ACCESS));
    BusLogXfer(addr, StageWrite(reg, val));
    BusLogXfer(addr, Command(CFG_ACCESS));
    BusLogAppend([w], [c]);
    assert [w] + [c] == [w, c];
    WellFormedAppend([w], [c], addr);
  }

  /** Result of usb3813_write_cfg_reg: 0 only when both transfers moved
      exactly one message; otherwise the first failure's code. */
  function WriteCfgRegResult(xfer: int, commitXfer: int): (r: int)
    ensures r <= 0
    ensures r == 0 <==> xfer == 1 && commitXfer == 1
    ensures xfer != 1 ==> r == Status(xfer)
    ensures xfer == 1 ==> r == Status(commitXfer)
  {
    if xfer != 1 then Status(xfer) else Status(commitXfer)
  }

  /** Events of usb3813_read_cfg_reg: select, commit, fetch, stopping after
      the first step that fails. */
  function ReadCfgRegEvents(addr: u16, reg: u16, selectXfer: int, commitXfer: int): seq<Event>
  {
    var s, c, f := Xfer(addr, Select(reg)), Xfer(addr, Command(CFG_ACCESS)), Xfer(addr, Fetch);
    if selectXfer != 1 then [s]
    else if commitXfer != 1 then [s, c]
    else [s, c, f]
  }

  /** What an observer of the bus sees of usb3813_read_cfg_reg: a prefix of
      select, commit, fetch that ends at the first failed step. */
  lemma ReadCfgRegBusLog(addr: u16, reg: u16, selectXfer: int, commitXfer: int)
    ensures WellFormed(ReadCfgRegEvents(addr, reg, selectXfer, commitXfer), addr)
    ensures BusLog(ReadCfgRegEvents(addr, reg, selectXfer, commitXfer)) ==
      (if selectXfer != 1 then [Select(reg)]
       else if commitXfer != 1 then [Select(reg), Command(CFG_ACCESS)]
       else [Select(reg), Command(CFG_ACCESS), Fetch])
  {
    var s, c, f := Xfer(addr, Select(reg)), Xfer(addr, Command(CFG_ACCESS)), Xfer(addr, Fetch);
    BusLogXfer(addr, Select(reg));
    BusLogXfer(addr, Command(CFG_ACCESS));
    BusLogXfer(addr, Fetch);
    BusLogAppend([s], [c]);
    BusLogAppend([s, c], [f]);
    assert [s] + [c] == [s, c];
    assert [s, c] + [f] == [s, c, f];
    WellFormedAppend([s], [c], addr);
    WellFormedAppend([s, c], [f], addr);
  }

  /** Result of usb3813_read_cfg_reg. A non-negative result is a register
      value, the second byte of the fetch; it is produced exactly when select
      and commit were acknowledged and the fetch did not report an error.
      A non-negative fetch count other than 2 is not treated as an error. */
  function ReadCfgRegResult(selectXfer: int, commitXfer: int, fetchXfer: int, rx: (u8, u8)): (r: int)
    ensures r >= 0 <==> selectXfer == 1 && commitXfer == 1 && fetchXfer >= 0
    ensures r >= 0 ==> r == rx.1 as int && r < 256
    ensures selectXfer != 1 ==> r == Status(selectXfer)
    ensures selectXfer == 1 && commitXfer != 1 ==> r == Status(commitXfer)
    ensures selectXfer == 1 && commitXfer == 1 && fetchXfer < 0 ==> r == fetchXfer
  {
    if selectXfer != 1 then Status(selectXfer)
    else if Status(commitXfer) < 0 then Status(commitXfer)
    else if fetchXfer < 0 then fetchXfer
    else rx.1 as int
  }

  /** Events of usb3813_attach_w once it sees the hub enabled: slimport
      reset, the boost register write (boost_val truncated to u8), then
      USB_ATTACH whatever became of the boost write. */
  function AttachEvents(addr: u16, boostVal: bv32, boostXfer: int): seq<Event>
  {
    [SlimportReset] + WriteCfgRegEvents(addr, HS_P2_BOOST, LowByte32(boostVal), boostXfer)
    + [Xfer(addr, Command(USB_ATTACH))]
  }

  /** The attach work resets the slimport before any bus traffic, and the bus
      sees exactly one boost write carrying boost_val's low byte, its commit
      only if that write was acknowledged, and always one USB_ATTACH. */
  lemma AttachBusLog(addr: u16, boostVal: bv32, boostXfer: int)
    ensures AttachEvents(addr, boostVal, boostXfer)[0] == SlimportReset
    ensures WellFormed(AttachEvents(addr, boostVal, boostXfer), addr)
    ensures BusLog(AttachEvents(addr, boostVal, boostXfer)) ==
      [StageWrite(HS_P2_BOOST, LowByte32(boostVal))]
      + (if boostXfer == 1 then [Command(CFG_ACCESS)] else [])
      + [Command(USB_ATTACH)]
  {
    var w := WriteCfgRegEvents(addr, HS_P2_BOOST, LowByte32(boostVal), boostXfer);
    var a := Xfer(addr, Command(USB_ATTACH));
    WriteCfgRegBusLog(addr, HS_P2_BOOST, LowByte32(boostVal), boostXfer);
    BusLogOne(SlimportReset);
    BusLogXfer(addr, Command(USB_ATTACH));
    XferDecodes(addr, Command(USB_ATTACH));
    BusLogAppend([SlimportReset], w);
    BusLogAppend([SlimportReset] + w, [a]);
    WellFormedAppend([SlimportReset], w, addr);
    WellFormedAppend([SlimportReset] + w, [a], addr);
  }

  class Usb3813Info {
    /** client->addr, the chip's address on the bus. */
    const addr: u16
    /** The boost_val module parameter, as configured when the device was bound. */
    const boostVal: bv32

    var hubEnabled: bool
    var debugEnabled: bool
    var debugAddress: u16
    var hsicEnabled: bool
    /** The attach delayed work is scheduled and has not yet run. */
    var attachPending: bool
    /** The hub clock was last left prepared and enabled. */
    var clockOn: bool
    /** The level last driven on hub_reset_n (high = out of reset). */
    var resetHigh: bool
    /** Every call into another subsystem, in order. */
    var trace: seq<Event>

    ghost predicate TraceOk()
      reads this
    {
      WellFormed(trace, addr)
    }

    /** The attach work is only ever pending while the hub is enabled and
        powered out of reset; all bus traffic has one of the four shapes. */
    ghost predicate Valid()
      reads this
    {
      && TraceOk()
      && (attachPending ==> hubEnabled && clockOn && resetHigh)
    }

    /** The state usb3813_probe leaves: zero-initialised fields, hub disabled,
        reset line at the level its devicetree flags request. */
    constructor (addr: u16, boostVal: bv32, resetInit: bool)
      ensures Valid()
      ensures this.addr == addr && this.boostVal == boostVal
      ensures !hubEnabled && !debugEnabled && debugAddress == 0 && !hsicEnabled
      ensures !attachPending && !clockOn && resetHigh == resetInit && trace == []
    {
      this.addr := addr;
      this.boostVal := boostVal;
      hubEnabled := false;
      debugEnabled := false;
      debugAddress := 0;
      hsicEnabled := false;
      attachPending := false;
      clockOn := false;
      resetHigh := resetInit;
      trace := [];
    }

    /** Appends one event to the history. */
    method Emit(e: Event)
      requires TraceOk()
      requires EventOk(e, addr)
      modifies this`trace
      ensures TraceOk()
      ensures trace == old(trace) + [e]
    {
      WellFormedAppend(trace, [e], addr);
      trace := trace + [e];
    }

    /** One i2c_transfer of `msgs` to the chip, which are the encoding of `t`. */
    method Transmit(msgs: seq<Msg>, ghost t: Transaction)
      requires TraceOk()
      requires msgs == Encode(t)
      modifies this`trace
      ensures TraceOk()
      ensures trace == old(trace) + [Xfer(addr, t)]
    {
      XferDecodes(addr, t);
      Emit(Transfer(addr, msgs));
    }

    /** usb3813_write_command: one 3-byte command frame in one transfer. */
    method WriteCommand(command: u16, xfer: int) returns (ret: int)
      requires TraceOk()
      modifies this`trace
      ensures TraceOk()
      ensures trace == old(trace) + [Xfer(addr, Command(command))]
      ensures ret == Status(xfer)
    {
      var data := new u8[3];
      data[0] := Hi(command);
      data[1] := Lo(command);
      data[2] := 0x00;
      assert data[..] == CommandFrame(command);
      Transmit([WriteMsg(data[..])], Command(command));
      if xfer < 0 {
        return xfer;
      } else if xfer != 1 {
        return -EIO;
      }
      return 0;
    }

    /** The first transfer of usb3813_write_cfg_reg: the 8-byte frame that
        stages `val` for register `reg`. */
    method SendStageWrite(reg: u16, val: u8)
      requires TraceOk()
      modifies this`trace
      ensures TraceOk()
      ensures trace == old(trace) + [Xfer(addr, StageWrite(reg, val))]
    {
      var data := new u8[8];
      data[0] := 0x00;
      data[1] := 0x00;
      data[2] := 0x05;
      data[3] := 0x00;
      data[4] := 0x01;
      data[5] := Hi(reg);
      data[6] := Lo(reg);
      data[7] := val;
      assert data[..] == WriteFrame(reg, val);
      Transmit([WriteMsg(data[..])], StageWrite(reg, val));
    }

    /** usb3813_write_cfg_reg: stage `val` for register `reg`, then commit it. */
    method WriteCfgReg(reg: u16, val: u8, xfer: int, commitXfer: int) returns (ret: int)
      requires TraceOk()
      modifies this`trace
      ensures TraceOk()
      ensures trace == old(trace) + WriteCfgRegEvents(addr, reg, val, xfer)
      ensures ret == WriteCfgRegResult(xfer, commitXfer)
    {
      SendStageWrite(reg, val);
      if xfer < 0 {
        return xfer;
      } else if xfer != 1 {
        return -EIO;
      }
      ret := WriteCommand(CFG_ACCESS, commitXfer);
    }

    /** The select step of usb3813_read_cfg_reg: the 7-byte select frame is
        built in a fresh buffer and sent; the buffer is handed back for reuse. */
    method SendSelect(reg: u16) returns (data: array<u8>)
      requires TraceOk()
      modifies this`trace
      ensures TraceOk()
      ensures trace == old(trace) + [Xfer(addr, Select(reg))]
      ensures fresh(data) && data.Length == 7 && data[..] == SelectFrame(reg)
    {
      data := new u8[7];
      data[0] := 0x00;
      data[1] := 0x00;
      data[2] := 0x04;
      data[3] := 0x01;
      data[4] := 0x01;
      data[5] := Hi(reg);
      data[6] := Lo(reg);
      assert data[..] == SelectFrame(reg);
      Transmit([WriteMsg(data[..])], Select(reg));
    }

    /** usb3813_read_cfg_reg: select register `reg`, commit, and fetch its
        value; `rx` is what the read message leaves in the two-byte buffer. */
    method ReadCfgReg(reg: u16, selectXfer: int, commitXfer: int, fetchXfer: int, rx: (u8, u8))
      returns (ret: int)
      requires TraceOk()
      modifies this`trace
      ensures TraceOk()
      ensures trace == old(trace) + ReadCfgRegEvents(addr, reg, selectXfer, commitXfer)
      ensures ret == ReadCfgRegResult(selectXfer, commitXfer, fetchXfer, rx)
    {
      var data := SendSelect(reg);
      if selectXfer < 0 {
        return selectXfer;
      } else if selectXfer != 1 {
        return -EIO;
      }

      ret := WriteCommand(CFG_ACCESS, commitXfer);
      if ret < 0 {
        return;
      }

      // the select buffer is reused: its first two bytes, with the length cut to 2
      data[0] := 0x00;
      data[1] := 0x04;
      var len := 2;
      var val := new u8[2];
      assert data[..len] == FETCH_FRAME;
      Transmit([WriteMsg(data[..len]), ReadMsg(val.Length)], Fetch);
      val[0], val[1] := rx.0, rx.1;
      if fetchXfer < 0 {
        return fetchXfer;
      }
      return val[1] as int;
    }

    /** set_hsic_state: switch the vdd_hsic rail only when it is in the other
        state; the flag follows only a successful regulator call. When no
        switch is needed the source returns an uninitialised value: None. */
    method SetHsicState(enable: bool, regulatorRet: int) returns (ret: Option<int>)
      requires TraceOk()
      modifies this`hsicEnabled, this`trace
      ensures TraceOk()
      ensures enable == old(hsicEnabled) ==>
        ret == None && hsicEnabled == old(hsicEnabled) && trace == old(trace)
      ensures enable != old(hsicEnabled) ==>
        && ret == Some(regulatorRet)
        && trace == old(trace) + [if enable then RegulatorEnable else RegulatorDisable]
        && hsicEnabled == (if regulatorRet == 0 then enable else old(hsicEnabled))
    {
      ret := None;
      if enable && !hsicEnabled {
        Emit(RegulatorEnable);
        ret := Some(regulatorRet);
        if regulatorRet == 0 {
          hsicEnabled := true;
        }
      } else if !enable && hsicEnabled {
        Emit(RegulatorDisable);
        ret := Some(regulatorRet);
        if regulatorRet == 0 {
          hsicEnabled := false;
        }
      }
    }

    /** usb3813_enable_hub. A request for the current state is refused with
        -EINPROGRESS and touches nothing. Otherwise the flag is set and the
        attach work cancelled before any hardware call. Enabling starts the
        clock (on failure: -EFAULT, the flag stays set, nothing more is done),
        releases reset, arms the attach work and, on the bridge path only,
        raises vdd_hsic (its failure is not reported). Disabling asserts
        reset, stops the clock and drops vdd_hsic whatever the path. */
    method EnableHub(enable: bool, path: UsbExtPath, clockRet: int, regulatorRet: int) returns (ret: int)
      requires Valid()
      modifies this
      ensures Valid()
      ensures debugEnabled == old(debugEnabled) && debugAddress == old(debugAddress)
      ensures enable == old(hubEnabled) ==> ret == -EINPROGRESS && unchanged(this)
      ensures enable != old(hubEnabled) ==> hubEnabled == enable
      ensures enable && !old(hubEnabled) && clockRet != 0 ==>
        && ret == -EFAULT
        && trace == old(trace) + [CancelAttach, ClockEnable]
        && !attachPending && clockOn == old(clockOn) && resetHigh == old(resetHigh)
        && hsicEnabled == old(hsicEnabled)
      ensures enable && !old(hubEnabled) && clockRet == 0 ==>
        && ret == 0
        && trace == old(trace) + [CancelAttach, ClockEnable, Gpio(true), ScheduleAttach(ATTACH_DELAY_MS)]
                   + (if path == PathBridge && !old(hsicEnabled) then [RegulatorEnable] else [])
        && attachPending && clockOn && resetHigh
        && hsicEnabled == (old(hsicEnabled) || (path == PathBridge && regulatorRet == 0))
      ensures !enable && old(hubEnabled) ==>
        && ret == 0
        && trace == old(trace) + [CancelAttach, Gpio(false), ClockDisable]
                   + (if old(hsicEnabled) then [RegulatorDisable] else [])
        && !attachPending && !clockOn && !resetHigh
        && hsicEnabled == (old(hsicEnabled) && regulatorRet != 0)
    {
      if enable == hubEnabled {
        return -EINPROGRESS;
      }

      hubEnabled := enable;
      attachPending := false;
      Emit(CancelAttach);

      if hubEnabled {
        ret := PowerUp(path, clockRet, regulatorRet);
      } else {
        PowerDown(regulatorRet);
        ret := 0;
      }
    }

    /** The enable arm of usb3813_enable_hub, after the attach work has been
        cancelled. */
    method PowerUp(path: UsbExtPath, clockRet: int, regulatorRet: int) returns (ret: int)
      requires TraceOk()
      modifies this`clockOn, this`resetHigh, this`attachPending, this`hsicEnabled, this`trace
      ensures TraceOk()
      ensures clockRet != 0 ==>
        && ret == -EFAULT
        && trace == old(trace) + [ClockEnable]
        && attachPending == old(attachPending) && clockOn == old(clockOn)
        && resetHigh == old(resetHigh) && hsicEnabled == old(hsicEnabled)
      ensures clockRet == 0 ==>
        && ret == 0
        && trace == old(trace) + [ClockEnable, Gpio(true), ScheduleAttach(ATTACH_DELAY_MS)]
                   + (if path == PathBridge && !old(hsicEnabled) then [RegulatorEnable] else [])
        && attachPending && clockOn && resetHigh
        && hsicEnabled == (old(hsicEnabled) || (path == PathBridge && regulatorRet == 0))
    {
      Emit(ClockEnable);
      if clockRet != 0 {
        return -EFAULT;
      }
      clockOn := true;
      Emit(Gpio(true));
      resetHigh := true;
      Emit(ScheduleAttach(ATTACH_DELAY_MS));
      attachPending := true;
      if path == PathBridge {
        var _ := SetHsicState(true, regulatorRet);
      }
      return 0;
    }

    /** The disable arm of usb3813_enable_hub, after the attach work has been
        cancelled. */
    method PowerDown(regulatorRet: int)
      requires TraceOk()
      modifies this`clockOn, this`resetHigh, this`hsicEnabled, this`trace
      ensures TraceOk()
      ensures trace == old(trace) + [Gpio(false), ClockDisable]
                       + (if old(hsicEnabled) then [RegulatorDisable] else [])
      ensures !clockOn && !resetHigh
      ensures hsicEnabled == (old(hsicEnabled) && regulatorRet != 0)
    {
      Emit(Gpio(false));
      resetHigh := false;
      Emit(ClockDisable);
      clockOn := false;
      var _ := SetHsicState(false, regulatorRet);
    }

    /** usb3813_attach_w, the body of the attach work: nothing when the hub
        is disabled by the time it runs; otherwise reset the slimport, write
        the boost register and send USB_ATTACH, reporting no error. */
    method AttachWork(boostXfer: int, boostCommitXfer: int, attachXfer: int)
      requires Valid()
      modifies this`trace
      ensures Valid()
      ensures !hubEnabled ==> trace == old(trace)
      ensures hubEnabled ==> trace == old(trace) + AttachEvents(addr, boostVal, boostXfer)
    {
      if !hubEnabled {
        return;
      }
      Emit(SlimportReset);
      var ret := WriteCfgReg(HS_P2_BOOST, LowByte32(boostVal), boostXfer, boostCommitXfer);
      ret := WriteCommand(USB_ATTACH, attachXfer);
    }

    /** The attach timer expiring: if the work is still pending it stops
        being pending and runs; a cancelled work never runs. */
    method FireAttach(boostXfer: int, boostCommitXfer: int, attachXfer: int)
      requires Valid()
      modifies this`attachPending, this`trace
      ensures Valid()
      ensures !attachPending
      ensures !old(attachPending) ==> trace == old(trace)
      ensures old(attachPending) ==> trace == old(trace) + AttachEvents(addr, boostVal, boostXfer)
    {
      if attachPending {
        attachPending := false;
        AttachWork(boostXfer, boostCommitXfer, attachXfer);
      }
    }

    /** Writing the debugfs "address" file: selects the register that the
        "data" file reads and writes. */
    method SetDebugAddress(address: u16)
      modifies this`debugAddress
      ensures debugAddress == address
    {
      debugAddress := address;
    }

    /** get_reg, reading the debugfs "data" file: -ENODEV without debug mode;
        otherwise reads the selected register and reports success, yielding
        the low byte of whatever usb3813_read_cfg_reg returned. */
    method GetReg(selectXfer: int, commitXfer: int, fetchXfer: int, rx: (u8, u8))
      returns (ret: int, val: int)
      requires Valid()
      modifies this`trace
      ensures Valid()
      ensures !debugEnabled ==> ret == -ENODEV && trace == old(trace)
      ensures debugEnabled ==>
        && ret == 0
        && trace == old(trace) + ReadCfgRegEvents(addr, debugAddress, selectXfer, commitXfer)
        && val == LowByteInt(ReadCfgRegResult(selectXfer, commitXfer, fetchXfer, rx))
    {
      if !debugEnabled {
        return -ENODEV, 0;
      }
      var r := ReadCfgReg(debugAddress, selectXfer, commitXfer, fetchXfer, rx);
      val := LowByteInt(r);
      return 0, val;
    }

    /** set_reg, writing the debugfs "data" file: -ENODEV without debug mode;
        otherwise writes the low byte of `val` to the selected register and
        returns that write's result. */
    method SetReg(val: bv64, xfer: int, commitXfer: int) returns (ret: int)
      requires Valid()
      modifies this`trace
      ensures Valid()
      ensures !debugEnabled ==> ret == -ENODEV && trace == old(trace)
      ensures debugEnabled ==>
        && trace == old(trace) + WriteCfgRegEvents(addr, debugAddress, LowByte64(val), xfer)
        && ret == WriteCfgRegResult(xfer, commitXfer)
    {
      if !debugEnabled {
        return -ENODEV;
      }
      var temp := LowByte64(val);
      ret := WriteCfgReg(debugAddress, temp, xfer, commitXfer);
    }

    /** usb3813_dbg_enable_write, writing the debugfs "enable_dbg" file:
        -EBUSY while the hub is enabled, whatever the value. A non-zero value
        sets the debug flag first, then starts the clock (on failure: -EFAULT
        with the flag left set) and releases reset; zero asserts reset, stops
        the clock and clears the flag. */
    method DbgEnableWrite(val: bv64, clockRet: int) returns (ret: int)
      requires Valid()
      modifies this
      ensures Valid()
      ensures hubEnabled == old(hubEnabled) && hsicEnabled == old(hsicEnabled)
      ensures attachPending == old(attachPending) && debugAddress == old(debugAddress)
      ensures old(hubEnabled) ==> ret == -EBUSY && unchanged(this)
      ensures !old(hubEnabled) && val != 0 && clockRet != 0 ==>
        && ret == -EFAULT && debugEnabled
        && trace == old(trace) + [ClockEnable]
        && clockOn == old(clockOn) && resetHigh == old(resetHigh)
      ensures !old(hubEnabled) && val != 0 && clockRet == 0 ==>
        && ret == 0 && debugEnabled
        && trace == old(trace) + [ClockEnable, Gpio(true)]
        && clockOn && resetHigh
      ensures !old(hubEnabled) && val == 0 ==>
        && ret == 0 && !debugEnabled
        && trace == old(trace) + [Gpio(false), ClockDisable]
        && !clockOn && !resetHigh
    {
      if hubEnabled {
        return -EBUSY;
      }
      if val != 0 {
        debugEnabled := true;
        Emit(ClockEnable);
        if clockRet != 0 {
          return -EFAULT;
        }
        clockOn := true;
        Emit(Gpio(true));
        resetHigh := true;
        debugEnabled := true;
      } else {
        Emit(Gpio(false));
        resetHigh := false;
        Emit(ClockDisable);
        clockOn := false;
        debugEnabled := false;
      }
      return 0;
    }

    /** usb3813_dbg_attach_write, writing the debugfs "attach" file: -EINVAL
        without debug mode; otherwise a non-zero value sends USB_ATTACH and
        zero pulses reset low for 10 ms with no bus traffic. Always 0 once
        past the check: the command's own result is dropped. */
    method DbgAttachWrite(val: bv64, xfer: int) returns (ret: int)
      requires Valid()
      modifies this`trace, this`resetHigh
      ensures Valid()
      ensures !debugEnabled ==> ret == -EINVAL && trace == old(trace) && resetHigh == old(resetHigh)
      ensures debugEnabled ==> ret == 0
      ensures debugEnabled && val != 0 ==>
        trace == old(trace) + [Xfer(addr, Command(USB_ATTACH))] && resetHigh == old(resetHigh)
      ensures debugEnabled && val == 0 ==>
        trace == old(trace) + [Gpio(false), Delay(RESET_PULSE_MS), Gpio(true)] && resetHigh
    {
      if !debugEnabled {
        return -EINVAL;
      }
      if val != 0 {
        var r := WriteCommand(USB_ATTACH, xfer);
      } else {
        Emit(Gpio(false));
        resetHigh := false;
        Emit(Delay(RESET_PULSE_MS));
        Emit(Gpio(true));
        resetHigh := true;
      }
      return 0;
    }
  }
}
