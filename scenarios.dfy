/** Whole-device sequences of driver calls on a freshly bound hub, and what
    they leave on the bus and in the hub's state. */
module Scenarios {
  import opened Errno
  import opened BusCodec
  import opened Trace
  import opened Usb3813Hub

  /** Enable on the bridge path with every call succeeding, let the attach
      timer expire, disable, and let the timer expire again: the rail, clock
      and reset follow the lifecycle, and the only bus traffic is one boost
      write of boost_val's low byte, its commit, and one USB_ATTACH. */
  method BridgeLifecycle(addr: u16, boostVal: bv32)
    returns (t: seq<Event>, log: seq<Transaction>, hsicWhileEnabled: bool, pendingAtEnd: bool)
    ensures t == EnableEvents + AttachEvents(addr, boostVal, 1) + DisableEvents
    ensures log == [StageWrite(HS_P2_BOOST, LowByte32(boostVal)), Command(CFG_ACCESS), Command(USB_ATTACH)]
    ensures hsicWhileEnabled && !pendingAtEnd
  {
    var hub := new Usb3813Info(addr, boostVal, false);
    var r := hub.EnableHub(true, PathBridge, 0, 0);
    assert hub.trace == EnableEvents;
    hsicWhileEnabled := hub.hsicEnabled;
    hub.FireAttach(1, 1, 1);
    assert hub.trace == EnableEvents + AttachEvents(addr, boostVal, 1);
    r := hub.EnableHub(false, PathBridge, 0, 0);
    hub.FireAttach(1, 1, 1);
    t, pendingAtEnd := hub.trace, hub.attachPending;
    LifecycleLog(addr, boostVal);
    log := BusLog(t);
  }

  /** With the boost_val module parameter at its default HS_BOOST_MAX, the
      attach work writes 0x07 to the boost register. */
  method DefaultBoostLifecycle(addr: u16) returns (log: seq<Transaction>)
    ensures log == [StageWrite(HS_P2_BOOST, 0x07), Command(CFG_ACCESS), Command(USB_ATTACH)]
  {
    var t, hsic, pending;
    t, log, hsic, pending := BridgeLifecycle(addr, HS_BOOST_MAX);
    assert LowByte32(HS_BOOST_MAX) == 0x07;
  }

  /** The hardware calls of a successful bridge-path enable, and of the
      disable that follows it. */
  const EnableEvents: seq<Event> :=
    [CancelAttach, ClockEnable, Gpio(true), ScheduleAttach(ATTACH_DELAY_MS), RegulatorEnable]
  const DisableEvents: seq<Event> := [CancelAttach, Gpio(false), ClockDisable, RegulatorDisable]

  lemma LifecycleLog(addr: u16, boostVal: bv32)
    ensures BusLog(EnableEvents + AttachEvents(addr, boostVal, 1) + DisableEvents)
         == [StageWrite(HS_P2_BOOST, LowByte32(boostVal)), Command(CFG_ACCESS), Command(USB_ATTACH)]
  {
    var a := AttachEvents(addr, boostVal, 1);
    BusLogAppend(EnableEvents, a);
    BusLogAppend(EnableEvents + a, DisableEvents);
    AttachBusLog(addr, boostVal, 1);
    NoTransfersNoLog(EnableEvents);
    NoTransfersNoLog(DisableEvents);
  }

  /** Disabling before the attach timer expires cancels the attach work for
      good: whatever the clock, regulator and bus report, the bus sees no
      transaction at all. */
  method DisableBeforeAttach(addr: u16, boostVal: bv32, path: UsbExtPath, clockRet: int,
                             regulatorRet: int, boostXfer: int, commitXfer: int, attachXfer: int)
    returns (log: seq<Transaction>, pending: bool)
    ensures log == [] && !pending
  {
    var hub := new Usb3813Info(addr, boostVal, false);
    var r := hub.EnableHub(true, path, clockRet, regulatorRet);
    r := hub.EnableHub(false, path, clockRet, regulatorRet);
    hub.FireAttach(boostXfer, commitXfer, attachXfer);
    NoTransfersNoLog(hub.trace);
    log, pending := BusLog(hub.trace), hub.attachPending;
  }

  /** A second enable without a disable in between is refused with
      -EINPROGRESS and adds nothing to the history. */
  method EnableTwice(addr: u16, boostVal: bv32, path: UsbExtPath, clockRet: int, regulatorRet: int,
                     clockRet2: int, regulatorRet2: int)
    returns (second: int, before: seq<Event>, after: seq<Event>)
    ensures second == -EINPROGRESS && after == before
  {
    var hub := new Usb3813Info(addr, boostVal, false);
    var r := hub.EnableHub(true, path, clockRet, regulatorRet);
    before := hub.trace;
    second := hub.EnableHub(true, path, clockRet2, regulatorRet2);
    after := hub.trace;
  }

  /** While the hub is enabled, the debug enable file refuses every value
      with -EBUSY and touches no hardware. */
  method DebugRefusedWhileEnabled(addr: u16, boostVal: bv32, path: UsbExtPath, regulatorRet: int,
                                  val: bv64, clockRet: int)
    returns (ret: int, before: seq<Event>, after: seq<Event>, debug: bool)
    ensures ret == -EBUSY && after == before && !debug
  {
    var hub := new Usb3813Info(addr, boostVal, false);
    var r := hub.EnableHub(true, path, 0, regulatorRet);
    before := hub.trace;
    ret := hub.DbgEnableWrite(val, clockRet);
    after, debug := hub.trace, hub.debugEnabled;
  }

  /** Before debug mode is entered, register reads and writes answer
      -ENODEV and the attach file -EINVAL, with no activity at all. */
  method AccessBeforeDebug(addr: u16, boostVal: bv32, reg: u16, val: bv64, trigger: bv64,
                           x1: int, x2: int, x3: int, rx: (u8, u8))
    returns (getRet: int, setRet: int, attachRet: int, t: seq<Event>)
    ensures getRet == -ENODEV && setRet == -ENODEV && attachRet == -EINVAL && t == []
  {
    var hub := new Usb3813Info(addr, boostVal, false);
    hub.SetDebugAddress(reg);
    var v;
    getRet, v := hub.GetReg(x1, x2, x3, rx);
    setRet := hub.SetReg(val, x1, x2);
    attachRet := hub.DbgAttachWrite(trigger, x1);
    t := hub.trace;
  }

  /** In debug mode, writing a value to the selected register and reading it
      back stages the write, commits it, selects, commits and fetches, and
      the value read is the second byte the fetch brought back. */
  method DebugWriteThenRead(addr: u16, boostVal: bv32, reg: u16, val: bv64, rx: (u8, u8))
    returns (setRet: int, getRet: int, read: int, log: seq<Transaction>)
    ensures setRet == 0 && getRet == 0 && read == rx.1 as int
    ensures log == [StageWrite(reg, LowByte64(val)), Command(CFG_ACCESS),
                    Select(reg), Command(CFG_ACCESS), Fetch]
  {
    var hub := new Usb3813Info(addr, boostVal, false);
    var r := hub.DbgEnableWrite(1, 0);
    hub.SetDebugAddress(reg);
    assert hub.trace == [ClockEnable, Gpio(true)];
    setRet := hub.SetReg(val, 1, 1);
    getRet, read := hub.GetReg(1, 1, 2, rx);
    assert hub.trace == [ClockEnable, Gpio(true)] + WriteCfgRegEvents(addr, reg, LowByte64(val), 1)
                        + ReadCfgRegEvents(addr, reg, 1, 1);
    WriteReadLog(addr, reg, LowByte64(val));
    log := BusLog(hub.trace);
  }

  lemma WriteReadLog(addr: u16, reg: u16, val: u8)
    ensures BusLog([ClockEnable, Gpio(true)] + WriteCfgRegEvents(addr, reg, val, 1)
                   + ReadCfgRegEvents(addr, reg, 1, 1))
         == [StageWrite(reg, val), Command(CFG_ACCESS), Select(reg), Command(CFG_ACCESS), Fetch]
  {
    var p: seq<Event> := [ClockEnable, Gpio(true)];
    var w := WriteCfgRegEvents(addr, reg, val, 1);
    var rd := ReadCfgRegEvents(addr, reg, 1, 1);
    NoTransfersNoLog(p);
    WriteCfgRegBusLog(addr, reg, val, 1);
    ReadCfgRegBusLog(addr, reg, 1, 1);
    BusLogAppend(p, w);
    BusLogAppend(p + w, rd);
  }

  /** The driver does not refuse enabling the hub while debug mode is on:
      both flags can hold at once. */
  method HubEnabledDuringDebug(addr: u16, boostVal: bv32, path: UsbExtPath)
    returns (hub: bool, debug: bool)
    ensures hub && debug
  {
    var h := new Usb3813Info(addr, boostVal, false);
    var r := h.DbgEnableWrite(1, 0);
    r := h.EnableHub(true, path, 0, 0);
    hub, debug := h.hubEnabled, h.debugEnabled;
  }

  /** A bus error on the select step still makes reading the debug data
      file succeed: the caller gets the low byte of -EIO, 0xFB. */
  method GetRegAfterNack(addr: u16, boostVal: bv32, reg: u16, rx: (u8, u8))
    returns (getRet: int, read: int)
    ensures getRet == 0 && read == 256 - EIO
  {
    var hub := new Usb3813Info(addr, boostVal, false);
    var r := hub.DbgEnableWrite(1, 0);
    hub.SetDebugAddress(reg);
    getRet, read := hub.GetReg(0, 1, 2, rx);
  }
}
