/** The observable history of the driver: every call it makes into the I2C,
    GPIO, clock, regulator, workqueue and slimport subsystems, in order. */
module Trace {
  import opened BusCodec
  import opened Wrappers

  datatype Event =
    | Transfer(addr: u16, msgs: seq<Msg>)  // one i2c_transfer, taken under i2c_mutex
    | Gpio(high: bool)                     // gpio_set_value on hub_reset_n
    | ClockEnable                          // clk_prepare_enable(hub_clk)
    | ClockDisable                         // clk_disable_unprepare(hub_clk)
    | RegulatorEnable                      // regulator_enable(vdd_hsic)
    | RegulatorDisable                     // regulator_disable(vdd_hsic)
    | ScheduleAttach(delayMs: nat)         // schedule_delayed_work of the attach work
    | CancelAttach                         // cancel_delayed_work of the attach work
    | SlimportReset                        // slimport_reset_standby()
    | Delay(ms: nat)                       // mdelay

  /** The transfer event for one transaction on the chip at `addr`. */
  function Xfer(addr: u16, t: Transaction): Event
  {
    Transfer(addr, Encode(t))
  }

  /** A transfer built from a transaction is recognised as that transaction. */
  lemma XferDecodes(addr: u16, t: Transaction)
    ensures Decode(Xfer(addr, t).msgs) == Some(t)
    ensures WellFormed([Xfer(addr, t)], addr)
  {
    DecodeEncode(t);
  }

  /** The transactions recognisable on the bus, in the order they happened. */
  function BusLog(t: seq<Event>): seq<Transaction>
  {
    if t == [] then []
    else
      var rest := BusLog(t[1..]);
      if t[0].Transfer? && Decode(t[0].msgs).Some? then [Decode(t[0].msgs).value] + rest
      else rest
  }

  /** The raw bus traffic: the messages of every transfer, in order. */
  function Wire(t: seq<Event>): seq<seq<Msg>>
  {
    if t == [] then []
    else if t[0].Transfer? then [t[0].msgs] + Wire(t[1..])
    else Wire(t[1..])
  }

  /** A transfer goes to the chip and has one of the four known shapes. */
  ghost predicate EventOk(e: Event, addr: u16)
  {
    e.Transfer? ==> e.addr == addr && Decode(e.msgs).Some?
  }

  /** Every transfer of the history is well formed. */
  ghost predicate WellFormed(t: seq<Event>, addr: u16)
  {
    forall i :: 0 <= i < |t| ==> EventOk(t[i], addr)
  }

  function EncodeAll(ts: seq<Transaction>): (x: seq<seq<Msg>>)
    ensures |x| == |ts|
  {
    if ts == [] then [] else [Encode(ts[0])] + EncodeAll(ts[1..])
  }

  lemma {:induction false} BusLogAppend(a: seq<Event>, b: seq<Event>)
    ensures BusLog(a + b) == BusLog(a) + BusLog(b)
  {
    if a == [] {
      assert a + b == b;
    } else {
      assert (a + b)[1..] == a[1..] + b;
      BusLogAppend(a[1..], b);
    }
  }

  /** On a well-formed history the decoded log loses nothing: re-encoding it
      gives back exactly the bytes that went over the wire. */
  lemma {:induction false} BusLogIsFaithful(t: seq<Event>, addr: u16)
    requires WellFormed(t, addr)
    ensures EncodeAll(BusLog(t)) == Wire(t)
  {
    if t != [] {
      assert WellFormed(t[1..], addr) by {
        forall i | 0 <= i < |t[1..]|
          ensures EventOk(t[1..][i], addr)
        {
          assert t[1..][i] == t[i + 1];
        }
      }
      BusLogIsFaithful(t[1..], addr);
      if t[0].Transfer? {
        EncodeDecode(t[0].msgs, Decode(t[0].msgs).value);
      }
    }
  }

  lemma WellFormedAppend(a: seq<Event>, b: seq<Event>, addr: u16)
    requires WellFormed(a, addr) && WellFormed(b, addr)
    ensures WellFormed(a + b, addr)
  {
    forall i | 0 <= i < |a + b|
      ensures EventOk((a + b)[i], addr)
    {
      if i >= |a| {
        assert (a + b)[i] == b[i - |a|];
      }
    }
  }

  /** A single event adds its own decoded transaction, if any, to the log. */
  lemma BusLogOne(e: Event)
    ensures BusLog([e]) == if e.Transfer? && Decode(e.msgs).Some? then [Decode(e.msgs).value] else []
  {
    assert [e][1..] == [];
  }

  lemma BusLogXfer(addr: u16, t: Transaction)
    ensures BusLog([Xfer(addr, t)]) == [t]
  {
    XferDecodes(addr, t);
    BusLogOne(Xfer(addr, t));
  }

  /** A history without transfers shows nothing on the bus. */
  lemma {:induction false} NoTransfersNoLog(t: seq<Event>)
    requires forall i :: 0 <= i < |t| ==> !t[i].Transfer?
    ensures BusLog(t) == []
  {
    if t != [] {
      assert forall i :: 0 <= i < |t[1..]| ==> t[1..][i] == t[i + 1];
      NoTransfersNoLog(t[1..]);
    }
  }
}
