/** The wire format of the USB3813's I2C configuration protocol: the byte
    frames the driver puts on the bus, the transfer-count convention of
    i2c_transfer, and a decoder that recovers the transaction from a frame. */
module BusCodec {
  import opened Errno
  import opened Wrappers

  type u8 = bv8
  type u16 = bv16

  /** Command that makes the chip take a staged register access into effect. */
  const CFG_ACCESS: u16 := 0x9937
  /** Command that makes the hub attach to its upstream port. */
  const USB_ATTACH: u16 := 0xAA55
  /** Configuration register holding the high-speed port 2 boost setting. */
  const HS_P2_BOOST: u16 := 0x68CA
  /** Default (and largest documented) boost value. */
  const HS_BOOST_MAX: bv32 := 0x07

  /** The high and low byte of a 16-bit quantity, as `(x >> 8) & 0xFF` and `x & 0xFF`. */
  function Hi(x: u16): u8 { ((x >> 8) & 0xFF) as u8 }
  function Lo(x: u16): u8 { (x & 0xFF) as u8 }

  /** Big-endian reassembly of two bytes. */
  function Word(hi: u8, lo: u8): (w: u16)
    ensures Hi(w) == hi && Lo(w) == lo
  {
    (hi as u16 << 8) | lo as u16
  }

  /** One message of an i2c_transfer: a write of `data`, or a read of `len` bytes. */
  datatype Msg = WriteMsg(data: seq<u8>) | ReadMsg(len: nat)

  /** The four exchanges the driver ever performs on the bus. */
  datatype Transaction =
    | Command(cmd: u16)              // a bare command
    | StageWrite(reg: u16, val: u8)  // stage a register write (commit with CFG_ACCESS)
    | Select(reg: u16)               // select a register for reading (commit with CFG_ACCESS)
    | Fetch                          // fetch the selected register's value

  /** The 3-byte command frame: command big-endian, then a zero byte. */
  function CommandFrame(cmd: u16): (f: seq<u8>)
    ensures |f| == 3 && f[2] == 0
    ensures Word(f[0], f[1]) == cmd
  {
    [Hi(cmd), Lo(cmd), 0x00]
  }

  /** Prefix of a register-write frame: block write of one byte. */
  const WRITE_HEADER: seq<u8> := [0x00, 0x00, 0x05, 0x00, 0x01]
  /** Prefix of a register-select frame: block read of one byte. */
  const SELECT_HEADER: seq<u8> := [0x00, 0x00, 0x04, 0x01, 0x01]
  /** The write half of the fetch exchange. */
  const FETCH_FRAME: seq<u8> := [0x00, 0x04]
  /** Number of bytes the fetch exchange reads back. */
  const FETCH_LEN: nat := 2

  /** The 8-byte register-write frame: header, register big-endian, value. */
  function WriteFrame(reg: u16, val: u8): (f: seq<u8>)
    ensures |f| == 8 && f[..5] == WRITE_HEADER
    ensures Word(f[5], f[6]) == reg && f[7] == val
  {
    WRITE_HEADER + [Hi(reg), Lo(reg), val]
  }

  /** The 7-byte register-select frame: header, register big-endian. */
  function SelectFrame(reg: u16): (f: seq<u8>)
    ensures |f| == 7 && f[..5] == SELECT_HEADER
    ensures Word(f[5], f[6]) == reg
  {
    SELECT_HEADER + [Hi(reg), Lo(reg)]
  }

  /** The messages of one i2c_transfer call for each transaction. */
  function Encode(t: Transaction): (x: seq<Msg>)
    ensures t.Fetch? <==> |x| == 2
    ensures !t.Fetch? ==> |x| == 1 && x[0].WriteMsg?
  {
    match t
    case Command(cmd) => [WriteMsg(CommandFrame(cmd))]
    case StageWrite(reg, val) => [WriteMsg(WriteFrame(reg, val))]
    case Select(reg) => [WriteMsg(SelectFrame(reg))]
    case Fetch => [WriteMsg(FETCH_FRAME), ReadMsg(FETCH_LEN)]
  }

  /** The transaction an observer of the bus would recognise in a transfer;
      None for anything that is not one of the four shapes. */
  function Decode(x: seq<Msg>): Option<Transaction>
  {
    if |x| == 1 && x[0].WriteMsg? then
      var f := x[0].data;
      if |f| == 3 && f[2] == 0 then Some(Command(Word(f[0], f[1])))
      else if |f| == 8 && f[..5] == WRITE_HEADER then Some(StageWrite(Word(f[5], f[6]), f[7]))
      else if |f| == 7 && f[..5] == SELECT_HEADER then Some(Select(Word(f[5], f[6])))
      else None
    else if x == [WriteMsg(FETCH_FRAME), ReadMsg(FETCH_LEN)] then Some(Fetch)
    else None
  }

  /** Every frame the driver builds is recognised as the transaction it encodes. */
  lemma DecodeEncode(t: Transaction)
    ensures Decode(Encode(t)) == Some(t)
  {
    match t
    case Command(cmd) =>
    case StageWrite(reg, val) =>
    case Select(reg) =>
    case Fetch =>
  }

  /** Conversely, a recognised transfer is exactly the encoding of its transaction:
      the four frame shapes leave no byte free. */
  lemma EncodeDecode(x: seq<Msg>, t: Transaction)
    requires Decode(x) == Some(t)
    ensures Encode(t) == x
  {
    if |x| == 1 && x[0].WriteMsg? {
      var f := x[0].data;
      if |f| == 3 && f[2] == 0 {
        assert CommandFrame(Word(f[0], f[1])) == f;
      } else if |f| == 8 && f[..5] == WRITE_HEADER {
        assert f == f[..5] + [f[5], f[6], f[7]];
      } else {
        assert f == f[..5] + [f[5], f[6]];
      }
    }
  }

  /** Distinct transactions never produce the same bus traffic. */
  lemma EncodeInjective(t1: Transaction, t2: Transaction)
    requires Encode(t1) == Encode(t2)
    ensures t1 == t2
  {
    DecodeEncode(t1);
    DecodeEncode(t2);
  }

  /** How a write-only i2c_transfer of one message is judged: a negative
      result is an error passed through, any count but 1 is -EIO. */
  function Status(xfer: int): (r: int)
    ensures r <= 0
    ensures r == 0 <==> xfer == 1
    ensures xfer < 0 ==> r == xfer
    ensures 0 <= xfer != 1 ==> r == -EIO
  {
    if xfer < 0 then xfer
    else if xfer != 1 then -EIO
    else 0
  }

  /** The implicit C conversions to u8: the low byte of an unsigned int or a
      u64 (the bits above it are what is dropped), and of a possibly negative
      int in two's complement (the value modulo 256). */
  function LowByte32(x: bv32): (b: u8)
    ensures x == (x & 0xFFFF_FF00) | b as bv32
  {
    (x & 0xFF) as u8
  }

  function LowByte64(x: bv64): (b: u8)
    ensures x == (x & 0xFFFF_FFFF_FFFF_FF00) | b as bv64
  {
    (x & 0xFF) as u8
  }

  function LowByteInt(x: int): (b: int)
    ensures 0 <= b < 256 && (x - b) % 256 == 0
    ensures 0 <= x < 256 ==> b == x
  {
    x % 256
  }
}
