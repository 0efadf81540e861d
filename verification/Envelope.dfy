// The bytes of a memory block and the message header kept in its first words.
module Envelope {
  import opened Rtx

  type Block = b: seq<byte> | |b| == MEM_BLOCK_SIZE witness Zeros(MEM_BLOCK_SIZE)

  function Zeros(n: nat): (z: seq<byte>)
    ensures |z| == n && forall i | 0 <= i < n :: z[i] == 0
  {
    seq(n, _ => 0)
  }

  // Offsets of the header words in struct MessageEnvelope.
  const TX: nat := 0
  const RX: nat := 4
  const SEND_TIME: nat := 12

  // The processor is big-endian: a word is stored most significant byte first.
  function Word(b: seq<byte>, off: nat): nat
    requires off + 4 <= |b|
  {
    b[off] as int * 0x100_0000 + b[off + 1] as int * 0x1_0000 + b[off + 2] as int * 0x100 + b[off + 3] as int
  }

  function WordByte(v: nat, k: nat): byte
    requires v < WORD && k < 4
  {
    if k == 0 then v / 0x100_0000 else if k == 1 then v / 0x1_0000 % 0x100
    else if k == 2 then v / 0x100 % 0x100 else v % 0x100
  }

  function PutWord(b: seq<byte>, off: nat, v: nat): (r: seq<byte>)
    requires off + 4 <= |b| && v < WORD
    ensures |r| == |b|
  {
    b[off := WordByte(v, 0)][off + 1 := WordByte(v, 1)][off + 2 := WordByte(v, 2)][off + 3 := WordByte(v, 3)]
  }

  // A stored word reads back, and words stored elsewhere stay.
  lemma WordRoundTrip(b: seq<byte>, off: nat, v: nat)
    requires off + 4 <= |b| && v < WORD
    ensures Word(PutWord(b, off, v), off) == v
    ensures forall o: nat | o + 4 <= |b| && (o + 4 <= off || off + 4 <= o) :: Word(PutWord(b, off, v), o) == Word(b, o)
  {
  }

  function Rx(b: Block): nat {
    Word(b, RX)
  }

  function Tx(b: Block): nat {
    Word(b, TX)
  }

  function SendTime(b: Block): nat {
    Word(b, SEND_TIME)
  }

  // The header writes of send_message_handler and of delayed_send_handler.
  function Addressed(b: Block, rx: nat, tx: nat): Block
    requires rx < WORD && tx < WORD
  {
    PutWord(PutWord(b, RX, rx), TX, tx)
  }

  function Stamped(b: Block, rx: nat, tx: nat, sendTime: nat): Block
    requires rx < WORD && tx < WORD && sendTime < WORD
  {
    PutWord(Addressed(b, rx, tx), SEND_TIME, sendTime)
  }

  lemma AddressedFields(b: Block, rx: nat, tx: nat)
    requires rx < WORD && tx < WORD
    ensures Rx(Addressed(b, rx, tx)) == rx && Tx(Addressed(b, rx, tx)) == tx
    ensures forall i | 8 <= i < MEM_BLOCK_SIZE :: Addressed(b, rx, tx)[i] == b[i]
  {
    WordRoundTrip(b, RX, rx);
    WordRoundTrip(PutWord(b, RX, rx), TX, tx);
  }

  lemma StampedFields(b: Block, rx: nat, tx: nat, sendTime: nat)
    requires rx < WORD && tx < WORD && sendTime < WORD
    ensures Rx(Stamped(b, rx, tx, sendTime)) == rx && Tx(Stamped(b, rx, tx, sendTime)) == tx
    ensures SendTime(Stamped(b, rx, tx, sendTime)) == sendTime
    ensures forall i | 8 <= i < MEM_BLOCK_SIZE && !(12 <= i < 16) :: Stamped(b, rx, tx, sendTime)[i] == b[i]
  {
    AddressedFields(b, rx, tx);
    WordRoundTrip(Addressed(b, rx, tx), SEND_TIME, sendTime);
  }

  // The layout: sender, receiver and send time, each with its most significant byte first.
  lemma HeaderBytes(b: Block, rx: nat, tx: nat, sendTime: nat)
    requires rx < WORD && tx < WORD && sendTime < WORD
    ensures var a := Addressed(b, rx, tx);
      && a[0] as int * 0x100_0000 + a[1] as int * 0x1_0000 + a[2] as int * 0x100 + a[3] == tx
      && a[4] as int * 0x100_0000 + a[5] as int * 0x1_0000 + a[6] as int * 0x100 + a[7] == rx
    ensures var a := Stamped(b, rx, tx, sendTime);
      && a[0] as int * 0x100_0000 + a[1] as int * 0x1_0000 + a[2] as int * 0x100 + a[3] == tx
      && a[4] as int * 0x100_0000 + a[5] as int * 0x1_0000 + a[6] as int * 0x100 + a[7] == rx
      && a[12] as int * 0x100_0000 + a[13] as int * 0x1_0000 + a[14] as int * 0x100 + a[15] == sendTime
  {
    hide Addressed, Stamped, PutWord;
    AddressedFields(b, rx, tx);
    StampedFields(b, rx, tx, sendTime);
  }
}
