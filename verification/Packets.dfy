/** The values that travel between two runtimes.
    Ethernet and IP headers are opaque; what the channel looks at is the magic number
    (data or ack), the 32-bit sequence number and the bytes behind the header. */
module Packets {
  newtype Byte = x: int | 0 <= x < 256

  type Payload = seq<Byte>

  /** A packet behind its `reliable_header`: `magic_num` picks the constructor. */
  datatype Frame = Data(seqNum: nat, payload: Payload) | Ack(seqNum: nat)

  /** Sequence numbers are `uint32_t`, timestamps `uint64_t`. */
  const SEQ_SPACE: nat := 0x1_0000_0000
  const TIME_SPACE: nat := 0x1_0000_0000_0000_0000

  /** `uint32_t` addition. */
  function Add32(a: nat, b: nat): (r: nat)
    requires a < SEQ_SPACE && b < SEQ_SPACE
    ensures r < SEQ_SPACE
  {
    if a + b < SEQ_SPACE then a + b else a + b - SEQ_SPACE
  }

  function Sub64(a: nat, b: nat): (r: nat) {
    (a - b) % TIME_SPACE
  }

  function Min(a: nat, b: nat): nat {
    if a < b then a else b
  }

  const MAX_BURST: nat := 32        // PacketBatch::kMaxBurst
  const QUEUE_SIZE: nat := 4096     // reliable_send_queue_size
}
