/** The relay's wire frames, as far as the channel looks at them, and the
    identifiers of the things a channel holds. */
module Wire {

  datatype Option<+T> = None | Some(value: T)

  newtype byte = x: int | 0 <= x < 256

  /** One binary message: a type byte followed by its payload. */
  type Frame = seq<byte>

  const MSG_SNAPSHOT: byte := 0x01
  const MSG_OUTPUT: byte := 0x02

  datatype Kind = Snapshot | Output | Other

  /** An empty frame does not decode, so it counts as neither kind. */
  function KindOf(f: Frame): Kind {
    if |f| == 0 then Other
    else if f[0] == MSG_SNAPSHOT then Snapshot
    else if f[0] == MSG_OUTPUT then Output
    else Other
  }

  /** The first byte decides: 1 is a snapshot, 2 is output; anything else, and an empty
      frame, is only passed on. */
  lemma KindByTypeByte(f: Frame)
    ensures KindOf(f) == Snapshot <==> |f| > 0 && f[0] as int == 1
    ensures KindOf(f) == Output <==> |f| > 0 && f[0] as int == 2
    ensures Replayable(f) <==> |f| > 0 && 1 <= f[0] as int <= 2
  {
  }

  predicate Replayable(f: Frame) {
    KindOf(f) != Other
  }

  type Conn = nat
  type SubId = nat
}
