/** The content-view item: one packaged frame, its flags and the bytes its allocation holds.
    The MKV header of a stream start sits at the front of those bytes; the header length is
    kept in the upper sixteen bits of the flags word, so it is stored modulo 2^16. */
module ViewItems {

  newtype byte = x: int | 0 <= x < 0x100

  type Bytes = seq<byte>

  datatype Option<+T> = None | Some(value: T)

  /** The EBML header identifier, section 8.1 of RFC 8794. */
  const EBML_MAGIC: Bytes := [0x1A, 0x45, 0xDF, 0xA3]

  const DATA_OFFSET_LIMIT: nat := 0x1_0000

  predicate BeginsWithEbml(b: Bytes) {
    |b| >= 4 && b[0] == 0x1A && b[1] == 0x45 && b[2] == 0xDF && b[3] == 0xA3
  }

  /** `store` names the frame whose storage the allocation handle owns; `base` is the timecode
      base the generator used for the cluster timecodes inside `data`. */
  datatype Item = Item(
    timestamp: nat, ackTimestamp: nat, duration: nat,
    store: nat, data: Bytes, dataOffset: nat, base: nat,
    streamStart: bool, baseStart: bool, fragStart: bool, fragEnd: bool,
    received: bool, skip: bool)
  {
    /** The items on which a session may begin. */
    predicate Boundary() { fragStart || fragEnd }

    /** The bytes behind the recorded header length. */
    function Body(): Bytes { if dataOffset <= |data| then data[dataOffset..] else [] }

    /** What every item of a reachable view satisfies: one header exactly on the stream starts,
        a stream start is a place a session can begin, and a base boundary is a stream start. */
    ghost predicate Ok() {
      && dataOffset < |data|
      && (if streamStart then BeginsWithEbml(data[..dataOffset]) else dataOffset == 0)
      && !BeginsWithEbml(Body())
      && (streamStart ==> Boundary())
      && (baseStart ==> streamStart)
    }
  }

  /** The header fix-up of a reconnect: prepend a header and mark the item a stream start. */
  function AddHeader(i: Item, header: Bytes): Item {
    i.(data := header + i.data, dataOffset := |header| % DATA_OFFSET_LIMIT, streamStart := true)
  }

  /** Removing the header again by moving the bytes behind the recorded header length forward. */
  function StripHeader(i: Item): Item {
    i.(data := i.Body(), dataOffset := 0, streamStart := false)
  }

  /** Fix-up then strip gives the item back exactly when the header length fits sixteen bits. */
  lemma HeaderRoundTrip(i: Item, header: Bytes)
    requires i.Ok() && !i.streamStart && |header| > 0
    ensures StripHeader(AddHeader(i, header)) == i <==> |header| < DATA_OFFSET_LIMIT
  {
  }

  /** A fixed-up item is delivered with exactly one header, and so is every reachable item. */
  lemma AddHeaderOk(i: Item, header: Bytes)
    requires i.Ok() && !i.streamStart && i.Boundary()
    requires BeginsWithEbml(header) && |header| < DATA_OFFSET_LIMIT
    ensures AddHeader(i, header).Ok() && !AddHeader(i, header).baseStart
    ensures AddHeader(i, header).Body() == i.data
  {
  }

  lemma StripHeaderOk(i: Item)
    requires i.Ok() && !i.baseStart
    ensures StripHeader(i).Ok() && !StripHeader(i).streamStart
  {
  }
}
