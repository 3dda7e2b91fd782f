/**
 The one-byte header in front of every frame of a chunked channel
 (crates/reactor-webrtc-dc-chunking/src/frame.rs).
 */
module Frame {
  import opened Wrappers

  type Byte = bv8
  type Bytes = seq<Byte>

  const MORE: Byte := 0x01
  const TEXT: Byte := 0x02
  const VERSION_MASK: Byte := !(MORE | TEXT)

  datatype Header = Header(more: bool, text: bool)

  datatype FrameError = Empty | UnknownVersion(byte: Byte) | TypeChanged

  function Encode(h: Header): Byte {
    (if h.more then MORE else 0) | (if h.text then TEXT else 0)
  }

  function Decode(b: Byte): Result<Header, FrameError> {
    if b & VERSION_MASK != 0 then
      Err(UnknownVersion(b))
    else
      Ok(Header(b & MORE != 0, b & TEXT != 0))
  }

  /** Exactly the four defined header bytes decode, each to the header that encodes to it. */
  lemma DecodeInvertsEncode(b: Byte, h: Header)
    ensures Decode(b) == Ok(h) <==> b == Encode(h)
    ensures Decode(b).Err? <==> b > 3
  {
  }

  /** `chunking_times::more`: whether further frames of the message follow. */
  function More(frame: Bytes): bool {
    frame != [] && Decode(frame[0]).Ok? && Decode(frame[0]).value.more
  }
}
