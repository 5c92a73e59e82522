/** Baton messages (internal/baton/codec.go): padding length as a varint, the
    padding, one baton byte. */
module BatonCodec {
  import opened StreamIds
  import opened SendLimits
  import opened Varints

  /** `encodeBaton`; `quicvarint.Append` panics beyond the 62-bit range. */
  function EncodeBaton(padding: seq<Byte>, baton: Byte): (msg: seq<Byte>)
    requires |padding| < TWO_62
    ensures 2 <= |msg| == |Varints.Encode(|padding|)| + |padding| + 1
  {
    Varints.Encode(|padding|) + padding + [baton]
  }

  /** `decodeBaton`, with uint64 arithmetic on the length check written out. */
  function DecodeBaton(data: seq<Byte>): Option<(seq<Byte>, Byte)> {
    if data == [] then None
    else
      match Decode(data)
      case None => None
      case Some((padLen, n)) =>
        var rest := data[n..];
        if |rest| < Wrap(padLen + 1) then None
        else if |rest| != Wrap(padLen + 1) then None
        else Some((rest[..padLen], rest[padLen]))
  }

  /** An input decodes exactly when it is its varint, that much padding and one
      byte: `padLen+1` cannot overflow, so no length passes by wrapping. */
  lemma {:induction false} DecodesExactlyWhen(data: seq<Byte>)
    ensures DecodeBaton(data).Some? <==>
            Decode(data).Some? && |data| == Decode(data).value.1 + Decode(data).value.0 + 1
    ensures DecodeBaton(data).Some? ==>
            var (padding, baton) := DecodeBaton(data).value;
            data == data[..Decode(data).value.1] + padding + [baton] && |padding| == Decode(data).value.0
  {
  }

  /** Decoding inverts encoding; every proper extension and every proper prefix
      of an encoded message is rejected. */
  lemma {:induction false} CodecRoundTrip(padding: seq<Byte>, baton: Byte, extra: seq<Byte>)
    requires |padding| < TWO_62
    ensures DecodeBaton(EncodeBaton(padding, baton) + extra) ==
            if extra == [] then Some((padding, baton)) else None
  {
    var head := Varints.Encode(|padding|);
    var data := EncodeBaton(padding, baton) + extra;
    assert data == head + (padding + [baton] + extra);
    DecodeEncode(|padding|, padding + [baton] + extra);
    assert data[|head|..] == padding + [baton] + extra;
    if extra == [] {
      assert data[|head|..][..|padding|] == padding;
    }
  }

  lemma {:induction false} CodecRejectsPrefixes(padding: seq<Byte>, baton: Byte, k: nat)
    requires |padding| < TWO_62 && k < |EncodeBaton(padding, baton)|
    ensures DecodeBaton(EncodeBaton(padding, baton)[..k]) == None
  {
    var head, msg := Varints.Encode(|padding|), EncodeBaton(padding, baton);
    if k < |head| {
      assert msg[..k] == head[..k];
      DecodeTruncated(|padding|, k);
    } else {
      assert msg[..k] == head + (padding + [baton])[..k - |head|];
      DecodeEncode(|padding|, (padding + [baton])[..k - |head|]);
    }
  }
}
