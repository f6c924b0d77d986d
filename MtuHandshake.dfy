/**
 * The MTU handshake: the host writes MTU_HANDSHAKE_COMMAND ("0800000000") and the
 * device echoes it followed by the negotiated MTU. Both BleService and
 * BleServiceStateMachine read the MTU as
 *   value.toHexString().substring(MTU_HANDSHAKE_COMMAND.length).toInt(16)
 * i.e. the big-endian value of the bytes after the first five. The five skipped bytes
 * are not compared with the command.
 */
module MtuHandshake {
  import opened Common

  /** MTU_HANDSHAKE_COMMAND, "0800000000" as bytes. */
  const HandshakeCommand: seq<Byte> := [8, 0, 0, 0, 0]

  /** Kotlin's Int.MAX_VALUE: `toInt(16)` rejects larger values. */
  const IntMax: int := 0x7FFF_FFFF

  function Pow256(k: nat): (p: nat)
    ensures p >= 1
  {
    if k == 0 then 1 else 256 * Pow256(k - 1)
  }

  /** The unsigned big-endian number written by `bs`. */
  function BigEndian(bs: seq<Byte>): (n: nat)
    ensures n < Pow256(|bs|)
  {
    if bs == [] then 0
    else
      var init := bs[..|bs| - 1];
      var r := BigEndian(init);
      assert r <= Pow256(|init|) - 1;
      assert r * 256 <= (Pow256(|init|) - 1) * 256;
      r * 256 + bs[|bs| - 1] as int
  }

  /** `width` bytes writing `n` big-endian; the device's encoding of the MTU in its echo. */
  function EncodeBigEndian(n: nat, width: nat): (bs: seq<Byte>)
    requires n < Pow256(width)
    ensures |bs| == width
  {
    if width == 0 then []
    else
      assert n / 256 < Pow256(width - 1) by {
        assert n < 256 * Pow256(width - 1);
      }
      EncodeBigEndian(n / 256, width - 1) + [(n % 256) as Byte]
  }

  /**
   * The MTU carried by a handshake echo, or the exception raised when the text after
   * the ten hex digits of the command is missing (substring past the end), empty, or
   * larger than Int.MAX_VALUE.
   */
  function ParseMtu(value: seq<Byte>): (r: Result<int>)
    ensures r.Success? ==> 0 <= r.value <= IntMax
    ensures r.Failure? <==> |value| <= |HandshakeCommand| || BigEndian(value[|HandshakeCommand|..]) > IntMax
  {
    if |value| < |HandshakeCommand| then Failure(IndexOutOfBounds)
    else if |value| == |HandshakeCommand| then Failure(NumberFormat)
    else
      var n := BigEndian(value[|HandshakeCommand|..]);
      if n <= IntMax then Success(n) else Failure(NumberFormat)
  }

  lemma {:induction false} BigEndianOfEncode(n: nat, width: nat)
    requires n < Pow256(width)
    ensures BigEndian(EncodeBigEndian(n, width)) == n
  {
    if width > 0 {
      var bs := EncodeBigEndian(n, width);
      assert n / 256 < Pow256(width - 1) by {
        assert n < 256 * Pow256(width - 1);
      }
      assert bs[..width - 1] == EncodeBigEndian(n / 256, width - 1);
      BigEndianOfEncode(n / 256, width - 1);
    }
  }

  lemma {:induction false} EncodeOfBigEndian(bs: seq<Byte>)
    ensures EncodeBigEndian(BigEndian(bs), |bs|) == bs
  {
    if bs != [] {
      var init := bs[..|bs| - 1];
      var n := BigEndian(bs);
      assert n / 256 == BigEndian(init) && n % 256 == bs[|bs| - 1] as int;
      EncodeOfBigEndian(init);
    }
  }

  /**
   * Round trip of the handshake: an echo made of any five-byte prefix followed by
   * an MTU written big-endian in one or more bytes parses back to that MTU.
   */
  lemma {:induction false} ParseMtuOfEcho(prefix: seq<Byte>, mtu: nat, width: nat)
    requires |prefix| == |HandshakeCommand| && 1 <= width
    requires mtu < Pow256(width) && mtu <= IntMax
    ensures ParseMtu(prefix + EncodeBigEndian(mtu, width)) == Success(mtu)
  {
    var echo := prefix + EncodeBigEndian(mtu, width);
    assert echo[|HandshakeCommand|..] == EncodeBigEndian(mtu, width);
    BigEndianOfEncode(mtu, width);
  }

  /** A parsed MTU is re-encoded to exactly the bytes that followed the prefix. */
  lemma {:induction false} ParseMtuInjective(value: seq<Byte>)
    requires ParseMtu(value).Success?
    ensures value == value[..|HandshakeCommand|]
                     + EncodeBigEndian(ParseMtu(value).value, |value| - |HandshakeCommand|)
  {
    EncodeOfBigEndian(value[|HandshakeCommand|..]);
  }
}
