/**
 * The big-endian word/byte codec of the TokenRing adapter
 * (`intArrayToByteArray` and `byteArrayToIntArray` in CommunicationCard.java),
 * stated as pure functions on bit patterns: a Java `byte` is a `bv8`, an `int`
 * a `bv32`.
 */
module Codec {
  import opened Basics

  /** `ByteBuffer.putInt` in big-endian order: the four bytes of `x`, most significant first. */
  function WordBytes(x: bv32): (r: seq<bv8>)
    ensures |r| == 4
  {
    [(x >> 24) as bv8, ((x >> 16) & 0xFF) as bv8, ((x >> 8) & 0xFF) as bv8, (x & 0xFF) as bv8]
  }

  /** `ByteBuffer.getInt` in big-endian order: four bytes read as one word, the first one most significant. */
  function BigEndianWord(s: seq<bv8>): (r: bv32)
    requires |s| == 4
    ensures WordBytes(r) == s
  {
    (s[0] as bv32 << 24) | (s[1] as bv32 << 16) | (s[2] as bv32 << 8) | s[3] as bv32
  }

  lemma WordBytesInverse(x: bv32)
    ensures BigEndianWord(WordBytes(x)) == x
  {
  }

  /** The bytes `intArrayToByteArray` produces: every word as four big-endian bytes, in word order. */
  function Encode(words: seq<bv32>): (r: seq<bv8>)
    ensures |r| == 4 * |words|
  {
    if words == [] then [] else WordBytes(words[0]) + Encode(words[1..])
  }

  /**
   * A partial last group as `byteArrayToIntArray` handles it: copied into the
   * start of a zeroed 4-byte scratch buffer.
   */
  function PadTail(tail: seq<bv8>): (r: seq<bv8>)
    requires |tail| < 4
    ensures |r| == 4
  {
    tail + ZeroBytes(4 - |tail|)
  }

  /** The words `byteArrayToIntArray` produces. */
  function Decode(bytes: seq<bv8>): (r: seq<bv32>)
    ensures |r| == (|bytes| + 3) / 4
  {
    if |bytes| == 0 then []
    else if |bytes| < 4 then [BigEndianWord(PadTail(bytes))]
    else [BigEndianWord(bytes[..4])] + Decode(bytes[4..])
  }

  /** Encoding distributes over concatenation. */
  lemma {:induction false} EncodeAppend(a: seq<bv32>, b: seq<bv32>)
    ensures Encode(a + b) == Encode(a) + Encode(b)
  {
    if a == [] {
      assert a + b == b;
    } else {
      assert (a + b)[0] == a[0];
      assert (a + b)[1..] == a[1..] + b;
      EncodeAppend(a[1..], b);
      assert Encode(a + b) == WordBytes(a[0]) + (Encode(a[1..]) + Encode(b));
    }
  }

  /** Bytes 4i .. 4i+3 of the encoding are word i, most significant byte first. */
  lemma {:induction false} EncodeAt(words: seq<bv32>, i: nat, j: nat)
    requires i < |words| && j < 4
    ensures Encode(words)[4 * i + j] == WordBytes(words[i])[j]
  {
    if i > 0 {
      EncodeAt(words[1..], i - 1, j);
    }
  }

  /** Every full group of four bytes becomes one word, read big-endian. */
  lemma {:induction false} DecodeFullGroup(bytes: seq<bv8>, i: nat)
    requires 4 * i + 4 <= |bytes|
    ensures Decode(bytes)[i] == BigEndianWord(bytes[4 * i..4 * i + 4])
  {
    if i > 0 {
      DecodeFullGroup(bytes[4..], i - 1);
      SliceOfDrop(bytes, 4, 4 * (i - 1), 4 * (i - 1) + 4);
    }
  }

  /**
   * A partial last group of |bytes| mod 4 bytes becomes the last word, with
   * those bytes in its high-order end and zeros below them.
   */
  lemma {:induction false} DecodeTail(bytes: seq<bv8>)
    requires |bytes| % 4 != 0
    ensures Decode(bytes)[|bytes| / 4] == BigEndianWord(PadTail(bytes[4 * (|bytes| / 4)..]))
    ensures WordBytes(Decode(bytes)[|bytes| / 4])
         == bytes[4 * (|bytes| / 4)..] + ZeroBytes(4 - |bytes| % 4)
  {
    var tail := bytes[4 * (|bytes| / 4)..];
    if |bytes| < 4 {
      assert tail == bytes;
    } else {
      DecodeTail(bytes[4..]);
      assert bytes[4..][4 * (|bytes[4..]| / 4)..] == tail;
    }
  }

  /** Decoding an encoding gives back the words. */
  lemma {:induction false} DecodeEncode(words: seq<bv32>)
    ensures Decode(Encode(words)) == words
  {
    if words != [] {
      var e := Encode(words);
      assert e[..4] == WordBytes(words[0]);
      assert e[4..] == Encode(words[1..]);
      DecodeEncode(words[1..]);
      WordBytesInverse(words[0]);
    }
  }

  /**
   * Encoding a decoding gives back the bytes followed by zero padding up to the
   * next multiple of 4.
   */
  lemma {:induction false} EncodeDecode(bytes: seq<bv8>)
    ensures Encode(Decode(bytes)) == bytes + ZeroBytes((4 - |bytes| % 4) % 4)
  {
    if |bytes| == 0 {
    } else if |bytes| < 4 {
    } else {
      EncodeDecode(bytes[4..]);
      assert bytes == bytes[..4] + bytes[4..];
    }
  }

  /** The example of Client.java's scenario: a lone trailing byte 9 becomes the word 0x09000000. */
  lemma TailExample()
    ensures Decode([9]) == [0x09000000]
    ensures Decode([1, 2, 3, 4, 5, 6, 7, 8, 9]) == [0x01020304, 0x05060708, 0x09000000]
  {
    var nine: seq<bv8> := [1, 2, 3, 4, 5, 6, 7, 8, 9];
    var five: seq<bv8> := [5, 6, 7, 8, 9];
    assert nine[4..] == five;
    assert five[4..] == [9];
  }
}
