/**
 * The adapters of CommunicationCard.java: `RamToMemAdapter` gives a RAM the
 * `Memory` interface, and `EthernetToComAdapter` and `TokenRingToComAdapter`
 * give the two cards the byte-oriented `CommunicationCard` interface. The
 * TokenRing adapter converts between bytes and words with the codec.
 */
module Adapters {
  import opened Basics
  import opened Devices
  import opened Codec

  /** `RamToMemAdapter`: `getMem`/`setMem` forward to the RAM's `get`/`set`. */
  class RamToMemAdapter {
    const ram: ConcreteRam

    constructor (ram: ConcreteRam)
      ensures this.ram == ram
    {
      this.ram := ram;
    }

    method GetMem(addr: int, size: int) returns (r: seq<bv8>)
      requires CanGet(ram.data.Length, addr, size)
      ensures r == RamGet(ram.data[..], addr, size)
    {
      r := ram.Get(addr, size);
    }

    method SetMem(data: seq<bv8>, addr: int) returns (status: int)
      modifies ram.data
      ensures WriteResult(ram.data[..], status) == GuardedCopy(old(ram.data[..]), data, addr)
    {
      status := ram.Set(data, addr);
    }
  }

  /** The bytes of Ethernet slots, a never-written (`null`) slot reading as 0. */
  function Unboxed(slots: seq<Option<bv8>>): (r: seq<bv8>)
    ensures |r| == |slots|
    ensures forall i :: 0 <= i < |slots| ==>
      r[i] == if slots[i].Some? then slots[i].value else 0
  {
    if slots == [] then []
    else
      var last := slots[|slots| - 1];
      Unboxed(slots[..|slots| - 1]) + [if last.Some? then last.value else 0]
  }

  /** Bytes boxed into Ethernet slots, none of them `null`. */
  function Boxed(bytes: seq<bv8>): (r: seq<Option<bv8>>)
    ensures |r| == |bytes|
    ensures forall i :: 0 <= i < |bytes| ==> r[i] == Some(bytes[i])
  {
    if bytes == [] then [] else Boxed(bytes[..|bytes| - 1]) + [Some(bytes[|bytes| - 1])]
  }

  /** `EthernetToComAdapter.getCom(size)` on slots `slots`. */
  function EthernetGetCom(slots: seq<Option<bv8>>, size: int): (r: seq<bv8>)
    requires 0 <= size <= |slots|
    ensures |r| == size
    ensures forall i :: 0 <= i < size ==> r[i] == if slots[i].Some? then slots[i].value else 0
  {
    Unboxed(slots[..size])
  }

  /** What `setCom` sent and `getCom` then reads back is exactly the bytes sent. */
  lemma EthernetSetThenGet(slots: seq<Option<bv8>>, d: seq<bv8>)
    requires |d| <= |slots|
    ensures EthernetGetCom(EthernetSetCom(slots, d).contents, |d|) == d
  {
    var c := EthernetSetCom(slots, d).contents;
    assert forall i :: 0 <= i < |d| ==> c[..|d|][i] == Some(d[i]);
  }

  /** `EthernetToComAdapter.setCom(d)` on slots `slots`: the bytes go unchanged into the Ethernet's `write`. */
  function EthernetSetCom(slots: seq<Option<bv8>>, d: seq<bv8>): (r: WriteResult<Option<bv8>>)
    ensures r.status == 0 <==> |d| <= |slots|
    ensures r.status == 0 || r.status == -1
    ensures |r.contents| == |slots|
    ensures forall j :: 0 <= j < |slots| ==> r.contents[j] == if j < |d| then Some(d[j]) else slots[j]
  {
    GuardedCopy(slots, Boxed(d), 0)
  }

  /** `TokenRingToComAdapter.getCom(size)` on words `ring`: `size` is a count of words, not bytes. */
  function TokenRingGetCom(ring: seq<bv32>, size: int): (r: seq<bv8>)
    requires 0 <= size <= |ring|
    ensures |r| == 4 * size
  {
    Encode(ring[..size])
  }

  /** The bytes `getCom(size)` returns are the first `size` words, each most significant byte first. */
  lemma TokenRingGetComLayout(ring: seq<bv32>, size: int, i: nat, j: nat)
    requires 0 <= size <= |ring| && i < size && j < 4
    ensures TokenRingGetCom(ring, size)[4 * i + j] == WordBytes(ring[i])[j]
  {
    EncodeAt(ring[..size], i, j);
  }

  /**
   * `TokenRingToComAdapter.setCom(d)` on words `ring`: sends the ceil(|d|/4)
   * decoded words and fails exactly when they do not fit.
   */
  function TokenRingSetCom(ring: seq<bv32>, d: seq<bv8>): (r: WriteResult<bv32>)
    ensures r.status == 0 <==> (|d| + 3) / 4 <= |ring|
    ensures r.status == 0 || r.status == -1
    ensures r.contents == Overwrite(ring, Decode(d), 0)
  {
    var words := Decode(d);
    TokenRingSend(ring, words, |words|)
  }

  /** `EthernetToComAdapter`. */
  class EthernetToComAdapter {
    const ethernet: ConcreteEthernet

    constructor (ethernet: ConcreteEthernet)
      ensures this.ethernet == ethernet
    {
      this.ethernet := ethernet;
    }

    /** Reads `size` slots and turns every `null` into the byte 0. */
    method GetCom(size: int) returns (r: seq<bv8>)
      requires 0 <= size <= ethernet.data.Length
      ensures r == EthernetGetCom(ethernet.data[..], size)
    {
      var data := ethernet.Read(size);
      var bytes := new bv8[|data|](_ => 0);
      for i := 0 to |data|
        invariant bytes[..i] == Unboxed(data[..i])
      {
        if data[i].Some? {
          bytes[i] := data[i].value;
        } else {
          bytes[i] := 0;
        }
        assert data[..i + 1][..i] == data[..i];
      }
      assert data[..|data|] == data;
      r := bytes[..];
    }

    /** Boxes the bytes and writes them to the Ethernet from slot 0 on. */
    method SetCom(data: seq<bv8>) returns (status: int)
      modifies ethernet.data
      ensures WriteResult(ethernet.data[..], status) == EthernetSetCom(old(ethernet.data[..]), data)
    {
      var bytes := new Option<bv8>[|data|](_ => None);
      for i := 0 to |data|
        modifies bytes
        invariant forall k :: 0 <= k < i ==> bytes[k] == Some(data[k])
      {
        bytes[i] := Some(data[i]);
      }
      var boxed := bytes[..];
      assert boxed == Boxed(data);
      status := ethernet.Write(boxed);
    }

    function GetName(): (r: string)
      ensures r == "Ethernet"
    {
      "Ethernet"
    }
  }

  /** `TokenRingToComAdapter`. */
  class TokenRingToComAdapter {
    const tokenRing: ConcreteTokenRing

    constructor (tokenRing: ConcreteTokenRing)
      ensures this.tokenRing == tokenRing
    {
      this.tokenRing := tokenRing;
    }

    /** Receives `size` words and returns their `4 * size` big-endian bytes. */
    method GetCom(size: int) returns (r: seq<bv8>)
      requires 0 <= size <= tokenRing.data.Length
      ensures r == TokenRingGetCom(tokenRing.data[..], size)
    {
      var data := tokenRing.Receive(size);
      r := IntArrayToByteArray(data);
    }

    /** Sends the words decoded from `data`, as many as there are. */
    method SetCom(data: seq<bv8>) returns (status: int)
      modifies tokenRing.data
      ensures WriteResult(tokenRing.data[..], status) == TokenRingSetCom(old(tokenRing.data[..]), data)
    {
      var convertedData := ByteArrayToIntArray(data);
      status := tokenRing.Send(convertedData, |convertedData|);
    }

    function GetName(): (r: string)
      ensures r == "TokenRing"
    {
      "TokenRing"
    }

    /** `intArrayToByteArray`: each word put into a big-endian ByteBuffer in turn. */
    static method IntArrayToByteArray(intArray: seq<bv32>) returns (r: seq<bv8>)
      ensures r == Encode(intArray)
    {
      var length := |intArray|;
      var byteLength := length * 4;
      var buffer := new bv8[byteLength](_ => 0);
      var position := 0;  // the ByteBuffer's cursor
      ghost var encoded := Encode(intArray);
      for i := 0 to length
        invariant position == 4 * i
        invariant forall k :: 0 <= k < position ==> buffer[k] == encoded[k]
      {
        var b := WordBytes(intArray[i]);  // putInt
        EncodeAt(intArray, i, 0);
        EncodeAt(intArray, i, 1);
        EncodeAt(intArray, i, 2);
        EncodeAt(intArray, i, 3);
        buffer[position] := b[0];
        buffer[position + 1] := b[1];
        buffer[position + 2] := b[2];
        buffer[position + 3] := b[3];
        position := position + 4;
      }
      r := buffer[..];
    }

    /**
     * `byteArrayToIntArray`: full groups of four bytes are read through a
     * big-endian ByteBuffer; a partial last group is copied into the start of a
     * zeroed 4-byte `temp` array, which is then read as one word.
     */
    static method ByteArrayToIntArray(byteArray: seq<bv8>) returns (r: seq<bv32>)
      ensures r == Decode(byteArray)
    {
      var length := |byteArray|;
      var count := if length % 4 == 0 then length / 4 else length / 4 + 1;
      var intArray := new bv32[count](_ => 0);
      var position := 0;  // the ByteBuffer's cursor
      ghost var decoded := Decode(byteArray);
      for i := 0 to count
        invariant position == 4 * i || (i == count && length % 4 != 0)
        invariant forall k :: 0 <= k < i ==> intArray[k] == decoded[k]
      {
        var word: bv32;
        if i == count - 1 && length % 4 != 0 {
          word := LastWord(byteArray);
        } else {
          DecodeFullGroup(byteArray, i);
          word := BigEndianWord(byteArray[position..position + 4]);  // getInt
          position := position + 4;
        }
        assert word == decoded[i];
        intArray[i] := word;
      }
      r := intArray[..];
    }

    /** The partial last group of `byteArray`, zero-padded in a 4-byte `temp` array and read as one word. */
    static method LastWord(byteArray: seq<bv8>) returns (word: bv32)
      requires |byteArray| % 4 != 0
      ensures word == Decode(byteArray)[|byteArray| / 4]
    {
      var length := |byteArray|;
      var i := length / 4;
      var temp := PartialGroup(byteArray, i * 4, length % 4);
      assert byteArray[i * 4..i * 4 + length % 4] == byteArray[4 * (length / 4)..];
      DecodeTail(byteArray);
      word := BigEndianWord(temp[..]);
    }

    /** `new byte[4]` followed by `System.arraycopy(src, from, temp, 0, n)`. */
    static method PartialGroup(src: seq<bv8>, from: nat, n: nat) returns (temp: array<bv8>)
      requires n < 4 && from + n <= |src|
      ensures fresh(temp)
      ensures temp[..] == PadTail(src[from..from + n])
    {
      temp := new bv8[4](_ => 0);
      for k := 0 to n
        invariant temp[..] == src[from..from + k] + ZeroBytes(4 - k)
      {
        temp[k] := src[from + k];
        assert src[from..from + k + 1] == src[from..from + k] + [src[from + k]];
      }
    }
  }

  /** The `CommunicationCard` interface, implemented by the two card adapters. */
  datatype CommunicationCard =
    | EthernetCard(ethernetAdapter: EthernetToComAdapter)
    | TokenRingCard(tokenRingAdapter: TokenRingToComAdapter)
  {
    function GetName(): (r: string)
      ensures r == if EthernetCard? then "Ethernet" else "TokenRing"
    {
      match this
      case EthernetCard(a) => a.GetName()
      case TokenRingCard(a) => a.GetName()
    }

    /** The device array a `setCom` on this card changes. */
    function Device(): set<object>
    {
      match this
      case EthernetCard(a) => {a.ethernet.data}
      case TokenRingCard(a) => {a.tokenRing.data}
    }

    /** The `size` arguments `getCom` accepts: a count of slots or of words that the card holds. */
    predicate CanGetCom(size: int)
    {
      match this
      case EthernetCard(a) => 0 <= size <= a.ethernet.data.Length
      case TokenRingCard(a) => 0 <= size <= a.tokenRing.data.Length
    }
  }
}
