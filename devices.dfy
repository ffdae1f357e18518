/**
 * The three simulated devices of CommunicationCard.java: a RAM of bytes, an
 * Ethernet card of nullable byte slots and a TokenRing card of 32-bit words.
 * Each keeps a fixed-capacity array that its write operation changes in place.
 *
 * A write copies element by element inside a `try`; the first index outside the
 * array raises an ArrayIndexOutOfBoundsException, which is caught and turned into
 * the status -1. Everything copied before that index stays written. The pure
 * functions below describe that behaviour on sequences, and the methods of the
 * device classes are proved against them.
 */
module Devices {
  import opened Basics

  /** What a device write leaves behind: the new contents and the status it returns. */
  datatype WriteResult<T> = WriteResult(contents: seq<T>, status: int)

  /**
   * `dst` after `src` has been copied into it from index `offset` on, one element
   * at a time, stopping at the first index that falls outside `dst`.
   */
  function Overwrite<T>(dst: seq<T>, src: seq<T>, offset: int): (r: seq<T>)
    ensures |r| == |dst|
    ensures forall j :: 0 <= j < |dst| ==>
      r[j] == if 0 <= offset <= j < offset + |src| then src[j - offset] else dst[j]
  {
    if offset < 0 || offset >= |dst| then dst
    else
      var k := if |src| < |dst| - offset then |src| else |dst| - offset;
      dst[..offset] + src[..k] + dst[offset + k..]
  }

  /**
   * The copy loop inside `try`/`catch` shared by `ConcreteRam.set` and
   * `ConcreteEthernet.write`: status 0 when the loop ran to its end, -1 when an
   * index fell outside the array.
   */
  function GuardedCopy<T>(dst: seq<T>, src: seq<T>, offset: int): (r: WriteResult<T>)
    ensures |r.contents| == |dst|
    ensures r.status == 0 || r.status == -1
  {
    WriteResult(Overwrite(dst, src, offset),
                if |src| == 0 || (0 <= offset && offset + |src| <= |dst|) then 0 else -1)
  }

  /** A write that fits succeeds, puts `src` at `offset` and leaves every other index alone. */
  lemma CopyInBounds<T>(dst: seq<T>, src: seq<T>, offset: int)
    requires 0 <= offset && offset + |src| <= |dst|
    ensures GuardedCopy(dst, src, offset).status == 0
    ensures GuardedCopy(dst, src, offset).contents[offset..offset + |src|] == src
    ensures GuardedCopy(dst, src, offset).contents[..offset] == dst[..offset]
    ensures GuardedCopy(dst, src, offset).contents[offset + |src|..] == dst[offset + |src|..]
  {
    var r := GuardedCopy(dst, src, offset).contents;
    assert r[offset..offset + |src|] == src by {
      forall k | 0 <= k < |src| ensures r[offset + k] == src[k] { }
    }
  }

  /**
   * A write that runs past the end fails with -1, but is not all-or-nothing:
   * the indices from `offset` to the end already hold the matching prefix of
   * `src`, and only the indices before `offset` are untouched.
   */
  lemma CopyOverflow<T>(dst: seq<T>, src: seq<T>, offset: int)
    requires 0 <= offset <= |dst| < offset + |src|
    ensures GuardedCopy(dst, src, offset).status == -1
    ensures GuardedCopy(dst, src, offset).contents[..offset] == dst[..offset]
    ensures GuardedCopy(dst, src, offset).contents[offset..] == src[..|dst| - offset]
  {
    var r := GuardedCopy(dst, src, offset).contents;
    assert r[offset..] == src[..|dst| - offset] by {
      forall k | 0 <= k < |dst| - offset ensures r[offset + k] == src[k] { }
    }
  }

  /** A write starting before index 0 fails at once and changes nothing. */
  lemma CopyNegativeOffset<T>(dst: seq<T>, src: seq<T>, offset: int)
    requires offset < 0 && |src| > 0
    ensures GuardedCopy(dst, src, offset) == WriteResult(dst, -1)
  {
  }

  /** A non-empty write starting past the end fails at its first index and changes nothing. */
  lemma CopyPastEnd<T>(dst: seq<T>, src: seq<T>, offset: int)
    requires |src| > 0 && offset > |dst|
    ensures GuardedCopy(dst, src, offset) == WriteResult(dst, -1)
  {
  }

  /** An empty write succeeds and changes nothing, wherever it is aimed. */
  lemma CopyEmpty<T>(dst: seq<T>, src: seq<T>, offset: int)
    requires |src| == 0
    ensures GuardedCopy(dst, src, offset) == WriteResult(dst, 0)
  {
  }

  /** Stopping the copy loop at the first index outside `dst` gives the whole write's contents. */
  lemma OverwriteStops<T>(dst: seq<T>, src: seq<T>, offset: int, i: nat)
    requires i < |src|
    requires i > 0 ==> 0 <= offset && offset + i <= |dst|
    requires offset + i < 0 || offset + i >= |dst|
    ensures Overwrite(dst, src[..i], offset) == Overwrite(dst, src, offset)
    ensures GuardedCopy(dst, src, offset).status == -1
  {
  }

  /** One more step of the copy loop writes one more element. */
  lemma OverwriteStep<T>(dst: seq<T>, src: seq<T>, offset: int, i: nat)
    requires i < |src| && 0 <= offset && offset + i < |dst|
    ensures Overwrite(dst, src[..i + 1], offset) == Overwrite(dst, src[..i], offset)[offset + i := src[i]]
  {
  }

  /** The bounds `ConcreteRam.get` relies on: it checks nothing, so an access outside the array would throw. */
  predicate CanGet(capacity: nat, address: int, size: int)
  {
    0 <= size && (size == 0 || (0 <= address && address + size <= capacity))
  }

  /** The bytes `ConcreteRam.get(address, size)` returns. */
  function RamGet(mem: seq<bv8>, address: int, size: int): (r: seq<bv8>)
    requires CanGet(|mem|, address, size)
    ensures |r| == size
    ensures forall i :: 0 <= i < size ==> r[i] == mem[address + i]
  {
    if size == 0 then [] else mem[address..address + size]
  }

  /**
   * `ConcreteTokenRing.send(d, size)`: the loop runs `size` times and fails at the
   * first index outside either `d` or the device, so it copies
   * min(size, |d|, capacity) words and succeeds only if it never stopped.
   */
  function TokenRingSend(ring: seq<bv32>, d: seq<bv32>, size: int): (r: WriteResult<bv32>)
    ensures r.status == 0 <==> size <= |d| && size <= |ring|
    ensures r.status == 0 || r.status == -1
    ensures |r.contents| == |ring|
    ensures forall j :: 0 <= j < |ring| ==>
      r.contents[j] == if j < size && j < |d| then d[j] else ring[j]
  {
    var k := if size <= 0 then 0 else if size <= |d| then size else |d|;
    var copy := GuardedCopy(ring, d[..k], 0);
    WriteResult(copy.contents, if size <= |d| then copy.status else -1)
  }

  /** The copy loop of `send` stopped at index `i`, where `d` or the ring ran out before `size`. */
  lemma SendStops(ring: seq<bv32>, d: seq<bv32>, size: int, i: nat)
    requires i < size && i <= |d| && i <= |ring| && (i == |d| || i == |ring|)
    ensures TokenRingSend(ring, d, size) == WriteResult(Overwrite(ring, d[..i], 0), -1)
  {
    var r := TokenRingSend(ring, d, size).contents;
    var o := Overwrite(ring, d[..i], 0);
    assert forall j :: 0 <= j < |ring| ==> r[j] == o[j];
  }

  /** The copy loop of `send` ran all `size` rounds (none when `size` is negative). */
  lemma SendCompletes(ring: seq<bv32>, d: seq<bv32>, size: int, i: nat)
    requires i <= |d| && i <= |ring| && i == (if size < 0 then 0 else size)
    ensures TokenRingSend(ring, d, size) == WriteResult(Overwrite(ring, d[..i], 0), 0)
  {
    var r := TokenRingSend(ring, d, size).contents;
    var o := Overwrite(ring, d[..i], 0);
    assert forall j :: 0 <= j < |ring| ==> r[j] == o[j];
  }

  /** `ConcreteRam`: an addressable store of bytes. */
  class ConcreteRam {
    const data: array<bv8>

    /** `new ConcreteRam()`: 1 KB of zero bytes. */
    constructor Default()
      ensures fresh(data) && data[..] == ZeroBytes(1024)
    {
      data := new bv8[1024](_ => 0);
    }

    /** `new ConcreteRam(size)`: `size` zero bytes. */
    constructor (size: nat)
      ensures fresh(data) && data[..] == ZeroBytes(size)
    {
      data := new bv8[size](_ => 0);
    }

    /** `get(address, size)` copies `size` bytes starting at `address` into a fresh array. */
    method Get(address: int, size: int) returns (r: seq<bv8>)
      requires CanGet(data.Length, address, size)
      ensures r == RamGet(data[..], address, size)
    {
      var buffer := new bv8[size](_ => 0);
      for i := 0 to size
        invariant forall k :: 0 <= k < i ==> buffer[k] == data[address + k]
      {
        buffer[i] := data[address + i];
      }
      r := buffer[..];
    }

    /** `set(d, address)` writes `d` at `address`; an overflowing write keeps what it already copied. */
    method Set(d: seq<bv8>, address: int) returns (status: int)
      modifies data
      ensures WriteResult(data[..], status) == GuardedCopy(old(data[..]), d, address)
    {
      for i := 0 to |d|
        invariant i > 0 ==> 0 <= address && address + i <= data.Length
        invariant data[..] == Overwrite(old(data[..]), d[..i], address)
      {
        if address + i < 0 || address + i >= data.Length {
          // Java's ArrayIndexOutOfBoundsException, caught by the `catch` block
          OverwriteStops(old(data[..]), d, address, i);
          return -1;
        }
        OverwriteStep(old(data[..]), d, address, i);
        data[address + i] := d[i];
      }
      assert d[..|d|] == d;
      return 0;
    }
  }

  /** `ConcreteEthernet`: a byte device whose slots are `Byte` references, `null` until written. */
  class ConcreteEthernet {
    const data: array<Option<bv8>>

    /** `new ConcreteEthernet()`: 1024 empty slots. */
    constructor Default()
      ensures fresh(data) && data[..] == seq(1024, _ => None)
    {
      data := new Option<bv8>[1024](_ => None);
    }

    /** `new ConcreteEthernet(size)`: `size` empty slots. */
    constructor (size: nat)
      ensures fresh(data) && data[..] == seq(size, _ => None)
    {
      data := new Option<bv8>[size](_ => None);
    }

    /** `read(size)` returns the first `size` slots; it checks no bounds. */
    method Read(size: int) returns (r: seq<Option<bv8>>)
      requires 0 <= size <= data.Length
      ensures r == data[..size]
    {
      var buffer := new Option<bv8>[size](_ => None);
      for i := 0 to size
        invariant buffer[..i] == data[..i]
      {
        buffer[i] := data[i];
      }
      r := buffer[..];
    }

    /** `write(d)` writes `d` from slot 0 on, keeping the prefix that fits when it overflows. */
    method Write(d: seq<Option<bv8>>) returns (status: int)
      modifies data
      ensures WriteResult(data[..], status) == GuardedCopy(old(data[..]), d, 0)
    {
      for i := 0 to |d|
        invariant i <= data.Length
        invariant data[..] == Overwrite(old(data[..]), d[..i], 0)
      {
        if i >= data.Length {
          // Java's ArrayIndexOutOfBoundsException, caught by the `catch` block
          OverwriteStops(old(data[..]), d, 0, i);
          return -1;
        }
        OverwriteStep(old(data[..]), d, 0, i);
        data[i] := d[i];
      }
      assert d[..|d|] == d;
      return 0;
    }
  }

  /** `ConcreteTokenRing`: a device of 32-bit words. */
  class ConcreteTokenRing {
    const data: array<bv32>

    /** `new ConcreteTokenRing()`: 1024 zero words. */
    constructor Default()
      ensures fresh(data) && data[..] == seq(1024, _ => 0)
    {
      data := new bv32[1024](_ => 0);
    }

    /** `new ConcreteTokenRing(size)`: `size` zero words. */
    constructor (size: nat)
      ensures fresh(data) && data[..] == seq(size, _ => 0)
    {
      data := new bv32[size](_ => 0);
    }

    /** `receive(size)` returns the first `size` words; it checks no bounds. */
    method Receive(size: int) returns (r: seq<bv32>)
      requires 0 <= size <= data.Length
      ensures r == data[..size]
    {
      var buffer := new bv32[size](_ => 0);
      for i := 0 to size
        invariant buffer[..i] == data[..i]
      {
        buffer[i] := data[i];
      }
      r := buffer[..];
    }

    /** `send(d, size)` copies `size` words of `d` from index 0 on. */
    method Send(d: seq<bv32>, size: int) returns (status: int)
      modifies data
      ensures WriteResult(data[..], status) == TokenRingSend(old(data[..]), d, size)
    {
      var i := 0;
      while i < size
        invariant 0 <= i <= |d| && i <= data.Length
        invariant i <= (if size < 0 then 0 else size)
        invariant data[..] == Overwrite(old(data[..]), d[..i], 0)
      {
        if i >= |d| || i >= data.Length {
          // Java's ArrayIndexOutOfBoundsException, caught by the `catch` block
          SendStops(old(data[..]), d, size, i);
          return -1;
        }
        OverwriteStep(old(data[..]), d, 0, i);
        data[i] := d[i];
        i := i + 1;
      }
      SendCompletes(old(data[..]), d, size, i);
      return 0;
    }
  }
}
