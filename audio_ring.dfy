/**
 * The audio byte ring both firmware programs drain (a Zephyr ring_buf seen
 * as a bounded FIFO) and the fixed-size audio packet drained from it.
 */
module AudioRing {
  import opened Kernel

  /** Bytes in one audio packet: 10 ms of 8 kHz, 16-bit mono audio. */
  const AUDIO_PACKET_SIZE: nat := 160

  /** How many bytes one ring_buf_get of a whole packet takes from a ring holding s. */
  function ReadCount(s: seq<Byte>): (k: nat)
    ensures k <= AUDIO_PACKET_SIZE && k <= |s|
    ensures k == |s| || k == AUDIO_PACKET_SIZE
  {
    Min(|s|, AUDIO_PACKET_SIZE)
  }

  /**
   * The packet made from a ring holding s: the bytes read, oldest first,
   * then zero padding up to AUDIO_PACKET_SIZE.
   */
  function Packet(s: seq<Byte>): (p: seq<Byte>)
    ensures |p| == AUDIO_PACKET_SIZE
    ensures p[..ReadCount(s)] == s[..ReadCount(s)]
    ensures forall i :: ReadCount(s) <= i < AUDIO_PACKET_SIZE ==> p[i] == 0
  {
    s[..ReadCount(s)] + Zeros(AUDIO_PACKET_SIZE - ReadCount(s))
  }

  /** What the ring still holds after one packet has been drained from s. */
  function Rest(s: seq<Byte>): (r: seq<Byte>)
    ensures |r| == |s| - ReadCount(s)
  {
    s[ReadCount(s)..]
  }

  /** The audio bytes of the packets drained from s, one after the other, n times. */
  function Drained(s: seq<Byte>, n: nat): seq<Byte>
  {
    if n == 0 then [] else Packet(s)[..ReadCount(s)] + Drained(Rest(s), n - 1)
  }

  /** The ring after n packets have been drained from s. */
  function RestAfter(s: seq<Byte>, n: nat): seq<Byte>
  {
    if n == 0 then s else RestAfter(Rest(s), n - 1)
  }

  /**
   * Draining loses and reorders nothing: the audio parts of n successive
   * packets followed by what the ring still holds are exactly the bytes
   * that were in the ring.
   */
  lemma {:induction false} DrainKeepsStream(s: seq<Byte>, n: nat)
    ensures Drained(s, n) + RestAfter(s, n) == s
  {
    if n > 0 {
      DrainKeepsStream(Rest(s), n - 1);
      assert Packet(s)[..ReadCount(s)] + Rest(s) == s;
    }
  }

  /**
   * An empty ring gives silence, however many packets are drained: every
   * packet is AUDIO_PACKET_SIZE zero bytes and the ring stays empty.
   */
  lemma {:induction false} EmptyRingGivesSilence(n: nat)
    ensures Drained([], n) == [] && RestAfter([], n) == []
    ensures Packet([]) == Zeros(AUDIO_PACKET_SIZE)
  {
    if n > 0 {
      EmptyRingGivesSilence(n - 1);
    }
  }

  /**
   * A bounded FIFO of bytes with one producer and one consumer
   * (struct ring_buf). Only its contents, oldest byte first, are modelled.
   */
  class Ring {
    const capacity: nat
    var contents: seq<Byte>

    ghost predicate Valid()
      reads this
    {
      |contents| <= capacity
    }

    /** ring_buf_init / RING_BUF_DECLARE: an empty ring of the given size. */
    constructor (capacity: nat)
      ensures Valid() && this.capacity == capacity && contents == []
    {
      this.capacity := capacity;
      contents := [];
    }

    /** ring_buf_put: stores as many bytes of data as fit and says how many that was. */
    method Put(data: seq<Byte>) returns (written: nat)
      requires Valid()
      modifies this
      ensures Valid()
      ensures written == Min(|data|, capacity - |old(contents)|)
      ensures contents == old(contents) + data[..written]
    {
      written := Min(|data|, capacity - |contents|);
      contents := contents + data[..written];
    }

    /**
     * ring_buf_get: moves up to n of the oldest bytes into dst[0..] and
     * returns how many it moved; the rest of dst is left as it was.
     */
    method Get(dst: array<Byte>, n: nat) returns (got: nat)
      requires Valid() && n <= dst.Length
      modifies this, dst
      ensures Valid()
      ensures got == Min(n, |old(contents)|)
      ensures dst[..got] == old(contents)[..got]
      ensures dst[got..] == old(dst[got..])
      ensures contents == old(contents)[got..]
    {
      got := Min(n, |contents|);
      for i := 0 to got
        invariant contents == old(contents) && got <= |contents|
        invariant dst[..i] == contents[..i]
        invariant dst[i..] == old(dst[i..])
      {
        dst[i] := contents[i];
      }
      contents := contents[got..];
    }
  }

  /** memset(&buf[from], 0, buf.Length - from). */
  method ZeroFrom(buf: array<Byte>, from: nat)
    requires from <= buf.Length
    modifies buf
    ensures buf[..from] == old(buf[..from])
    ensures forall i :: from <= i < buf.Length ==> buf[i] == 0
  {
    for i := from to buf.Length
      invariant buf[..from] == old(buf[..from])
      invariant forall j :: from <= j < i ==> buf[j] == 0
    {
      buf[i] := 0;
    }
  }

  /**
   * One packet, the way both programs build it: ring_buf_get of up to
   * AUDIO_PACKET_SIZE bytes into buf, then, if fewer came, zero padding
   * of the rest of buf.
   */
  method FillPacket(ring: Ring, buf: array<Byte>) returns (bytesRead: nat)
    requires ring.Valid() && buf.Length == AUDIO_PACKET_SIZE
    modifies ring, buf
    ensures ring.Valid()
    ensures bytesRead == ReadCount(old(ring.contents))
    ensures buf[..] == Packet(old(ring.contents))
    ensures ring.contents == Rest(old(ring.contents))
  {
    ghost var s := ring.contents;
    bytesRead := ring.Get(buf, AUDIO_PACKET_SIZE);
    if bytesRead < AUDIO_PACKET_SIZE {
      ZeroFrom(buf, bytesRead);
    }
    assert buf[..bytesRead] == s[..bytesRead];
    assert buf[..] == buf[..bytesRead] + buf[bytesRead..];
    assert buf[bytesRead..] == Zeros(AUDIO_PACKET_SIZE - bytesRead);
  }
}
