/**
 * The host side of the serial link (index.js): in bob mode the data
 * handler recognises and strips debug markers and passes the rest to the
 * speaker; in alice and mallory mode a second handler only logs the
 * firmware's markers, and playLoop paces the decoded audio out to the
 * port in chunks of at most CHUNK_SIZE bytes, catching up with the
 * 16000 bytes a second that real time asks for.
 */
module SerialHost {
  import opened Kernel
  import IsoReceive

  /** 8 kHz, 16-bit mono. */
  const BYTES_PER_SECOND: nat := 16000
  /** 10 ms of audio: the most one port write carries. */
  const CHUNK_SIZE: nat := 160
  /** A debug marker is this many copies of one byte. */
  const MARKER_LEN: nat := 4

  /** The keys of DEBUG_MARKERS, the table of the bob (receiving) side. */
  const BOB_MARKERS: set<Byte> := {0xAA, 0xBB, 0xCC, 0xDD, 0xEE}
  /** The keys of DEBUG_MARKERS_TX, the table of the alice and mallory side. */
  const TX_MARKERS: set<Byte> := {0xA0, 0xA1, 0xA2, 0xA3, 0xA4, 0xA5, 0xA6}

  // ---------------------------------------------------------------------
  // Debug markers

  /**
   * The marker test of both data handlers: at least four bytes, the first
   * a key of the table, the next three equal to it.
   */
  predicate IsMarker(chunk: seq<Byte>, keys: set<Byte>)
  {
    |chunk| >= MARKER_LEN && chunk[0] in keys
    && chunk[1] == chunk[0] && chunk[2] == chunk[0] && chunk[3] == chunk[0]
  }

  /**
   * A chunk that starts with four copies of a byte is a marker exactly
   * when that byte is a key; nothing else is one.
   */
  lemma MarkerShape(k: Byte, rest: seq<Byte>, keys: set<Byte>)
    ensures IsMarker([k, k, k, k] + rest, keys) <==> k in keys
    ensures forall chunk :: IsMarker(chunk, keys) ==> chunk == [chunk[0], chunk[0], chunk[0], chunk[0]] + chunk[MARKER_LEN..]
  {
    assert ([k, k, k, k] + rest)[..MARKER_LEN] == [k, k, k, k];
    forall chunk | IsMarker(chunk, keys)
      ensures chunk == [chunk[0], chunk[0], chunk[0], chunk[0]] + chunk[MARKER_LEN..]
    {
      assert chunk == chunk[..MARKER_LEN] + chunk[MARKER_LEN..];
    }
  }

  /**
   * The marker test looks at the first four bytes of a chunk only: what
   * follows them makes no difference to it.
   */
  lemma MarkerTestsFirstFour(chunk: seq<Byte>, more: seq<Byte>, keys: set<Byte>)
    ensures IsMarker(chunk, keys) <==> |chunk| >= MARKER_LEN && IsMarker(chunk[..MARKER_LEN], keys)
    ensures IsMarker(chunk, keys) ==> IsMarker(chunk + more, keys)
    ensures |chunk| < MARKER_LEN ==> !IsMarker(chunk, keys)
  {
    if |chunk| >= MARKER_LEN {
      assert (chunk + more)[..MARKER_LEN] == chunk[..MARKER_LEN];
    }
  }

  /** The markers the sink's audio feeder reports are keys of the transmit side's table. */
  lemma FeederMarkersAreKnown(prepared: nat, bytesRead: nat)
    ensures var m := IsoReceive.FeederMarker(prepared, bytesRead); m.Some? ==> m.value in TX_MARKERS
  {
  }

  /** The markers logged so far and the last one (lastMarker, 0 before any). */
  datatype MarkerLog = MarkerLog(last: Byte, logged: seq<Byte>)

  /** A marker is logged only when it differs from the last one, which it then becomes. */
  function Note(m: MarkerLog, chunk: seq<Byte>, keys: set<Byte>): (r: MarkerLog)
    ensures |r.logged| == |m.logged| + (if IsMarker(chunk, keys) && chunk[0] != m.last then 1 else 0)
    ensures m.logged <= r.logged
    ensures IsMarker(chunk, keys) ==> r.last == chunk[0]
  {
    if IsMarker(chunk, keys) && chunk[0] != m.last then MarkerLog(chunk[0], m.logged + [chunk[0]]) else m
  }

  /**
   * What the log promises: every entry is a key, no entry repeats the one
   * before it, and `last` is the latest entry (0, which is no key, while
   * nothing has been logged).
   */
  predicate LogValid(m: MarkerLog, keys: set<Byte>)
  {
    (forall i :: 0 <= i < |m.logged| ==> m.logged[i] in keys)
    && (forall i :: 0 < i < |m.logged| ==> m.logged[i] != m.logged[i - 1])
    && (if m.logged == [] then m.last == 0 else m.last == m.logged[|m.logged| - 1])
  }

  function NoteAll(m: MarkerLog, chunks: seq<seq<Byte>>, keys: set<Byte>): MarkerLog
    decreases |chunks|
  {
    if chunks == [] then m else NoteAll(Note(m, chunks[0], keys), chunks[1..], keys)
  }

  /**
   * However the port splits its data, the log of either handler lists
   * only known markers and never the same marker twice in a row.
   */
  lemma {:induction false} NoteAllKeepsLogValid(m: MarkerLog, chunks: seq<seq<Byte>>, keys: set<Byte>)
    requires 0 !in keys && LogValid(m, keys)
    ensures LogValid(NoteAll(m, chunks, keys), keys)
    decreases |chunks|
  {
    if chunks != [] {
      var n := Note(m, chunks[0], keys);
      assert LogValid(n, keys);
      NoteAllKeepsLogValid(n, chunks[1..], keys);
    }
  }

  // ---------------------------------------------------------------------
  // The bob handler

  /** What the bob handler treats as audio: the chunk, less its marker if it starts with one. */
  function BobAudio(chunk: seq<Byte>): (a: seq<Byte>)
    ensures IsMarker(chunk, BOB_MARKERS) ==> chunk == chunk[..MARKER_LEN] + a
    ensures !IsMarker(chunk, BOB_MARKERS) ==> a == chunk
  {
    if IsMarker(chunk, BOB_MARKERS) then chunk[MARKER_LEN..] else chunk
  }

  /** Audio the firmware sends behind a marker reaches the speaker unchanged. */
  lemma MarkerStripped(k: Byte, audio: seq<Byte>)
    requires k in BOB_MARKERS
    ensures BobAudio([k, k, k, k] + audio) == audio
  {
    MarkerShape(k, audio, BOB_MARKERS);
    assert ([k, k, k, k] + audio)[MARKER_LEN..] == audio;
  }

  /** Whether the handler writes to the speaker: it returns early on a bare marker. */
  predicate Writes(chunk: seq<Byte>, speakerReady: bool)
  {
    speakerReady && !(IsMarker(chunk, BOB_MARKERS) && |chunk| == MARKER_LEN)
  }

  /** The bob handler's state: totalBytesReceived, the marker log, and the speaker writes. */
  datatype BobView = BobView(totalBytesReceived: nat, markers: MarkerLog, speakerWrites: seq<seq<Byte>>)

  /** port.on('data') in bob mode, for one chunk; speakerReady is `speaker && speakerReady`. */
  function BobStep(v: BobView, chunk: seq<Byte>, speakerReady: bool): (w: BobView)
    ensures w.totalBytesReceived == v.totalBytesReceived + |chunk|
    ensures w.markers == Note(v.markers, chunk, BOB_MARKERS)
    ensures w.speakerWrites == v.speakerWrites + (if Writes(chunk, speakerReady) then [BobAudio(chunk)] else [])
  {
    BobView(v.totalBytesReceived + |chunk|, Note(v.markers, chunk, BOB_MARKERS),
            v.speakerWrites + (if Writes(chunk, speakerReady) then [BobAudio(chunk)] else []))
  }

  /** The pieces, joined in order. */
  function Flatten(pieces: seq<seq<Byte>>): seq<Byte>
  {
    if pieces == [] then [] else pieces[0] + Flatten(pieces[1..])
  }

  lemma {:induction false} FlattenSnoc(pieces: seq<seq<Byte>>, x: seq<Byte>)
    ensures Flatten(pieces + [x]) == Flatten(pieces) + x
    decreases |pieces|
  {
    if pieces == [] {
      assert [] + [x] == [x];
    } else {
      assert (pieces + [x])[1..] == pieces[1..] + [x];
      FlattenSnoc(pieces[1..], x);
    }
  }

  /** The audio of the chunks, markers stripped, joined in order. */
  function AudioOf(chunks: seq<seq<Byte>>): seq<Byte>
  {
    if chunks == [] then [] else BobAudio(chunks[0]) + AudioOf(chunks[1..])
  }

  function BobRun(v: BobView, chunks: seq<seq<Byte>>, speakerReady: bool): BobView
    decreases |chunks|
  {
    if chunks == [] then v else BobRun(BobStep(v, chunks[0], speakerReady), chunks[1..], speakerReady)
  }

  /**
   * With the speaker ready, the speaker is given exactly the bytes that
   * came in, in order, less the markers at the start of chunks, while
   * totalBytesReceived counts every byte, markers included.
   */
  lemma {:induction false} BobPassesAudio(v: BobView, chunks: seq<seq<Byte>>)
    ensures var w := BobRun(v, chunks, true);
      w.totalBytesReceived == v.totalBytesReceived + |Flatten(chunks)|
      && Flatten(w.speakerWrites) == Flatten(v.speakerWrites) + AudioOf(chunks)
    decreases |chunks|
  {
    if chunks != [] {
      var c := chunks[0];
      var u := BobStep(v, c, true);
      FlattenSnoc(v.speakerWrites, BobAudio(c));
      if !Writes(c, true) {
        assert BobAudio(c) == [];
        assert u.speakerWrites == v.speakerWrites + [];
        assert v.speakerWrites + [] == v.speakerWrites;
        assert Flatten(v.speakerWrites) + [] == Flatten(v.speakerWrites);
        assert Flatten(u.speakerWrites) == Flatten(v.speakerWrites) + BobAudio(c);
      }
      BobPassesAudio(u, chunks[1..]);
    }
  }

  /** The bob-mode handler and the variables it updates. */
  class BobReceiver {
    var totalBytesReceived: nat
    var lastMarker: Byte
    var logged: seq<Byte>
    var speakerWrites: seq<seq<Byte>>

    function View(): BobView
      reads this
    {
      BobView(totalBytesReceived, MarkerLog(lastMarker, logged), speakerWrites)
    }

    constructor ()
      ensures View() == BobView(0, MarkerLog(0, []), [])
    {
      totalBytesReceived, lastMarker, logged, speakerWrites := 0, 0, [], [];
    }

    method OnData(chunk: seq<Byte>, speakerReady: bool)
      modifies this
      ensures View() == BobStep(old(View()), chunk, speakerReady)
    {
      totalBytesReceived := totalBytesReceived + |chunk|;
      var audio := chunk;
      if |chunk| >= MARKER_LEN {
        var first := chunk[0];
        if first in BOB_MARKERS && chunk[1] == first && chunk[2] == first && chunk[3] == first {
          if first != lastMarker {
            logged := logged + [first];
            lastMarker := first;
          }
          audio := chunk[MARKER_LEN..];
          if |audio| == 0 {
            return;
          }
        }
      }
      if speakerReady {
        speakerWrites := speakerWrites + [audio];
      }
    }
  }

  /** The alice/mallory-mode marker handler. */
  class TxReceiver {
    var lastMarkerTx: Byte
    var logged: seq<Byte>

    constructor ()
      ensures lastMarkerTx == 0 && logged == []
    {
      lastMarkerTx, logged := 0, [];
    }

    method OnData(chunk: seq<Byte>)
      modifies this
      ensures MarkerLog(lastMarkerTx, logged) == Note(MarkerLog(old(lastMarkerTx), old(logged)), chunk, TX_MARKERS)
    {
      if |chunk| >= MARKER_LEN {
        var first := chunk[0];
        if first in TX_MARKERS && chunk[1] == first && chunk[2] == first && chunk[3] == first {
          if first != lastMarkerTx {
            logged := logged + [first];
            lastMarkerTx := first;
          }
        }
      }
    }
  }

  // ---------------------------------------------------------------------
  // Real-time pacing in playLoop

  /** The chunks the catch-up loop cuts s into: CHUNK_SIZE bytes each, the last one shorter. */
  function Chunked(s: seq<Byte>): (pieces: seq<seq<Byte>>)
    ensures forall i :: 0 <= i < |pieces| ==> 0 < |pieces[i]| <= CHUNK_SIZE
    ensures forall i :: 0 <= i < |pieces| - 1 ==> |pieces[i]| == CHUNK_SIZE
    decreases |s|
  {
    if s == [] then [] else [s[..Min(CHUNK_SIZE, |s|)]] + Chunked(s[Min(CHUNK_SIZE, |s|)..])
  }

  /** Cutting loses and reorders nothing. */
  lemma {:induction false} FlattenChunked(s: seq<Byte>)
    ensures Flatten(Chunked(s)) == s
    decreases |s|
  {
    if s != [] {
      var n := Min(CHUNK_SIZE, |s|);
      FlattenChunked(s[n..]);
      assert ([s[..n]] + Chunked(s[n..]))[1..] == Chunked(s[n..]);
      assert s == s[..n] + s[n..];
    }
  }

  /** After whole chunks, one more piece of at most CHUNK_SIZE bytes is one more chunk. */
  lemma {:induction false} ChunkedSnoc(a: seq<Byte>, p: seq<Byte>)
    requires |a| % CHUNK_SIZE == 0 && 0 < |p| <= CHUNK_SIZE
    ensures Chunked(a + p) == Chunked(a) + [p]
    decreases |a|
  {
    if a == [] {
      assert a + p == p;
      assert p[..Min(CHUNK_SIZE, |p|)] == p;
      assert p[Min(CHUNK_SIZE, |p|)..] == [];
    } else {
      assert (a + p)[..CHUNK_SIZE] == a[..CHUNK_SIZE];
      assert (a + p)[CHUNK_SIZE..] == a[CHUNK_SIZE..] + p;
      ChunkedSnoc(a[CHUNK_SIZE..], p);
    }
  }

  /** expectedBytes for a loop started elapsedMs milliseconds ago. */
  function ExpectedBytes(elapsedMs: nat): nat
  {
    elapsedMs * BYTES_PER_SECOND / 1000
  }

  /**
   * Where the catch-up loop leaves bufferReadIndex, starting at idx with
   * loopBytesSent == sent, a buffer of len bytes and expected bytes due:
   * it stops once enough has been sent or the buffer runs out, and it
   * overshoots what was due by less than one chunk.
   */
  function CatchUpEnd(len: nat, idx: nat, sent: nat, expected: nat): (e: nat)
    requires idx <= len
    ensures idx <= e <= len
    ensures sent + (e - idx) >= expected || e == len
    ensures sent >= expected ==> e == idx
    ensures sent < expected ==> sent + (e - idx) < expected + CHUNK_SIZE
    decreases len - idx
  {
    if sent >= expected || idx >= len then idx
    else CatchUpEnd(len, idx + Min(CHUNK_SIZE, len - idx), sent + Min(CHUNK_SIZE, len - idx), expected)
  }

  /** One more chunk of the catch-up loop extends the chunking of what was sent since start. */
  lemma CatchUpProgress(buf: seq<Byte>, start: nat, idx: nat, next: nat)
    requires start <= idx < |buf| && next == idx + Min(CHUNK_SIZE, |buf| - idx)
    requires (idx - start) % CHUNK_SIZE == 0
    ensures Chunked(buf[start..next]) == Chunked(buf[start..idx]) + [buf[idx..next]]
    ensures (next - start) % CHUNK_SIZE == 0 || next == |buf|
  {
    ChunkedSnoc(buf[start..idx], buf[idx..next]);
    assert buf[start..next] == buf[start..idx] + buf[idx..next];
  }

  /** playLoop's state, and the outer counters and port writes across loops. */
  class Transmitter {
    var totalBytesSent: nat
    var loopCount: nat
    var audioBuffer: seq<Byte>
    var bufferReadIndex: nat
    var streamEnded: bool
    var loopBytesSent: nat
    var portWrites: seq<seq<Byte>>
    /** The writes of the current loop. */
    ghost var loopWrites: seq<seq<Byte>>

    /**
     * loopBytesSent follows bufferReadIndex, the bytes written in this
     * loop are the buffer up to bufferReadIndex, and totalBytesSent
     * counts every byte written.
     */
    ghost predicate Valid()
      reads this
    {
      bufferReadIndex <= |audioBuffer|
      && loopBytesSent == bufferReadIndex
      && Flatten(loopWrites) == audioBuffer[..bufferReadIndex]
      && totalBytesSent == |Flatten(portWrites)|
    }

    constructor ()
      ensures Valid() && totalBytesSent == 0 && loopCount == 0 && portWrites == []
    {
      totalBytesSent, loopCount := 0, 0;
      audioBuffer, bufferReadIndex, streamEnded, loopBytesSent := [], 0, false, 0;
      portWrites, loopWrites := [], [];
    }

    /** playLoop: a new loop over an empty buffer. */
    method PlayLoop()
      requires totalBytesSent == |Flatten(portWrites)|
      modifies this
      ensures Valid()
      ensures loopCount == old(loopCount) + 1
      ensures audioBuffer == [] && bufferReadIndex == 0 && !streamEnded && loopBytesSent == 0
      ensures totalBytesSent == old(totalBytesSent) && portWrites == old(portWrites)
    {
      loopCount := loopCount + 1;
      audioBuffer := [];
      bufferReadIndex := 0;
      streamEnded := false;
      loopBytesSent := 0;
      loopWrites := [];
    }

    /** audioStream.on('data'): the decoded bytes are appended to the buffer. */
    method OnAudioData(chunk: seq<Byte>)
      requires Valid()
      modifies this
      ensures Valid()
      ensures audioBuffer == old(audioBuffer) + chunk
      ensures bufferReadIndex == old(bufferReadIndex) && streamEnded == old(streamEnded)
      ensures portWrites == old(portWrites) && totalBytesSent == old(totalBytesSent)
    {
      audioBuffer := audioBuffer + chunk;
      assert audioBuffer[..bufferReadIndex] == old(audioBuffer)[..bufferReadIndex];
    }

    /** audioStream.on('end'). */
    method OnAudioEnd()
      requires Valid()
      modifies this
      ensures Valid() && streamEnded
      ensures audioBuffer == old(audioBuffer) && bufferReadIndex == old(bufferReadIndex)
      ensures portWrites == old(portWrites) && totalBytesSent == old(totalBytesSent)
    {
      streamEnded := true;
    }

    /** One pass of the catch-up loop: the next min(CHUNK_SIZE, remaining) bytes go to the port. */
    method SendChunk()
      requires Valid() && bufferReadIndex < |audioBuffer|
      modifies this
      ensures Valid()
      ensures audioBuffer == old(audioBuffer) && streamEnded == old(streamEnded) && loopCount == old(loopCount)
      ensures bufferReadIndex == old(bufferReadIndex) + Min(CHUNK_SIZE, |audioBuffer| - old(bufferReadIndex))
      ensures portWrites == old(portWrites) + [audioBuffer[old(bufferReadIndex)..bufferReadIndex]]
    {
      var remaining := |audioBuffer| - bufferReadIndex;
      var toSend := Min(CHUNK_SIZE, remaining);
      var chunk := audioBuffer[bufferReadIndex..bufferReadIndex + toSend];
      FlattenSnoc(loopWrites, chunk);
      FlattenSnoc(portWrites, chunk);
      assert audioBuffer[..bufferReadIndex + toSend] == audioBuffer[..bufferReadIndex] + chunk;
      portWrites := portWrites + [chunk];
      loopWrites := loopWrites + [chunk];
      bufferReadIndex := bufferReadIndex + toSend;
      loopBytesSent := loopBytesSent + toSend;
      totalBytesSent := totalBytesSent + toSend;
    }

    /**
     * The catch-up while loop: chunks of min(CHUNK_SIZE, remaining)
     * bytes, taken in order from bufferReadIndex, until expected bytes
     * have been sent in this loop or the buffer runs out.
     */
    method CatchUp(expected: nat)
      requires Valid()
      modifies this
      ensures Valid()
      ensures audioBuffer == old(audioBuffer) && streamEnded == old(streamEnded) && loopCount == old(loopCount)
      ensures bufferReadIndex == CatchUpEnd(|audioBuffer|, old(bufferReadIndex), old(loopBytesSent), expected)
      ensures portWrites == old(portWrites) + Chunked(audioBuffer[old(bufferReadIndex)..bufferReadIndex])
    {
      ghost var start := bufferReadIndex;
      assert audioBuffer[start..start] == [];
      while loopBytesSent < expected && bufferReadIndex < |audioBuffer|
        invariant Valid()
        invariant audioBuffer == old(audioBuffer) && streamEnded == old(streamEnded) && loopCount == old(loopCount)
        invariant start <= bufferReadIndex
        invariant CatchUpEnd(|audioBuffer|, bufferReadIndex, loopBytesSent, expected)
               == CatchUpEnd(|audioBuffer|, start, old(loopBytesSent), expected)
        invariant (bufferReadIndex - start) % CHUNK_SIZE == 0 || bufferReadIndex == |audioBuffer|
        invariant portWrites == old(portWrites) + Chunked(audioBuffer[start..bufferReadIndex])
        decreases |audioBuffer| - bufferReadIndex
      {
        ghost var idx := bufferReadIndex;
        SendChunk();
        CatchUpProgress(audioBuffer, start, idx, bufferReadIndex);
      }
    }

    /**
     * One run of the setInterval callback, elapsedMs after the loop
     * started: catch up, then, if the stream has ended and the buffer is
     * exhausted, finish this loop and start the next one.
     */
    method Tick(elapsedMs: nat) returns (finished: bool)
      requires Valid()
      modifies this
      ensures Valid()
      ensures var e := CatchUpEnd(|old(audioBuffer)|, old(bufferReadIndex), old(loopBytesSent), ExpectedBytes(elapsedMs));
        portWrites == old(portWrites) + Chunked(old(audioBuffer)[old(bufferReadIndex)..e])
        && (finished <==> old(streamEnded) && e >= |old(audioBuffer)|)
        && (finished ==> loopCount == old(loopCount) + 1 && audioBuffer == [] && bufferReadIndex == 0 && !streamEnded)
        && (!finished ==> loopCount == old(loopCount) && audioBuffer == old(audioBuffer) && bufferReadIndex == e)
    {
      CatchUp(ExpectedBytes(elapsedMs));
      finished := streamEnded && bufferReadIndex >= |audioBuffer|;
      if finished {
        PlayLoop();
      }
    }
  }
}
