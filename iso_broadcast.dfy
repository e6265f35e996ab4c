/**
 * The broadcast source firmware (samples/bluetooth/iso_broadcast): after
 * bring-up it creates a BIG, waits until every BIS channel is connected,
 * then, every tick, sends each channel a 160-byte SDU drained from the
 * UART audio ring, stamped with the uint16_t seq_num that advances once
 * per tick. A failed buffer allocation, token wait or send ends main.
 *
 * As for the sink, the globals are the fields of BroadcastSource, each
 * callback and each stretch of main between waits is a method whose new
 * state is a pure transition function over SourceState, and the
 * properties of the transmit loop are proved about those functions and
 * about Run.
 */
module IsoBroadcast {
  import opened Kernel
  import opened AudioRing

  /** The SDU interval of the BIG, in microseconds. */
  const BIG_SDU_INTERVAL_US: nat := 10000
  /** The bound on the buffer and token waits: two SDU intervals. */
  const BUF_ALLOC_TIMEOUT_US: nat := BIG_SDU_INTERVAL_US * 2
  /** Size of the audio ring the UART fills (100 ms of audio). */
  const AUDIO_RING_BUF_SIZE: nat := 1600
  /** Number of BIS channels in the BIG. */
  const BIS_ISO_CHAN_COUNT: nat := 1

  /** Where main is. */
  datatype TxPhase =
    | Setup                        // bring-up, ending with bt_iso_big_create
    | AwaitBigCreated(taken: int)  // k_sem_take(&sem_big_cmplt, K_FOREVER), `taken` channels done
    | Transmit(chan: int)          // the transmit loop, about to serve channel chan
    | Returned                     // main has returned 0

  /** A call main makes, with its outcome. */
  datatype TxOp =
    | CreateBig(ok: bool)            // the bring-up calls, bt_iso_big_create last
    | TakeBigCmplt                   // a successful k_sem_take(&sem_big_cmplt, K_FOREVER)
    | Alloc(timeoutUs: nat, ok: bool) // net_buf_alloc(&bis_tx_pool, timeout)
    | TakeToken(timeoutUs: nat, ok: bool) // k_sem_take(&sem_iso_data, timeout)
    | Send(chan: int, sdu: seq<Byte>, seqNum: U16, ok: bool) // bt_iso_chan_send
    | Unref                          // net_buf_unref

  /** The answers of the calls main may make in one step. */
  datatype TxReplies = TxReplies(setupOk: bool, allocOk: bool, sendOk: bool)

  /** The globals of the source, the audio ring's contents, and where main is. */
  datatype SourceState = SourceState(
    seqNum: U16,
    semBigCmplt: Sem,
    semBigTerm: Sem,
    semIsoData: Sem,
    ring: seq<Byte>,
    phase: TxPhase,
    ops: seq<TxOp>)

  /** Something that happens to the source. */
  datatype SourceEvent =
    | Connected                  // iso_connected
    | Disconnected               // iso_disconnected
    | Sent                       // iso_sent
    | UartRx(data: seq<Byte>)    // one uart_fifo_read in uart_rx_callback
    | MainRuns(replies: TxReplies)

  /**
   * The state at boot. sem_iso_data starts full at CONFIG_BT_ISO_TX_BUF_COUNT,
   * which is a build option: txBufCount stands for it (K_SEM_DEFINE needs a
   * limit above zero).
   */
  function InitialSource(txBufCount: nat): (s: SourceState)
    requires txBufCount > 0
    ensures SourceInv(s) && s.phase == Setup
    ensures s.semIsoData.count == s.semIsoData.limit == txBufCount
  {
    SourceState(0, Sem(0, BIS_ISO_CHAN_COUNT), Sem(0, BIS_ISO_CHAN_COUNT),
                Sem(txBufCount, txBufCount), [], Setup, [])
  }

  // ---------------------------------------------------------------------
  // The callbacks

  /** iso_connected: the sequence number starts again at 0 and sem_big_cmplt is given. */
  function OnConnected(s: SourceState): (t: SourceState)
    ensures t.seqNum == 0
    ensures t.semBigCmplt == s.semBigCmplt.Give()
    ensures t.(seqNum := s.seqNum, semBigCmplt := s.semBigCmplt) == s
  {
    s.(seqNum := 0, semBigCmplt := s.semBigCmplt.Give())
  }

  /** iso_disconnected: gives sem_big_term. */
  function OnDisconnected(s: SourceState): (t: SourceState)
  {
    s.(semBigTerm := s.semBigTerm.Give())
  }

  /** iso_sent: the controller is done with an SDU; its TX token goes back. */
  function OnSent(s: SourceState): (t: SourceState)
    ensures t.semIsoData == s.semIsoData.Give()
    ensures s.semIsoData.Valid() ==> t.semIsoData.Valid()
    ensures t.(semIsoData := s.semIsoData) == s
  {
    s.(semIsoData := s.semIsoData.Give())
  }

  /** How much more the audio ring can take. */
  function Room(ring: seq<Byte>): nat
  {
    if |ring| <= AUDIO_RING_BUF_SIZE then AUDIO_RING_BUF_SIZE - |ring| else 0
  }

  /** uart_rx_callback: the bytes read go into the ring, as many as fit. */
  function OnUartRx(s: SourceState, data: seq<Byte>): (t: SourceState)
    ensures |s.ring| <= AUDIO_RING_BUF_SIZE ==> |t.ring| <= AUDIO_RING_BUF_SIZE
    ensures |s.ring| <= |t.ring| <= |s.ring| + |data|
    ensures t.ring == s.ring + data[..|t.ring| - |s.ring|]
    ensures |data| <= Room(s.ring) ==> t.ring == s.ring + data
    ensures t.(ring := s.ring) == s
  {
    s.(ring := s.ring + data[..Min(|data|, Room(s.ring))])
  }

  // ---------------------------------------------------------------------
  // main

  /** Where main goes after the wait for the BIG of `taken` channels has found a token. */
  function AfterCmplt(taken: int): TxPhase
  {
    if taken + 1 < BIS_ISO_CHAN_COUNT then AwaitBigCreated(taken + 1) else Transmit(0)
  }

  /** The channel the transmit loop serves after chan: the next one, or the first of the next tick. */
  function AfterSend(chan: int): TxPhase
  {
    if chan + 1 < BIS_ISO_CHAN_COUNT then Transmit(chan + 1) else Transmit(0)
  }

  /** seq_num after channel chan has been sent: seq_num++ closes each tick. */
  function SeqAfterSend(seqNum: U16, chan: int): U16
  {
    if chan + 1 < BIS_ISO_CHAN_COUNT then seqNum else Inc16(seqNum)
  }

  /** The calls of one pass of the transmit loop for channel chan that got a buffer and a token. */
  function SendOps(chan: int, sdu: seq<Byte>, seqNum: U16, ok: bool): seq<TxOp>
  {
    [Alloc(BUF_ALLOC_TIMEOUT_US, true), TakeToken(BUF_ALLOC_TIMEOUT_US, true), Send(chan, sdu, seqNum, ok)]
    + (if ok then [] else [Unref])
  }

  /**
   * main runs from the wait it is at to the next one. The bounded waits
   * (buffer and token) time out when nothing is available; the K_FOREVER
   * wait for the BIG blocks.
   */
  function MainStep(s: SourceState, r: TxReplies): (t: SourceState)
    // main only ever adds to what it has done
    ensures s.ops <= t.ops
    // main returns only on a failed bring-up, buffer allocation, token wait or send
    ensures t.phase == Returned <==>
      s.phase == Returned
      || (s.phase == Setup && !r.setupOk)
      || (s.phase.Transmit? && (!r.allocOk || !s.semIsoData.Available() || !r.sendOk))
    // the wait for the BIG takes one sem_big_cmplt token per channel, or blocks
    ensures s.phase.AwaitBigCreated? ==>
      if s.semBigCmplt.Available() then
        t == s.(semBigCmplt := s.semBigCmplt.Take(), phase := AfterCmplt(s.phase.taken),
                ops := s.ops + [TakeBigCmplt])
      else t == s
    // a failed allocation returns with nothing to release
    ensures s.phase.Transmit? && !r.allocOk ==> t.ops == s.ops + [Alloc(BUF_ALLOC_TIMEOUT_US, false)]
    // a token wait that times out releases the buffer before returning
    ensures s.phase.Transmit? && r.allocOk && !s.semIsoData.Available() ==>
      t.ops == s.ops + [Alloc(BUF_ALLOC_TIMEOUT_US, true), TakeToken(BUF_ALLOC_TIMEOUT_US, false), Unref]
    // otherwise one token is taken and channel chan is sent the next packet of the ring,
    // stamped with the current seq_num; a failed send releases the buffer
    ensures s.phase.Transmit? && r.allocOk && s.semIsoData.Available() ==>
      t.semIsoData.count + 1 == s.semIsoData.count
      && t.ring == Rest(s.ring)
      && t.ops == s.ops + SendOps(s.phase.chan, Packet(s.ring), s.seqNum, r.sendOk)
      && (r.sendOk ==> t.phase == AfterSend(s.phase.chan) && t.seqNum == SeqAfterSend(s.seqNum, s.phase.chan))
    // the ring is only drained by a send attempt and the sequence number only moves after a send
    ensures !(s.phase.Transmit? && r.allocOk && s.semIsoData.Available()) ==>
      t.ring == s.ring && t.seqNum == s.seqNum && t.semIsoData == s.semIsoData
  {
    match s.phase
    case Setup =>
      s.(ops := s.ops + [CreateBig(r.setupOk)], phase := if r.setupOk then AwaitBigCreated(0) else Returned)
    case AwaitBigCreated(taken) =>
      if !s.semBigCmplt.Available() then s
      else s.(semBigCmplt := s.semBigCmplt.Take(), phase := AfterCmplt(taken), ops := s.ops + [TakeBigCmplt])
    case Transmit(chan) =>
      if !r.allocOk then
        s.(ops := s.ops + [Alloc(BUF_ALLOC_TIMEOUT_US, false)], phase := Returned)
      else if !s.semIsoData.Available() then
        s.(ops := s.ops + [Alloc(BUF_ALLOC_TIMEOUT_US, true), TakeToken(BUF_ALLOC_TIMEOUT_US, false), Unref],
           phase := Returned)
      else
        var u := s.(semIsoData := s.semIsoData.Take(), ring := Rest(s.ring),
                    ops := s.ops + SendOps(chan, Packet(s.ring), s.seqNum, r.sendOk));
        if r.sendOk then u.(phase := AfterSend(chan), seqNum := SeqAfterSend(s.seqNum, chan))
        else u.(phase := Returned)
    case Returned => s
  }

  function Next(s: SourceState, e: SourceEvent): SourceState
  {
    match e
    case Connected => OnConnected(s)
    case Disconnected => OnDisconnected(s)
    case Sent => OnSent(s)
    case UartRx(data) => OnUartRx(s, data)
    case MainRuns(r) => MainStep(s, r)
  }

  /** The state after the events evs, in order. */
  function Run(s: SourceState, evs: seq<SourceEvent>): SourceState
    decreases |evs|
  {
    if evs == [] then s else Run(Next(s, evs[0]), evs[1..])
  }

  // ---------------------------------------------------------------------
  // Counting what main has done

  datatype Counter =
    | CmpltTakes    // sem_big_cmplt tokens taken
    | Allocs        // net_bufs allocated
    | BufsHeld      // net_bufs allocated and neither handed to the stack nor released
    | TokensUnsent  // TX tokens taken and not spent on a send attempt; a failed send spends one too, as main never gives it back

  function Weight(op: TxOp, c: Counter): int
  {
    match c
    case CmpltTakes => if op.TakeBigCmplt? then 1 else 0
    case Allocs => if op.Alloc? && op.ok then 1 else 0
    case BufsHeld =>
      if op.Alloc? && op.ok then 1
      else if op.Unref? || (op.Send? && op.ok) then -1
      else 0
    case TokensUnsent =>
      if op.TakeToken? && op.ok then 1
      else if op.Send? then -1
      else 0
  }

  function Total(ops: seq<TxOp>, c: Counter): int
  {
    if ops == [] then 0 else Total(ops[..|ops| - 1], c) + Weight(ops[|ops| - 1], c)
  }

  /** How many sem_big_cmplt tokens main has taken by the time it is at phase p. */
  function TakenBy(p: TxPhase): int
  {
    match p
    case Setup => 0
    case AwaitBigCreated(taken) => taken
    case Transmit(_) => BIS_ISO_CHAN_COUNT
    case Returned => 0
  }

  /**
   * The invariant of the source: semaphores within their limits (the
   * token pool within [0, CONFIG_BT_ISO_TX_BUF_COUNT]), the ring within
   * its size, channel indices within the array, one sem_big_cmplt token
   * taken per channel before any buffer is allocated, between steps no
   * net_buf and no TX token held by main, and only whole packets sent.
   */
  predicate SourceInv(s: SourceState)
  {
    s.semBigCmplt.limit == BIS_ISO_CHAN_COUNT && s.semBigCmplt.Valid()
    && s.semBigTerm.limit == BIS_ISO_CHAN_COUNT && s.semBigTerm.Valid()
    && s.semIsoData.limit > 0 && s.semIsoData.Valid()
    && |s.ring| <= AUDIO_RING_BUF_SIZE
    && (s.phase.AwaitBigCreated? ==> 0 <= s.phase.taken < BIS_ISO_CHAN_COUNT)
    && (s.phase.Transmit? ==> 0 <= s.phase.chan < BIS_ISO_CHAN_COUNT)
    && (!s.phase.Returned? ==> Total(s.ops, CmpltTakes) == TakenBy(s.phase))
    && 0 <= Total(s.ops, CmpltTakes) <= BIS_ISO_CHAN_COUNT
    && (Total(s.ops, Allocs) > 0 ==> Total(s.ops, CmpltTakes) == BIS_ISO_CHAN_COUNT)
    && Total(s.ops, BufsHeld) == 0
    && Total(s.ops, TokensUnsent) == 0
    && SdusWellFormed(s.ops)
  }

  /** Every SDU main has handed to the stack is a whole packet, for a channel of the array. */
  predicate SdusWellFormed(ops: seq<TxOp>)
  {
    forall i :: 0 <= i < |ops| && ops[i].Send? ==>
      |ops[i].sdu| == AUDIO_PACKET_SIZE && 0 <= ops[i].chan < BIS_ISO_CHAN_COUNT
  }

  lemma TotalSnoc(a: seq<TxOp>, x: TxOp, c: Counter)
    ensures Total(a + [x], c) == Total(a, c) + Weight(x, c)
  {
    assert (a + [x])[..|a|] == a;
  }

  lemma TotalSnoc3(a: seq<TxOp>, x: TxOp, y: TxOp, z: TxOp, c: Counter)
    ensures Total(a + [x, y, z], c) == Total(a, c) + Weight(x, c) + Weight(y, c) + Weight(z, c)
  {
    assert a + [x, y, z] == a + [x] + [y] + [z];
    TotalSnoc(a + [x] + [y], z, c);
    TotalSnoc(a + [x], y, c);
    TotalSnoc(a, x, c);
  }

  /** The invariant across the bring-up and the wait for the BIG. */
  lemma SetupKeepsInv(s: SourceState, r: TxReplies)
    requires SourceInv(s) && (s.phase.Setup? || s.phase.AwaitBigCreated?)
    ensures SourceInv(MainStep(s, r))
  {
    var t := MainStep(s, r);
    if s.phase.Setup? {
      forall c ensures Total(t.ops, c) == Total(s.ops, c) + Weight(CreateBig(r.setupOk), c) {
        TotalSnoc(s.ops, CreateBig(r.setupOk), c);
      }
    } else if s.semBigCmplt.Available() {
      forall c ensures Total(t.ops, c) == Total(s.ops, c) + Weight(TakeBigCmplt, c) {
        TotalSnoc(s.ops, TakeBigCmplt, c);
      }
    }
  }

  /** The invariant across a transmit pass that fails before anything is sent. */
  lemma NoSendKeepsInv(s: SourceState, r: TxReplies)
    requires SourceInv(s) && s.phase.Transmit? && !(r.allocOk && s.semIsoData.Available())
    ensures SourceInv(MainStep(s, r))
  {
    var t := MainStep(s, r);
    if !r.allocOk {
      forall c ensures Total(t.ops, c) == Total(s.ops, c) + Weight(Alloc(BUF_ALLOC_TIMEOUT_US, false), c) {
        TotalSnoc(s.ops, Alloc(BUF_ALLOC_TIMEOUT_US, false), c);
      }
    } else {
      var alloc, fail := Alloc(BUF_ALLOC_TIMEOUT_US, true), TakeToken(BUF_ALLOC_TIMEOUT_US, false);
      forall c ensures Total(t.ops, c) == Total(s.ops, c) + Weight(alloc, c) + Weight(fail, c) + Weight(Unref, c) {
        TotalSnoc3(s.ops, alloc, fail, Unref, c);
      }
    }
  }

  /** The invariant across a transmit pass that hands an SDU to the stack. */
  lemma SendKeepsInv(s: SourceState, r: TxReplies)
    requires SourceInv(s) && s.phase.Transmit? && r.allocOk && s.semIsoData.Available()
    ensures SourceInv(MainStep(s, r))
  {
    var t := MainStep(s, r);
    var alloc, tok := Alloc(BUF_ALLOC_TIMEOUT_US, true), TakeToken(BUF_ALLOC_TIMEOUT_US, true);
    var send := Send(s.phase.chan, Packet(s.ring), s.seqNum, r.sendOk);
    var u := s.ops + [alloc, tok, send];
    forall c ensures Total(u, c) == Total(s.ops, c) + Weight(alloc, c) + Weight(tok, c) + Weight(send, c) {
      TotalSnoc3(s.ops, alloc, tok, send, c);
    }
    if !r.sendOk {
      assert t.ops == u + [Unref];
      forall c ensures Total(t.ops, c) == Total(u, c) + Weight(Unref, c) {
        TotalSnoc(u, Unref, c);
      }
    } else {
      assert t.ops == u;
    }
  }

  lemma MainStepKeepsInv(s: SourceState, r: TxReplies)
    requires SourceInv(s)
    ensures SourceInv(MainStep(s, r))
  {
    if s.phase.Setup? || s.phase.AwaitBigCreated? {
      SetupKeepsInv(s, r);
    } else if s.phase.Transmit? {
      if r.allocOk && s.semIsoData.Available() {
        SendKeepsInv(s, r);
      } else {
        NoSendKeepsInv(s, r);
      }
    }
  }

  lemma StepKeepsInv(s: SourceState, e: SourceEvent)
    requires SourceInv(s)
    ensures SourceInv(Next(s, e))
  {
    if e.MainRuns? {
      MainStepKeepsInv(s, e.replies);
    }
  }

  /** Every state reached from one that satisfies the invariant satisfies it. */
  lemma {:induction false} RunKeepsInv(s: SourceState, evs: seq<SourceEvent>)
    requires SourceInv(s)
    ensures SourceInv(Run(s, evs))
    decreases |evs|
  {
    if evs != [] {
      StepKeepsInv(s, evs[0]);
      RunKeepsInv(Next(s, evs[0]), evs[1..]);
    }
  }

  /**
   * From boot on, by every wait and after main has returned, every
   * net_buf main allocated was handed to the stack or released, every TX
   * token it took was spent on a send, the token pool never leaves
   * [0, CONFIG_BT_ISO_TX_BUF_COUNT], and no buffer was allocated before
   * one sem_big_cmplt per channel had been taken; every SDU sent is a
   * whole AUDIO_PACKET_SIZE packet.
   */
  lemma {:induction false} NothingLeaks(txBufCount: nat, evs: seq<SourceEvent>)
    requires txBufCount > 0
    ensures var t := Run(InitialSource(txBufCount), evs);
      Total(t.ops, BufsHeld) == 0 && Total(t.ops, TokensUnsent) == 0
      && t.semIsoData.limit == txBufCount && t.semIsoData.count <= txBufCount
      && (Total(t.ops, Allocs) > 0 ==> Total(t.ops, CmpltTakes) == BIS_ISO_CHAN_COUNT)
      && SdusWellFormed(t.ops)
  {
    RunKeepsInv(InitialSource(txBufCount), evs);
    LimitStays(InitialSource(txBufCount), evs);
  }

  /** No event changes the limit of sem_iso_data. */
  lemma {:induction false} LimitStays(s: SourceState, evs: seq<SourceEvent>)
    ensures Run(s, evs).semIsoData.limit == s.semIsoData.limit
    decreases |evs|
  {
    if evs != [] {
      LimitStays(Next(s, evs[0]), evs[1..]);
    }
  }

  // ---------------------------------------------------------------------
  // Sequence numbers

  /** The sequence numbers of the sends in ops, in order. */
  function SendSeqs(ops: seq<TxOp>): seq<U16>
  {
    if ops == [] then []
    else SendSeqs(ops[..|ops| - 1]) + (if ops[|ops| - 1].Send? then [ops[|ops| - 1].seqNum] else [])
  }

  lemma SendSeqsSnoc(a: seq<TxOp>, x: TxOp)
    ensures SendSeqs(a + [x]) == SendSeqs(a) + (if x.Send? then [x.seqNum] else [])
  {
    assert (a + [x])[..|a|] == a;
  }

  /** xs counts up from q, one per element, modulo 2^16. */
  predicate CountsUpFrom(xs: seq<U16>, q: int)
  {
    forall i :: 0 <= i < |xs| ==> xs[i] == (q + i) % UINT16_LIMIT
  }

  predicate NoConnect(evs: seq<SourceEvent>)
  {
    forall i :: 0 <= i < |evs| ==> evs[i] != Connected
  }

  /**
   * The inductive form of SuccessiveSdusCount: the sends since position k
   * of the log count up from q, and while transmitting seq_num is the
   * number the next send is to carry.
   */
  predicate SeqsFrom(s: SourceState, k: nat, q: int)
  {
    k <= |SendSeqs(s.ops)|
    && CountsUpFrom(SendSeqs(s.ops)[k..], q)
    && (s.phase.Transmit? ==> s.seqNum == (q + |SendSeqs(s.ops)| - k) % UINT16_LIMIT)
  }

  lemma SendSeqsNoSend3(a: seq<TxOp>, x: TxOp, y: TxOp, z: TxOp)
    requires !x.Send? && !y.Send? && !z.Send?
    ensures SendSeqs(a + [x, y, z]) == SendSeqs(a)
  {
    assert a + [x, y, z] == a + [x] + [y] + [z];
    SendSeqsSnoc(a + [x] + [y], z);
    SendSeqsSnoc(a + [x], y);
    SendSeqsSnoc(a, x);
  }

  lemma SendSeqsOfSendOps(a: seq<TxOp>, chan: int, sdu: seq<Byte>, seqNum: U16, ok: bool)
    ensures SendSeqs(a + SendOps(chan, sdu, seqNum, ok)) == SendSeqs(a) + [seqNum]
  {
    var alloc, tok := Alloc(BUF_ALLOC_TIMEOUT_US, true), TakeToken(BUF_ALLOC_TIMEOUT_US, true);
    var send := Send(chan, sdu, seqNum, ok);
    var u := a + [alloc] + [tok] + [send];
    SendSeqsSnoc(a + [alloc] + [tok], send);
    SendSeqsSnoc(a + [alloc], tok);
    SendSeqsSnoc(a, alloc);
    if ok {
      assert a + SendOps(chan, sdu, seqNum, ok) == u;
    } else {
      assert a + SendOps(chan, sdu, seqNum, ok) == u + [Unref];
      SendSeqsSnoc(u, Unref);
    }
  }

  /** A step of main logs one send, carrying seq_num, exactly when it gets a buffer and a token. */
  lemma MainStepSendSeqs(s: SourceState, r: TxReplies)
    requires s.phase.Transmit? || s.phase.Returned?
    ensures var t := MainStep(s, r);
      SendSeqs(t.ops) == SendSeqs(s.ops)
        + (if s.phase.Transmit? && r.allocOk && s.semIsoData.Available() then [s.seqNum] else [])
  {
    var t := MainStep(s, r);
    if s.phase.Returned? {
    } else if !r.allocOk {
      SendSeqsSnoc(s.ops, Alloc(BUF_ALLOC_TIMEOUT_US, false));
    } else if !s.semIsoData.Available() {
      SendSeqsNoSend3(s.ops, Alloc(BUF_ALLOC_TIMEOUT_US, true), TakeToken(BUF_ALLOC_TIMEOUT_US, false), Unref);
    } else {
      SendSeqsOfSendOps(s.ops, s.phase.chan, Packet(s.ring), s.seqNum, r.sendOk);
    }
  }

  lemma MainStepKeepsSeqs(s: SourceState, r: TxReplies, k: nat, q: int)
    requires SourceInv(s) && (s.phase.Transmit? || s.phase.Returned?) && SeqsFrom(s, k, q)
    ensures var t := MainStep(s, r); (t.phase.Transmit? || t.phase.Returned?) && SeqsFrom(t, k, q)
  {
    var t := MainStep(s, r);
    var n := |SendSeqs(s.ops)|;
    MainStepSendSeqs(s, r);
    if s.phase.Transmit? && r.allocOk && s.semIsoData.Available() {
      var xs := SendSeqs(t.ops)[k..];
      assert xs == SendSeqs(s.ops)[k..] + [s.seqNum];
      assert CountsUpFrom(xs, q) by {
        forall i | 0 <= i < |xs| ensures xs[i] == (q + i) % UINT16_LIMIT {
          if i < n - k {
            assert xs[i] == SendSeqs(s.ops)[k..][i];
          } else {
            assert xs[i] == s.seqNum == (q + n - k) % UINT16_LIMIT;
          }
        }
      }
    }
  }

  /** Every event keeps SeqsFrom, except a connect, which resets seq_num. */
  lemma StepKeepsSeqs(s: SourceState, e: SourceEvent, k: nat, q: int)
    requires SourceInv(s) && (s.phase.Transmit? || s.phase.Returned?) && SeqsFrom(s, k, q)
    requires e != Connected
    ensures var t := Next(s, e); (t.phase.Transmit? || t.phase.Returned?) && SeqsFrom(t, k, q)
  {
    if e.MainRuns? {
      MainStepKeepsSeqs(s, e.replies, k, q);
    }
  }

  lemma {:induction false} RunKeepsSeqs(s: SourceState, evs: seq<SourceEvent>, k: nat, q: int)
    requires SourceInv(s) && (s.phase.Transmit? || s.phase.Returned?) && SeqsFrom(s, k, q)
    requires NoConnect(evs)
    ensures var t := Run(s, evs); (t.phase.Transmit? || t.phase.Returned?) && SeqsFrom(t, k, q)
    decreases |evs|
  {
    if evs != [] {
      assert evs[0] != Connected;
      StepKeepsSeqs(s, evs[0], k, q);
      StepKeepsInv(s, evs[0]);
      assert NoConnect(evs[1..]) by {
        forall i | 0 <= i < |evs[1..]| ensures evs[1..][i] != Connected {
          assert evs[1..][i] == evs[i + 1];
        }
      }
      RunKeepsSeqs(Next(s, evs[0]), evs[1..], k, q);
    }
  }

  /**
   * Once transmitting, and as long as no channel (re)connects, the SDUs
   * sent carry successive sequence numbers: the i-th one after this
   * point carries seq_num + i modulo 2^16, one per tick, so the counter
   * wraps from 65535 to 0 rather than stopping.
   */
  lemma SuccessiveSdusCount(s: SourceState, evs: seq<SourceEvent>)
    requires SourceInv(s) && s.phase.Transmit?
    requires NoConnect(evs)
    ensures var t := Run(s, evs);
      |SendSeqs(s.ops)| <= |SendSeqs(t.ops)| && CountsUpFrom(SendSeqs(t.ops)[|SendSeqs(s.ops)|..], s.seqNum)
  {
    assert SendSeqs(s.ops)[|SendSeqs(s.ops)|..] == [];
    RunKeepsSeqs(s, evs, |SendSeqs(s.ops)|, s.seqNum);
  }

  // ---------------------------------------------------------------------
  // The source as the firmware holds it

  class BroadcastSource {
    var seqNum: U16
    var semBigCmplt: Sem
    var semBigTerm: Sem
    var semIsoData: Sem
    var phase: TxPhase
    var ops: seq<TxOp>
    /** audio_ring_buf. */
    const ring: Ring
    /** main's local uint8_t audio_data[AUDIO_PACKET_SIZE]. */
    const audioData: array<Byte>

    ghost predicate Valid()
      reads this, ring
    {
      ring.Valid() && ring.capacity == AUDIO_RING_BUF_SIZE && audioData.Length == AUDIO_PACKET_SIZE
    }

    function View(): SourceState
      reads this, ring
    {
      SourceState(seqNum, semBigCmplt, semBigTerm, semIsoData, ring.contents, phase, ops)
    }

    constructor (txBufCount: nat)
      requires txBufCount > 0
      ensures Valid() && View() == InitialSource(txBufCount)
      ensures fresh(ring) && fresh(audioData)
    {
      seqNum := 0;
      semBigCmplt, semBigTerm := Sem(0, BIS_ISO_CHAN_COUNT), Sem(0, BIS_ISO_CHAN_COUNT);
      semIsoData := Sem(txBufCount, txBufCount);
      phase, ops := Setup, [];
      ring := new Ring(AUDIO_RING_BUF_SIZE);
      audioData := new Byte[AUDIO_PACKET_SIZE](_ => 0);
    }

    method IsoConnected()
      modifies this
      ensures View() == OnConnected(old(View()))
    {
      seqNum := 0;
      semBigCmplt := semBigCmplt.Give();
    }

    method IsoDisconnected()
      modifies this
      ensures View() == OnDisconnected(old(View()))
    {
      semBigTerm := semBigTerm.Give();
    }

    method IsoSent()
      modifies this
      ensures View() == OnSent(old(View()))
    {
      semIsoData := semIsoData.Give();
    }

    method UartRxCallback(data: seq<Byte>)
      requires Valid()
      modifies ring
      ensures Valid()
      ensures View() == OnUartRx(old(View()), data)
    {
      if |data| > 0 {
        var written := ring.Put(data);
      }
    }

    /** main, from one wait to the next. */
    method RunMain(r: TxReplies)
      requires Valid()
      modifies this, ring, audioData
      ensures Valid()
      ensures View() == MainStep(old(View()), r)
    {
      match phase
      case Setup =>
        ops := ops + [CreateBig(r.setupOk)];
        if !r.setupOk {
          phase := Returned;
        } else {
          phase := AwaitBigCreated(0);
        }
      case AwaitBigCreated(taken) =>
        if semBigCmplt.Available() {
          semBigCmplt := semBigCmplt.Take();
          ops := ops + [TakeBigCmplt];
          phase := AfterCmplt(taken);
        }
      case Transmit(chan) =>
        if !r.allocOk {
          ops := ops + [Alloc(BUF_ALLOC_TIMEOUT_US, false)];
          phase := Returned;
          return;
        }
        if !semIsoData.Available() {
          ops := ops + [Alloc(BUF_ALLOC_TIMEOUT_US, true), TakeToken(BUF_ALLOC_TIMEOUT_US, false), Unref];
          phase := Returned;
          return;
        }
        semIsoData := semIsoData.Take();
        var bytesRead := FillPacket(ring, audioData);
        ops := ops + [Alloc(BUF_ALLOC_TIMEOUT_US, true), TakeToken(BUF_ALLOC_TIMEOUT_US, true),
                      Send(chan, audioData[..], seqNum, r.sendOk)];
        if !r.sendOk {
          ops := ops + [Unref];
          phase := Returned;
          return;
        }
        phase := AfterSend(chan);
        if chan + 1 >= BIS_ISO_CHAN_COUNT {
          seqNum := Inc16(seqNum);
        }
      case Returned =>
    }
  }
}
