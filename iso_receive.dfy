/**
 * The broadcast sink firmware (samples/bluetooth/iso_receive): it scans
 * for the source advertising the name "AliceISO", synchronises to its
 * periodic advertising, waits for BIGInfo, syncs to the BIG, waits until
 * the periodic sync is lost, tears everything down and starts again; a
 * separate feeder thread turns the audio ring into 160-byte packets.
 *
 * The globals the callbacks and main share are the fields of
 * BroadcastSink. Each callback and each stretch of main between two
 * semaphore waits is a method whose new state is given by a pure
 * transition function (On..., MainStep) over the value SinkState; the
 * retry loop's properties are proved about those functions and about
 * Run, which plays any sequence of events.
 */
module IsoReceive {
  import opened Kernel
  import opened AudioRing

  /** Size of the name buffer scan_recv parses into. */
  const NAME_LEN: nat := 30
  /** Number of BIS channels the sink syncs to. */
  const BIS_ISO_CHAN_COUNT: nat := 1
  /** Size of the audio ring the feeder drains. */
  const MALLORY_AUDIO_BUF_SIZE: nat := 1600

  /**
   * The AD types Shortened Local Name and Complete Local Name
   * (Bluetooth Core Specification Supplement, Part A, section 1.2).
   */
  const BT_DATA_NAME_SHORTENED: Byte := 0x08
  const BT_DATA_NAME_COMPLETE: Byte := 0x09

  /** HCI error code "Operation Cancelled by Host". */
  const BT_HCI_ERR_OP_CANCELLED_BY_HOST: Byte := 0x44

  /** One unit of an advertising interval is 1.25 ms (BT_CONN_INTERVAL_TO_US). */
  const INTERVAL_UNIT_US: nat := 1250

  /** The bytes of "AliceISO", the name the sink looks for. */
  const ALICE_ISO: seq<Byte> := [0x41, 0x6C, 0x69, 0x63, 0x65, 0x49, 0x53, 0x4F]

  /** sync_create_param.timeout, in units of 10 ms. */
  const PA_SYNC_TIMEOUT: nat := 0x190
  /** big_sync_param.sync_timeout, in units of 10 ms. */
  const BIG_SYNC_TIMEOUT: nat := 300
  /** big_sync_param.bis_bitfield: BIT_MASK(BIS_ISO_CHAN_COUNT). */
  const BIS_BITFIELD: nat := 1
  /** The settle delay after a teardown. */
  const TEARDOWN_SLEEP_MS: nat := 1000

  /** Markers the feeder reports every 100th packet. */
  const DEBUG_MARKER_AUDIO: Byte := 0xA5
  const DEBUG_MARKER_AUDIO_DATA: Byte := 0xA6

  // ---------------------------------------------------------------------
  // Advertised name: data_cb, the name buffer and strcmp

  /** One AD structure of an advertising report: its type and its data. */
  datatype AdStructure = AdStructure(adType: Byte, data: seq<Byte>)

  predicate IsNameType(t: Byte)
  {
    t == BT_DATA_NAME_SHORTENED || t == BT_DATA_NAME_COMPLETE
  }

  /** How many name bytes data_cb copies: MIN(data_len, NAME_LEN - 1). */
  function NameLength(data: seq<Byte>): (len: nat)
    ensures len <= |data| && len < NAME_LEN
    ensures len == |data| || len == NAME_LEN - 1
  {
    Min(|data|, NAME_LEN - 1)
  }

  /** The name buffer buf after data_cb has copied name data into it. */
  function CopyName(buf: seq<Byte>, data: seq<Byte>): (r: seq<Byte>)
    requires |buf| == NAME_LEN
    ensures |r| == NAME_LEN
    ensures r[..NameLength(data)] == data[..NameLength(data)]
    ensures r[NameLength(data)] == 0
    ensures r[NameLength(data) + 1..] == buf[NameLength(data) + 1..]
  {
    data[..NameLength(data)] + [0] + buf[NameLength(data) + 1..]
  }

  /**
   * data_cb: for a name AD structure, copies at most NAME_LEN - 1 bytes of
   * it into name, NUL-terminates it and stops the parse (false); any other
   * AD structure leaves name alone and lets the parse go on (true).
   */
  method DataCb(ad: AdStructure, name: array<Byte>) returns (more: bool)
    requires name.Length == NAME_LEN
    modifies name
    ensures more <==> !IsNameType(ad.adType)
    ensures name[..] == if more then old(name[..]) else CopyName(old(name[..]), ad.data)
  {
    if IsNameType(ad.adType) {
      var len := NameLength(ad.data);
      for i := 0 to len
        invariant name[..i] == ad.data[..i]
        invariant name[i..] == old(name[i..])
      {
        name[i] := ad.data[i];
      }
      name[len] := 0;
      assert name[..] == name[..len] + [name[len]] + name[len + 1..];
      more := false;
    } else {
      more := true;
    }
  }

  /** The data of the first name AD structure of a report, where the parse stops. */
  function FirstName(ads: seq<AdStructure>): Option<seq<Byte>>
  {
    if ads == [] then None
    else if IsNameType(ads[0].adType) then Some(ads[0].data)
    else FirstName(ads[1..])
  }

  /** The name buffer scan_recv is left with: zeroed, then written by data_cb once at most. */
  function NameBuffer(ads: seq<AdStructure>): seq<Byte>
  {
    match FirstName(ads)
    case None => Zeros(NAME_LEN)
    case Some(d) => CopyName(Zeros(NAME_LEN), d)
  }

  /**
   * The local name buffer of scan_recv: memset to zero, then
   * bt_data_parse handing the report's AD structures, in order, to data_cb
   * until data_cb asks it to stop.
   */
  method ParseName(ads: seq<AdStructure>) returns (name: seq<Byte>)
    ensures name == NameBuffer(ads)
  {
    var buf := new Byte[NAME_LEN](_ => 0);
    var i := 0;
    while i < |ads|
      invariant 0 <= i <= |ads|
      invariant FirstName(ads) == FirstName(ads[i..])
      invariant buf[..] == Zeros(NAME_LEN)
    {
      var more := DataCb(ads[i], buf);
      if !more {
        name := buf[..];
        return;
      }
      assert ads[i..][1..] == ads[i + 1..];
      i := i + 1;
    }
    name := buf[..];
  }

  /** The C string stored in buf: its bytes before the first NUL. */
  function CString(buf: seq<Byte>): (s: seq<Byte>)
    ensures |s| <= |buf| && s == buf[..|s|]
    ensures forall i :: 0 <= i < |s| ==> buf[i] != 0
    ensures |s| < |buf| ==> buf[|s|] == 0
  {
    if buf == [] then []
    else if buf[0] == 0 then []
    else [buf[0]] + CString(buf[1..])
  }

  /** strcmp(name, "AliceISO") == 0. */
  predicate IsAliceName(buf: seq<Byte>)
  {
    CString(buf) == ALICE_ISO
  }

  /** Name data that C code reads as "AliceISO": those bytes, then the end or a NUL. */
  predicate SaysAlice(d: seq<Byte>)
  {
    |d| >= |ALICE_ISO| && d[..|ALICE_ISO|] == ALICE_ISO && (|d| == |ALICE_ISO| || d[|ALICE_ISO|] == 0)
  }

  /**
   * Two NUL-free prefixes of buf that are each followed by a NUL (or the
   * end of buf) are the same prefix.
   */
  lemma NulFreePrefixUnique(buf: seq<Byte>, s: seq<Byte>, w: seq<Byte>)
    requires |s| <= |buf| && s == buf[..|s|]
    requires forall i :: 0 <= i < |s| ==> buf[i] != 0
    requires |s| < |buf| ==> buf[|s|] == 0
    requires forall i :: 0 <= i < |w| ==> w[i] != 0
    requires |w| < |buf| && buf[..|w|] == w && buf[|w|] == 0
    ensures s == w
  {
  }

  /** A C string equals a NUL-free word exactly when the word is followed by a NUL. */
  lemma CStringIs(buf: seq<Byte>, w: seq<Byte>)
    requires forall i :: 0 <= i < |w| ==> w[i] != 0
    requires |w| < |buf|
    ensures CString(buf) == w <==> buf[..|w|] == w && buf[|w|] == 0
  {
    if buf[..|w|] == w && buf[|w|] == 0 {
      NulFreePrefixUnique(buf, CString(buf), w);
    }
  }

  /**
   * The name test of scan_recv: the report's buffer compares equal to
   * "AliceISO" exactly when the report has a name AD structure and the
   * first one says "AliceISO", alone or followed by a NUL. A Complete
   * Local Name after a Shortened one that does not match is never seen.
   */
  lemma {:induction false} AliceNameTest(ads: seq<AdStructure>)
    ensures IsAliceName(NameBuffer(ads)) <==> FirstName(ads).Some? && SaysAlice(FirstName(ads).value)
  {
    var buf := NameBuffer(ads);
    var n := |ALICE_ISO|;
    CStringIs(buf, ALICE_ISO);
    match FirstName(ads)
    case None =>
      assert buf[n] == 0 && buf[0] != ALICE_ISO[0];
    case Some(d) =>
      var len := NameLength(d);
      assert buf[len] == 0;
      if |d| < n {
        assert buf[..n][len] != ALICE_ISO[len];
      } else {
        assert buf[..n] == d[..n];
        if |d| == n {
          assert len == n;
        } else {
          assert buf[n] == d[n];
        }
      }
  }

  // ---------------------------------------------------------------------
  // The sink's shared state

  /** A bt_addr_le_t: address type and address bytes. */
  type Addr = seq<Byte>

  /** What scan_recv reads from bt_le_scan_recv_info. */
  datatype ScanInfo = ScanInfo(addr: Addr, sid: Byte, interval: nat)

  /** The semaphore wait (or return) main is at. */
  datatype Phase =
    | LoopTop                       // about to start one iteration of the retry loop
    | AwaitPeer                     // scanning: k_sem_take(&sem_per_adv, K_FOREVER)
    | AwaitSync                     // k_sem_take(&sem_per_sync, 2 s)
    | AwaitBigInfo                  // k_sem_take(&sem_per_big_info, 2 s)
    | AwaitBisConnected(chan: int)  // k_sem_take(&sem_big_sync, TIMEOUT_SYNC_CREATE) for channel chan
    | AwaitSyncLost                 // k_sem_take(&sem_per_sync_lost, K_FOREVER)
    | Returned                      // main has returned 0

  /** A Bluetooth stack call made by main, with whether it succeeded. */
  datatype StackCall =
    | ScanStart(ok: bool)
    | ScanStop
    | SyncCreate(addr: Addr, sid: Byte, timeout: nat, ok: bool)
    | SyncDelete
    | BigSync(numBis: nat, bisBitfield: nat, syncTimeout: nat, ok: bool)
    | BigTerminate
    | Sleep(ms: nat)

  /** The answers of the stack calls main may make in one step. */
  datatype Replies = Replies(scanStartOk: bool, syncCreateOk: bool, bigSyncOk: bool)

  /** The globals of the sink, and where main is. */
  datatype SinkState = SinkState(
    perAdvFound: bool,
    perAdvLost: bool,
    perAddr: Addr,
    perSid: Byte,
    perIntervalUs: nat,
    semPerAdv: Sem,
    semPerSync: Sem,
    semPerSyncLost: Sem,
    semPerBigInfo: Sem,
    semBigSync: Sem,
    semBigSyncLost: Sem,
    phase: Phase,
    calls: seq<StackCall>)

  /** Something that happens to the sink: a stack callback, or main running. */
  datatype SinkEvent =
    | ScanReport(info: ScanInfo, ads: seq<AdStructure>)
    | PaSynced
    | PaSyncTerminated
    | BigInfoReport
    | BisConnected(chan: nat)
    | BisDisconnected(chan: nat, reason: Byte)
    | MainRuns(replies: Replies)

  /** The six semaphores have the limits K_SEM_DEFINE gives them and stay within them. */
  predicate SemsValid(s: SinkState)
  {
    s.semPerAdv.limit == 1 && s.semPerAdv.Valid()
    && s.semPerSync.limit == 1 && s.semPerSync.Valid()
    && s.semPerSyncLost.limit == 1 && s.semPerSyncLost.Valid()
    && s.semPerBigInfo.limit == 1 && s.semPerBigInfo.Valid()
    && s.semBigSync.limit == BIS_ISO_CHAN_COUNT && s.semBigSync.Valid()
    && s.semBigSyncLost.limit == BIS_ISO_CHAN_COUNT && s.semBigSyncLost.Valid()
  }

  predicate AllSemsZero(s: SinkState)
  {
    s.semPerAdv.count == 0 && s.semPerSync.count == 0 && s.semPerSyncLost.count == 0
    && s.semPerBigInfo.count == 0 && s.semBigSync.count == 0 && s.semBigSyncLost.count == 0
  }

  /** The state when main first reaches the loop: static zero initialisation, nothing called. */
  function InitialSink(): (s: SinkState)
    ensures SinkInv(s) && s.phase == LoopTop
    // every semaphore starts empty, at the limit its K_SEM_DEFINE gives it
    ensures AllSemsZero(s)
    ensures s.semPerAdv.limit == 1 && s.semPerSync.limit == 1
      && s.semPerSyncLost.limit == 1 && s.semPerBigInfo.limit == 1
      && s.semBigSync.limit == BIS_ISO_CHAN_COUNT && s.semBigSyncLost.limit == BIS_ISO_CHAN_COUNT
    // no peer found or lost yet, and no stack call made
    ensures !s.perAdvFound && !s.perAdvLost && s.calls == []
  {
    SinkState(false, false, [], 0, 0,
              Sem(0, 1), Sem(0, 1), Sem(0, 1), Sem(0, 1),
              Sem(0, BIS_ISO_CHAN_COUNT), Sem(0, BIS_ISO_CHAN_COUNT),
              LoopTop, [])
  }

  // ---------------------------------------------------------------------
  // The callbacks

  /** The peer test of scan_recv. */
  predicate PeerMatches(info: ScanInfo, ads: seq<AdStructure>)
  {
    info.interval != 0 && IsAliceName(NameBuffer(ads))
  }

  /**
   * scan_recv: the first report with a non-zero interval whose name is
   * "AliceISO" records the peer and gives sem_per_adv; once a peer is
   * recorded, later reports change nothing.
   */
  function OnScanRecv(s: SinkState, info: ScanInfo, ads: seq<AdStructure>): (t: SinkState)
    ensures s.perAdvFound || !PeerMatches(info, ads) ==> t == s
    ensures !s.perAdvFound && PeerMatches(info, ads) ==>
      t.perAdvFound && t.perAddr == info.addr && t.perSid == info.sid
      && t.perIntervalUs == info.interval * INTERVAL_UNIT_US
      && t.semPerAdv == s.semPerAdv.Give()
      && t.(perAdvFound := s.perAdvFound, perAddr := s.perAddr, perSid := s.perSid,
            perIntervalUs := s.perIntervalUs, semPerAdv := s.semPerAdv) == s
  {
    if !s.perAdvFound && PeerMatches(info, ads) then
      s.(perAdvFound := true, perSid := info.sid,
         perIntervalUs := info.interval * INTERVAL_UNIT_US,
         perAddr := info.addr, semPerAdv := s.semPerAdv.Give())
    else s
  }

  /** sync_cb: gives sem_per_sync. */
  function OnPaSynced(s: SinkState): (t: SinkState)
  {
    s.(semPerSync := s.semPerSync.Give())
  }

  /** term_cb: notes the loss in per_adv_lost and gives sem_per_sync_lost. */
  function OnPaSyncTerminated(s: SinkState): (t: SinkState)
  {
    s.(perAdvLost := true, semPerSyncLost := s.semPerSyncLost.Give())
  }

  /** biginfo_cb: gives sem_per_big_info. */
  function OnBigInfo(s: SinkState): (t: SinkState)
  {
    s.(semPerBigInfo := s.semPerBigInfo.Give())
  }

  /**
   * The channel test of iso_connected and iso_disconnected: chan is the
   * address of bis_iso_chan[0] or of bis_iso_chan[1]. With
   * BIS_ISO_CHAN_COUNT = 1 the second is one past the end of the array.
   */
  predicate KnownChannel(chan: nat)
  {
    chan == 0 || chan == 1
  }

  /** iso_connected: gives sem_big_sync for a known channel. */
  function OnBisConnected(s: SinkState, chan: nat): (t: SinkState)
    ensures KnownChannel(chan) ==> t == s.(semBigSync := s.semBigSync.Give())
    ensures !KnownChannel(chan) ==> t == s
    ensures t.(semBigSync := s.semBigSync) == s
  {
    if KnownChannel(chan) then s.(semBigSync := s.semBigSync.Give()) else s
  }

  /**
   * iso_disconnected: counts a BIS loss in sem_big_sync_lost, but only for
   * a known channel and only when the host did not cancel the sync itself.
   */
  function OnBisDisconnected(s: SinkState, chan: nat, reason: Byte): (t: SinkState)
    ensures t.(semBigSyncLost := s.semBigSyncLost) == s
    ensures t.semBigSyncLost.count != s.semBigSyncLost.count <==>
      KnownChannel(chan) && reason != BT_HCI_ERR_OP_CANCELLED_BY_HOST
      && s.semBigSyncLost.count < s.semBigSyncLost.limit
    ensures reason == BT_HCI_ERR_OP_CANCELLED_BY_HOST ==> t == s
  {
    if KnownChannel(chan) && reason != BT_HCI_ERR_OP_CANCELLED_BY_HOST then
      s.(semBigSyncLost := s.semBigSyncLost.Give())
    else s
  }

  /** reset_semaphores: all six semaphores back to zero. */
  function OnResetSemaphores(s: SinkState): (t: SinkState)
    ensures AllSemsZero(t)
    ensures SemsValid(s) ==> SemsValid(t)
    ensures t.(semPerAdv := s.semPerAdv, semPerSync := s.semPerSync, semPerSyncLost := s.semPerSyncLost,
               semPerBigInfo := s.semPerBigInfo, semBigSync := s.semBigSync,
               semBigSyncLost := s.semBigSyncLost) == s
  {
    s.(semPerAdv := s.semPerAdv.Reset(), semPerSync := s.semPerSync.Reset(),
       semPerSyncLost := s.semPerSyncLost.Reset(), semPerBigInfo := s.semPerBigInfo.Reset(),
       semBigSync := s.semBigSync.Reset(), semBigSyncLost := s.semBigSyncLost.Reset())
  }

  // ---------------------------------------------------------------------
  // main's retry loop

  /** Where the per-channel BIG-connected waits go next. */
  function AfterBisWait(chan: int): Phase
  {
    if chan + 1 < BIS_ISO_CHAN_COUNT then AwaitBisConnected(chan + 1) else AwaitSyncLost
  }

  /**
   * main runs from the wait it is at to the next one. A 2 s or 10 s wait
   * that finds no token has timed out; a K_FOREVER wait that finds none
   * is still waiting and nothing changes. r gives the answers of the
   * stack calls made on the way.
   */
  function MainStep(s: SinkState, r: Replies): (t: SinkState)
    // main returns only when bt_le_scan_start fails; no link failure ends the loop
    ensures t.phase == Returned ==> s.phase == Returned || (s.phase == LoopTop && !r.scanStartOk)
    // each iteration starts scanning, and a failed scan start is exactly what ends main
    ensures s.phase == LoopTop ==>
      (t.phase == Returned <==> !r.scanStartOk) && t.calls == s.calls + [ScanStart(r.scanStartOk)]
    // every iteration starts with all semaphores at zero and both flags cleared
    ensures s.phase == LoopTop ==> AllSemsZero(t) && !t.perAdvFound && !t.perAdvLost
    // a failed PA sync create retries without deleting a sync
    ensures s.phase == AwaitPeer && s.semPerAdv.Available() && !r.syncCreateOk ==>
      t.phase == LoopTop && t.calls == s.calls + [ScanStop, SyncCreate(s.perAddr, s.perSid, PA_SYNC_TIMEOUT, false)]
    // a peer found and a PA sync created goes on to wait for the sync
    ensures s.phase == AwaitPeer && s.semPerAdv.Available() && r.syncCreateOk ==>
      t == s.(semPerAdv := s.semPerAdv.Take(), phase := AwaitSync,
              calls := s.calls + [ScanStop, SyncCreate(s.perAddr, s.perSid, PA_SYNC_TIMEOUT, true)])
    // the 2 s PA-sync wait: a token goes on to the BIGInfo wait, a timeout deletes the sync and retries
    ensures s.phase == AwaitSync && s.semPerSync.Available() ==>
      t == s.(semPerSync := s.semPerSync.Take(), phase := AwaitBigInfo)
    ensures s.phase == AwaitSync && !s.semPerSync.Available() ==>
      t == s.(calls := s.calls + [SyncDelete], phase := LoopTop)
    // the 2 s BIGInfo wait: a timeout deletes the sync and retries
    ensures s.phase == AwaitBigInfo && !s.semPerBigInfo.Available() ==>
      t == s.(calls := s.calls + [SyncDelete], phase := LoopTop)
    // with BIGInfo, bt_iso_big_sync is called; on failure the sync is deleted and main retries
    ensures s.phase == AwaitBigInfo && s.semPerBigInfo.Available() && r.bigSyncOk ==>
      t == s.(semPerBigInfo := s.semPerBigInfo.Take(), phase := AwaitBisConnected(0),
              calls := s.calls + [BigSync(BIS_ISO_CHAN_COUNT, BIS_BITFIELD, BIG_SYNC_TIMEOUT, true)])
    ensures s.phase == AwaitBigInfo && s.semPerBigInfo.Available() && !r.bigSyncOk ==>
      t == s.(semPerBigInfo := s.semPerBigInfo.Take(), phase := LoopTop,
              calls := s.calls + [BigSync(BIS_ISO_CHAN_COUNT, BIS_BITFIELD, BIG_SYNC_TIMEOUT, false), SyncDelete])
    // the loss of the PA sync terminates the BIG, deletes the sync, settles, then retries
    ensures s.phase == AwaitSyncLost && s.semPerSyncLost.Available() ==>
      t.phase == LoopTop && t.calls == s.calls + [BigTerminate, SyncDelete, Sleep(TEARDOWN_SLEEP_MS)]
    // the per-channel BIG-connected waits go on whether or not they got a token
    ensures s.phase.AwaitBisConnected? ==> t.phase == AfterBisWait(s.phase.chan) && t.calls == s.calls
    // the two K_FOREVER waits block until their semaphore is given
    ensures ((s.phase == AwaitPeer && !s.semPerAdv.Available())
             || (s.phase == AwaitSyncLost && !s.semPerSyncLost.Available())) ==> t == s
  {
    match s.phase
    case LoopTop =>
      var u := OnResetSemaphores(s).(perAdvLost := false, perAdvFound := false,
                                     calls := s.calls + [ScanStart(r.scanStartOk)]);
      u.(phase := if r.scanStartOk then AwaitPeer else Returned)
    case AwaitPeer =>
      if !s.semPerAdv.Available() then s
      else
        var u := s.(semPerAdv := s.semPerAdv.Take(),
                    calls := s.calls + [ScanStop, SyncCreate(s.perAddr, s.perSid, PA_SYNC_TIMEOUT, r.syncCreateOk)]);
        u.(phase := if r.syncCreateOk then AwaitSync else LoopTop)
    case AwaitSync =>
      if s.semPerSync.Available() then s.(semPerSync := s.semPerSync.Take(), phase := AwaitBigInfo)
      else s.(calls := s.calls + [SyncDelete], phase := LoopTop)
    case AwaitBigInfo =>
      if !s.semPerBigInfo.Available() then s.(calls := s.calls + [SyncDelete], phase := LoopTop)
      else
        var big := BigSync(BIS_ISO_CHAN_COUNT, BIS_BITFIELD, BIG_SYNC_TIMEOUT, r.bigSyncOk);
        var u := s.(semPerBigInfo := s.semPerBigInfo.Take());
        if r.bigSyncOk then u.(calls := s.calls + [big], phase := AwaitBisConnected(0))
        else u.(calls := s.calls + [big, SyncDelete], phase := LoopTop)
    case AwaitBisConnected(chan) =>
      var u := if s.semBigSync.Available() then s.(semBigSync := s.semBigSync.Take()) else s;
      u.(phase := AfterBisWait(chan))
    case AwaitSyncLost =>
      if !s.semPerSyncLost.Available() then s
      else s.(semPerSyncLost := s.semPerSyncLost.Take(),
              calls := s.calls + [BigTerminate, SyncDelete, Sleep(TEARDOWN_SLEEP_MS)],
              phase := LoopTop)
    case Returned => s
  }

  function Next(s: SinkState, e: SinkEvent): SinkState
  {
    match e
    case ScanReport(info, ads) => OnScanRecv(s, info, ads)
    case PaSynced => OnPaSynced(s)
    case PaSyncTerminated => OnPaSyncTerminated(s)
    case BigInfoReport => OnBigInfo(s)
    case BisConnected(chan) => OnBisConnected(s, chan)
    case BisDisconnected(chan, reason) => OnBisDisconnected(s, chan, reason)
    case MainRuns(r) => MainStep(s, r)
  }

  /** The state after the events evs, in order. */
  function Run(s: SinkState, evs: seq<SinkEvent>): SinkState
    decreases |evs|
  {
    if evs == [] then s else Run(Next(s, evs[0]), evs[1..])
  }

  // ---------------------------------------------------------------------
  // Resources: scanning, the PA sync and the BIG are never leaked

  datatype Resource = Scanner | PaSync | Big

  /** +1 for a call that acquires res, -1 for one that releases it. */
  function Effect(c: StackCall, res: Resource): int
  {
    match c
    case ScanStart(ok) => if res == Scanner && ok then 1 else 0
    case ScanStop => if res == Scanner then -1 else 0
    case SyncCreate(_, _, _, ok) => if res == PaSync && ok then 1 else 0
    case SyncDelete => if res == PaSync then -1 else 0
    case BigSync(_, _, _, ok) => if res == Big && ok then 1 else 0
    case BigTerminate => if res == Big then -1 else 0
    case Sleep(_) => 0
  }

  /** How many of res the calls leave held. */
  function Held(calls: seq<StackCall>, res: Resource): int
  {
    if calls == [] then 0 else Held(calls[..|calls| - 1], res) + Effect(calls[|calls| - 1], res)
  }

  lemma HeldSnoc(a: seq<StackCall>, x: StackCall, res: Resource)
    ensures Held(a + [x], res) == Held(a, res) + Effect(x, res)
  {
    assert (a + [x])[..|a|] == a;
  }

  lemma HeldSnoc2(a: seq<StackCall>, x: StackCall, y: StackCall, res: Resource)
    ensures Held(a + [x, y], res) == Held(a, res) + Effect(x, res) + Effect(y, res)
  {
    assert a + [x, y] == (a + [x]) + [y];
    HeldSnoc(a + [x], y, res);
    HeldSnoc(a, x, res);
  }

  lemma HeldSnoc3(a: seq<StackCall>, x: StackCall, y: StackCall, z: StackCall, res: Resource)
    ensures Held(a + [x, y, z], res) == Held(a, res) + Effect(x, res) + Effect(y, res) + Effect(z, res)
  {
    assert a + [x, y, z] == (a + [x, y]) + [z];
    HeldSnoc(a + [x, y], z, res);
    HeldSnoc2(a, x, y, res);
  }

  /** Which resources main holds while it waits at phase p. */
  function Holds(p: Phase, res: Resource): int
  {
    match res
    case Scanner => if p == AwaitPeer then 1 else 0
    case PaSync => if p.AwaitSync? || p.AwaitBigInfo? || p.AwaitBisConnected? || p.AwaitSyncLost? then 1 else 0
    case Big => if p.AwaitBisConnected? || p.AwaitSyncLost? then 1 else 0
  }

  /**
   * The invariant of the sink: semaphores within their limits, a
   * channel index within the array, a token in sem_per_adv or any phase
   * past discovery only with a recorded peer, and every resource main
   * holds accounted for by the calls it made.
   */
  predicate SinkInv(s: SinkState)
  {
    SemsValid(s)
    && (s.phase.AwaitBisConnected? ==> 0 <= s.phase.chan < BIS_ISO_CHAN_COUNT)
    && (s.semPerAdv.Available() ==> s.perAdvFound)
    && (Holds(s.phase, PaSync) == 1 ==> s.perAdvFound)
    && (forall res :: Held(s.calls, res) == Holds(s.phase, res))
  }

  /** The invariant across the start of an iteration: reset, clear the flags, start scanning. */
  lemma LoopTopKeepsInv(s: SinkState, r: Replies)
    requires SinkInv(s) && s.phase == LoopTop
    ensures SinkInv(MainStep(s, r))
  {
    var t := MainStep(s, r);
    forall res ensures Held(t.calls, res) == Holds(t.phase, res) {
      HeldSnoc(s.calls, ScanStart(r.scanStartOk), res);
    }
  }

  /** The invariant across the wait for a peer: stop scanning, create the PA sync. */
  lemma AwaitPeerKeepsInv(s: SinkState, r: Replies)
    requires SinkInv(s) && s.phase == AwaitPeer
    ensures SinkInv(MainStep(s, r))
  {
    var t := MainStep(s, r);
    if s.semPerAdv.Available() {
      forall res ensures Held(t.calls, res) == Holds(t.phase, res) {
        HeldSnoc2(s.calls, ScanStop, SyncCreate(s.perAddr, s.perSid, PA_SYNC_TIMEOUT, r.syncCreateOk), res);
      }
    }
  }

  /** The invariant across the wait for the PA sync: on a timeout the sync is deleted. */
  lemma AwaitSyncKeepsInv(s: SinkState, r: Replies)
    requires SinkInv(s) && s.phase == AwaitSync
    ensures SinkInv(MainStep(s, r))
  {
    var t := MainStep(s, r);
    if !s.semPerSync.Available() {
      forall res ensures Held(t.calls, res) == Holds(t.phase, res) {
        HeldSnoc(s.calls, SyncDelete, res);
      }
    }
  }

  /** The invariant across the wait for BIGInfo and the BIG sync that follows it. */
  lemma AwaitBigInfoKeepsInv(s: SinkState, r: Replies)
    requires SinkInv(s) && s.phase == AwaitBigInfo
    ensures SinkInv(MainStep(s, r))
  {
    if !s.semPerBigInfo.Available() {
      BigInfoTimeoutKeepsInv(s, r);
    } else if r.bigSyncOk {
      BigSyncOkKeepsInv(s, r);
    } else {
      BigSyncFailKeepsInv(s, r);
    }
  }

  /** A BIGInfo wait that times out deletes the sync and retries. */
  lemma BigInfoTimeoutKeepsInv(s: SinkState, r: Replies)
    requires SinkInv(s) && s.phase == AwaitBigInfo && !s.semPerBigInfo.Available()
    ensures SinkInv(MainStep(s, r))
  {
    var t := MainStep(s, r);
    assert t == s.(calls := s.calls + [SyncDelete], phase := LoopTop);
    forall res ensures Held(t.calls, res) == Holds(t.phase, res) {
      HeldSnoc(s.calls, SyncDelete, res);
    }
  }

  /** A successful BIG sync goes on to the BIS waits, holding the BIG. */
  lemma BigSyncOkKeepsInv(s: SinkState, r: Replies)
    requires SinkInv(s) && s.phase == AwaitBigInfo && s.semPerBigInfo.Available() && r.bigSyncOk
    ensures SinkInv(MainStep(s, r))
  {
    var t := MainStep(s, r);
    var big := BigSync(BIS_ISO_CHAN_COUNT, BIS_BITFIELD, BIG_SYNC_TIMEOUT, true);
    assert t == s.(semPerBigInfo := s.semPerBigInfo.Take(), phase := AwaitBisConnected(0), calls := s.calls + [big]);
    forall res ensures Held(t.calls, res) == Holds(t.phase, res) {
      HeldSnoc(s.calls, big, res);
    }
  }

  /** A failed BIG sync deletes the sync and retries. */
  lemma BigSyncFailKeepsInv(s: SinkState, r: Replies)
    requires SinkInv(s) && s.phase == AwaitBigInfo && s.semPerBigInfo.Available() && !r.bigSyncOk
    ensures SinkInv(MainStep(s, r))
  {
    var t := MainStep(s, r);
    var big := BigSync(BIS_ISO_CHAN_COUNT, BIS_BITFIELD, BIG_SYNC_TIMEOUT, false);
    assert t == s.(semPerBigInfo := s.semPerBigInfo.Take(), phase := LoopTop, calls := s.calls + [big, SyncDelete]);
    forall res ensures Held(t.calls, res) == Holds(t.phase, res) {
      HeldSnoc2(s.calls, big, SyncDelete, res);
    }
  }

  /** The invariant across the wait for the PA sync loss and the teardown after it. */
  lemma AwaitSyncLostKeepsInv(s: SinkState, r: Replies)
    requires SinkInv(s) && s.phase == AwaitSyncLost
    ensures SinkInv(MainStep(s, r))
  {
    var t := MainStep(s, r);
    if s.semPerSyncLost.Available() {
      forall res ensures Held(t.calls, res) == Holds(t.phase, res) {
        HeldSnoc3(s.calls, BigTerminate, SyncDelete, Sleep(TEARDOWN_SLEEP_MS), res);
      }
    }
  }

  lemma MainStepKeepsInv(s: SinkState, r: Replies)
    requires SinkInv(s)
    ensures SinkInv(MainStep(s, r))
  {
    match s.phase
    case LoopTop => LoopTopKeepsInv(s, r);
    case AwaitPeer => AwaitPeerKeepsInv(s, r);
    case AwaitSync => AwaitSyncKeepsInv(s, r);
    case AwaitBigInfo => AwaitBigInfoKeepsInv(s, r);
    case AwaitBisConnected(_) =>
    case AwaitSyncLost => AwaitSyncLostKeepsInv(s, r);
    case Returned =>
  }

  lemma StepKeepsInv(s: SinkState, e: SinkEvent)
    requires SinkInv(s)
    ensures SinkInv(Next(s, e))
  {
    if e.MainRuns? {
      MainStepKeepsInv(s, e.replies);
    }
  }

  /** Every state reached from one that satisfies the invariant satisfies it. */
  lemma {:induction false} RunKeepsInv(s: SinkState, evs: seq<SinkEvent>)
    requires SinkInv(s)
    ensures SinkInv(Run(s, evs))
    decreases |evs|
  {
    if evs != [] {
      StepKeepsInv(s, evs[0]);
      RunKeepsInv(Next(s, evs[0]), evs[1..]);
    }
  }

  /**
   * Back at the top of the loop, and after returning, main holds no scan,
   * no PA sync and no BIG: every path out of an iteration released
   * exactly what the iteration acquired.
   */
  lemma {:induction false} NothingHeldBetweenIterations(evs: seq<SinkEvent>)
    ensures var t := Run(InitialSink(), evs);
      t.phase == LoopTop || t.phase == Returned ==>
        Held(t.calls, Scanner) == 0 && Held(t.calls, PaSync) == 0 && Held(t.calls, Big) == 0
  {
    RunKeepsInv(InitialSink(), evs);
  }

  // ---------------------------------------------------------------------
  // Scenarios

  predicate NoMatchingReport(evs: seq<SinkEvent>)
  {
    forall i :: 0 <= i < |evs| && evs[i].ScanReport? ==> !PeerMatches(evs[i].info, evs[i].ads)
  }

  /**
   * While no report matches, a scanning sink stays scanning: whatever
   * else happens, it neither moves on, nor calls the stack, nor returns.
   */
  lemma {:induction false} NoPeerKeepsScanning(s: SinkState, evs: seq<SinkEvent>)
    requires s.phase == AwaitPeer && !s.perAdvFound && !s.semPerAdv.Available()
    requires NoMatchingReport(evs)
    ensures Run(s, evs).phase == AwaitPeer && Run(s, evs).calls == s.calls && !Run(s, evs).perAdvFound
    decreases |evs|
  {
    if evs != [] {
      var t := Next(s, evs[0]);
      assert t.phase == AwaitPeer && !t.perAdvFound && !t.semPerAdv.Available() && t.calls == s.calls;
      assert NoMatchingReport(evs[1..]) by {
        forall i | 0 <= i < |evs[1..]| && evs[1..][i].ScanReport?
          ensures !PeerMatches(evs[1..][i].info, evs[1..][i].ads)
        {
          assert evs[1..][i] == evs[i + 1];
        }
      }
      NoPeerKeepsScanning(t, evs[1..]);
    }
  }

  predicate NoPaSyncLoss(evs: seq<SinkEvent>)
  {
    forall i :: 0 <= i < |evs| ==> evs[i] != PaSyncTerminated
  }

  /**
   * Once main waits for the loss of the PA sync, only that loss ends the
   * stream: BIS disconnects, whatever their reason, are counted in
   * sem_big_sync_lost, which main never waits on, and the sink stays
   * in place without calling the stack.
   */
  lemma {:induction false} OnlyPaSyncLossEndsStream(s: SinkState, evs: seq<SinkEvent>)
    requires s.phase == AwaitSyncLost && !s.semPerSyncLost.Available()
    requires NoPaSyncLoss(evs)
    ensures Run(s, evs).phase == AwaitSyncLost && Run(s, evs).calls == s.calls
    decreases |evs|
  {
    if evs != [] {
      var t := Next(s, evs[0]);
      assert t.phase == AwaitSyncLost && !t.semPerSyncLost.Available() && t.calls == s.calls;
      assert NoPaSyncLoss(evs[1..]) by {
        forall i | 0 <= i < |evs[1..]| ensures evs[1..][i] != PaSyncTerminated {
          assert evs[1..][i] == evs[i + 1];
        }
      }
      OnlyPaSyncLossEndsStream(t, evs[1..]);
    }
  }

  // ---------------------------------------------------------------------
  // The sink as the firmware holds it: globals updated in place

  class BroadcastSink {
    var perAdvFound: bool
    var perAdvLost: bool
    var perAddr: Addr
    var perSid: Byte
    var perIntervalUs: nat
    var semPerAdv: Sem
    var semPerSync: Sem
    var semPerSyncLost: Sem
    var semPerBigInfo: Sem
    var semBigSync: Sem
    var semBigSyncLost: Sem
    var phase: Phase
    var calls: seq<StackCall>

    function View(): SinkState
      reads this
    {
      SinkState(perAdvFound, perAdvLost, perAddr, perSid, perIntervalUs,
                semPerAdv, semPerSync, semPerSyncLost, semPerBigInfo, semBigSync, semBigSyncLost,
                phase, calls)
    }

    /** The globals as static initialisation leaves them, with main at its loop. */
    constructor ()
      ensures View() == InitialSink()
    {
      perAdvFound, perAdvLost := false, false;
      perAddr, perSid, perIntervalUs := [], 0, 0;
      semPerAdv, semPerSync, semPerSyncLost, semPerBigInfo := Sem(0, 1), Sem(0, 1), Sem(0, 1), Sem(0, 1);
      semBigSync, semBigSyncLost := Sem(0, BIS_ISO_CHAN_COUNT), Sem(0, BIS_ISO_CHAN_COUNT);
      phase, calls := LoopTop, [];
    }

    method ScanRecv(info: ScanInfo, ads: seq<AdStructure>)
      modifies this
      ensures View() == OnScanRecv(old(View()), info, ads)
    {
      var name := ParseName(ads);
      var isAlice := CString(name) == ALICE_ISO;
      if !perAdvFound && info.interval != 0 && isAlice {
        perAdvFound := true;
        perSid := info.sid;
        perIntervalUs := info.interval * INTERVAL_UNIT_US;
        perAddr := info.addr;
        semPerAdv := semPerAdv.Give();
      }
    }

    method SyncCb()
      modifies this
      ensures View() == OnPaSynced(old(View()))
    {
      semPerSync := semPerSync.Give();
    }

    method TermCb()
      modifies this
      ensures View() == OnPaSyncTerminated(old(View()))
    {
      perAdvLost := true;
      semPerSyncLost := semPerSyncLost.Give();
    }

    method BigInfoCb()
      modifies this
      ensures View() == OnBigInfo(old(View()))
    {
      semPerBigInfo := semPerBigInfo.Give();
    }

    method IsoConnected(chan: nat)
      modifies this
      ensures View() == OnBisConnected(old(View()), chan)
    {
      if chan == 0 || chan == 1 {
        semBigSync := semBigSync.Give();
      }
    }

    method IsoDisconnected(chan: nat, reason: Byte)
      modifies this
      ensures View() == OnBisDisconnected(old(View()), chan, reason)
    {
      if chan == 0 || chan == 1 {
        if reason != BT_HCI_ERR_OP_CANCELLED_BY_HOST {
          semBigSyncLost := semBigSyncLost.Give();
        }
      }
    }

    method ResetSemaphores()
      modifies this
      ensures View() == OnResetSemaphores(old(View()))
    {
      semPerAdv, semPerSync, semPerSyncLost := semPerAdv.Reset(), semPerSync.Reset(), semPerSyncLost.Reset();
      semPerBigInfo, semBigSync, semBigSyncLost := semPerBigInfo.Reset(), semBigSync.Reset(), semBigSyncLost.Reset();
    }

    /** main's do { ... } while (true), from one wait to the next. */
    method RunMain(r: Replies)
      modifies this
      ensures View() == MainStep(old(View()), r)
    {
      match phase
      case LoopTop => StartIteration(r);
      case AwaitPeer => WaitForPeer(r);
      case AwaitSync => WaitForSync(r);
      case AwaitBigInfo => WaitForBigInfo(r);
      case AwaitBisConnected(chan) =>
        if semBigSync.Available() {
          semBigSync := semBigSync.Take();
        }
        phase := AfterBisWait(chan);
      case AwaitSyncLost =>
        if semPerSyncLost.Available() {
          semPerSyncLost := semPerSyncLost.Take();
          calls := calls + [BigTerminate, SyncDelete, Sleep(TEARDOWN_SLEEP_MS)];
          phase := LoopTop;
        }
      case Returned =>
    }

    /** The top of the loop: reset, clear both flags, start scanning. */
    method StartIteration(r: Replies)
      requires phase == LoopTop
      modifies this
      ensures View() == MainStep(old(View()), r)
    {
      ResetSemaphores();
      perAdvLost := false;
      perAdvFound := false;
      calls := calls + [ScanStart(r.scanStartOk)];
      if !r.scanStartOk {
        phase := Returned;
      } else {
        phase := AwaitPeer;
      }
    }

    /** k_sem_take(&sem_per_adv, K_FOREVER), then stop scanning and create the PA sync. */
    method WaitForPeer(r: Replies)
      requires phase == AwaitPeer
      modifies this
      ensures View() == MainStep(old(View()), r)
    {
      if semPerAdv.Available() {
        semPerAdv := semPerAdv.Take();
        calls := calls + [ScanStop, SyncCreate(perAddr, perSid, PA_SYNC_TIMEOUT, r.syncCreateOk)];
        if !r.syncCreateOk {
          phase := LoopTop;
        } else {
          phase := AwaitSync;
        }
      }
    }

    /** k_sem_take(&sem_per_sync, 2 s); on a timeout the sync is deleted. */
    method WaitForSync(r: Replies)
      requires phase == AwaitSync
      modifies this
      ensures View() == MainStep(old(View()), r)
    {
      if !semPerSync.Available() {
        calls := calls + [SyncDelete];
        phase := LoopTop;
      } else {
        semPerSync := semPerSync.Take();
        phase := AwaitBigInfo;
      }
    }

    /** k_sem_take(&sem_per_big_info, 2 s), then bt_iso_big_sync. */
    method WaitForBigInfo(r: Replies)
      requires phase == AwaitBigInfo
      modifies this
      ensures View() == MainStep(old(View()), r)
    {
      if !semPerBigInfo.Available() {
        calls := calls + [SyncDelete];
        phase := LoopTop;
      } else {
        semPerBigInfo := semPerBigInfo.Take();
        calls := calls + [BigSync(BIS_ISO_CHAN_COUNT, BIS_BITFIELD, BIG_SYNC_TIMEOUT, r.bigSyncOk)];
        if !r.bigSyncOk {
          calls := calls + [SyncDelete];
          phase := LoopTop;
        } else {
          phase := AwaitBisConnected(0);
        }
      }
    }
  }

  // ---------------------------------------------------------------------
  // The audio feeder thread

  /** The marker the feeder reports after preparing packet number `prepared`. */
  function FeederMarker(prepared: nat, bytesRead: nat): (m: Option<Byte>)
    ensures m.Some? <==> prepared % 100 == 0
    ensures m.Some? ==> (m.value == DEBUG_MARKER_AUDIO_DATA <==> bytesRead >= AUDIO_PACKET_SIZE / 2)
    ensures m.Some? ==> (m.value == DEBUG_MARKER_AUDIO <==> bytesRead < AUDIO_PACKET_SIZE / 2)
  {
    if prepared % 100 != 0 then None
    else if bytesRead >= AUDIO_PACKET_SIZE / 2 then Some(DEBUG_MARKER_AUDIO_DATA)
    else Some(DEBUG_MARKER_AUDIO)
  }

  /** audio_feeder_thread and the buffers and counters it updates. */
  class AudioFeeder {
    const ring: Ring
    const injectionBuf: array<Byte>
    var injectionReady: bool
    var audioPacketsPrepared: nat
    var totalAudioBytesReceived: nat

    ghost predicate Valid()
      reads this, ring
    {
      ring.Valid() && ring.capacity == MALLORY_AUDIO_BUF_SIZE
      && injectionBuf.Length == AUDIO_PACKET_SIZE
      && audioPacketsPrepared < UINT32_LIMIT && totalAudioBytesReceived < UINT32_LIMIT
    }

    constructor (ring: Ring)
      requires ring.Valid() && ring.capacity == MALLORY_AUDIO_BUF_SIZE
      ensures Valid() && this.ring == ring && fresh(injectionBuf)
      ensures !injectionReady && audioPacketsPrepared == 0 && totalAudioBytesReceived == 0
    {
      this.ring := ring;
      injectionBuf := new Byte[AUDIO_PACKET_SIZE](_ => 0);
      injectionReady := false;
      audioPacketsPrepared := 0;
      totalAudioBytesReceived := 0;
    }

    /**
     * One pass of the feeder loop: the next packet of the ring into
     * mallory_injection_buf, the two uint32_t counters bumped, and, every
     * 100th packet, the marker it reports.
     */
    method Iterate() returns (marker: Option<Byte>)
      requires Valid()
      modifies this, ring, injectionBuf
      ensures Valid()
      ensures injectionBuf[..] == Packet(old(ring.contents))
      ensures ring.contents == Rest(old(ring.contents))
      ensures injectionReady
      ensures audioPacketsPrepared == (old(audioPacketsPrepared) + 1) % UINT32_LIMIT
      ensures totalAudioBytesReceived == (old(totalAudioBytesReceived) + ReadCount(old(ring.contents))) % UINT32_LIMIT
      ensures marker == FeederMarker(audioPacketsPrepared, ReadCount(old(ring.contents)))
    {
      var bytesRead := FillPacket(ring, injectionBuf);
      if bytesRead > 0 {
        totalAudioBytesReceived := (totalAudioBytesReceived + bytesRead) % UINT32_LIMIT;
      }
      injectionReady := true;
      audioPacketsPrepared := (audioPacketsPrepared + 1) % UINT32_LIMIT;
      marker := None;
      if audioPacketsPrepared % 100 == 0 {
        if bytesRead >= AUDIO_PACKET_SIZE / 2 {
          marker := Some(DEBUG_MARKER_AUDIO_DATA);
        } else {
          marker := Some(DEBUG_MARKER_AUDIO);
        }
      }
    }
  }
}
