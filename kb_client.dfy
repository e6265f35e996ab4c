/**
 * The keyboard emulator's client (kb_client.py): it keeps a Bluetooth HID
 * input report for the local keyboard and forwards it on every key press
 * or release. The report has the layout of the boot keyboard report
 * (Device Class Definition for HID 1.11, Appendix B.1) behind the
 * 0xA1 DATA|INPUT header: report ID 1, the eight modifier flags (kept as a
 * list, Right GUI first), a reserved byte, and six key slots.
 *
 * The keymap that turns an event code into a modifier index (modkey) or
 * a HID usage code (convert) is not part of this model; the client takes
 * both as functions.
 */
module KeyboardClient {
  import opened Kernel

  /** Length of the report list. */
  const REPORT_LEN: nat := 10
  /** Number of modifier flags in state[2]. */
  const MODIFIER_COUNT: nat := 8
  /** The key slots are state[KEYS_START..REPORT_LEN]. */
  const KEYS_START: nat := 4
  const KEY_SLOTS: nat := 6
  /** evdev's EV_KEY event type. */
  const EV_KEY: int := 1

  /** One element of the report list: a number, or the nested list of modifier flags. */
  datatype Item = Num(n: int) | Flags(bits: seq<int>)

  /** An evdev input event. */
  datatype InputEvent = InputEvent(evType: int, code: int, value: int)

  /** How change_state ends: normally, or with the IndexError a modifier index past the list raises. */
  datatype Outcome = Ok | IndexError

  predicate IsBits(bits: seq<int>)
  {
    forall i :: 0 <= i < |bits| ==> bits[i] == 0 || bits[i] == 1
  }

  /**
   * The shape every report keeps: header 0xA1, report ID 1, eight 0/1
   * modifier flags, reserved byte 0, and six numeric key slots.
   */
  predicate WellFormed(s: seq<Item>)
  {
    |s| == REPORT_LEN
    && s[0] == Num(0xA1) && s[1] == Num(0x01) && s[3] == Num(0x00)
    && s[2].Flags? && |s[2].bits| == MODIFIER_COUNT && IsBits(s[2].bits)
    && (forall i :: KEYS_START <= i < REPORT_LEN ==> s[i].Num?)
  }

  /** The report __init__ sets up: nothing pressed. */
  function InitialReport(): (s: seq<Item>)
    ensures WellFormed(s)
    ensures s[2].bits == seq(MODIFIER_COUNT, _ => 0)
    ensures forall i :: KEYS_START <= i < REPORT_LEN ==> s[i] == Num(0)
  {
    [Num(0xA1), Num(0x01), Flags([0, 0, 0, 0, 0, 0, 0, 0]), Num(0x00),
     Num(0x00), Num(0x00), Num(0x00), Num(0x00), Num(0x00), Num(0x00)]
  }

  /** The key codes in the six slots, state[4:10]. */
  function Slots(s: seq<Item>): (k: seq<int>)
    requires WellFormed(s)
    ensures |k| == KEY_SLOTS
    ensures forall i :: 0 <= i < KEY_SLOTS ==> s[KEYS_START + i] == Num(k[i])
  {
    seq(KEY_SLOTS, i requires 0 <= i < KEY_SLOTS => s[KEYS_START + i].n)
  }

  // ---------------------------------------------------------------------
  // change_state

  /** A modifier event flips its flag between 0 and 1. */
  function Toggle(bits: seq<int>, idx: nat): (r: seq<int>)
    requires idx < |bits|
    ensures |r| == |bits|
    ensures forall i :: 0 <= i < |bits| && i != idx ==> r[i] == bits[i]
    ensures IsBits(bits) ==> IsBits(r) && r[idx] == 1 - bits[idx]
  {
    bits[idx := if bits[idx] == 0 then 1 else 0]
  }

  /** Toggling the same flag twice restores the flags: a press and its release cancel out. */
  lemma ToggleTwice(bits: seq<int>, idx: nat)
    requires idx < |bits| && IsBits(bits)
    ensures Toggle(Toggle(bits, idx), idx) == bits
  {
  }

  /**
   * The slot loop of change_state, slot by slot: a release (value 0) clears
   * a slot holding the key and goes on; a press (value 1) writes the key
   * into the first slot holding 0 and stops.
   */
  function KeyUpdate(slots: seq<int>, key: int, value: int): (r: seq<int>)
    ensures |r| == |slots|
  {
    if slots == [] then []
    else if slots[0] == key && value == 0 then [0] + KeyUpdate(slots[1..], key, value)
    else if slots[0] == 0 && value == 1 then [key] + slots[1..]
    else [slots[0]] + KeyUpdate(slots[1..], key, value)
  }

  /** The index of the first slot holding 0, or |slots| if none does. */
  function FirstFree(slots: seq<int>): (k: nat)
    ensures k <= |slots|
    ensures forall j :: 0 <= j < k ==> slots[j] != 0
    ensures k < |slots| ==> slots[k] == 0
  {
    if slots == [] then 0 else if slots[0] == 0 then 0 else 1 + FirstFree(slots[1..])
  }

  /** A release clears every slot holding the key and leaves every other slot alone. */
  lemma {:induction false} ReleaseClearsKey(slots: seq<int>, key: int)
    ensures forall i :: 0 <= i < |slots| ==>
      KeyUpdate(slots, key, 0)[i] == (if slots[i] == key then 0 else slots[i])
  {
    if slots != [] {
      ReleaseClearsKey(slots[1..], key);
      var r := KeyUpdate(slots, key, 0);
      assert r[1..] == KeyUpdate(slots[1..], key, 0);
      forall i | 0 < i < |slots| ensures r[i] == (if slots[i] == key then 0 else slots[i]) {
        assert r[i] == r[1..][i - 1] && slots[i] == slots[1..][i - 1];
      }
    }
  }

  /**
   * A press writes the key into the first free slot and nowhere else,
   * whether or not the key is already held; with no free slot nothing
   * changes.
   */
  lemma {:induction false} PressFillsFirstFree(slots: seq<int>, key: int)
    ensures KeyUpdate(slots, key, 1) ==
      if FirstFree(slots) < |slots| then slots[FirstFree(slots) := key] else slots
  {
    if slots != [] && slots[0] != 0 {
      PressFillsFirstFree(slots[1..], key);
      assert slots == [slots[0]] + slots[1..];
      if FirstFree(slots[1..]) < |slots[1..]| {
        assert slots[FirstFree(slots) := key] == [slots[0]] + slots[1..][FirstFree(slots[1..]) := key];
      }
    }
  }

  /** Any other value leaves the slots as they were. */
  lemma {:induction false} OtherValueKeepsSlots(slots: seq<int>, key: int, value: int)
    requires value != 0 && value != 1
    ensures KeyUpdate(slots, key, value) == slots
  {
    if slots != [] {
      OtherValueKeepsSlots(slots[1..], key, value);
      assert slots == [slots[0]] + slots[1..];
    }
  }

  /** Pressing and releasing a key that is not held and not 0 gives the slots back. */
  lemma PressThenRelease(slots: seq<int>, key: int)
    requires key != 0 && forall i :: 0 <= i < |slots| ==> slots[i] != key
    ensures KeyUpdate(KeyUpdate(slots, key, 1), key, 0) == slots
  {
    PressFillsFirstFree(slots, key);
    var p := KeyUpdate(slots, key, 1);
    ReleaseClearsKey(p, key);
    var r := KeyUpdate(p, key, 0);
    assert forall i :: 0 <= i < |slots| ==> r[i] == slots[i];
  }

  /** The report with its six slots replaced. */
  function WithSlots(s: seq<Item>, slots: seq<int>): (r: seq<Item>)
    requires WellFormed(s) && |slots| == KEY_SLOTS
    ensures WellFormed(r) && Slots(r) == slots
    ensures r[..KEYS_START] == s[..KEYS_START]
  {
    s[..KEYS_START] + seq(KEY_SLOTS, i requires 0 <= i < KEY_SLOTS => Num(slots[i]))
  }

  /**
   * One pass of the slot loop over slots that now hold `current`, of
   * which the first k have been processed towards `target`: a release
   * that clears slot k.
   */
  lemma SlotClear(current: seq<int>, slots: seq<int>, k: nat, key: int, value: int, target: seq<int>)
    requires |current| == |slots| && k < |slots|
    requires current[k..] == slots[k..] && current[..k] + KeyUpdate(slots[k..], key, value) == target
    requires current[k] == key && value == 0
    ensures current[k := 0][k + 1..] == slots[k + 1..]
    ensures current[k := 0][..k + 1] + KeyUpdate(slots[k + 1..], key, value) == target
  {
    assert slots[k] == current[k..][0];
    KeyUpdateStep(slots, k, key, value);
    assert current[k := 0][..k + 1] == current[..k] + [0];
    assert current[k := 0][k + 1..] == current[k..][1..];
  }

  /** The same, for a press that fills slot k and ends the loop. */
  lemma SlotFill(current: seq<int>, slots: seq<int>, k: nat, key: int, value: int, target: seq<int>)
    requires |current| == |slots| && k < |slots|
    requires current[k..] == slots[k..] && current[..k] + KeyUpdate(slots[k..], key, value) == target
    requires !(current[k] == key && value == 0) && current[k] == 0 && value == 1
    ensures current[k := key] == target
  {
    assert slots[k] == current[k..][0];
    KeyUpdateStep(slots, k, key, value);
    assert current[k + 1..] == current[k..][1..];
    assert current[k := key] == current[..k] + [key] + current[k + 1..];
  }

  /** The same, for a slot the pass leaves alone. */
  lemma SlotKeep(current: seq<int>, slots: seq<int>, k: nat, key: int, value: int, target: seq<int>)
    requires |current| == |slots| && k < |slots|
    requires current[k..] == slots[k..] && current[..k] + KeyUpdate(slots[k..], key, value) == target
    requires !(current[k] == key && value == 0) && !(current[k] == 0 && value == 1)
    ensures current[k + 1..] == slots[k + 1..]
    ensures current[..k + 1] + KeyUpdate(slots[k + 1..], key, value) == target
  {
    assert slots[k] == current[k..][0];
    KeyUpdateStep(slots, k, key, value);
    assert current[..k + 1] == current[..k] + [current[k]];
    assert current[k + 1..] == current[k..][1..];
  }

  /**
   * The slot loop's invariant after k slots: the report st differs from
   * the initial report s0 only in its slots, the slots from k on are
   * still those of s0, and the first k are what KeyUpdate makes of them.
   */
  ghost predicate SlotLoopInv(st: seq<Item>, s0: seq<Item>, k: nat, key: int, value: int)
  {
    WellFormed(st) && WellFormed(s0) && k <= KEY_SLOTS && st[..KEYS_START] == s0[..KEYS_START]
    && Slots(st)[k..] == Slots(s0)[k..]
    && Slots(st)[..k] + KeyUpdate(Slots(s0)[k..], key, value) == KeyUpdate(Slots(s0), key, value)
  }

  lemma SlotLoopStart(s0: seq<Item>, key: int, value: int)
    requires WellFormed(s0)
    ensures SlotLoopInv(s0, s0, 0, key, value)
  {
    assert Slots(s0)[..0] == [] && Slots(s0)[0..] == Slots(s0);
  }

  lemma SlotClearStep(st: seq<Item>, s0: seq<Item>, k: nat, key: int, value: int)
    requires SlotLoopInv(st, s0, k, key, value) && k < KEY_SLOTS
    requires st[KEYS_START + k].n == key && value == 0
    ensures SlotLoopInv(st[KEYS_START + k := Num(0)], s0, k + 1, key, value)
  {
    SetSlot(st, KEYS_START + k, 0);
    SlotClear(Slots(st), Slots(s0), k, key, value, KeyUpdate(Slots(s0), key, value));
  }

  lemma SlotFillStep(st: seq<Item>, s0: seq<Item>, k: nat, key: int, value: int)
    requires SlotLoopInv(st, s0, k, key, value) && k < KEY_SLOTS
    requires !(st[KEYS_START + k].n == key && value == 0) && st[KEYS_START + k].n == 0 && value == 1
    ensures st[KEYS_START + k := Num(key)] == WithSlots(s0, KeyUpdate(Slots(s0), key, value))
  {
    var target := KeyUpdate(Slots(s0), key, value);
    SetSlot(st, KEYS_START + k, key);
    SlotFill(Slots(st), Slots(s0), k, key, value, target);
    SameReport(st[KEYS_START + k := Num(key)], WithSlots(s0, target));
  }

  lemma SlotKeepStep(st: seq<Item>, s0: seq<Item>, k: nat, key: int, value: int)
    requires SlotLoopInv(st, s0, k, key, value) && k < KEY_SLOTS
    requires !(st[KEYS_START + k].n == key && value == 0) && !(st[KEYS_START + k].n == 0 && value == 1)
    ensures SlotLoopInv(st, s0, k + 1, key, value)
  {
    SlotKeep(Slots(st), Slots(s0), k, key, value, KeyUpdate(Slots(s0), key, value));
  }

  lemma SlotLoopEnd(st: seq<Item>, s0: seq<Item>, key: int, value: int)
    requires SlotLoopInv(st, s0, KEY_SLOTS, key, value)
    ensures st == WithSlots(s0, KeyUpdate(Slots(s0), key, value))
  {
    var target := KeyUpdate(Slots(s0), key, value);
    assert Slots(st) == Slots(st)[..KEY_SLOTS];
    assert Slots(s0)[KEY_SLOTS..] == [];
    SameReport(st, WithSlots(s0, target));
  }

  /** Two reports that agree on their first four elements and on their slots are equal. */
  lemma SameReport(a: seq<Item>, b: seq<Item>)
    requires WellFormed(a) && WellFormed(b)
    requires a[..KEYS_START] == b[..KEYS_START] && Slots(a) == Slots(b)
    ensures a == b
  {
    forall i | 0 <= i < REPORT_LEN ensures a[i] == b[i] {
      if i < KEYS_START {
        assert a[i] == a[..KEYS_START][i];
      } else {
        assert a[i] == Num(Slots(a)[i - KEYS_START]);
      }
    }
  }

  /** Writing a number into slot i keeps the report well formed and changes that slot only. */
  lemma SetSlot(s: seq<Item>, i: nat, v: int)
    requires WellFormed(s) && KEYS_START <= i < REPORT_LEN
    ensures WellFormed(s[i := Num(v)])
    ensures s[i := Num(v)][..KEYS_START] == s[..KEYS_START]
    ensures Slots(s[i := Num(v)]) == Slots(s)[i - KEYS_START := v]
  {
    var t := s[i := Num(v)];
    assert t[..KEYS_START] == s[..KEYS_START];
    assert forall j :: 0 <= j < KEY_SLOTS ==> Slots(t)[j] == Slots(s)[i - KEYS_START := v][j];
  }

  /** One slot of the slot loop: how KeyUpdate of slots[k..] continues from slots[k]. */
  lemma KeyUpdateStep(slots: seq<int>, k: nat, key: int, value: int)
    requires k < |slots|
    ensures KeyUpdate(slots[k..], key, value) ==
      if slots[k] == key && value == 0 then [0] + KeyUpdate(slots[k + 1..], key, value)
      else if slots[k] == 0 && value == 1 then [key] + slots[k + 1..]
      else [slots[k]] + KeyUpdate(slots[k + 1..], key, value)
  {
    assert slots[k..][1..] == slots[k + 1..];
  }

  /** The outcome of change_state and the report it leaves. */
  datatype Change = Change(outcome: Outcome, state: seq<Item>)

  /**
   * change_state for an event whose modkey is m and whose converted key
   * code is key. A modifier index above 0 toggles that flag, or raises
   * IndexError past the eighth flag; anything else (including index 0)
   * goes through the slot loop. Header, report ID and reserved byte never
   * change, and neither does the shape of the report.
   */
  function ChangeStateSpec(s: seq<Item>, m: int, key: int, value: int): (c: Change)
    requires WellFormed(s)
    ensures WellFormed(c.state)
    ensures c.state[0] == s[0] && c.state[1] == s[1] && c.state[3] == s[3]
    ensures c.outcome == IndexError <==> m >= MODIFIER_COUNT
    ensures c.outcome == IndexError ==> c.state == s
    ensures 0 < m < MODIFIER_COUNT ==>
      c.state[2].bits == Toggle(s[2].bits, m) && Slots(c.state) == Slots(s)
    ensures m <= 0 ==> c.state[2] == s[2] && Slots(c.state) == KeyUpdate(Slots(s), key, value)
  {
    if m > 0 then
      if m >= MODIFIER_COUNT then Change(IndexError, s)
      else Change(Ok, s[2 := Flags(Toggle(s[2].bits, m))])
    else
      Change(Ok, WithSlots(s, KeyUpdate(Slots(s), key, value)))
  }

  // ---------------------------------------------------------------------
  // send_input

  /** 2^n. */
  function Pow2(n: nat): (p: nat)
    ensures p >= 1
  {
    if n == 0 then 1 else 2 * Pow2(n - 1)
  }

  /** The flags read as a binary number, first flag most significant: sum of bits[i] * 2^(n-1-i). */
  function WeightedSum(bits: seq<int>): int
  {
    if bits == [] then 0 else bits[0] * Pow2(|bits| - 1) + WeightedSum(bits[1..])
  }

  lemma {:induction false} WeightedSumSnoc(bits: seq<int>, x: int)
    ensures WeightedSum(bits + [x]) == 2 * WeightedSum(bits) + x
    decreases |bits|
  {
    if bits != [] {
      assert (bits + [x])[1..] == bits[1..] + [x];
      WeightedSumSnoc(bits[1..], x);
      assert bits[0] * Pow2(|bits|) == 2 * (bits[0] * Pow2(|bits| - 1));
    } else {
      assert [] + [x] == [x];
    }
  }

  /** Eight 0/1 flags make a value in 0..255. */
  lemma {:induction false} WeightedSumBounds(bits: seq<int>)
    requires IsBits(bits)
    ensures 0 <= WeightedSum(bits) < Pow2(|bits|)
    decreases |bits|
  {
    if bits != [] {
      WeightedSumBounds(bits[1..]);
    }
  }

  /** The n low bits of v, most significant first. */
  function ToBits(v: nat, n: nat): (b: seq<int>)
    ensures |b| == n && IsBits(b)
  {
    if n == 0 then [] else ToBits(v / 2, n - 1) + [v % 2]
  }

  /** Reading the modifier byte back bit by bit, most significant first, gives the flags. */
  lemma {:induction false} ToBitsWeightedSum(bits: seq<int>)
    requires IsBits(bits)
    ensures WeightedSum(bits) >= 0 && ToBits(WeightedSum(bits), |bits|) == bits
    decreases |bits|
  {
    WeightedSumBounds(bits);
    if bits != [] {
      var init, x := bits[..|bits| - 1], bits[|bits| - 1];
      assert bits == init + [x];
      WeightedSumSnoc(init, x);
      ToBitsWeightedSum(init);
      var w := WeightedSum(init);
      assert (2 * w + x) / 2 == w && (2 * w + x) % 2 == x;
      assert ToBits(2 * w + x, |bits|) == ToBits(w, |init|) + [x];
    }
  }

  /** str(bit) for a 0/1 flag. */
  function DigitChar(bit: int): char
  {
    if bit == 0 then '0' else '1'
  }

  /** bin_str: the flags as a string of '0' and '1'. */
  function BitString(bits: seq<int>): (s: seq<char>)
    ensures |s| == |bits|
  {
    if bits == [] then [] else BitString(bits[..|bits| - 1]) + [DigitChar(bits[|bits| - 1])]
  }

  /** int(s, 2) for a string of '0' and '1'. */
  function ParseBin(s: seq<char>): int
  {
    if s == [] then 0 else 2 * ParseBin(s[..|s| - 1]) + (if s[|s| - 1] == '1' then 1 else 0)
  }

  /** int(bin_str, 2) is the weighted sum of the flags. */
  lemma {:induction false} ParseBinIsWeightedSum(bits: seq<int>)
    requires IsBits(bits)
    ensures ParseBin(BitString(bits)) == WeightedSum(bits)
    decreases |bits|
  {
    if bits != [] {
      var init, x := bits[..|bits| - 1], bits[|bits| - 1];
      assert bits == init + [x];
      var s := BitString(bits);
      assert s[..|s| - 1] == BitString(init);
      ParseBinIsWeightedSum(init);
      WeightedSumSnoc(init, x);
    }
  }

  /**
   * What send_input sends for a well-formed report: the modifier byte,
   * in 0..255 and decoding back to the flags, and the six key slots.
   */
  lemma SendInputMeaning(s: seq<Item>)
    requires WellFormed(s)
    ensures var b := ParseBin(BitString(s[2].bits));
      b == WeightedSum(s[2].bits) && 0 <= b < 0x100 && ToBits(b, MODIFIER_COUNT) == s[2].bits
  {
    ParseBinIsWeightedSum(s[2].bits);
    WeightedSumBounds(s[2].bits);
    ToBitsWeightedSum(s[2].bits);
    assert Pow2(MODIFIER_COUNT) == 0x100;
  }

  // ---------------------------------------------------------------------
  // The client

  /** The event filter of event_loop: key events that are a press or a release. */
  predicate Forwarded(ev: InputEvent)
  {
    ev.evType == EV_KEY && ev.value < 2
  }

  /** What reaches send_keys. */
  datatype Sent = Sent(modifierByte: int, keys: seq<int>)

  class KbClient {
    /** self.state. */
    var state: seq<Item>
    /** keymap.modkey and keymap.convert, applied to the event's key. */
    const modkey: int -> int
    const convert: int -> int

    constructor (modkey: int -> int, convert: int -> int)
      ensures state == InitialReport() && this.modkey == modkey && this.convert == convert
    {
      state := InitialReport();
      this.modkey := modkey;
      this.convert := convert;
    }

    method ChangeState(ev: InputEvent) returns (outcome: Outcome)
      requires WellFormed(state)
      modifies this
      ensures Change(outcome, state) == ChangeStateSpec(old(state), modkey(ev.code), convert(ev.code), ev.value)
    {
      var modkeyElement := modkey(ev.code);
      if modkeyElement > 0 {
        if modkeyElement >= |state[2].bits| {
          return IndexError;
        }
        var bits := state[2].bits;
        if bits[modkeyElement] == 0 {
          bits := bits[modkeyElement := 1];
        } else {
          bits := bits[modkeyElement := 0];
        }
        state := state[2 := Flags(bits)];
        return Ok;
      }
      var hexKey := convert(ev.code);
      SlotLoop(hexKey, ev.value);
      outcome := Ok;
    }

    /** The `for i in range(4, 10)` loop of change_state. */
    method SlotLoop(hexKey: int, value: int)
      requires WellFormed(state)
      modifies this
      ensures WellFormed(state)
      ensures state == WithSlots(old(state), KeyUpdate(Slots(old(state)), hexKey, value))
    {
      var report := state;
      ghost var filled := false;
      SlotLoopStart(report, hexKey, value);
      for i := KEYS_START to REPORT_LEN
        invariant SlotLoopInv(report, old(state), i - KEYS_START, hexKey, value) && !filled
      {
        var slot := report[i].n;
        if slot == hexKey && value == 0 {
          SlotClearStep(report, old(state), i - KEYS_START, hexKey, value);
          report := report[i := Num(0x00)];
        } else if slot == 0x00 && value == 1 {
          SlotFillStep(report, old(state), i - KEYS_START, hexKey, value);
          report := report[i := Num(hexKey)];
          filled := true;
          break;
        } else {
          SlotKeepStep(report, old(state), i - KEYS_START, hexKey, value);
        }
      }
      if !filled {
        SlotLoopEnd(report, old(state), hexKey, value);
      }
      state := report;
    }

    /** send_input: the flags as a binary string, parsed base 2, and state[4:10]. */
    method SendInput() returns (sent: Sent)
      requires WellFormed(state)
      ensures sent == Sent(WeightedSum(state[2].bits), Slots(state))
    {
      var binStr: seq<char> := "";
      var element := state[2].bits;
      for j := 0 to |element|
        invariant binStr == BitString(element[..j])
      {
        assert element[..j + 1][..j] == element[..j];
        binStr := binStr + [DigitChar(element[j])];
      }
      assert element[..|element|] == element;
      ParseBinIsWeightedSum(element);
      sent := Sent(ParseBin(binStr), Slots(state));
    }

    /**
     * One pass of event_loop: a forwarded event changes the state and the
     * new report is sent; any other event is ignored. An IndexError
     * propagates before anything is sent.
     */
    method HandleEvent(ev: InputEvent) returns (outcome: Outcome, sent: Option<Sent>)
      requires WellFormed(state)
      modifies this
      ensures WellFormed(state)
      ensures !Forwarded(ev) ==> outcome == Ok && sent == None && state == old(state)
      ensures Forwarded(ev) ==>
        Change(outcome, state) == ChangeStateSpec(old(state), modkey(ev.code), convert(ev.code), ev.value)
        && sent == (if outcome == Ok then Some(Sent(WeightedSum(state[2].bits), Slots(state))) else None)
    {
      outcome, sent := Ok, None;
      if ev.evType == EV_KEY && ev.value < 2 {
        outcome := ChangeState(ev);
        if outcome == Ok {
          var s := SendInput();
          sent := Some(s);
        }
      }
    }
  }
}
