/**
 * The server side of the keyboard emulator: send_keys turns a modifier
 * byte and a list of key codes, as they arrive over D-Bus (signature
 * `yay`), into the 10-byte HID input report handed to the Bluetooth
 * device.
 */
module KeyboardServer {
  import opened Kernel
  import opened KeyboardClient

  /** The first two bytes of every report: HID DATA|INPUT header and report id. */
  const HEADER: Byte := 0xA1
  const REPORT_ID: Byte := 1

  /**
   * The report send_keys builds: header, report id, the modifier byte, a
   * reserved zero, then the first KEY_SLOTS key codes, zero-padded.
   */
  function Report(modifierByte: Byte, keys: seq<Byte>): (r: seq<Byte>)
    ensures |r| == REPORT_LEN
    ensures r[0] == HEADER && r[1] == REPORT_ID && r[2] == modifierByte && r[3] == 0
    ensures forall i :: 0 <= i < KEY_SLOTS ==> r[KEYS_START + i] == (if i < |keys| then keys[i] else 0)
  {
    var n := Min(|keys|, KEY_SLOTS);
    [HEADER, REPORT_ID, modifierByte, 0] + keys[..n] + Zeros(KEY_SLOTS - n)
  }

  /** Keys beyond the sixth make no difference to the report. */
  lemma ExtraKeysIgnored(modifierByte: Byte, keys: seq<Byte>, more: seq<Byte>)
    requires |keys| >= KEY_SLOTS
    ensures Report(modifierByte, keys + more) == Report(modifierByte, keys)
  {
    var r, s := Report(modifierByte, keys + more), Report(modifierByte, keys);
    forall i | 0 <= i < REPORT_LEN ensures r[i] == s[i] {
      if i >= KEYS_START {
        assert r[KEYS_START + (i - KEYS_START)] == s[KEYS_START + (i - KEYS_START)];
      }
    }
  }

  /** One more key changes exactly the slot it lands in, if there is one. */
  lemma ReportSnoc(modifierByte: Byte, keys: seq<Byte>, k: Byte)
    ensures Report(modifierByte, keys + [k]) ==
      if |keys| < KEY_SLOTS then Report(modifierByte, keys)[KEYS_START + |keys| := k]
      else Report(modifierByte, keys)
  {
    var r, s := Report(modifierByte, keys + [k]), Report(modifierByte, keys);
    var t := if |keys| < KEY_SLOTS then s[KEYS_START + |keys| := k] else s;
    forall i | 0 <= i < REPORT_LEN ensures r[i] == t[i] {
      if i >= KEYS_START {
        assert r[KEYS_START + (i - KEYS_START)] == (if i - KEYS_START < |keys| + 1 then (keys + [k])[i - KEYS_START] else 0);
        assert s[KEYS_START + (i - KEYS_START)] == (if i - KEYS_START < |keys| then keys[i - KEYS_START] else 0);
      }
    }
  }

  /**
   * send_keys: a fresh report list, the modifier byte at index 2, and each
   * key code written at `count` while count < 10, count going up by one
   * for every key. The returned sequence is what send_string receives.
   */
  method SendKeys(modifierByte: Byte, keys: seq<Byte>) returns (report: seq<Byte>)
    ensures report == Report(modifierByte, keys)
  {
    var state := new Byte[REPORT_LEN] [HEADER, REPORT_ID, 0, 0, 0, 0, 0, 0, 0, 0];
    state[2] := modifierByte;
    ReportOfNoKeys(modifierByte, state[..]);
    var count := KEYS_START;
    for j := 0 to |keys|
      invariant count == KEYS_START + j
      invariant state[..] == Report(modifierByte, keys[..j])
    {
      ghost var before := state[..];
      if count < REPORT_LEN {
        state[count] := keys[j];
      }
      ReportStep(modifierByte, keys, j, before, state[..]);
      count := count + 1;
    }
    assert keys[..|keys|] == keys;
    report := state[..];
  }

  /** The header as written, with the modifier byte stored, is the report of no keys. */
  lemma ReportOfNoKeys(modifierByte: Byte, s: seq<Byte>)
    requires s == [HEADER, REPORT_ID, modifierByte, 0, 0, 0, 0, 0, 0, 0]
    ensures s == Report(modifierByte, [])
  {
    var r := Report(modifierByte, []);
    forall i | 0 <= i < REPORT_LEN ensures s[i] == r[i] {
      if i >= KEYS_START {
        assert r[KEYS_START + (i - KEYS_START)] == 0;
      }
    }
  }

  /** One pass of the send_keys loop takes the report of keys[..j] to that of keys[..j + 1]. */
  lemma ReportStep(modifierByte: Byte, keys: seq<Byte>, j: nat, before: seq<Byte>, after: seq<Byte>)
    requires j < |keys| && before == Report(modifierByte, keys[..j])
    requires after == if KEYS_START + j < REPORT_LEN then before[KEYS_START + j := keys[j]] else before
    ensures after == Report(modifierByte, keys[..j + 1])
  {
    ReportSnoc(modifierByte, keys[..j], keys[j]);
    assert keys[..j + 1] == keys[..j] + [keys[j]];
  }

  /** The slots of a client report hold byte values, as D-Bus `ay` requires. */
  predicate ByteSlots(s: seq<Item>)
    requires WellFormed(s)
  {
    forall i :: 0 <= i < KEY_SLOTS ==> 0 <= Slots(s)[i] < 0x100
  }

  /** The slots of a client report, as bytes. */
  function SlotBytes(s: seq<Item>): (k: seq<Byte>)
    requires WellFormed(s) && ByteSlots(s)
    ensures |k| == KEY_SLOTS && k == Slots(s)
  {
    seq(KEY_SLOTS, i requires 0 <= i < KEY_SLOTS => Slots(s)[i] as Byte)
  }

  /**
   * Client to server: the report the server builds from what send_input
   * sends carries the client's six key slots unchanged at 4..9, and its
   * modifier byte decodes back to the client's eight modifier flags.
   */
  lemma ClientReportArrives(s: seq<Item>)
    requires WellFormed(s) && ByteSlots(s)
    ensures 0 <= WeightedSum(s[2].bits) < 0x100
    ensures var r := Report(WeightedSum(s[2].bits) as Byte, SlotBytes(s));
      r[..KEYS_START] == [HEADER, REPORT_ID, WeightedSum(s[2].bits), 0]
      && r[KEYS_START..] == Slots(s)
      && ToBits(r[2], MODIFIER_COUNT) == s[2].bits
  {
    SendInputMeaning(s);
    var r := Report(WeightedSum(s[2].bits) as Byte, SlotBytes(s));
    assert r[KEYS_START..] == Slots(s) by {
      forall i | 0 <= i < KEY_SLOTS ensures r[KEYS_START..][i] == Slots(s)[i] {
        assert r[KEYS_START + i] == SlotBytes(s)[i];
      }
    }
  }
}
