# Breaktooth core logic in Dafny

Breaktooth is a Bluetooth LE Audio interception demo. It has five small pieces whose logic can be stated precisely, and this project models each of them:

- **The broadcast sink firmware** (`samples/bluetooth/iso_receive`). It runs a retry loop that scans for the broadcaster "AliceISO" and syncs to its periodic advertising. It then syncs to its BIG (broadcast isochronous group) and waits for the periodic-advertising sync to be lost, after which it tears down and starts again. Beside the loop, an audio feeder thread drains a ring buffer of UART audio into 160-byte frames.
- **The broadcast source firmware** (`samples/bluetooth/iso_broadcast`). When its BIG is up, main runs a transmit loop. Each pass allocates a buffer and takes a TX token. It fills a 160-byte SDU (service data unit) from the UART audio ring, zero-padding when the ring runs short, and sends it stamped with a 16-bit sequence number.
- **The host-side serial tool** (`index.js`). In bob mode it detects 4-byte debug markers that the firmware puts in the serial stream, strips them, and passes the audio on. In alice/mallory mode, a timer sends the buffered audio in chunks of at most 160 bytes, pacing the total to real time.
- **The keyboard emulator client** (`kb_client.py`). It keeps a 10-element HID input report (the boot keyboard report of USB HID 1.11, Appendix B.1), updates it on each key event, and sends it onwards as a modifier byte plus six key codes.
- **The keyboard emulator server** (`kb_server.py`). It rebuilds the 10-byte report from that modifier byte and key list.

Modules:

- `Kernel` holds what both firmware programs use: byte and `uint16_t` values, and the Zephyr semaphore as a counter with a limit.
- `AudioRing` holds the audio ring as a bounded FIFO and the fill-and-pad of one packet.
- `IsoReceive` and `IsoBroadcast` model the two firmware programs.
- `SerialHost` models `index.js`.
- `KeyboardClient` and `KeyboardServer` model the two keyboard files.

Each firmware program's globals are a class. Every callback and every run of `main` from one blocking wait to the next is a method of that class, and each method's new state is given by a pure transition function. Those functions carry the contracts. Traces of events fold them (`Run`), and the inductive lemmas are stated over traces: resource balance, the token bound and sequence-number arithmetic.

The models follow the code as written, including these behaviours:

- The sink's loop waits on `sem_per_sync_lost`, given only when the periodic-advertising sync terminates (`term_cb`). A BIS disconnect alone therefore never ends a stream.
- The sink sets `per_adv_lost` but never reads it.
- The sink's per-channel waits for BIS connection ignore a timeout. The loop goes on to the loss wait either way.
- The source's `main` returns on a failed buffer allocation, a TX-token timeout or a failed send. It does not retry on the next tick.
- When `bt_iso_chan_send` fails, the source's `main` unrefs the buffer but never gives back the TX token it took. The model counts that token as spent, so a failed send leaves one fewer token in `sem_iso_data`.
- The sink's `iso_connected` and `iso_disconnected` compare the channel against `&bis_iso_chan[1]`, which is one past the end of a one-element array. Indices 0 and 1 both pass the test; index 1 is the one-past-the-end address, which no registered channel has.
- `change_state` never toggles modifier index 0, because it tests `modkey_element > 0`. An index of 8 or more raises `IndexError` in Python; the model returns `IndexError` as an outcome.

## Model

| member | source | states |
|---|---|---|
| Kernel.Inc16 | samples/bluetooth/iso_broadcast/src/main.c:244 | `seq_num++` on a `uint16_t`: +1, wrapping to 0 exactly from 65535 |
| Kernel.Sem.Give | samples/bluetooth/iso_broadcast/src/main.c:82-85 | `k_sem_give` adds one token unless the count is at its limit, and keeps the limit and validity |
| Kernel.Sem.Take | samples/bluetooth/iso_broadcast/src/main.c:220 | a successful `k_sem_take` removes exactly one token and keeps the limit |
| Kernel.Sem.Reset | samples/bluetooth/iso_receive/src/main.c:220-228 | `k_sem_reset` leaves no token and keeps the limit |
| AudioRing.ReadCount | samples/bluetooth/iso_receive/src/main.c:241-242 | a packet read takes `min(occupied, 160)` bytes |
| AudioRing.Packet | samples/bluetooth/iso_broadcast/src/main.c:229-234 | a packet is exactly 160 bytes: the bytes read in FIFO order, then zeros |
| AudioRing.Rest | samples/bluetooth/iso_broadcast/src/main.c:229 | the ring loses exactly the bytes read |
| AudioRing.DrainKeepsStream | samples/bluetooth/iso_receive/src/main.c:241-255 | the audio in n successive packets, followed by what the ring still holds, is exactly the ring's original contents: no loss, no reordering |
| AudioRing.EmptyRingGivesSilence | samples/bluetooth/iso_receive/src/main.c:248-252 | an empty ring yields 160 zero bytes per packet and stays empty |
| AudioRing.Ring.Put | samples/bluetooth/iso_broadcast/src/main.c:53 | `ring_buf_put` appends as many bytes as fit and says how many that was |
| AudioRing.Ring.Get | samples/bluetooth/iso_broadcast/src/main.c:229 | `ring_buf_get` moves `min(n, occupied)` oldest bytes into the buffer and leaves the rest of it as it was |
| AudioRing.ZeroFrom | samples/bluetooth/iso_broadcast/src/main.c:232-234 | the `memset` zeroes the tail of the buffer and nothing before it |
| AudioRing.FillPacket | samples/bluetooth/iso_broadcast/src/main.c:229-234 | the array buffer ends up equal to `Packet` of the ring, and the ring to `Rest` |
| IsoReceive.NameLength | samples/bluetooth/iso_receive/src/main.c:131 | the copy length is `min(data_len, NAME_LEN - 1)` |
| IsoReceive.CopyName | samples/bluetooth/iso_receive/src/main.c:131-133 | the name buffer gets the truncated name, a NUL right after it, and the rest unchanged |
| IsoReceive.DataCb | samples/bluetooth/iso_receive/src/main.c:123-138 | returns false exactly for the Shortened and Complete Local Name types, in which case the name is copied; any other AD type leaves the buffer untouched |
| IsoReceive.ParseName | samples/bluetooth/iso_receive/src/main.c:144-145 | a zeroed buffer filled through `bt_data_parse` holds what the first name-typed AD structure gives |
| IsoReceive.CString | samples/bluetooth/iso_receive/src/main.c:147 | the string `strcmp` sees is the NUL-free prefix up to the first NUL |
| IsoReceive.CStringIs | samples/bluetooth/iso_receive/src/main.c:147 | the C string equals a NUL-free word exactly when the buffer holds that word followed by a NUL |
| IsoReceive.AliceNameTest | samples/bluetooth/iso_receive/src/main.c:144-147 | `strcmp(name, "AliceISO") == 0` holds exactly when the first name-typed AD structure is "AliceISO" (after truncation) |
| IsoReceive.InitialSink | samples/bluetooth/iso_receive/src/main.c:60-65 | the sink starts with every semaphore empty at its K_SEM_DEFINE limit (1 for the four PA semaphores, BIS_ISO_CHAN_COUNT for the two BIG ones), no peer found or lost, no stack call made, and the invariant holds |
| IsoReceive.OnScanRecv | samples/bluetooth/iso_receive/src/main.c:147-156 | first match wins: a peer is recorded and `sem_per_adv` given only if none was found yet, the interval is non-zero and the name is "AliceISO"; otherwise nothing changes |
| IsoReceive.OnBisConnected | samples/bluetooth/iso_receive/src/main.c:203-209 | a known channel gives `sem_big_sync`; an unknown one changes nothing; nothing but `sem_big_sync` ever changes |
| IsoReceive.OnBisDisconnected | samples/bluetooth/iso_receive/src/main.c:211-218 | the BIG-loss counter moves exactly for a known channel whose reason is not "cancelled by host"; a local cancel changes nothing |
| IsoReceive.OnResetSemaphores | samples/bluetooth/iso_receive/src/main.c:220-228 | all six semaphores become empty and nothing else changes |
| IsoReceive.MainStep | samples/bluetooth/iso_receive/src/main.c:313-369 | each iteration starts with all semaphores at 0 and both flags false and calls `bt_le_scan_start`, and main returns exactly when that fails; a found peer stops the scan and creates the PA sync, going on to the sync wait when that succeeds; a PA-sync token leads to the BIGInfo wait, and a BIGInfo token to `bt_iso_big_sync` with the BIS count, bitfield and timeout, going on to the BIS waits when it succeeds; a failed sync create retries without deleting a sync; a sync or BIGInfo timeout, or a failed BIG sync, deletes the sync; PA sync loss terminates the BIG, deletes the sync and sleeps; BIS waits go on regardless; K_FOREVER waits block; only a failed scan start returns |
| IsoReceive.MainStepKeepsInv | samples/bluetooth/iso_receive/src/main.c:313-369 | one main step keeps the sink invariant: the scanner, PA sync and BIG held by the call log match what the current phase holds, and the semaphores stay valid |
| IsoReceive.StepKeepsInv | samples/bluetooth/iso_receive/src/main.c:140-218 | every callback keeps the sink invariant |
| IsoReceive.RunKeepsInv | samples/bluetooth/iso_receive/src/main.c:313-369 | every trace of callbacks and main steps keeps the invariant |
| IsoReceive.NothingHeldBetweenIterations | samples/bluetooth/iso_receive/src/main.c:313-369 | from the initial state, whenever main is back at the loop top (or has returned), it holds no scanner, PA sync or BIG: no teardown path leaks one |
| IsoReceive.NoPeerKeepsScanning | samples/bluetooth/iso_receive/src/main.c:323 | without a matching report, the sink stays blocked scanning and makes no stack call, whatever else happens |
| IsoReceive.OnlyPaSyncLossEndsStream | samples/bluetooth/iso_receive/src/main.c:363-367 | once streaming, only a PA sync loss moves main; BIS disconnects alone change no phase and make no call |
| IsoReceive.BroadcastSink.constructor | samples/bluetooth/iso_receive/src/main.c:54-65 | the globals start as `InitialSink` |
| IsoReceive.BroadcastSink.ScanRecv | samples/bluetooth/iso_receive/src/main.c:140-157 | the globals change as `OnScanRecv` says |
| IsoReceive.BroadcastSink.SyncCb | samples/bluetooth/iso_receive/src/main.c:163-168 | gives `sem_per_sync` |
| IsoReceive.BroadcastSink.TermCb | samples/bluetooth/iso_receive/src/main.c:170-175 | sets `per_adv_lost` and gives `sem_per_sync_lost` |
| IsoReceive.BroadcastSink.BigInfoCb | samples/bluetooth/iso_receive/src/main.c:183-188 | gives `sem_per_big_info` |
| IsoReceive.BroadcastSink.IsoConnected | samples/bluetooth/iso_receive/src/main.c:203-209 | the globals change as `OnBisConnected` says |
| IsoReceive.BroadcastSink.IsoDisconnected | samples/bluetooth/iso_receive/src/main.c:211-218 | the globals change as `OnBisDisconnected` says |
| IsoReceive.BroadcastSink.ResetSemaphores | samples/bluetooth/iso_receive/src/main.c:220-228 | the globals change as `OnResetSemaphores` says |
| IsoReceive.BroadcastSink.RunMain | samples/bluetooth/iso_receive/src/main.c:313-369 | main runs from one wait to the next, as `MainStep` says |
| IsoReceive.BroadcastSink.StartIteration | samples/bluetooth/iso_receive/src/main.c:314-321 | the top of the loop changes the globals as `MainStep` says: semaphores reset, flags cleared, scan started |
| IsoReceive.BroadcastSink.WaitForPeer | samples/bluetooth/iso_receive/src/main.c:323-339 | the peer wait, scan stop and PA sync create change the globals as `MainStep` says |
| IsoReceive.BroadcastSink.WaitForSync | samples/bluetooth/iso_receive/src/main.c:341-345 | the PA sync wait changes the globals as `MainStep` says |
| IsoReceive.BroadcastSink.WaitForBigInfo | samples/bluetooth/iso_receive/src/main.c:347-357 | the BIGInfo wait and BIG sync change the globals as `MainStep` says |
| IsoReceive.FeederMarker | samples/bluetooth/iso_receive/src/main.c:259-264 | a marker every 100th packet: 0xA6 exactly when at least 80 bytes were read, else 0xA5 |
| IsoReceive.AudioFeeder.constructor | samples/bluetooth/iso_receive/src/main.c:231-232 | both counters start at 0 and the injection buffer is not ready |
| IsoReceive.AudioFeeder.Iterate | samples/bluetooth/iso_receive/src/main.c:241-264 | one feeder pass leaves `Packet` of the ring in the injection buffer and drains exactly the bytes read; the packet counter goes up by 1 and the byte counter by `bytes_read`, both modulo 2^32; the marker is `FeederMarker` |
| IsoBroadcast.InitialSource | samples/bluetooth/iso_broadcast/src/main.c:37-42 | `sem_iso_data` starts full at CONFIG_BT_ISO_TX_BUF_COUNT, and the invariant holds |
| IsoBroadcast.OnConnected | samples/bluetooth/iso_broadcast/src/main.c:59-75 | `seq_num` is reset to 0 and one `sem_big_cmplt` is given; nothing else changes |
| IsoBroadcast.OnSent | samples/bluetooth/iso_broadcast/src/main.c:82-85 | `iso_sent` gives back exactly one TX token (saturating at the limit); only the token pool changes, and stays within its limit |
| IsoBroadcast.OnUartRx | samples/bluetooth/iso_broadcast/src/main.c:45-57 | the ring gains a prefix of the data, all of it when it fits, and never exceeds 1600 bytes |
| IsoBroadcast.MainStep | samples/bluetooth/iso_broadcast/src/main.c:202-245 | main returns exactly on a failed bring-up, allocation, token wait or send; the BIG wait takes one `sem_big_cmplt` per channel; a failed allocation releases nothing, and a failed token wait or send unrefs the buffer; a send takes one token and sends `Packet` of the ring with the current `seq_num` |
| IsoBroadcast.MainStepKeepsInv | samples/bluetooth/iso_broadcast/src/main.c:202-245 | one main step keeps the source invariant: token pool bounds, one `sem_big_cmplt` per channel before any allocation, no buffer held or token unaccounted between steps, and every sent SDU 160 bytes |
| IsoBroadcast.StepKeepsInv | samples/bluetooth/iso_broadcast/src/main.c:45-85 | every callback keeps the invariant |
| IsoBroadcast.RunKeepsInv | samples/bluetooth/iso_broadcast/src/main.c:202-245 | every trace keeps the invariant |
| IsoBroadcast.NothingLeaks | samples/bluetooth/iso_broadcast/src/main.c:215-241 | from the start, on every trace: every allocated buffer is sent or unref'd, and the token pool stays within [0, CONFIG_BT_ISO_TX_BUF_COUNT]; transmission starts only after all `sem_big_cmplt` takes, and every SDU sent is 160 bytes on a real channel |
| IsoBroadcast.LimitStays | samples/bluetooth/iso_broadcast/src/main.c:39-40 | no event changes the token pool's limit |
| IsoBroadcast.RunKeepsSeqs | samples/bluetooth/iso_broadcast/src/main.c:210-244 | without a reconnect, the sequence numbers sent so far keep counting up from a fixed base, modulo 2^16 |
| IsoBroadcast.SuccessiveSdusCount | samples/bluetooth/iso_broadcast/src/main.c:210-244 | without a reconnect, the SDUs sent from any point of the transmit loop carry `seq_num`, `seq_num+1`, … modulo 2^16 |
| IsoBroadcast.BroadcastSource.constructor | samples/bluetooth/iso_broadcast/src/main.c:26 | the globals start as `InitialSource` with an empty 1600-byte ring |
| IsoBroadcast.BroadcastSource.IsoConnected | samples/bluetooth/iso_broadcast/src/main.c:59-75 | the globals change as `OnConnected` says |
| IsoBroadcast.BroadcastSource.IsoDisconnected | samples/bluetooth/iso_broadcast/src/main.c:77-80 | gives `sem_big_term` |
| IsoBroadcast.BroadcastSource.IsoSent | samples/bluetooth/iso_broadcast/src/main.c:82-85 | the globals change as `OnSent` says |
| IsoBroadcast.BroadcastSource.UartRxCallback | samples/bluetooth/iso_broadcast/src/main.c:52-54 | the globals change as `OnUartRx` says |
| IsoBroadcast.BroadcastSource.RunMain | samples/bluetooth/iso_broadcast/src/main.c:197-245 | main runs from one wait to the next, filling `audio_data` in place, as `MainStep` says |
| SerialHost.MarkerShape | index.js:82-85 | a chunk is a marker exactly when it starts with four copies of a known key |
| SerialHost.MarkerTestsFirstFour | index.js:82-85 | the marker test (`IsMarker`) of both data handlers reads only the first four bytes: a chunk shorter than four bytes is never a marker, and appending bytes to a marker keeps it one |
| SerialHost.FeederMarkersAreKnown | index.js:150-158 | every marker the sink's feeder emits is in the TX marker table |
| SerialHost.Note | index.js:86-89 | a marker is logged only when it differs from the last one logged, and then becomes the last one |
| SerialHost.NoteAllKeepsLogValid | index.js:167-170 | over any stream, consecutive log messages never repeat a marker, and only known markers are logged |
| SerialHost.BobAudio | index.js:90-93 | a marker chunk loses exactly its 4 marker bytes; any other chunk passes unchanged |
| SerialHost.MarkerStripped | index.js:91 | a marker followed by audio gives back exactly that audio |
| SerialHost.BobStep | index.js:78-112 | `totalBytesReceived` counts the whole chunk; the marker log is updated; the speaker gets the audio when it is ready, except for a bare marker (which returns early) |
| SerialHost.BobPassesAudio | index.js:78-112 | over any stream with the speaker ready, the total counts every byte, and the speaker receives exactly the audio with all markers stripped, in order |
| SerialHost.BobReceiver.constructor | index.js:66-76 | counters and last marker start at 0 |
| SerialHost.BobReceiver.OnData | index.js:78-112 | the handler changes state as `BobStep` says |
| SerialHost.TxReceiver.constructor | index.js:159 | `lastMarkerTx` starts at 0 |
| SerialHost.TxReceiver.OnData | index.js:161-173 | the handler changes the marker log as `Note` says |
| SerialHost.Chunked | index.js:226-232 | every chunk written is 1..160 bytes long, and every chunk before the last is exactly 160 |
| SerialHost.FlattenChunked | index.js:229-233 | the chunks written, concatenated, are exactly the bytes sent |
| SerialHost.CatchUpEnd | index.js:226-235 | the loop ends with the read index at most the buffer length: either the expected count is reached or the buffer is exhausted, overshooting by less than 160 bytes |
| SerialHost.Transmitter.constructor | index.js:175-176 | nothing sent, no loop yet |
| SerialHost.Transmitter.PlayLoop | index.js:178-185 | a new loop: count +1, empty buffer, index and loop count 0 |
| SerialHost.Transmitter.OnAudioData | index.js:202-204 | the buffer grows by the chunk |
| SerialHost.Transmitter.OnAudioEnd | index.js:206-209 | the stream is marked ended |
| SerialHost.Transmitter.SendChunk | index.js:227-234 | one pass writes the next `min(160, remaining)` bytes and advances the index by that amount |
| SerialHost.Transmitter.CatchUp | index.js:226-235 | the loop writes `Chunked` of the buffer slice from the old index to `CatchUpEnd`; `loopBytesSent` equals the index and `totalBytesSent` the bytes written, as preserved invariants |
| SerialHost.Transmitter.Tick | index.js:220-253 | one timer tick catches up, then restarts the loop exactly when the stream has ended and the buffer is exhausted |
| KeyboardClient.InitialReport | cmd/attacker/tools/emulator/kb_client.py:15-36 | the report starts as 0xA1, 1, eight zero flags, 0, six empty slots |
| KeyboardClient.Slots | cmd/attacker/tools/emulator/kb_client.py:96 | `state[4:10]` is the six key slots |
| KeyboardClient.Toggle | cmd/attacker/tools/emulator/kb_client.py:63-66 | flips exactly one flag, between 0 and 1 |
| KeyboardClient.ToggleTwice | cmd/attacker/tools/emulator/kb_client.py:63-66 | pressing a modifier twice restores the flags |
| KeyboardClient.KeyUpdate | cmd/attacker/tools/emulator/kb_client.py:71-78 | the slot update keeps the number of slots |
| KeyboardClient.FirstFree | cmd/attacker/tools/emulator/kb_client.py:75 | the first slot holding 0, or none |
| KeyboardClient.ReleaseClearsKey | cmd/attacker/tools/emulator/kb_client.py:71-74 | a release clears every slot equal to the key and leaves the others |
| KeyboardClient.PressFillsFirstFree | cmd/attacker/tools/emulator/kb_client.py:75-78 | a press writes the key into the first free slot only, or changes nothing when none is free, even if the key is already there |
| KeyboardClient.OtherValueKeepsSlots | cmd/attacker/tools/emulator/kb_client.py:71-78 | a value other than 0 or 1 changes no slot |
| KeyboardClient.PressThenRelease | cmd/attacker/tools/emulator/kb_client.py:71-78 | pressing then releasing a key not already present restores the slots |
| KeyboardClient.WithSlots | cmd/attacker/tools/emulator/kb_client.py:71-78 | replacing the slots keeps indices 0..3 |
| KeyboardClient.ChangeStateSpec | cmd/attacker/tools/emulator/kb_client.py:58-78 | indices 0, 1 and 3 never change; a modifier index of 1..7 toggles that flag only; an index of 8 or more is an IndexError with nothing changed; otherwise (index ≤ 0) the slots change as `KeyUpdate` says |
| KeyboardClient.Pow2 | cmd/attacker/tools/emulator/kb_client.py:96 | powers of two are positive |
| KeyboardClient.WeightedSumBounds | cmd/attacker/tools/emulator/kb_client.py:96 | eight flags pack into a value in 0..2^8-1 |
| KeyboardClient.ToBits | cmd/attacker/tools/emulator/kb_client.py:96 | unpacking gives n flags, most significant first |
| KeyboardClient.ToBitsWeightedSum | cmd/attacker/tools/emulator/kb_client.py:96 | unpacking the packed flags gives the flags back |
| KeyboardClient.BitString | cmd/attacker/tools/emulator/kb_client.py:91-94 | one character per flag |
| KeyboardClient.ParseBinIsWeightedSum | cmd/attacker/tools/emulator/kb_client.py:91-96 | `int(bin_str, 2)` is the flags read with the first one as the most significant bit |
| KeyboardClient.SendInputMeaning | cmd/attacker/tools/emulator/kb_client.py:90-96 | the modifier byte sent is in 0..255 and decodes back to the eight flags |
| KeyboardClient.KbClient.constructor | cmd/attacker/tools/emulator/kb_client.py:14-36 | the state starts as `InitialReport` |
| KeyboardClient.KbClient.ChangeState | cmd/attacker/tools/emulator/kb_client.py:58-78 | the report changes in place as `ChangeStateSpec` says |
| KeyboardClient.KbClient.SlotLoop | cmd/attacker/tools/emulator/kb_client.py:71-78 | the `for`/`break` loop leaves the slots `KeyUpdate` gives and indices 0..3 untouched |
| KeyboardClient.KbClient.SendInput | cmd/attacker/tools/emulator/kb_client.py:90-96 | sends the packed flags and the six slots |
| KeyboardClient.KbClient.HandleEvent | cmd/attacker/tools/emulator/kb_client.py:81-87 | only key events with value < 2 change the state and send the report; autorepeat and other events change nothing and send nothing |
| KeyboardServer.Report | cmd/attacker/tools/emulator/kb_server.py:26-32 | 10 bytes: 0xA1, 1, the modifier byte, 0, then the first min(k, 6) keys at 4.. in order, the rest 0 |
| KeyboardServer.ExtraKeysIgnored | cmd/attacker/tools/emulator/kb_server.py:30 | keys after the sixth make no difference |
| KeyboardServer.SendKeys | cmd/attacker/tools/emulator/kb_server.py:24-33 | the list filled in place by the `count` loop equals `Report` |
| KeyboardServer.SlotBytes | cmd/attacker/tools/emulator/kb_client.py:96 | the slots as the bytes D-Bus carries |
| KeyboardServer.ClientReportArrives | cmd/attacker/tools/emulator/kb_server.py:26-32 | client to server: the rebuilt report has the client's six slots at 4..9, and its modifier byte decodes back to the client's eight flags |

## Left out

- Bluetooth stack calls (scanning, PA sync create and delete, BIG create, sync and terminate, data-path setup, `bt_iso_chan_send`, the `net_buf` pool). They are logged calls whose success or failure is a parameter of the step (`Replies`, `TxReplies`).
- The source's bring-up before the BIG is created (`bt_enable`, extended and periodic advertising, UART setup). It is one `CreateBig(ok)` step, because only its success or failure matters to the rest.
- The internals of `ring_buf_put` and `ring_buf_get`, which are not part of this model. `Ring.Put` is assumed to keep what fits and drop the rest; `Ring.Get` returns `min(n, occupied)` oldest bytes.
- Threads, interrupts, `k_sleep` and the blocking of `k_sem_take`. Each `main` step runs up to its next wait. A bounded wait that finds no token is a timeout; a `K_FOREVER` wait with no token leaves the state unchanged until an event gives one.
- The error return after a `K_FOREVER` `k_sem_take`. Without a reset or timeout that take cannot fail, so that branch is not modelled.
- `CONFIG_BT_ISO_TX_BUF_COUNT`, which comes from the build configuration. It is the parameter `txBufCount` (any positive value).
- USB and UART bring-up, DTR polling, `uart_fifo_read`, and the `debug_marker` output. The UART data is a parameter of `OnUartRx`; the feeder's marker is returned from `Iterate` instead of written.
- The sink's `iso_recv`, which does nothing, and the controller driver that consumes `mallory_injection_buf`. That driver is not part of this model; only the feeder's side of the buffer is.
- The SerialPort, ffmpeg and Speaker objects, the per-second log timers and console output in `index.js`. Port writes and speaker writes are recorded as sequences.
- SerialHost.ExpectedBytes: the floating-point `Math.floor((elapsed / 1000) * 16000)` is written as integer `elapsedMs * 16000 / 1000` on whole milliseconds, because wall-clock time is an input.
- SerialHost.BobStep: a speaker write that raises is caught and logged; the model records the write either way.
- `tools.emulator.rules.keymap`, which is not part of this model. `modkey` and `convert` are fields of arbitrary functions on event codes.
- The `ecodes.KEY` lookup, which could raise `KeyError` for an unknown code. The event's code is passed to `modkey` and `convert` directly.
- pyudev device discovery, evdev reading, D-Bus transport and `KbDevice.send_string`. The client's `Sent` value and the server's returned report stand for the D-Bus call and the send.
- `int(bin_str, 2)` on an empty string cannot occur, because the flags list always has eight entries.
- KeyboardServer.ClientReportArrives: requires the client's slots to hold byte values, because D-Bus signature `ay` rejects anything else, and `convert` is not shown.
