# Biosignal remote unit: receive and playback model

This project models, in Dafny, the receiving and playback side of the remote unit. The remote
unit is the Python GUI that subscribes to the biosignal topics of the acquisition device over
MQTT and plots the samples live. The model covers five pieces:

- **Settings** (`settings.dfy`). The table of biosignals and the tables derived from it: one
  data topic per signal (`MQTT_TOPIC_PREFIX` + name, in key order) and the overlap size of
  each signal.
- **Decoding** (`communication.dfy`). `payloadToList` reads a raw payload as big-endian 16-bit
  integers, signed (two's complement) or unsigned. An odd trailing byte is read on its own.
  The reading is proved against an independent reference reading (`Word`, `Octet`), and in
  both directions against a 2-byte encoder.
- **Data handler** (`communication.dfy`). `_onDataMessage` strips the topic prefix to get
  the signal name. It moves that signal's `new` packet to `old`, stores the decoded payload
  as `new` and raises the signal's `newData` flag. It is modelled as a pure function
  (`Receive`) on a snapshot of the two shared dictionaries, and as a method of
  `MQTTManager` that updates the shared object in place.
- **Playback generator** (`pages.dfy`). `BasePage.sampleExtractor` hands the plot one sample
  per `next()`. It switches from the `old` packet to the `new` one using the packet size
  and the overlap. `Resume` is one call as a function. `SampleExtractor.Next` is the same
  call on a generator object. The lemmas cover each branch, the invariant of the locals,
  whole backlog runs, and seamless hand-over when packets overlap. They also cover both
  sides of the index arithmetic. No call raises when four conditions hold:
  - both packets of the signal hold exactly its configured packet size;
  - the overlap is below that size;
  - the plot window is at least 2 and at most that size;
  - the generator starts fresh, or from a state inside its invariant and the window.
  This holds while no message arrives. It also holds across messages that carry the
  configured number of samples. A packet shorter than the plot window causes an index
  error when no newer packet arrives in time.
- **Top level** (`main.dfy`). The initial `samples`/`newData` dictionaries, and page
  navigation through `nextPage`/`prevPage` and the two buttons.

The two dictionaries `samples` and `newData` are created once in main.py and shared by
reference. The MQTT manager writes them and the pages read them and lower the flags. They
are one `Shared.SharedData` object, held by both `Communication.MQTTManager` and
`Pages.BasePage`. The network thread and the Tk loop are modelled as single steps taken one
after the other.

How the generator is modelled: statements after a `yield` only run when the generator is
resumed. Most of them update locals (`x += 1`, `unplottedSamples -= 1`), which nothing
outside can observe before the next call, so the model applies them at the yield. The one
observable statement is `self.newData[signalName] = False` after the two yields that notice a
new packet (remoteunit/pages.py:104). It runs at the start of the NEXT call, and
`Gen.clearPending` records that it is still owed. Two consequences are proved:

- A call never lowers the flag it is looking at (`Resume`'s contract).
- A packet that arrives between the call that saw the previous packet and the next call has
  its flag lowered without ever being handled as new (`NotificationLostBetweenCalls`).

Python semantics the model keeps:

- Exceptions are outcomes. `KeyError` and `IndexError` end the generator, and every later
  call raises `StopIteration`. `_onDataMessage` on an unknown signal raises `KeyError` and
  changes nothing.
- Negative list indexes count from the end. Clicking "previous" at startup therefore shows
  `screens[-1]` instead of failing, and only the third such click raises.

Two details of the code the model keeps as written:

- Topics are the plain concatenation `MQTT_TOPIC_PREFIX + name` with the prefix `"signal/"`,
  so the slash belongs to the prefix (remoteunit/settings.py:31,41).
- The statement that lowers a signal's flag, `self.newData[signalName] = False`, follows the
  yield (remoteunit/pages.py:104). It therefore runs on the call after the one that sees the
  packet, not during that call.

## Model

| member | source | states |
|---|---|---|
| `Communication.FromBytes` | remoteunit/communication.py:25 | `int.from_bytes(..., 'big', signed)`: an unsigned reading of n bytes lies in [0, 256^n); a signed one lies in [-128·256^(n-1), 128·256^(n-1)) |
| `Communication.Word` | remoteunit/communication.py:16-25 | reference reading of a byte pair, 256·hi + lo, two's complement when signed; unsigned in [0, 65535], signed in [-32768, 32767] |
| `Communication.Octet` | remoteunit/communication.py:25 | reference reading of a lone byte; unsigned in [0, 255], signed in [-128, 127] |
| `Communication.FromTwoBytes` | remoteunit/communication.py:25 | `int.from_bytes` of a 2-byte slice equals the reference `Word` |
| `Communication.FromOneByte` | remoteunit/communication.py:25 | `int.from_bytes` of the 1-byte trailing slice equals the reference `Octet` |
| `Communication.PayloadToList` | remoteunit/communication.py:8-25 | n bytes decode to ⌈n/2⌉ integers (2k bytes to k, empty to empty); element i is `Word(pl[2i], pl[2i+1])`; an odd trailing byte decodes alone as `Octet`; every element fits 16 bits of the requested signedness |
| `Communication.SignedFromUnsigned` | remoteunit/communication.py:16-25 | the signed reading is the unsigned one minus 65536 (256 for a lone byte) exactly when the top bit is set |
| `Communication.DecodeEncode` | remoteunit/communication.py:8-25 | round trip: decoding the 2-byte big-endian packing of in-range integers with the same signedness returns them |
| `Communication.EncodeDecode` | remoteunit/communication.py:8-25 | reverse round trip: re-packing the decoding of an even-length payload returns its bytes |
| `Communication.SignalName` | remoteunit/communication.py:82 | the topic without `MQTT_TOPIC_PREFIX` when it starts with it, otherwise the topic unchanged |
| `Communication.DerivedTopicNamesSignal` | remoteunit/settings.py:41 | stripping the prefix from any derived topic gives back the signal it was derived from |
| `Communication.Receive` | remoteunit/communication.py:77-86 | raises (no change) iff the signal has no `samples` entry; otherwise `old` becomes the previous `new`, `new` is the payload decoded as signed iff the signal is in the signed set, the signal's flag is raised, and no other signal's packets or flag change |
| `Communication.ReceiveKeepsShape` | remoteunit/communication.py:84-85 | a payload of two bytes per configured sample keeps every packet at its configured size |
| `Communication.MQTTManager.constructor` | remoteunit/communication.py:96-107 | the manager holds the shared buffers by reference |
| `Communication.MQTTManager.OnDataMessage` | remoteunit/communication.py:77-86 | the shared buffers become `Receive`'s result, or stay unchanged when it raises |
| `Settings.MqttTopics` | remoteunit/settings.py:41 | one topic per table entry, in key order, each starting with the prefix and continuing with exactly the signal name |
| `Settings.TopicsDistinct` | remoteunit/settings.py:41 | topics of distinct keys are pairwise distinct |
| `Settings.OverlaySizes` | remoteunit/settings.py:43 | key set equals the table's; each last-written entry maps to its `overlay` |
| `Settings.OverlaySizesOfDictionary` | remoteunit/settings.py:43 | for a dictionary (distinct keys) each signal maps to its own `overlay` |
| `Settings.ConfiguredTables` | remoteunit/settings.py:3-43 | the configured table has distinct keys; topics are `signal/ECG`, `signal/PPG`, `signal/TMP`; overlaps are 20, 30, 1 |
| `Pages.Fetch` | remoteunit/pages.py:84-111 | `samples[s]['new' or 'old'][i]`: `KeyError` when the signal has no entry; `IndexError` outside [−len, len); the element at a non-negative index, the element counted from the end at a negative one; never `StopIteration` |
| `Pages.Resume` | remoteunit/pages.py:63-112 | one `next()`: keeps the invariant (x ≥ 0; in a backlog x + unplotted = packet size and unplotted ≥ overlap); lowers the signal's flag iff one was owed, and changes no other flag; owes a lowering only after a sample read from a flagged packet outside a backlog; a finished generator raises `StopIteration`; a raise ends it |
| `Pages.NoPacketStep` | remoteunit/pages.py:105-112 | no flag and no backlog: yields `new[x]`, x+1 below `totDataPoints-1` and 0 otherwise, flag untouched |
| `Pages.PacketArrivalStep` | remoteunit/pages.py:93-104 | flagged packet, no backlog: early (size − x > overlap) yields `old[x]`, enters backlog with x+1 and unplotted = size − x − 1; on time yields `new[overlap − unplotted]` at a non-negative index and leaves x one past it; flag still raised, its lowering owed |
| `Pages.FlagLoweredOnNextCall` | remoteunit/pages.py:104 | the call after one that saw a packet lowers the flag first, whatever arrived in between |
| `Pages.BacklogStep` | remoteunit/pages.py:83-86 | backlog with unplotted > overlap: yields `old[x]`, x+1, unplotted drops by exactly 1, flags untouched |
| `Pages.BacklogEndStep` | remoteunit/pages.py:87-91 | backlog with unplotted ≤ overlap: yields `new[0]`, x = 1, leaves backlog, flags untouched |
| `Pages.DrainBacklog` | remoteunit/pages.py:80-91 | a whole backlog: yields `old[x .. x+unplotted−overlap)` at consecutive indices, then `new[0]`, ending at x = 1 outside the backlog |
| `Pages.EarlyPacketFirstCall` | remoteunit/pages.py:93-99 | the call that notices an early packet yields `old[x]` and starts the backlog with x+1 and unplotted = size − x − 1, and the later calls run from there |
| `Pages.EarlyPacketBacklog` | remoteunit/pages.py:80-104 | the backlog an early packet starts plays `old[x+1 .. size−overlap)` then `new[0]`, and lowers the flag on its first call |
| `Pages.EarlyPacketPlayback` | remoteunit/pages.py:93-99 | an early packet: plays `old[x .. size−overlap)` then `new[0]`, and lowers the flag |
| `Pages.ArrivalIsSeamless` | remoteunit/pages.py:93-103 | when the new packet starts with the old one's last `overlap` samples, the call noticing it yields `old[x]`, the sample that was due |
| `Pages.BacklogReadsInBounds` | remoteunit/pages.py:83-86 | with packets of their configured size, backlog reads are at indices in [0, size − overlap) and never raise |
| `Pages.StepNeverRaises` | remoteunit/pages.py:80-112 | with shaped buffers, 0 ≤ overlap < packet size and 2 ≤ `totDataPoints` ≤ packet size, a call from the invariant and within the window (x ≤ `totDataPoints − 1` outside a backlog) yields a sample in every branch, and both hold again after it |
| `Pages.RunNeverRaises` | remoteunit/pages.py:80-112 | under the same configuration, any number of calls with no message arriving all yield samples, and the generator is still running inside the invariant and the window |
| `Pages.FreshGeneratorNeverRaises` | remoteunit/pages.py:63-112 | under that configuration a fresh generator yields a sample on every call: the counterpart of `ShortPacketOverrun` |
| `Pages.NoPacketRun` | remoteunit/pages.py:105-108 | with no packet arriving, n calls play `new[x .. x+n)` in order |
| `Pages.ShortPacketOverrun` | remoteunit/pages.py:105-112 | a packet shorter than `totDataPoints` is played once, then the next call raises `IndexError` and ends the generator |
| `Pages.BasePage.constructor` | remoteunit/pages.py:18-31 | a page holds the shared buffers and `totDataPoints = 120` |
| `Pages.SampleExtractor.constructor` | remoteunit/pages.py:63-75 | a fresh generator starts with x = 0, no backlog, unplotted = 0 |
| `Pages.SampleExtractor.Next` | remoteunit/pages.py:77-112 | the yield, the new locals and the new flags are `Resume`'s; the samples are untouched |
| `RemoteMain.InitialSamples` | remoteunit/main.py:86-89 | one entry per signal, each with `new` and `old` of `PACKET_SIZES[signal]` zeros |
| `RemoteMain.InitialNewData` | remoteunit/main.py:91 | one entry per signal, all False |
| `RemoteMain.InitialBuffersShaped` | remoteunit/main.py:86-91 | the initial buffers hold each signal's configured packet size |
| `RemoteMain.InitialEcgPlaybackOverruns` | remoteunit/main.py:86-89 | before any ECG packet, the ECG generator plays the zeros once, then raises `IndexError` when the packet is shorter than the 120-point plot |
| `RemoteMain.ReceiveKeepsPlayable` | remoteunit/communication.py:77-86 | a message of two bytes per configured sample of its signal keeps a playable configuration playable, so the no-raise result survives arriving messages |
| `RemoteMain.NotificationLostBetweenCalls` | remoteunit/pages.py:104 | a packet arriving between a packet-noticing call and the next call is flagged, then unflagged by that call with nothing left owed |
| `RemoteMain.AfterNext` | remoteunit/main.py:41-57 | raises with no change when `currentPage` is no index; otherwise page+1, next disabled iff the result is ≥ len−1 (else unchanged), prev enabled when the result is > 0 (else unchanged), raises iff the new page is no index |
| `RemoteMain.AfterPrev` | remoteunit/main.py:59-75 | raises with no change when `currentPage` is no index; otherwise page−1, next always enabled, prev disabled iff the result is 0 (else unchanged), raises iff the new page is no index |
| `RemoteMain.ClicksStayInBounds` | remoteunit/main.py:106-107 | once the page is an index and each enabled button leads to a page, any series of clicks keeps that and never raises |
| `RemoteMain.StartupNotInBounds` | remoteunit/main.py:81 | at startup the prev button is enabled on page 0, so the bound is not guarded yet |
| `RemoteMain.FirstNextBringsInBounds` | remoteunit/main.py:41-53 | a first click on next gives page 1 with next disabled, and from then on every click series stays in bounds |
| `RemoteMain.PrevAtStartupLeavesBounds` | remoteunit/main.py:59-75 | prev at startup goes to pages −1 and −2 without error, the third click raises at −3, and every click after that raises and changes nothing |
| `RemoteMain.StuckOutOfBounds` | remoteunit/main.py:64-65 | at a page that is no index, with both buttons enabled, every click raises and changes nothing |
| `RemoteMain.Startup` | remoteunit/main.py:81-95 | the shared buffers start as the initial dictionaries; the manager holds them with the configured prefix; navigation starts on page 0 |
| `RemoteMain.Window.constructor` | remoteunit/main.py:81 | `currentPage = 0`, both buttons enabled |
| `RemoteMain.Window.NextPage` | remoteunit/main.py:41-57 | the new navigation state and the raise are `AfterNext`'s |
| `RemoteMain.Window.PrevPage` | remoteunit/main.py:59-75 | the new navigation state and the raise are `AfterPrev`'s |

## Left out

- Concurrency: `_onDataMessage` runs on the MQTT network thread and the generator runs on
  the Tk loop. The model takes one whole handler call or one whole generator call at a time.
  Interleavings inside a call are not modelled.
- `PACKET_SIZES`, `FRAMERATE_PLOT` and `PERIOD_PLOT` (remoteunit/settings.py:42,45-47) use
  float division and truncation. Packet sizes are a map parameter of the model instead.
  `fsample` and `fpacket` are kept in the table as plain reals and are not used.
- `OverlaySizes`: `int(props['overlay'])` is modelled as the integer `overlay` itself. The
  configured overlaps are integers, so the float truncation `int` would apply to a float
  overlap is not modelled.
- InitialSamples: requires every signal of the table to have a packet size. This always holds
  in the source, because `PACKET_SIZES` is derived from the same table. So the `KeyError`
  that main.py:87 would otherwise raise is not modelled.
- `cfg.SIGNED_BIOSIGNALS` is not defined in remoteunit/settings.py. It is a set parameter.
- The `print` calls, including the hex dump in `payloadToList` and the warnings inside the
  generator, are I/O and are left out.
- The MQTT client wiring is left out: `MQTTManager.__init__` apart from storing the two
  dictionaries, `_onConnect`, `_do_subscriptions`, `_sendStartupData`, `_onConfigMessage`,
  JSON encoding and the broker connection. These are library calls and I/O.
- What the MQTT library does with an exception raised by `_onDataMessage` is not modelled.
  The network thread that delivers messages is started at remoteunit/main.py:132 and is
  library code. The model only says that `_onDataMessage` raises `KeyError` on an unknown
  signal and changes nothing.
- GUI code is left out: Tk frames, `_makePage`'s widgets, `pageframe.destroy()`,
  `Page1`/`Page2`, `BasePage.animate`/`stop`, screens.py, and matplotlib and numpy. Only the
  index check of `screens[currentPage]` in `stop`/`build` is modelled. `stop` can only fail
  on the index, because every page at a valid index has been built before it is stopped.
- Page construction at remoteunit/main.py:110-112 passes three arguments to the
  two-parameter `BasePage.__init__` (remoteunit/pages.py:18-20). This is GUI setup and is not
  modelled. The pages are built directly from the shared buffers.
- The acquisition firmware (proximalunit/src/*.cpp) is sensor I/O, task creation and
  Bluetooth output. It is not part of this model.
