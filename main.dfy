/** The remote unit's top level (remoteunit/main.py): the shared buffers it starts with
    and the page navigation driven by the two footer buttons. */
module RemoteMain {
  import opened Python
  import opened Shared
  import Settings
  import Communication
  import Pages

  /** `[0 for _ in range(n)]` */
  function Zeros(n: int): (z: seq<int>)
    ensures |z| == if n < 0 then 0 else n
    ensures forall i :: 0 <= i < |z| ==> z[i] == 0
  {
    if n <= 0 then [] else [0] + Zeros(n - 1)
  }

  /** The `samples` dictionary main.py starts with: for every signal of the table, a `new`
      and an `old` packet of `PACKET_SIZES[signal]` zeros. */
  function InitialSamples(t: Settings.Table, packetSizes: map<string, int>): (m: map<string, Packets>)
    requires Settings.KeySet(t) <= packetSizes.Keys
    ensures m.Keys == Settings.KeySet(t)
    ensures forall s :: s in m ==>
              |m[s].latest| == |m[s].previous| == (if packetSizes[s] < 0 then 0 else packetSizes[s])
    ensures forall s, i :: s in m && 0 <= i < |m[s].latest| ==> m[s].latest[i] == 0 && m[s].previous[i] == 0
  {
    map s | s in Settings.KeySet(t) :: Packets(Zeros(packetSizes[s]), Zeros(packetSizes[s]))
  }

  /** The `newData` dictionary main.py starts with: no packet has arrived for any signal. */
  function InitialNewData(t: Settings.Table): (m: map<string, bool>)
    ensures m.Keys == Settings.KeySet(t)
    ensures forall s :: s in m ==> !m[s]
  {
    map s | s in Settings.KeySet(t) :: false
  }

  function InitialBuffers(t: Settings.Table, packetSizes: map<string, int>): Buffers
    requires Settings.KeySet(t) <= packetSizes.Keys
  {
    Buffers(InitialSamples(t, packetSizes), InitialNewData(t))
  }

  /** The initial buffers hold every signal's configured packet size, so the handler keeps
      them that way (`Communication.ReceiveKeepsShape`). */
  lemma InitialBuffersShaped(t: Settings.Table, packetSizes: map<string, int>)
    requires Settings.KeySet(t) <= packetSizes.Keys
    requires forall s :: s in packetSizes ==> packetSizes[s] >= 0
    ensures Shaped(InitialBuffers(t, packetSizes), packetSizes)
  {
  }

  /** Until the first ECG packet arrives, the ECG plot plays the initial packet of zeros
      once; with a packet shorter than the plot (the configured ECG packet holds
      `int(10 / 0.5) = 20` samples, the plot 120), the call after that raises `IndexError`. */
  lemma InitialEcgPlaybackOverruns(packetSizes: map<string, int>)
    requires Settings.KeySet(Settings.BIOSIGNALS) <= packetSizes.Keys
    requires "ECG" in packetSizes && 0 <= packetSizes["ECG"] < 120
    ensures var b := InitialBuffers(Settings.BIOSIGNALS, packetSizes);
      var env := Pages.Env("ECG", packetSizes, Settings.OVERLAY_SIZES, 120);
      Pages.Run(env, Pages.START, b.samples, b.newData, packetSizes["ECG"] + 1) ==
        Pages.Trace(Pages.Samples(Zeros(packetSizes["ECG"])) + [Pages.Raised(Pages.IndexError)], Pages.ENDED, b.newData)
  {
    var b := InitialBuffers(Settings.BIOSIGNALS, packetSizes);
    assert "ECG" == Settings.BIOSIGNALS[0].0;
    assert "ECG" in Settings.KeySet(Settings.BIOSIGNALS);
    var env := Pages.Env("ECG", packetSizes, Settings.OVERLAY_SIZES, 120);
    Pages.ShortPacketOverrun(env, b.samples, b.newData);
    assert b.samples["ECG"].latest == Zeros(packetSizes["ECG"]);
  }

  /** A message whose payload carries two bytes per configured sample of its signal keeps
      a playable configuration playable, so the generator's calls never raise
      (`Pages.StepNeverRaises`) however such messages interleave with them. */
  lemma ReceiveKeepsPlayable(env: Pages.Env, b: Buffers, prefix: string, topic: string,
                             payload: seq<Communication.Byte>, signedSignals: set<string>)
    requires Pages.Playable(env, b.samples, b.newData)
    requires Communication.SignalName(topic, prefix) in env.packetSizes
    requires |payload| == 2 * env.packetSizes[Communication.SignalName(topic, prefix)]
    ensures var r := Communication.Receive(b, prefix, topic, payload, signedSignals);
      r.Some? ==> Pages.Playable(env, r.value.samples, r.value.newData)
  {
    Communication.ReceiveKeepsShape(b, prefix, topic, payload, signedSignals, env.packetSizes);
  }

  /** A packet for the played signal that arrives after a call has seen the previous
      packet, and before the next call, has its flag lowered by that next call without
      ever being handled as new: no call is left that would lower it again. */
  lemma NotificationLostBetweenCalls(env: Pages.Env, g: Pages.Gen, b: Buffers, prefix: string, topic: string,
                                     payload: seq<Communication.Byte>, signedSignals: set<string>)
    requires !g.finished && env.signal in b.samples
    requires Pages.Resume(env, g, b.samples, b.newData).gen.clearPending
    requires Communication.SignalName(topic, prefix) == env.signal
    ensures var o := Pages.Resume(env, g, b.samples, b.newData);
      var r := Communication.Receive(Buffers(b.samples, o.newData), prefix, topic, payload, signedSignals);
      r.Some? && r.value.newData[env.signal] &&
      var o2 := Pages.Resume(env, o.gen, r.value.samples, r.value.newData);
      !o2.newData[env.signal] && !o2.gen.clearPending
  {
    var o := Pages.Resume(env, g, b.samples, b.newData);
    var r := Communication.Receive(Buffers(b.samples, o.newData), prefix, topic, payload, signedSignals);
    Pages.FlagLoweredOnNextCall(env, g, b.samples, b.newData, r.value.samples, r.value.newData);
  }

  /** The part of the GUI state that page navigation changes: `currentPage` and whether
      the next and previous buttons are enabled. */
  datatype Nav = Nav(currentPage: int, nextEnabled: bool, prevEnabled: bool)

  /** `len(screens)` */
  const SCREENS: nat := 2

  /** At startup `currentPage = 0` and both buttons are in their default, enabled state. */
  const STARTUP: Nav := Nav(0, true, true)

  /** The state after a navigation step and whether it raised `IndexError`. */
  datatype Turn = Turn(nav: Nav, raised: bool)

  /** `nextPage()`: stopping `screens[currentPage]` raises when it is no list index, and
      then nothing changes; otherwise the page index moves on and the buttons follow, and
      building the page at the new index may raise. */
  function AfterNext(n: Nav, screens: nat): (r: Turn)
    ensures !IndexOk(screens, n.currentPage) ==> r == Turn(n, true)
    ensures IndexOk(screens, n.currentPage) ==>
              r.nav.currentPage == n.currentPage + 1 &&
              r.nav.nextEnabled == (n.nextEnabled && r.nav.currentPage < screens - 1) &&
              r.nav.prevEnabled == (n.prevEnabled || r.nav.currentPage > 0) &&
              r.raised == !IndexOk(screens, r.nav.currentPage)
  {
    if !IndexOk(screens, n.currentPage) then Turn(n, true)
    else
      var page := n.currentPage + 1;
      var next := if page >= screens - 1 then false else n.nextEnabled;
      var prev := if page > 0 then true else n.prevEnabled;
      Turn(Nav(page, next, prev), !IndexOk(screens, page))
  }

  /** `prevPage()`: as `nextPage`, backwards; it always leaves the next button enabled. */
  function AfterPrev(n: Nav, screens: nat): (r: Turn)
    ensures !IndexOk(screens, n.currentPage) ==> r == Turn(n, true)
    ensures IndexOk(screens, n.currentPage) ==>
              r.nav.currentPage == n.currentPage - 1 &&
              r.nav.nextEnabled &&
              r.nav.prevEnabled == (n.prevEnabled && r.nav.currentPage != 0) &&
              r.raised == !IndexOk(screens, r.nav.currentPage)
  {
    if !IndexOk(screens, n.currentPage) then Turn(n, true)
    else
      var page := n.currentPage - 1;
      var prev := if page == 0 then false else n.prevEnabled;
      var next := if page < screens then true else n.nextEnabled;
      Turn(Nav(page, next, prev), !IndexOk(screens, page))
  }

  /** A click on the next (`onNext`) or previous button: a disabled button runs nothing. */
  function Click(n: Nav, screens: nat, onNext: bool): Turn {
    if onNext then (if n.nextEnabled then AfterNext(n, screens) else Turn(n, false))
    else (if n.prevEnabled then AfterPrev(n, screens) else Turn(n, false))
  }

  /** A series of clicks; `raised` tells whether any of them raised. */
  function Clicks(n: Nav, screens: nat, buttons: seq<bool>): Turn
    decreases |buttons|
  {
    if buttons == [] then Turn(n, false)
    else
      var first := Click(n, screens, buttons[0]);
      var rest := Clicks(first.nav, screens, buttons[1..]);
      Turn(rest.nav, first.raised || rest.raised)
  }

  /** The page index names a page and each enabled button leads to one. */
  ghost predicate InBounds(n: Nav, screens: nat) {
    0 <= n.currentPage < screens &&
    (n.nextEnabled ==> n.currentPage < screens - 1) &&
    (n.prevEnabled ==> n.currentPage > 0)
  }

  /** Once in bounds, the navigation stays in bounds and never raises, whatever is clicked. */
  lemma {:induction false} ClicksStayInBounds(n: Nav, screens: nat, buttons: seq<bool>)
    requires InBounds(n, screens)
    ensures InBounds(Clicks(n, screens, buttons).nav, screens) && !Clicks(n, screens, buttons).raised
    decreases |buttons|
  {
    if buttons != [] {
      var first := Click(n, screens, buttons[0]);
      assert InBounds(first.nav, screens) && !first.raised;
      ClicksStayInBounds(first.nav, screens, buttons[1..]);
    }
  }

  /** The startup state is not in bounds: nothing disables the previous button at page 0. */
  lemma StartupNotInBounds()
    ensures !InBounds(STARTUP, SCREENS)
  {
  }

  /** A first click on next brings the two-page navigation in bounds for good. */
  lemma FirstNextBringsInBounds(buttons: seq<bool>)
    ensures Click(STARTUP, SCREENS, true) == Turn(Nav(1, false, true), false)
    ensures InBounds(Clicks(Click(STARTUP, SCREENS, true).nav, SCREENS, buttons).nav, SCREENS)
  {
    ClicksStayInBounds(Nav(1, false, true), SCREENS, buttons);
  }

  /** Clicking previous at startup walks below page 0: Python's negative indexes show the
      last page, then the first; the third click raises, and from there every click raises
      and changes nothing. */
  lemma PrevAtStartupLeavesBounds(buttons: seq<bool>)
    ensures Click(STARTUP, SCREENS, false) == Turn(Nav(-1, true, true), false)
    ensures Clicks(STARTUP, SCREENS, [false, false]) == Turn(Nav(-2, true, true), false)
    ensures Clicks(STARTUP, SCREENS, [false, false, false]) == Turn(Nav(-3, true, true), true)
    ensures buttons != [] ==> Clicks(Nav(-3, true, true), SCREENS, buttons) == Turn(Nav(-3, true, true), true)
  {
    assert [false, false][1..] == [false];
    assert [false, false, false][1..] == [false, false];
    StuckOutOfBounds(Nav(-3, true, true), SCREENS, buttons);
  }

  /** At an index that names no page, with both buttons enabled, every click raises
      and changes nothing. */
  lemma {:induction false} StuckOutOfBounds(n: Nav, screens: nat, buttons: seq<bool>)
    requires !IndexOk(screens, n.currentPage) && n.nextEnabled && n.prevEnabled
    ensures Clicks(n, screens, buttons) == Turn(n, buttons != [])
    decreases |buttons|
  {
    if buttons != [] {
      StuckOutOfBounds(n, screens, buttons[1..]);
    }
  }

  /** main.py's module-level start: the shared buffers, the MQTT manager that writes them
      and the navigation globals. */
  method Startup(t: Settings.Table, packetSizes: map<string, int>, signedSignals: set<string>)
    returns (data: SharedData, mqtt: Communication.MQTTManager, window: Window)
    requires Settings.KeySet(t) <= packetSizes.Keys
    ensures fresh(data) && fresh(mqtt) && fresh(window)
    ensures data.Snapshot() == InitialBuffers(t, packetSizes)
    ensures mqtt.data == data && mqtt.prefix == Settings.MQTT_TOPIC_PREFIX && mqtt.signedSignals == signedSignals
    ensures window.screens == SCREENS && window.State() == STARTUP
  {
    data := new SharedData(InitialBuffers(t, packetSizes));
    mqtt := new Communication.MQTTManager(data, Settings.MQTT_TOPIC_PREFIX, signedSignals);
    window := new Window(SCREENS);
  }

  /** main.py's navigation globals. */
  class Window {
    const screens: nat
    var currentPage: int
    var nextEnabled: bool
    var prevEnabled: bool

    function State(): Nav
      reads this
    {
      Nav(currentPage, nextEnabled, prevEnabled)
    }

    constructor (screens: nat)
      ensures this.screens == screens && State() == STARTUP
    {
      this.screens := screens;
      currentPage, nextEnabled, prevEnabled := 0, true, true;
    }

    /** `nextPage()`; `raised` tells whether it raised `IndexError`. */
    method NextPage() returns (raised: bool)
      modifies this
      ensures Turn(State(), raised) == AfterNext(old(State()), screens)
    {
      if !IndexOk(screens, currentPage) {
        return true;
      }
      currentPage := currentPage + 1;
      if currentPage >= screens - 1 {
        nextEnabled := false;
      }
      if currentPage > 0 {
        prevEnabled := true;
      }
      raised := !IndexOk(screens, currentPage);
    }

    /** `prevPage()`; `raised` tells whether it raised `IndexError`. */
    method PrevPage() returns (raised: bool)
      modifies this
      ensures Turn(State(), raised) == AfterPrev(old(State()), screens)
    {
      if !IndexOk(screens, currentPage) {
        return true;
      }
      currentPage := currentPage - 1;
      if currentPage == 0 {
        prevEnabled := false;
      }
      if currentPage < screens {
        nextEnabled := true;
      }
      raised := !IndexOk(screens, currentPage);
    }
  }
}
