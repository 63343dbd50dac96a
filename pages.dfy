/** The playback side of the GUI pages (remoteunit/pages.py): the generator
    `BasePage.sampleExtractor`, which hands the plot one sample per call, switching from
    the `old` to the `new` packet of the shared buffers with overlap-aware index arithmetic. */
module Pages {
  import opened Python
  import opened Shared

  datatype Error = KeyError | IndexError | StopIteration

  /** What one `next()` on the generator produces: a sample, or the exception it raises. */
  datatype Yield = Sample(value: int) | Raised(error: Error)

  /** A suspended generator: its locals `x`, `leftovers` and `unplottedSamples`; whether
      the statement `self.newData[signalName] = False` that follows the yield it stopped at
      is still to run when it resumes; and whether it has ended.

      The other statements that follow a yield only update locals, which nothing outside
      the generator can observe before it resumes, so they are applied at the yield. */
  datatype Gen = Gen(x: int, leftovers: bool, unplotted: int, clearPending: bool, finished: bool)

  /** A generator that has not run yet: its first call starts from `x = 0`, `leftovers = False`,
      `unplottedSamples = 0`. */
  const START: Gen := Gen(0, false, 0, false, false)

  /** A generator that raised, whose further calls raise `StopIteration`. */
  const ENDED: Gen := Gen(0, false, 0, false, true)

  /** What the generator reads besides its locals: the signal it plays, `cfg.PACKET_SIZES`,
      `cfg.OVERLAY_SIZES` and the page's `totDataPoints`. */
  datatype Env = Env(signal: string, packetSizes: map<string, int>, overlaySizes: map<string, int>, totDataPoints: int)

  /** One call's result, the suspended generator after it and the `newData` dictionary after it
      (the call writes no other shared state). */
  datatype Outcome = Outcome(out: Yield, gen: Gen, newData: map<string, bool>)

  /** `self.samples[s]['new'][i]` when `fromNew`, else `self.samples[s]['old'][i]`. */
  function Fetch(samples: map<string, Packets>, s: string, fromNew: bool, i: int): (y: Yield)
    ensures y.Raised? ==> y.error != StopIteration
    ensures s !in samples ==> y == Raised(KeyError)
    ensures s in samples ==>
      var xs := if fromNew then samples[s].latest else samples[s].previous;
      (!IndexOk(|xs|, i) ==> y == Raised(IndexError)) &&
      (0 <= i < |xs| ==> y == Sample(xs[i])) &&
      (-|xs| <= i < 0 ==> y == Sample(xs[|xs| + i]))
  {
    if s !in samples then Raised(KeyError)
    else match Get(if fromNew then samples[s].latest else samples[s].previous, i)
      case None => Raised(IndexError)
      case Some(v) => Sample(v)
  }

  /** The generator yields `y` and suspends as `g`, unless reading `y` raised. */
  function Emit(y: Yield, g: Gen, newData: map<string, bool>): Outcome {
    if y.Raised? then Outcome(y, ENDED, newData) else Outcome(y, g, newData)
  }

  /** The invariant of the generator's locals: `x` never goes negative, and while the
      backlog of the old packet is consumed, `x` and `unplottedSamples` add up to the
      packet size and at least the overlap is still unplotted. */
  ghost predicate Inv(env: Env, g: Gen) {
    g.x >= 0 &&
    (g.leftovers && !g.finished ==>
      env.signal in env.packetSizes && env.signal in env.overlaySizes &&
      g.x + g.unplotted == env.packetSizes[env.signal] &&
      g.unplotted >= env.overlaySizes[env.signal])
  }

  /** One `next()` on the generator, against the current shared buffers. */
  function Resume(env: Env, g: Gen, samples: map<string, Packets>, newData: map<string, bool>): (o: Outcome)
    ensures Inv(env, g) ==> Inv(env, o.gen)
    ensures g.finished ==> o == Outcome(Raised(StopIteration), g, newData)
    ensures !g.clearPending ==> o.newData == newData
    ensures g.clearPending && !g.finished ==> o.newData == newData[env.signal := false]
    ensures !g.finished && o.gen.clearPending ==>
              !g.leftovers && !g.clearPending && !o.gen.finished &&
              env.signal in newData && newData[env.signal] && o.out.Sample?
    ensures o.out.Raised? ==> o.gen.finished
  {
    var s := env.signal;
    if g.finished then Outcome(Raised(StopIteration), g, newData)
    else
      var nd := if g.clearPending then newData[s := false] else newData;
      var h := g.(clearPending := false);
      if s !in nd then Outcome(Raised(KeyError), ENDED, nd)
      else if h.leftovers then
        if s !in env.overlaySizes then Outcome(Raised(KeyError), ENDED, nd)
        else if h.unplotted > env.overlaySizes[s] then
          Emit(Fetch(samples, s, false, h.x), h.(x := h.x + 1, unplotted := h.unplotted - 1), nd)
        else
          Emit(Fetch(samples, s, true, 0), h.(x := 1, leftovers := false), nd)
      else if nd[s] then
        if s !in env.packetSizes || s !in env.overlaySizes then Outcome(Raised(KeyError), ENDED, nd)
        else
          var unplotted := env.packetSizes[s] - h.x;
          var overlay := env.overlaySizes[s];
          if unplotted > overlay then
            Emit(Fetch(samples, s, false, h.x), Gen(h.x + 1, true, unplotted - 1, true, false), nd)
          else
            Emit(Fetch(samples, s, true, overlay - unplotted), Gen(overlay - unplotted + 1, false, unplotted, true, false), nd)
      else if h.x < env.totDataPoints - 1 then
        Emit(Fetch(samples, s, true, h.x), h.(x := h.x + 1), nd)
      else
        Emit(Fetch(samples, s, true, h.x), h.(x := 0), nd)
  }

  /** The outputs of a run of calls that each yielded the next element of `vs`. */
  function Samples(vs: seq<int>): (ys: seq<Yield>)
    ensures |ys| == |vs| && forall i :: 0 <= i < |vs| ==> ys[i] == Sample(vs[i])
  {
    seq(|vs|, i requires 0 <= i < |vs| => Sample(vs[i]))
  }

  /** The outputs, final generator and final flags of `n` consecutive calls during which
      no message arrives. */
  datatype Trace = Trace(outs: seq<Yield>, gen: Gen, newData: map<string, bool>)

  function Run(env: Env, g: Gen, samples: map<string, Packets>, newData: map<string, bool>, n: nat): (t: Trace)
    ensures |t.outs| == n
    decreases n
  {
    if n == 0 then Trace([], g, newData)
    else
      var o := Resume(env, g, samples, newData);
      var t := Run(env, o.gen, samples, o.newData, n - 1);
      Trace([o.out] + t.outs, t.gen, t.newData)
  }

  /** The `newData` a generator sees once the flag-lowering statement it owes has run. */
  function Settled(g: Gen, s: string, newData: map<string, bool>): map<string, bool> {
    if g.clearPending then newData[s := false] else newData
  }

  /** No packet flagged, not draining a backlog: the call plays `new[x]` and moves `x` on
      by one, or back to 0 once `x` has reached `totDataPoints - 1`; the flags stay. */
  lemma NoPacketStep(env: Env, g: Gen, samples: map<string, Packets>, newData: map<string, bool>)
    requires !g.finished && !g.leftovers && !g.clearPending
    requires env.signal in newData && !newData[env.signal]
    requires env.signal in samples && 0 <= g.x < |samples[env.signal].latest|
    ensures Resume(env, g, samples, newData) ==
              Outcome(Sample(samples[env.signal].latest[g.x]),
                      g.(x := if g.x < env.totDataPoints - 1 then g.x + 1 else 0), newData)
  {
  }

  /** A flagged packet seen outside a backlog. When more than the overlap of the old packet
      is still unplotted (the packet came early) the call plays `old[x]` and starts a backlog
      with `unplottedSamples = PACKET_SIZE - x - 1`; otherwise it jumps to the index of the
      new packet that continues the old one, which is never negative. Either way the flag
      is still raised after the call, and lowering it is owed to the next call. */
  lemma PacketArrivalStep(env: Env, g: Gen, samples: map<string, Packets>, newData: map<string, bool>)
    requires !g.finished && !g.leftovers && !g.clearPending && g.x >= 0
    requires env.signal in newData && newData[env.signal]
    requires env.signal in env.packetSizes && env.signal in env.overlaySizes && env.signal in samples
    ensures var o := Resume(env, g, samples, newData);
      var unplotted := env.packetSizes[env.signal] - g.x;
      var overlay := env.overlaySizes[env.signal];
      var p := samples[env.signal];
      o.newData == newData &&
      (unplotted > overlay && g.x < |p.previous| ==>
        o == Outcome(Sample(p.previous[g.x]), Gen(g.x + 1, true, unplotted - 1, true, false), newData)) &&
      (unplotted <= overlay ==> 0 <= overlay - unplotted) &&
      (unplotted <= overlay && overlay - unplotted < |p.latest| ==>
        o == Outcome(Sample(p.latest[overlay - unplotted]), Gen(overlay - unplotted + 1, false, unplotted, true, false), newData))
  {
  }

  /** The call after one that saw a packet lowers that signal's flag first, whatever the
      buffers and flags have become in between. */
  lemma FlagLoweredOnNextCall(env: Env, g: Gen, samples: map<string, Packets>, newData: map<string, bool>,
                              samples': map<string, Packets>, newData': map<string, bool>)
    requires !g.finished && Resume(env, g, samples, newData).gen.clearPending
    ensures Resume(env, Resume(env, g, samples, newData).gen, samples', newData').newData == newData'[env.signal := false]
  {
  }

  /** A backlog step plays the old packet at `x` and takes exactly one sample off
      `unplottedSamples`; backlog steps never lower a flag. */
  lemma BacklogStep(env: Env, g: Gen, samples: map<string, Packets>, newData: map<string, bool>)
    requires !g.finished && g.leftovers && !g.clearPending
    requires env.signal in newData && env.signal in env.overlaySizes && g.unplotted > env.overlaySizes[env.signal]
    requires env.signal in samples && 0 <= g.x < |samples[env.signal].previous|
    ensures Resume(env, g, samples, newData) ==
              Outcome(Sample(samples[env.signal].previous[g.x]), g.(x := g.x + 1, unplotted := g.unplotted - 1), newData)
  {
  }

  /** The backlog ends once no more than the overlap is unplotted: the call plays `new[0]`,
      leaves `x = 1` and leaves backlog mode. */
  lemma BacklogEndStep(env: Env, g: Gen, samples: map<string, Packets>, newData: map<string, bool>)
    requires !g.finished && g.leftovers && !g.clearPending
    requires env.signal in newData && env.signal in env.overlaySizes && g.unplotted <= env.overlaySizes[env.signal]
    requires env.signal in samples && |samples[env.signal].latest| > 0
    ensures Resume(env, g, samples, newData) ==
              Outcome(Sample(samples[env.signal].latest[0]), g.(x := 1, leftovers := false), newData)
  {
  }

  /** One call inside a backlog, whether or not a flag lowering is owed: it plays `old[x]`
      while more than the overlap is unplotted, and otherwise `new[0]`, ending the backlog. */
  lemma BacklogCall(env: Env, g: Gen, samples: map<string, Packets>, newData: map<string, bool>)
    requires !g.finished && g.leftovers && g.x >= 0
    requires env.signal in env.overlaySizes && g.unplotted >= env.overlaySizes[env.signal]
    requires env.signal in newData || g.clearPending
    requires env.signal in samples && |samples[env.signal].latest| > 0
    requires g.x + (g.unplotted - env.overlaySizes[env.signal]) <= |samples[env.signal].previous|
    ensures var p := samples[env.signal];
      var nd := Settled(g, env.signal, newData);
      Resume(env, g, samples, newData) ==
        if g.unplotted == env.overlaySizes[env.signal] then
          Outcome(Sample(p.latest[0]), Gen(1, false, g.unplotted, false, false), nd)
        else
          Outcome(Sample(p.previous[g.x]), Gen(g.x + 1, true, g.unplotted - 1, false, false), nd)
  {
  }

  /** Draining a backlog to its end: the calls play the old packet from `x` up to where the
      overlap begins, then `new[0]`, and leave backlog mode at `x = 1`. */
  lemma {:induction false} DrainBacklog(env: Env, g: Gen, samples: map<string, Packets>, newData: map<string, bool>)
    requires !g.finished && g.leftovers && g.x >= 0
    requires env.signal in env.overlaySizes && g.unplotted >= env.overlaySizes[env.signal]
    requires env.signal in newData || g.clearPending
    requires env.signal in samples && |samples[env.signal].latest| > 0
    requires g.x + (g.unplotted - env.overlaySizes[env.signal]) <= |samples[env.signal].previous|
    ensures var k := g.unplotted - env.overlaySizes[env.signal];
      var p := samples[env.signal];
      Run(env, g, samples, newData, k + 1) ==
        Trace(Samples(p.previous[g.x..g.x + k]) + [Sample(p.latest[0])],
              Gen(1, false, env.overlaySizes[env.signal], false, false),
              Settled(g, env.signal, newData))
    decreases g.unplotted - env.overlaySizes[env.signal]
  {
    var k := g.unplotted - env.overlaySizes[env.signal];
    if k == 0 {
      BacklogLastCall(env, g, samples, newData);
    } else {
      DrainBacklog(env, Gen(g.x + 1, true, g.unplotted - 1, false, false), samples, Settled(g, env.signal, newData));
      BacklogFirstCall(env, g, samples, newData);
    }
  }

  /** A backlog with nothing left before the overlap ends in one call. */
  lemma BacklogLastCall(env: Env, g: Gen, samples: map<string, Packets>, newData: map<string, bool>)
    requires !g.finished && g.leftovers && g.x >= 0
    requires env.signal in env.overlaySizes && g.unplotted == env.overlaySizes[env.signal]
    requires env.signal in newData || g.clearPending
    requires env.signal in samples && |samples[env.signal].latest| > 0
    requires g.x <= |samples[env.signal].previous|
    ensures var p := samples[env.signal];
      Run(env, g, samples, newData, 1) ==
        Trace(Samples(p.previous[g.x..g.x]) + [Sample(p.latest[0])],
              Gen(1, false, env.overlaySizes[env.signal], false, false),
              Settled(g, env.signal, newData))
  {
    BacklogCall(env, g, samples, newData);
    RunCons(env, g, samples, newData, 0);
    assert samples[env.signal].previous[g.x..g.x] == [];
  }

  /** A backlog call followed by the rest of the backlog drains the whole backlog. */
  lemma BacklogFirstCall(env: Env, g: Gen, samples: map<string, Packets>, newData: map<string, bool>)
    requires !g.finished && g.leftovers && g.x >= 0
    requires env.signal in env.overlaySizes && g.unplotted > env.overlaySizes[env.signal]
    requires env.signal in newData || g.clearPending
    requires env.signal in samples && |samples[env.signal].latest| > 0
    requires g.x + (g.unplotted - env.overlaySizes[env.signal]) <= |samples[env.signal].previous|
    requires var k := g.unplotted - env.overlaySizes[env.signal];
      var p := samples[env.signal];
      var nd := Settled(g, env.signal, newData);
      Run(env, Gen(g.x + 1, true, g.unplotted - 1, false, false), samples, nd, k) ==
        Trace(Samples(p.previous[g.x + 1..g.x + k]) + [Sample(p.latest[0])],
              Gen(1, false, env.overlaySizes[env.signal], false, false), nd)
    ensures var k := g.unplotted - env.overlaySizes[env.signal];
      var p := samples[env.signal];
      Run(env, g, samples, newData, k + 1) ==
        Trace(Samples(p.previous[g.x..g.x + k]) + [Sample(p.latest[0])],
              Gen(1, false, env.overlaySizes[env.signal], false, false),
              Settled(g, env.signal, newData))
  {
    var k := g.unplotted - env.overlaySizes[env.signal];
    var p := samples[env.signal];
    BacklogCall(env, g, samples, newData);
    RunCons(env, g, samples, newData, k);
    SamplesFrom(p.previous, g.x, g.x + k, [Sample(p.latest[0])]);
  }

  /** The call that notices an early packet plays `old[x]` and starts the backlog; the
      calls after it run on from there. */
  lemma EarlyPacketFirstCall(env: Env, g: Gen, samples: map<string, Packets>, newData: map<string, bool>)
    requires !g.finished && !g.leftovers && !g.clearPending && g.x >= 0
    requires env.signal in newData && newData[env.signal]
    requires env.signal in env.packetSizes && env.signal in env.overlaySizes && env.signal in samples
    requires env.packetSizes[env.signal] - g.x > env.overlaySizes[env.signal]
    requires g.x < |samples[env.signal].previous|
    ensures var size := env.packetSizes[env.signal];
      var next := Gen(g.x + 1, true, size - g.x - 1, true, false);
      var t := Run(env, next, samples, newData, size - env.overlaySizes[env.signal] - g.x);
      Run(env, g, samples, newData, size - env.overlaySizes[env.signal] - g.x + 1) ==
        Trace([Sample(samples[env.signal].previous[g.x])] + t.outs, t.gen, t.newData)
  {
    PacketArrivalStep(env, g, samples, newData);
    RunCons(env, g, samples, newData, env.packetSizes[env.signal] - env.overlaySizes[env.signal] - g.x);
  }

  /** The backlog an early packet starts plays the old packet from `x + 1` up to where the
      overlap begins, then `new[0]`, and the flag is lowered on its first call. */
  lemma EarlyPacketBacklog(env: Env, g: Gen, samples: map<string, Packets>, newData: map<string, bool>)
    requires g.x >= 0 && env.signal in env.packetSizes && env.signal in env.overlaySizes && env.signal in samples
    requires env.packetSizes[env.signal] - g.x > env.overlaySizes[env.signal] >= 0
    requires |samples[env.signal].previous| == env.packetSizes[env.signal] && |samples[env.signal].latest| > 0
    ensures var size := env.packetSizes[env.signal];
      var overlay := env.overlaySizes[env.signal];
      var p := samples[env.signal];
      Run(env, Gen(g.x + 1, true, size - g.x - 1, true, false), samples, newData, size - overlay - g.x) ==
        Trace(Samples(p.previous[g.x + 1..size - overlay]) + [Sample(p.latest[0])],
              Gen(1, false, overlay, false, false), newData[env.signal := false])
  {
    DrainBacklog(env, Gen(g.x + 1, true, env.packetSizes[env.signal] - g.x - 1, true, false), samples, newData);
  }

  /** An early packet (more than the overlap of the old packet unplotted when it is seen):
      the generator plays the rest of the old packet up to where the overlap begins, then
      resumes at the start of the new one, lowering the flag on the way. */
  lemma EarlyPacketPlayback(env: Env, g: Gen, samples: map<string, Packets>, newData: map<string, bool>)
    requires !g.finished && !g.leftovers && !g.clearPending && g.x >= 0
    requires env.signal in newData && newData[env.signal]
    requires env.signal in env.packetSizes && env.signal in env.overlaySizes && env.signal in samples
    requires env.packetSizes[env.signal] - g.x > env.overlaySizes[env.signal] >= 0
    requires |samples[env.signal].previous| == env.packetSizes[env.signal] && |samples[env.signal].latest| > 0
    ensures var size := env.packetSizes[env.signal];
      var overlay := env.overlaySizes[env.signal];
      var p := samples[env.signal];
      Run(env, g, samples, newData, size - overlay - g.x + 1) ==
        Trace(Samples(p.previous[g.x..size - overlay]) + [Sample(p.latest[0])],
              Gen(1, false, overlay, false, false),
              newData[env.signal := false])
  {
    var p := samples[env.signal];
    EarlyPacketFirstCall(env, g, samples, newData);
    EarlyPacketBacklog(env, g, samples, newData);
    SamplesFrom(p.previous, g.x, env.packetSizes[env.signal] - env.overlaySizes[env.signal], [Sample(p.latest[0])]);
  }

  /** Playing `xs[i]` and then `xs[i + 1..j]` is playing `xs[i..j]`. */
  lemma SamplesFrom(xs: seq<int>, i: int, j: int, tail: seq<Yield>)
    requires 0 <= i < j <= |xs|
    ensures [Sample(xs[i])] + (Samples(xs[i + 1..j]) + tail) == Samples(xs[i..j]) + tail
  {
    assert xs[i..j] == [xs[i]] + xs[i + 1..j];
  }

  /** The new packet repeats, at its start, the last `overlay` samples of the old one. */
  ghost predicate Overlapping(p: Packets, size: int, overlay: int) {
    0 <= overlay <= size == |p.previous| && overlay <= |p.latest| &&
    forall j :: 0 <= j < overlay ==> p.latest[j] == p.previous[size - overlay + j]
  }

  /** When the new packet overlaps the old one, the call that notices it plays exactly the
      sample of the old packet it would have played had nothing arrived: the stream goes on
      without a gap or a repeat. */
  lemma ArrivalIsSeamless(env: Env, g: Gen, samples: map<string, Packets>, newData: map<string, bool>)
    requires !g.finished && !g.leftovers && !g.clearPending
    requires env.signal in newData && newData[env.signal]
    requires env.signal in env.packetSizes && env.signal in env.overlaySizes && env.signal in samples
    requires Overlapping(samples[env.signal], env.packetSizes[env.signal], env.overlaySizes[env.signal])
    requires 0 <= g.x < env.packetSizes[env.signal]
    ensures Resume(env, g, samples, newData).out == Sample(samples[env.signal].previous[g.x])
  {
    var s := env.signal;
    var size := env.packetSizes[s];
    var overlay := env.overlaySizes[s];
    if size - g.x <= overlay {
      var j := overlay - (size - g.x);
      assert samples[s].latest[j] == samples[s].previous[size - overlay + j];
    }
  }

  /** In a backlog of a well-shaped buffer, every read of the old packet is in bounds. */
  lemma BacklogReadsInBounds(env: Env, g: Gen, samples: map<string, Packets>, newData: map<string, bool>)
    requires Inv(env, g) && !g.finished && g.leftovers
    requires env.signal in newData || g.clearPending
    requires env.overlaySizes[env.signal] >= 0
    requires Shaped(Buffers(samples, newData), env.packetSizes) && env.signal in samples
    requires g.unplotted > env.overlaySizes[env.signal]
    ensures 0 <= g.x < env.packetSizes[env.signal] - env.overlaySizes[env.signal]
    ensures Resume(env, g, samples, newData).out == Sample(samples[env.signal].previous[g.x])
  {
  }

  /** Outside a backlog, `x` stays within the plot window: the wrap-around at
      `totDataPoints - 1` keeps it there. */
  ghost predicate InWindow(env: Env, g: Gen) {
    !g.leftovers ==> g.x <= env.totDataPoints - 1
  }

  /** A configuration under which the index arithmetic of the generator stays inside the
      packets: the signal is configured with an overlap below its packet size, a plot window
      of at least two points that no packet is shorter than, and buffers of that size. */
  ghost predicate Playable(env: Env, samples: map<string, Packets>, newData: map<string, bool>) {
    var s := env.signal;
    s in samples && s in newData && s in env.packetSizes && s in env.overlaySizes &&
    0 <= env.overlaySizes[s] < env.packetSizes[s] &&
    2 <= env.totDataPoints <= env.packetSizes[s] &&
    Shaped(Buffers(samples, newData), env.packetSizes)
  }

  /** Under such a configuration a call never raises: every read it makes, in every
      branch, is in bounds, and `x` stays within the plot window. */
  lemma StepNeverRaises(env: Env, g: Gen, samples: map<string, Packets>, newData: map<string, bool>)
    requires Playable(env, samples, newData) && Inv(env, g) && InWindow(env, g) && !g.finished
    ensures var o := Resume(env, g, samples, newData);
      o.out.Sample? && !o.gen.finished && Inv(env, o.gen) && InWindow(env, o.gen) &&
      Playable(env, samples, o.newData)
  {
  }

  /** Any number of calls from such a state, with no message arriving, all yield a
      sample. */
  lemma {:induction false} RunNeverRaises(env: Env, g: Gen, samples: map<string, Packets>, newData: map<string, bool>, n: nat)
    requires Playable(env, samples, newData) && Inv(env, g) && InWindow(env, g) && !g.finished
    ensures var t := Run(env, g, samples, newData, n);
      !t.gen.finished && Inv(env, t.gen) && InWindow(env, t.gen) &&
      forall i :: 0 <= i < n ==> t.outs[i].Sample?
    decreases n
  {
    if n > 0 {
      var o := Resume(env, g, samples, newData);
      StepNeverRaises(env, g, samples, newData);
      RunNeverRaises(env, o.gen, samples, o.newData, n - 1);
    }
  }

  /** The counterpart of `ShortPacketOverrun`: when no packet is shorter than the plot
      window, a fresh generator yields a sample on every call. */
  lemma FreshGeneratorNeverRaises(env: Env, samples: map<string, Packets>, newData: map<string, bool>, n: nat)
    requires Playable(env, samples, newData)
    ensures forall i :: 0 <= i < n ==> Run(env, START, samples, newData, n).outs[i].Sample?
  {
    RunNeverRaises(env, START, samples, newData, n);
  }

  /** With no packet arriving, the calls play the current packet in order. */
  lemma {:induction false} NoPacketRun(env: Env, g: Gen, samples: map<string, Packets>, newData: map<string, bool>, n: nat)
    requires !g.finished && !g.leftovers && !g.clearPending && g.x >= 0
    requires env.signal in newData && !newData[env.signal] && env.signal in samples
    requires g.x + n <= |samples[env.signal].latest| && g.x + n <= env.totDataPoints - 1
    ensures Run(env, g, samples, newData, n) ==
              Trace(Samples(samples[env.signal].latest[g.x..g.x + n]), g.(x := g.x + n), newData)
    decreases n
  {
    if n > 0 {
      var p := samples[env.signal];
      var next := g.(x := g.x + 1);
      assert Resume(env, g, samples, newData) == Outcome(Sample(p.latest[g.x]), next, newData);
      NoPacketRun(env, next, samples, newData, n - 1);
      assert p.latest[g.x..g.x + n] == [p.latest[g.x]] + p.latest[g.x + 1..g.x + 1 + (n - 1)];
    }
  }

  /** The wrap-around only happens after `new[totDataPoints - 1]` has been read, so it
      assumes a packet holds at least `totDataPoints` samples. When the current packet is
      shorter and no packet arrives, a fresh generator plays the packet once and the next
      call raises `IndexError`, which ends the generator. */
  lemma ShortPacketOverrun(env: Env, samples: map<string, Packets>, newData: map<string, bool>)
    requires env.signal in newData && !newData[env.signal] && env.signal in samples
    requires |samples[env.signal].latest| < env.totDataPoints
    ensures var p := samples[env.signal];
      Run(env, START, samples, newData, |p.latest| + 1) ==
        Trace(Samples(p.latest) + [Raised(IndexError)], ENDED, newData)
  {
    var p := samples[env.signal];
    var n := |p.latest|;
    NoPacketRun(env, START, samples, newData, n);
    RunSplit(env, START, samples, newData, n, 1);
    assert p.latest[0..n] == p.latest;
  }

  /** One call followed by `n` more. */
  lemma RunCons(env: Env, g: Gen, samples: map<string, Packets>, newData: map<string, bool>, n: nat)
    ensures var o := Resume(env, g, samples, newData);
      var t := Run(env, o.gen, samples, o.newData, n);
      Run(env, g, samples, newData, n + 1) == Trace([o.out] + t.outs, t.gen, t.newData)
  {
  }

  /** Running `n + m` calls is running `n` calls and then `m` from where they stopped. */
  lemma {:induction false} RunSplit(env: Env, g: Gen, samples: map<string, Packets>, newData: map<string, bool>, n: nat, m: nat)
    ensures var t := Run(env, g, samples, newData, n);
      var u := Run(env, t.gen, samples, t.newData, m);
      Run(env, g, samples, newData, n + m) == Trace(t.outs + u.outs, u.gen, u.newData)
    decreases n
  {
    if n > 0 {
      var o := Resume(env, g, samples, newData);
      RunSplit(env, o.gen, samples, o.newData, n - 1, m);
      var t := Run(env, o.gen, samples, o.newData, n - 1);
      var u := Run(env, t.gen, samples, t.newData, m);
      assert [o.out] + (t.outs + u.outs) == ([o.out] + t.outs) + u.outs;
    }
  }

  /** `BasePage.__init__`: the shared buffers and the number of points a plot shows. */
  class BasePage {
    const data: SharedData
    const totDataPoints: int
    /** `cfg.PACKET_SIZES` */
    const packetSizes: map<string, int>
    /** `cfg.OVERLAY_SIZES` */
    const overlaySizes: map<string, int>

    constructor (data: SharedData, packetSizes: map<string, int>, overlaySizes: map<string, int>)
      ensures this.data == data && totDataPoints == 120
      ensures this.packetSizes == packetSizes && this.overlaySizes == overlaySizes
    {
      this.data := data;
      totDataPoints := 120;
      this.packetSizes := packetSizes;
      this.overlaySizes := overlaySizes;
    }
  }

  /** The generator object that `page.sampleExtractor(signalName)` returns. */
  class SampleExtractor {
    const page: BasePage
    const signalName: string
    var x: int
    var leftovers: bool
    var unplotted: int
    var clearPending: bool
    var finished: bool

    function State(): Gen
      reads this
    {
      Gen(x, leftovers, unplotted, clearPending, finished)
    }

    function Environment(): Env {
      Env(signalName, page.packetSizes, page.overlaySizes, page.totDataPoints)
    }

    /** Calling the generator function runs none of its body yet. */
    constructor (page: BasePage, signalName: string)
      ensures this.page == page && this.signalName == signalName && State() == START
    {
      this.page := page;
      this.signalName := signalName;
      x, leftovers, unplotted, clearPending, finished := 0, false, 0, false, false;
    }

    /** `next(generator)`: resumes the `while True` loop and runs it to its next `yield`. */
    method Next() returns (y: Yield)
      modifies this, page.data`newData
      ensures var o := Resume(Environment(), old(State()), old(page.data.samples), old(page.data.newData));
        y == o.out && State() == o.gen && page.data.newData == o.newData
    {
      var s := signalName;
      if finished {
        return Raised(StopIteration);
      }
      if clearPending {
        page.data.newData := page.data.newData[s := false];
        clearPending := false;
      }
      if s !in page.data.newData {
        y := Raised(KeyError);
      } else if leftovers {
        if s !in page.overlaySizes {
          y := Raised(KeyError);
        } else if unplotted > page.overlaySizes[s] {
          y := Fetch(page.data.samples, s, false, x);
          x, unplotted := x + 1, unplotted - 1;
        } else {
          x, leftovers := 0, false;
          y := Fetch(page.data.samples, s, true, x);
          x := x + 1;
        }
      } else if page.data.newData[s] {
        if s !in page.packetSizes || s !in page.overlaySizes {
          y := Raised(KeyError);
        } else {
          unplotted := page.packetSizes[s] - x;
          if unplotted > page.overlaySizes[s] {
            leftovers := true;
            y := Fetch(page.data.samples, s, false, x);
            x, unplotted := x + 1, unplotted - 1;
          } else {
            x := page.overlaySizes[s] - unplotted;
            y := Fetch(page.data.samples, s, true, x);
            x := x + 1;
          }
          // `self.newData[signalName] = False` follows the yield: it runs on the next call.
          clearPending := true;
        }
      } else if x < page.totDataPoints - 1 {
        y := Fetch(page.data.samples, s, true, x);
        x := x + 1;
      } else {
        y := Fetch(page.data.samples, s, true, x);
        x := 0;
      }
      if y.Raised? {
        x, leftovers, unplotted, clearPending, finished := 0, false, 0, false, true;
      }
    }
  }
}
