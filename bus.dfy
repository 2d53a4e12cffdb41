/** The line and timing ports the driver runs on, and a bus capture that
    interprets a sequence of port events the way a logic analyser on the
    data line would: low pulses driven by the host, the moments at which
    the host samples the line, and the elapsed time. */
module Bus {

  /** How the pin is configured: driven output, or input with pull-up. */
  datatype Mode = Output | Input

  /** The pin as the driver left it: its mode and the last level written. */
  datatype Line = Line(mode: Mode, level: int)

  /** One call into the ports: a pin reconfiguration, a level write, a
      sample (with the value the pin reported), a busy wait in
      microseconds, or a yielding sleep in milliseconds. */
  datatype Event =
    | ConfigOutput
    | ConfigInput
    | Write(level: int)
    | Read(value: int)
    | BusyWait(us: nat)
    | Sleep(ms: nat)

  /** The level a released line reads when no device pulls it: the pull-up holds it high. */
  const Idle: int := 1

  /** The host holds the line low: output mode with level 0. */
  predicate DrivenLow(l: Line) {
    l.mode == Output && l.level == 0
  }

  /** The effect of a reconfiguration or a write on the pin; other events leave it alone. */
  function Configure(l: Line, e: Event): Line {
    match e
    case ConfigOutput => l.(mode := Output)
    case ConfigInput => l.(mode := Input)
    case Write(v) => l.(level := v)
    case _ => l
  }

  /** A sample the host took: the value read, and how many microseconds
      had passed since the last falling edge and since the last release. */
  datatype Sample = Sample(value: int, sinceFall: nat, sinceRise: nat)

  /** What an observer of the line has recorded so far: the pin state,
      the time since the last falling edge and since the last release,
      the total elapsed time in microseconds, the widths of the completed
      host low pulses, and the samples the host took. */
  datatype Capture = Capture(
    line: Line,
    sinceFall: nat,
    sinceRise: nat,
    clock: nat,
    pulses: seq<nat>,
    samples: seq<Sample>)

  /** The capture before any event: line released, nothing recorded. */
  const Start: Capture := Capture(Line(Input, Idle), 0, 0, 0, [], [])

  /** The line is not being held low by the host. */
  predicate Released(c: Capture) {
    !DrivenLow(c.line)
  }

  /** Time passing on the line, in microseconds. */
  function Elapse(c: Capture, us: nat): Capture {
    c.(sinceFall := c.sinceFall + us, sinceRise := c.sinceRise + us, clock := c.clock + us)
  }

  /** The capture after one more event. A change from released to driven
      low is a falling edge; a change from driven low to released ends a
      low pulse, whose width is the time since the falling edge. */
  function Step(c: Capture, e: Event): Capture {
    match e
    case BusyWait(us) => Elapse(c, us)
    case Sleep(ms) => Elapse(c, ms * 1000)
    case Read(v) => c.(samples := c.samples + [Sample(v, c.sinceFall, c.sinceRise)])
    case _ =>
      var l := Configure(c.line, e);
      if !DrivenLow(c.line) && DrivenLow(l) then c.(line := l, sinceFall := 0)
      else if DrivenLow(c.line) && !DrivenLow(l) then
        c.(line := l, sinceRise := 0, pulses := c.pulses + [c.sinceFall])
      else c.(line := l)
  }

  /** The capture after a whole sequence of events, in order. */
  function Run(c: Capture, t: seq<Event>): Capture
    decreases |t|
  {
    if t == [] then c else Run(Step(c, t[0]), t[1..])
  }

  /** Capturing a five-event sequence is five steps. */
  lemma RunFive(c: Capture, t: seq<Event>)
    requires |t| == 5
    ensures Run(c, t) == Step(Step(Step(Step(Step(c, t[0]), t[1]), t[2]), t[3]), t[4])
  {
    var c1 := Step(c, t[0]);
    var c2 := Step(c1, t[1]);
    var c3 := Step(c2, t[2]);
    var c4 := Step(c3, t[3]);
    assert Run(c4, t[4..]) == Step(c4, t[4]);
    assert Run(c3, t[3..]) == Run(c4, t[4..]);
    assert Run(c2, t[2..]) == Run(c3, t[3..]);
    assert Run(c1, t[1..]) == Run(c2, t[2..]);
  }

  /** Capturing a seven-event sequence is seven steps. */
  lemma RunSeven(c: Capture, t: seq<Event>)
    requires |t| == 7
    ensures Run(c, t) ==
      Step(Step(Step(Step(Step(Step(Step(c, t[0]), t[1]), t[2]), t[3]), t[4]), t[5]), t[6])
  {
    var c1 := Step(c, t[0]);
    var c2 := Step(c1, t[1]);
    RunFive(c2, t[2..]);
    assert Run(c1, t[1..]) == Run(c2, t[2..]);
  }

  /** Capturing two event sequences one after the other is capturing their concatenation. */
  lemma {:induction false} RunAppend(c: Capture, a: seq<Event>, b: seq<Event>)
    ensures Run(c, a + b) == Run(Run(c, a), b)
    decreases |a|
  {
    if a == [] {
      assert a + b == b;
    } else {
      assert (a + b)[0] == a[0];
      assert (a + b)[1..] == a[1..] + b;
      RunAppend(Step(c, a[0]), a[1..], b);
    }
  }

  /** What a sensor on the line makes of one host low pulse: at least
      480 µs is a reset; shorter than 15 µs starts a "1" (or read) slot,
      since the line is back high before the sensor's sampling window
      opens; 60 to 120 µs is a "0"; anything else is not a valid symbol. */
  datatype Symbol = ResetPulse | One | Zero | Glitch(us: nat)

  function Classify(us: nat): Symbol {
    if us >= 480 then ResetPulse
    else if 0 < us < 15 then One
    else if 60 <= us <= 120 then Zero
    else Glitch(us)
  }

  /** The symbols a sensor reads from a sequence of host pulses. */
  function View(pulses: seq<nat>): (v: seq<Symbol>)
    ensures |v| == |pulses|
    ensures forall i :: 0 <= i < |pulses| ==> v[i] == Classify(pulses[i])
  {
    seq(|pulses|, i requires 0 <= i < |pulses| => Classify(pulses[i]))
  }

  /** The sensor reads a concatenation of pulse trains symbol by symbol. */
  lemma ViewAppend(a: seq<nat>, b: seq<nat>)
    ensures View(a + b) == View(a) + View(b)
  {
  }
}
