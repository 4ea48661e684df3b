/**
 * The robot: it scans for the controller by name, connects, and then polls
 * the horn, speed and steering characteristics, mixing speed and steering
 * into two wheel speeds. A horn value of 1 raises the `is_playing` flag that
 * the horn task clears after playing the melody; a timeout on the link turns
 * the left LED red and brakes.
 *
 * The BLE library, the motors, the LEDs and the buzzer are outside the
 * model: what the link delivers is a parameter (a scripted outcome per scan,
 * per connection attempt and per read), and every call into the robot's
 * hardware is an event appended to a log.
 */
module Robot {

  import opened Wrappers
  import opened Numeric
  import Wire
  import opened Melodies
  import Tune

  /** The name the robot looks for when scanning, compared exactly. */
  const AdvName: string := "ALVIK_REMOTE_CONTROLLER"

  /** Scales both wheel speeds. */
  const SpeedFactor: real := 0.7

  /** Dotted notes last a quarter as long again in the horn's copy of the player. */
  const HornDotted: real := 1.25

  /** A call into the robot's hardware, or a read of a characteristic. */
  datatype Event =
    | Brake                               // alvik.brake()
    | LedRed                              // alvik.left_led.set_color(1, 0, 0)
    | LedGreen                            // alvik.left_led.set_color(0, 1, 0)
    | Read(ch: Wire.Channel)              // await characteristic.read()
    | SetWheels(left: real, right: real)  // alvik.set_wheels_speed(left, right)
    | Tone(note: Note)                    // buzzer.tone(note, blocking=False)
    | Pause(ms: int)                      // await asyncio.sleep_ms(ms) inside the tune

  // ---------------------------------------------------------------------
  // Drive mixer
  // ---------------------------------------------------------------------

  /** The skid-steer mix of a speed and a steering percentage into (left, right). */
  function Mix(speed: int, dir: int): (w: (real, real))
  {
    var s, d := speed as real, dir as real;
    ((s + s * (d / 100.0)) * SpeedFactor, (s - s * (d / 100.0)) * SpeedFactor)
  }

  /** The wheels together carry 1.4 times the speed; their difference is the steering share of it. */
  lemma MixIdentities(speed: int, dir: int)
    ensures Mix(speed, dir).0 + Mix(speed, dir).1 == 1.4 * speed as real
    ensures Mix(speed, dir).0 - Mix(speed, dir).1 == 1.4 * speed as real * dir as real / 100.0
    ensures dir == 0 ==> Mix(speed, dir).0 == Mix(speed, dir).1 == 0.7 * speed as real
    ensures speed == 0 ==> Mix(speed, dir).0 == Mix(speed, dir).1 == 0.0
  {
  }

  /** Driving forward, positive steering gives the left wheel more power than the right, and vice versa. */
  lemma MixSteersRight(speed: int, dir: int)
    requires speed > 0
    ensures dir > 0 <==> Mix(speed, dir).0 > Mix(speed, dir).1
    ensures dir < 0 <==> Mix(speed, dir).0 < Mix(speed, dir).1
  {
    MixIdentities(speed, dir);
    var s, d := speed as real, dir as real;
    if dir > 0 {
      assert s * d > 0.0;
    } else if dir < 0 {
      assert s * d < 0.0;
    }
  }

  lemma MixExamples()
    ensures Mix(100, 0) == (70.0, 70.0)
    ensures Mix(100, 50) == (105.0, 35.0)
    ensures Mix(100, -50) == (35.0, 105.0)
    ensures Mix(200, 25) == (175.0, 105.0)
    ensures Mix(0, 50) == (0.0, 0.0)
  {
  }

  // ---------------------------------------------------------------------
  // Discovery
  // ---------------------------------------------------------------------

  /** One advertisement seen during a scan: its name and the device it came from. */
  datatype ScanResult = ScanResult(name: string, device: nat)

  /** `find_tx_device`: the device of the first result whose name is exactly the controller's. */
  function FindTxDevice(results: seq<ScanResult>): (d: Option<nat>)
    ensures d.None? <==> forall i :: 0 <= i < |results| ==> results[i].name != AdvName
    ensures d.Some? ==> (exists i :: 0 <= i < |results| && results[i].name == AdvName &&
                          results[i].device == d.value && forall j :: 0 <= j < i ==> results[j].name != AdvName)
  {
    if results == [] then None
    else if results[0].name == AdvName then Some(results[0].device)
    else
      var d := FindTxDevice(results[1..]);
      assert forall i :: 0 < i < |results| ==> results[i] == results[1..][i - 1];
      d
  }

  /** The device the first successful scan finds, if any scan of the script finds one. */
  function Discover(scans: seq<seq<ScanResult>>): (d: Option<nat>)
    ensures d.None? <==> forall i :: 0 <= i < |scans| ==> FindTxDevice(scans[i]).None?
    ensures d.Some? ==> (exists i :: 0 <= i < |scans| && FindTxDevice(scans[i]) == d &&
                          forall j :: 0 <= j < i ==> FindTxDevice(scans[j]).None?)
  {
    if scans == [] then None
    else if FindTxDevice(scans[0]).Some? then FindTxDevice(scans[0])
    else
      var d := Discover(scans[1..]);
      assert forall i :: 0 < i < |scans| ==> scans[i] == scans[1..][i - 1];
      d
  }

  /** The scan loop of `speed_task`: scan, and scan again while nothing was found. */
  method FindController(scans: seq<seq<ScanResult>>) returns (device: Option<nat>)
    ensures device == Discover(scans)
  {
    if scans == [] {
      return None;
    }
    device := FindTxDevice(scans[0]);
    var i := 1;
    while device.None? && i < |scans|
      invariant 1 <= i <= |scans|
      invariant Discover(scans) == if device.Some? then device else Discover(scans[i..])
    {
      assert scans[i..][1..] == scans[i + 1..];
      device := FindTxDevice(scans[i]);
      i := i + 1;
    }
    if device.None? {
      assert scans[i..] == [];
    }
  }

  // ---------------------------------------------------------------------
  // The poll loop
  // ---------------------------------------------------------------------

  /**
   * What one characteristic read does: deliver a payload (possibly none),
   * raise `TimeoutError`, or raise another error (a dropped link, for one).
   */
  datatype ReadOutcome = Got(payload: Option<seq<Wire.Byte>>) | TimedOut | Dropped

  /** The outcomes of the three reads of one iteration of the poll loop. */
  datatype Round = Round(horn: ReadOutcome, speed: ReadOutcome, steering: ReadOutcome)

  /** An exception escaping the poll loop: the `TimeoutError` that `speed_task` catches, or any other. */
  datatype Raised = TimeoutError | OtherError

  function Raise(o: ReadOutcome): Raised
    requires !o.Got?
  {
    if o.TimedOut? then TimeoutError else OtherError
  }

  /** The effect of one iteration: its events, the new flag, and the exception it raised, if any. */
  datatype Step = Step(events: seq<Event>, playing: bool, raised: Option<Raised>)

  /** A horn read that raises the flag: a payload that decodes to 1. */
  predicate HornIsOne(o: ReadOutcome)
  {
    o.Got? && Wire.Decode(o.payload) == Some(1)
  }

  /** One iteration: green LED, read horn, speed and steering in turn, then set the wheels. */
  function PollRound(playing: bool, r: Round): Step
  {
    var pre := [LedGreen, Read(Wire.Horn)];
    if !r.horn.Got? then Step(pre, playing, Some(Raise(r.horn)))
    else
      var playing' := playing || HornIsOne(r.horn);
      var pre := pre + [Read(Wire.Speed)];
      if !r.speed.Got? then Step(pre, playing', Some(Raise(r.speed)))
      else
        var pre := pre + [Read(Wire.Steering)];
        if !r.steering.Got? then Step(pre, playing', Some(Raise(r.steering)))
        else
          var speed, dir := Wire.Decode(r.speed.payload), Wire.Decode(r.steering.payload);
          if speed.None? || dir.None? then Step(pre, playing', Some(OtherError))  // TypeError in the mix
          else
            var w := Mix(speed.value, dir.value);
            Step(pre + [SetWheels(w.0, w.1)], playing', None)
  }

  /** The poll loop: its events, the final flag, the exception that ended it, and how many iterations it entered. */
  datatype LoopRun = LoopRun(events: seq<Event>, playing: bool, raised: Option<Raised>, entered: nat)

  /** The loop over the rounds it is given; when they run out, `is_connected()` has turned false. */
  function Loop(playing: bool, rounds: seq<Round>): LoopRun
    decreases |rounds|
  {
    if rounds == [] then LoopRun([], playing, None, 0)
    else
      var st := PollRound(playing, rounds[0]);
      if st.raised.Some? then LoopRun(st.events, st.playing, st.raised, 1)
      else
        var rest := Loop(st.playing, rounds[1..]);
        LoopRun(st.events + rest.events, rest.playing, rest.raised, rest.entered + 1)
  }

  /** The loop from iteration `i` on: that iteration, then the rest unless it raised. */
  lemma LoopAt(p: bool, rounds: seq<Round>, i: nat)
    requires i < |rounds|
    ensures var st := PollRound(p, rounds[i]);
      Loop(p, rounds[i..]) ==
        if st.raised.Some? then LoopRun(st.events, st.playing, st.raised, 1)
        else var rest := Loop(st.playing, rounds[i + 1..]); LoopRun(st.events + rest.events, rest.playing, rest.raised, rest.entered + 1)
  {
    assert rounds[i..][0] == rounds[i];
    assert rounds[i..][1..] == rounds[i + 1..];
  }

  /** The loop run `run`, having done `done` so far, goes on as the loop over `rs` from flag `p`. */
  predicate Resumes(run: LoopRun, done: seq<Event>, p: bool, rs: seq<Round>)
  {
    var rest := Loop(p, rs);
    run.events == done + rest.events && run.playing == rest.playing && run.raised == rest.raised
  }

  // ---------------------------------------------------------------------
  // The speed task
  // ---------------------------------------------------------------------

  /**
   * How `speed_task` ends: still scanning when the script of scans runs out,
   * after a connection timeout, after `is_connected()` turned false, in the
   * `TimeoutError` handler, or on an exception nothing catches.
   */
  datatype End = NotFound | ConnectTimedOut | Closed | Stopped | Crashed

  /** The body of the `TimeoutError` handler: red LED, then brake. */
  const FailStop: seq<Event> := [LedRed, Brake]

  /** What the link does once a controller has been found. */
  datatype Link = Link(connectTimesOut: bool, resolveTimesOut: bool, rounds: seq<Round>)

  /** A run of `speed_task`: its events, the final flag, and how it ended. */
  datatype Run = Run(events: seq<Event>, playing: bool, end: End)

  /** The `try` around characteristic lookup and the poll loop, with its handler. */
  function Handled(loop: LoopRun): Run
  {
    match loop.raised
    case None => Run(loop.events, loop.playing, Closed)
    case Some(TimeoutError) => Run(loop.events + FailStop, loop.playing, Stopped)
    case Some(OtherError) => Run(loop.events, loop.playing, Crashed)
  }

  /** `speed_task`: discover, connect, look the characteristics up, poll. */
  function SpeedTaskRun(playing: bool, scans: seq<seq<ScanResult>>, link: Link): Run
  {
    if Discover(scans).None? then Run([], playing, NotFound)
    else if link.connectTimesOut then Run([], playing, ConnectTimedOut)
    else if link.resolveTimesOut then Handled(LoopRun([], playing, Some(TimeoutError), 0))
    else Handled(Loop(playing, link.rounds))
  }

  // ---------------------------------------------------------------------
  // Properties of one iteration
  // ---------------------------------------------------------------------

  /**
   * An iteration completes exactly when no read raises and the speed and
   * steering payloads decode; it then sets the wheels to their mix, as its
   * last event after the LED and the three reads in order. An undecodable
   * horn value only leaves the flag alone. An iteration that raises sets no
   * wheels, and no iteration brakes or turns the LED red.
   */
  lemma {:induction false} RoundApplies(playing: bool, r: Round)
    ensures var st := PollRound(playing, r);
      && (st.raised.None? <==>
            r.horn.Got? && r.speed.Got? && r.steering.Got? &&
            Wire.Decode(r.speed.payload).Some? && Wire.Decode(r.steering.payload).Some?)
      && (st.raised.None? ==>
            var w := Mix(Wire.Decode(r.speed.payload).value, Wire.Decode(r.steering.payload).value);
            st.events == [LedGreen, Read(Wire.Horn), Read(Wire.Speed), Read(Wire.Steering), SetWheels(w.0, w.1)])
      && (st.raised.Some? ==> forall e :: e in st.events ==> !e.SetWheels?)
      && Brake !in st.events && LedRed !in st.events
      && (st.raised == Some(TimeoutError) <==>
            r.horn.TimedOut? || (r.horn.Got? && r.speed.TimedOut?) || (r.horn.Got? && r.speed.Got? && r.steering.TimedOut?))
  {
  }

  /** A horn payload that does not decode still lets the iteration drive, and leaves the flag as it was. */
  lemma UndecodableHornDrives(playing: bool, horn: Option<seq<Wire.Byte>>, speed: seq<Wire.Byte>, dir: seq<Wire.Byte>)
    requires Wire.Decode(horn).None? && |speed| == 2 && |dir| == 2
    ensures var st := PollRound(playing, Round(Got(horn), Got(Some(speed)), Got(Some(dir))));
      && st.raised.None? && st.playing == playing
      && st.events[|st.events| - 1] == SetWheels(Mix(Wire.Decode(Some(speed)).value, Wire.Decode(Some(dir)).value).0,
                                                 Mix(Wire.Decode(Some(speed)).value, Wire.Decode(Some(dir)).value).1)
  {
  }

  /** The iteration raises the flag when its horn read decodes to 1 and never lowers it. */
  lemma RoundFlag(playing: bool, r: Round)
    ensures PollRound(playing, r).playing == (playing || HornIsOne(r.horn))
  {
  }

  // ---------------------------------------------------------------------
  // Properties of the loop and the task
  // ---------------------------------------------------------------------

  /** Whether an iteration raises does not depend on the flag; the loop lemmas below rely on this. */
  lemma RaisedIgnoresFlag(p: bool, q: bool, r: Round)
    ensures PollRound(p, r).raised == PollRound(q, r).raised
  {
  }

  /**
   * The loop ends without an exception exactly when it ran every round. The
   * flag passed to `PollRound` here is immaterial, by `RaisedIgnoresFlag`.
   */
  lemma {:induction false} LoopEnds(playing: bool, rounds: seq<Round>)
    ensures var run := Loop(playing, rounds);
      && run.entered <= |rounds|
      && (run.raised.None? ==>
            run.entered == |rounds| && (forall i :: 0 <= i < |rounds| ==> PollRound(true, rounds[i]).raised.None?))
      && (run.raised.Some? ==> 1 <= run.entered && run.raised == PollRound(true, rounds[run.entered - 1]).raised)
    decreases |rounds|
  {
    if rounds != [] {
      var st := PollRound(playing, rounds[0]);
      RaisedIgnoresFlag(playing, true, rounds[0]);
      if st.raised.None? {
        LoopEnds(st.playing, rounds[1..]);
        var rest := Loop(st.playing, rounds[1..]);
        assert forall i :: 0 < i < |rounds| ==> rounds[i] == rounds[1..][i - 1];
        if rest.raised.Some? {
          assert rounds[rest.entered] == rounds[1..][rest.entered - 1];
        }
      }
    }
  }

  /** The loop itself never brakes and never turns the LED red. */
  lemma {:induction false} LoopNeverBrakes(playing: bool, rounds: seq<Round>)
    ensures Brake !in Loop(playing, rounds).events && LedRed !in Loop(playing, rounds).events
    decreases |rounds|
  {
    if rounds != [] {
      var st := PollRound(playing, rounds[0]);
      RoundApplies(playing, rounds[0]);
      if st.raised.None? {
        LoopNeverBrakes(st.playing, rounds[1..]);
      }
    }
  }

  /**
   * Fail-stop: `speed_task` brakes exactly when it ends in the `TimeoutError`
   * handler, and then the red LED and the brake are its last two events. A
   * task that ends because the connection closed, that never connected, or
   * that ended on an uncaught error never brakes.
   */
  lemma {:induction false} TaskFailStop(playing: bool, scans: seq<seq<ScanResult>>, link: Link)
    ensures var run := SpeedTaskRun(playing, scans, link);
      && (Brake in run.events <==> run.end == Stopped)
      && (LedRed in run.events <==> run.end == Stopped)
      && (run.end == Stopped ==> |run.events| >= 2 && run.events[|run.events| - 2..] == FailStop)
  {
    LoopNeverBrakes(playing, link.rounds);
    var run := SpeedTaskRun(playing, scans, link);
    if run.end == Stopped {
      var ev := run.events;
      assert ev[|ev| - 2..] == FailStop;
    }
  }

  /** Every wheel command comes right after the green LED and the horn, speed and steering reads, in that order. */
  predicate WheelsAfterReads(ev: seq<Event>)
  {
    forall k :: 0 <= k < |ev| && ev[k].SetWheels? ==>
      k >= 4 && ev[k - 4] == LedGreen && ev[k - 3] == Read(Wire.Horn) &&
      ev[k - 2] == Read(Wire.Speed) && ev[k - 1] == Read(Wire.Steering)
  }

  lemma {:induction false} LoopOrder(playing: bool, rounds: seq<Round>)
    ensures WheelsAfterReads(Loop(playing, rounds).events)
    decreases |rounds|
  {
    if rounds != [] {
      var st := PollRound(playing, rounds[0]);
      RoundApplies(playing, rounds[0]);
      if st.raised.None? {
        var rest := Loop(st.playing, rounds[1..]);
        LoopOrder(st.playing, rounds[1..]);
        var ev := st.events + rest.events;
        forall k | 0 <= k < |ev| && ev[k].SetWheels?
          ensures k >= 4 && ev[k - 4] == LedGreen && ev[k - 3] == Read(Wire.Horn) &&
                  ev[k - 2] == Read(Wire.Speed) && ev[k - 1] == Read(Wire.Steering)
        {
          if k >= 5 {
            assert rest.events[k - 5].SetWheels?;
          }
        }
      } else {
        assert forall k :: 0 <= k < |st.events| ==> st.events[k] in st.events;
      }
    }
  }

  /** Events with no wheel command in front of a well-ordered log keep it well ordered. */
  lemma WheelsAfterPrefix(a: seq<Event>, b: seq<Event>)
    requires forall k :: 0 <= k < |a| ==> !a[k].SetWheels?
    requires WheelsAfterReads(b)
    ensures WheelsAfterReads(a + b)
  {
    var ev := a + b;
    forall k | 0 <= k < |ev| && ev[k].SetWheels?
      ensures k >= 4 && ev[k - 4] == LedGreen && ev[k - 3] == Read(Wire.Horn) &&
              ev[k - 2] == Read(Wire.Speed) && ev[k - 1] == Read(Wire.Steering)
    {
      assert k >= |a| && b[k - |a|].SetWheels?;
      var j := k - |a|;
      assert ev[k - 4] == b[j - 4] && ev[k - 1] == b[j - 1];
    }
  }

  /** So do events with no wheel command behind it. */
  lemma WheelsAfterSuffix(a: seq<Event>, b: seq<Event>)
    requires WheelsAfterReads(a)
    requires forall k :: 0 <= k < |b| ==> !b[k].SetWheels?
    ensures WheelsAfterReads(a + b)
  {
    var ev := a + b;
    forall k | 0 <= k < |ev| && ev[k].SetWheels?
      ensures k >= 4 && ev[k - 4] == LedGreen && ev[k - 3] == Read(Wire.Horn) &&
              ev[k - 2] == Read(Wire.Speed) && ev[k - 1] == Read(Wire.Steering)
    {
      assert ev[k] == a[k];
    }
  }

  /** Every wheel command of a whole `speed_task` follows the reads of its own iteration. */
  lemma {:induction false} TaskOrder(playing: bool, scans: seq<seq<ScanResult>>, link: Link)
    ensures WheelsAfterReads(SpeedTaskRun(playing, scans, link).events)
  {
    if Discover(scans).Some? && !link.connectTimesOut && !link.resolveTimesOut {
      var loop := Loop(playing, link.rounds);
      LoopOrder(playing, link.rounds);
      if loop.raised == Some(TimeoutError) {
        WheelsAfterSuffix(loop.events, FailStop);
      }
    }
  }

  /**
   * The `is_playing` handshake on the poll loop's side: the flag ends raised
   * exactly when it was raised before or some iteration entered read a horn
   * value of 1. The loop never clears it.
   */
  lemma {:induction false} LoopFlag(playing: bool, rounds: seq<Round>)
    ensures var run := Loop(playing, rounds);
      && run.entered <= |rounds|
      && run.playing == (playing || exists i :: 0 <= i < run.entered && HornIsOne(rounds[i].horn))
    decreases |rounds|
  {
    LoopEnds(playing, rounds);
    if rounds != [] {
      var st := PollRound(playing, rounds[0]);
      RoundFlag(playing, rounds[0]);
      if st.raised.None? {
        LoopFlag(st.playing, rounds[1..]);
        var rest := Loop(st.playing, rounds[1..]);
        assert forall i :: 0 <= i < rest.entered ==> rounds[1..][i] == rounds[i + 1];
        if rest.playing && !st.playing {
          var i :| 0 <= i < rest.entered && HornIsOne(rounds[1..][i].horn);
          assert HornIsOne(rounds[i + 1].horn);
        }
        if exists i :: 0 <= i < rest.entered + 1 && HornIsOne(rounds[i].horn) {
          var i :| 0 <= i < rest.entered + 1 && HornIsOne(rounds[i].horn);
          if i > 0 {
            assert HornIsOne(rounds[1..][i - 1].horn);
          }
        }
      }
    }
  }

  /**
   * Speed 200 and steering 25 set the wheels to (175, 105); then the next
   * speed read times out, and the next actuation is the red LED and the brake.
   */
  lemma {:induction false} DropAfterDriving()
    ensures
      var idle := Got(Some(Wire.EncodeData(0.0)));
      var rounds := [Round(idle, Got(Some(Wire.EncodeData(200.0))), Got(Some(Wire.EncodeData(25.0)))),
                     Round(idle, TimedOut, TimedOut)];
      Handled(Loop(false, rounds)) ==
        Run([LedGreen, Read(Wire.Horn), Read(Wire.Speed), Read(Wire.Steering), SetWheels(175.0, 105.0),
             LedGreen, Read(Wire.Horn), Read(Wire.Speed), LedRed, Brake], false, Stopped)
  {
    Wire.RoundTrip(0);
    Wire.RoundTrip(200);
    Wire.RoundTrip(25);
    MixExamples();
    var idle := Got(Some(Wire.EncodeData(0.0)));
    var r0 := Round(idle, Got(Some(Wire.EncodeData(200.0))), Got(Some(Wire.EncodeData(25.0))));
    var r1 := Round(idle, TimedOut, TimedOut);
    assert PollRound(false, r0).events == [LedGreen, Read(Wire.Horn), Read(Wire.Speed), Read(Wire.Steering), SetWheels(175.0, 105.0)];
    assert [r0, r1][1..] == [r1];
  }

  // ---------------------------------------------------------------------
  // The horn's copy of the tune player
  // ---------------------------------------------------------------------

  /**
   * What the horn task's `play_tune` does with a melody: for each entry a
   * non-blocking tone, a pause of nine tenths of the duration, a rest tone
   * and a pause of one tenth. A zero divider keeps the previous duration.
   */
  function HornTune(melody: seq<Entry>, previous: real): seq<Event>
    decreases |melody|
  {
    if melody == [] then []
    else
      var (note, divider) := melody[0];
      var d := if divider != 0 then Tune.Duration(divider, HornDotted) else previous;
      [Tone(note), Pause(Tune.NoteMs(d)), Tone(Rest), Pause(Tune.RestMs(d))] + HornTune(melody[1..], d)
  }

  /** Four events per entry, in melody order: the note, its pause, the rest, its pause. */
  predicate PlaysInOrder(ev: seq<Event>, melody: seq<Entry>)
  {
    && |ev| == 4 * |melody|
    && forall i :: 0 <= i < |melody| ==>
         ev[4 * i] == Tone(melody[i].0) && ev[4 * i + 1].Pause? && ev[4 * i + 2] == Tone(Rest) && ev[4 * i + 3].Pause?
  }

  /** Playing one more entry in front keeps the order. */
  lemma PlaysInOrderCons(head: seq<Event>, ev: seq<Event>, melody: seq<Entry>)
    requires melody != [] && |head| == 4
    requires head[0] == Tone(melody[0].0) && head[1].Pause? && head[2] == Tone(Rest) && head[3].Pause?
    requires PlaysInOrder(ev, melody[1..])
    ensures PlaysInOrder(head + ev, melody)
  {
    var all := head + ev;
    forall i | 0 <= i < |melody|
      ensures all[4 * i] == Tone(melody[i].0) && all[4 * i + 1].Pause? && all[4 * i + 2] == Tone(Rest) && all[4 * i + 3].Pause?
    {
      if i > 0 {
        var j := i - 1;
        assert 4 * i == 4 * j + 4;
        assert all[4 * j + 4] == ev[4 * j] && all[4 * j + 5] == ev[4 * j + 1];
        assert all[4 * j + 6] == ev[4 * j + 2] && all[4 * j + 7] == ev[4 * j + 3];
        assert melody[i] == melody[1..][j];
      }
    }
  }

  lemma {:induction false} HornTuneShape(melody: seq<Entry>, previous: real)
    ensures PlaysInOrder(HornTune(melody, previous), melody)
    decreases |melody|
  {
    if melody != [] {
      var (note, divider) := melody[0];
      var d := if divider != 0 then Tune.Duration(divider, HornDotted) else previous;
      HornTuneShape(melody[1..], d);
      PlaysInOrderCons([Tone(note), Pause(Tune.NoteMs(d)), Tone(Rest), Pause(Tune.RestMs(d))], HornTune(melody[1..], d), melody);
    }
  }

  /** A zero divider reuses the previous duration; the first entry's previous duration is 0. */
  lemma ZeroDividerReuses(note: Note, melody: seq<Entry>, previous: real)
    ensures HornTune([(note, 0)] + melody, previous)[..4] ==
            [Tone(note), Pause(Tune.NoteMs(previous)), Tone(Rest), Pause(Tune.RestMs(previous))]
  {
  }

  /** Each note and its rest together pause no longer than the entry's duration. */
  lemma HornEntryFits(divider: int, previous: real)
    requires previous >= 0.0
    ensures var d := if divider != 0 then Tune.Duration(divider, HornDotted) else previous;
      d >= 0.0 && (Tune.NoteMs(d) + Tune.RestMs(d)) as real <= d
  {
    if divider != 0 {
      Tune.DurationFloor(divider, HornDotted);
    }
    var d := if divider != 0 then Tune.Duration(divider, HornDotted) else previous;
    Tune.EntryFits(d);
  }

  /** The horn plays `pacman` as 124 events, a dotted sixteenth lasting 196.25 ms. */
  lemma {:induction false} HornPlaysPacman()
    ensures |HornTune(Pacman, 0.0)| == 124
    ensures Tune.Duration(-16, HornDotted) == 196.25
  {
    HornTuneShape(Pacman, 0.0);
    Tune.DurationExamples();
  }

  // ---------------------------------------------------------------------
  // The robot's state
  // ---------------------------------------------------------------------

  /** The robot: the `is_playing` flag shared by its two tasks, and its log of events. */
  class Alvik {
    var playing: bool
    var log: seq<Event>
    /** The melody the horn plays, `pacman`. */
    const melody: seq<Entry>

    /** The module's start-up state: `is_playing = False`, nothing done yet. */
    constructor ()
      ensures !playing && log == [] && melody == Pacman
    {
      playing := false;
      log := [];
      melody := Pacman;
    }

    /** One read: log it, and hand back the decoded value or the exception it raised. */
    method ReadChannel(ch: Wire.Channel, o: ReadOutcome) returns (value: Option<int>, raised: Option<Raised>)
      modifies this`log
      ensures log == old(log) + [Read(ch)]
      ensures raised.None? <==> o.Got?
      ensures o.Got? ==> value == Wire.Decode(o.payload)
      ensures !o.Got? ==> raised == Some(Raise(o))
    {
      log := log + [Read(ch)];
      match o
      case Got(payload) =>
        value, raised := Wire.Decode(payload), None;
      case TimedOut =>
        value, raised := None, Some(TimeoutError);
      case Dropped =>
        value, raised := None, Some(OtherError);
    }

    /** One iteration of `while connection.is_connected()`. */
    method PollOnce(r: Round) returns (raised: Option<Raised>)
      modifies this
      ensures var st := PollRound(old(playing), r);
        log == old(log) + st.events && playing == st.playing && raised == st.raised
    {
      log := log + [LedGreen];
      var horn, speed, dir;
      horn, raised := ReadChannel(Wire.Horn, r.horn);
      if raised.Some? {
        return;
      }
      if horn == Some(1) {
        playing := true;
      }
      speed, raised := ReadChannel(Wire.Speed, r.speed);
      if raised.Some? {
        return;
      }
      dir, raised := ReadChannel(Wire.Steering, r.steering);
      if raised.Some? {
        return;
      }
      if speed.None? || dir.None? {
        raised := Some(OtherError);
        return;
      }
      var wheels := Mix(speed.value, dir.value);
      log := log + [SetWheels(wheels.0, wheels.1)];
    }

    /** The poll loop, over the rounds the link delivers before `is_connected()` turns false. */
    method PollLoop(rounds: seq<Round>) returns (raised: Option<Raised>)
      modifies this
      ensures var run := Loop(old(playing), rounds);
        log == old(log) + run.events && playing == run.playing && raised == run.raised
    {
      ghost var run := Loop(playing, rounds);
      ghost var done: seq<Event> := [];
      var i := 0;
      while i < |rounds|
        invariant 0 <= i <= |rounds|
        invariant log == old(log) + done
        invariant Resumes(run, done, playing, rounds[i..])
      {
        ghost var p, st := playing, PollRound(playing, rounds[i]);
        LoopAt(p, rounds, i);
        raised := PollOnce(rounds[i]);
        AppendAssoc(old(log), done, st.events);
        if raised.Some? {
          return;
        }
        AppendAssoc(done, st.events, Loop(playing, rounds[i + 1..]).events);
        done := done + st.events;
        i := i + 1;
      }
      assert rounds[i..] == [];
      raised := None;
    }

    /** The `TimeoutError` handler: red LED, then brake. */
    method FailSafe()
      modifies this`log
      ensures log == old(log) + FailStop
    {
      log := log + [LedRed];
      log := log + [Brake];
    }

    /** `speed_task`: scan until the controller is found, connect, look the characteristics up, poll. */
    method SpeedTask(scans: seq<seq<ScanResult>>, link: Link) returns (end: End)
      modifies this
      ensures var run := SpeedTaskRun(old(playing), scans, link);
        log == old(log) + run.events && playing == run.playing && end == run.end
    {
      var device := FindController(scans);
      if device.None? {
        return NotFound;
      }
      if link.connectTimesOut {
        return ConnectTimedOut;
      }
      ghost var loop := if link.resolveTimesOut then LoopRun([], playing, Some(TimeoutError), 0) else Loop(playing, link.rounds);
      var raised: Option<Raised>;
      if link.resolveTimesOut {
        raised := Some(TimeoutError);
      } else {
        raised := PollLoop(link.rounds);
      }
      assert log == old(log) + loop.events;
      match raised
      case None =>
        end := Closed;
      case Some(TimeoutError) =>
        FailSafe();
        AppendAssoc(old(log), loop.events, FailStop);
        end := Stopped;
      case Some(OtherError) =>
        end := Crashed;
    }

    /** The robot's `main`: brake and show red before starting the tasks. */
    method Launch(scans: seq<seq<ScanResult>>, link: Link) returns (end: End)
      modifies this
      ensures var run := SpeedTaskRun(old(playing), scans, link);
        log == old(log) + ([Brake, LedRed] + run.events) && playing == run.playing && end == run.end
    {
      log := log + [Brake];
      log := log + [LedRed];
      ghost var started := log;
      end := SpeedTask(scans, link);
      AppendAssoc(old(log), [Brake, LedRed], log[|started|..]);
    }

    /** The horn task's `play_tune`: the for loop over the melody, carrying `noteDuration`. */
    method PlayTune(tune: seq<Entry>)
      modifies this`log
      ensures log == old(log) + HornTune(tune, 0.0)
    {
      var noteDuration: real := 0.0;
      var i := 0;
      while i < |tune|
        invariant 0 <= i <= |tune|
        invariant old(log) + HornTune(tune, 0.0) == log + HornTune(tune[i..], noteDuration)
      {
        assert tune[i..][1..] == tune[i + 1..];
        var (note, divider) := tune[i];
        if divider > 0 {
          noteDuration := Trunc(Tune.Wholenote as real / divider as real) as real;
        } else if divider < 0 {
          noteDuration := (-1 * Trunc(Tune.Wholenote as real / divider as real)) as real;
          noteDuration := noteDuration * HornDotted;
        }
        ghost var before := log;
        log := log + [Tone(note), Pause(Tune.NoteMs(noteDuration)), Tone(Rest), Pause(Tune.RestMs(noteDuration))];
        AppendAssoc(before, log[|before|..], HornTune(tune[i + 1..], noteDuration));
        i := i + 1;
      }
    }

    /** One pass of `horn_task`: if the flag is up, play the whole melody, then lower the flag. */
    method HornStep()
      modifies this
      ensures !playing
      ensures log == old(log) + (if old(playing) then HornTune(melody, 0.0) else [])
    {
      if playing {
        PlayTune(melody);
        playing := false;
      }
    }
  }

  /**
   * Start-up fail-stop: whatever the link does, the robot's log opens with
   * the brake and the red LED, and every wheel command follows the reads of
   * its own iteration.
   */
  lemma {:induction false} LaunchSafe(playing: bool, scans: seq<seq<ScanResult>>, link: Link)
    ensures var ev := [Brake, LedRed] + SpeedTaskRun(playing, scans, link).events;
      ev[0] == Brake && ev[1] == LedRed && WheelsAfterReads(ev)
  {
    TaskOrder(playing, scans, link);
    WheelsAfterPrefix([Brake, LedRed], SpeedTaskRun(playing, scans, link).events);
  }
}
