/**
 * The two scripts together: what the robot does with the values the
 * controller writes, and how it finds the controller by its advertised name.
 */
module System {

  import opened Wrappers
  import opened Numeric
  import Wire
  import Controller
  import Robot

  /** What a read of a characteristic delivers after the given write to it. */
  function Payload(o: Controller.Output): Option<seq<Wire.Byte>>
  {
    if o.Write? then Some(o.payload) else None
  }

  /** The reads of one poll iteration, each delivering the controller's last write to that characteristic. */
  function RoundAfter(pinLevel: int, x: real, y: real): Robot.Round
  {
    var button, tilt := Controller.ButtonWrites(pinLevel), Controller.SpeedWrites(x, y);
    Robot.Round(Robot.Got(Payload(button[1])), Robot.Got(Payload(tilt[0])), Robot.Got(Payload(tilt[1])))
  }

  /**
   * End to end: an iteration that reads what one pass of each controller task
   * wrote sets the wheels to the mix of the truncated, normalized y tilt as
   * speed and x tilt as steering, and raises the flag exactly when the button
   * was pressed (or the flag was already up).
   */
  lemma {:induction false} ControllerDrivesRobot(playing: bool, pinLevel: int, x: real, y: real)
    requires -327.0 <= x <= 327.0 && -327.0 <= y <= 327.0
    ensures var st := Robot.PollRound(playing, RoundAfter(pinLevel, x, y));
      var w := Robot.Mix(Trunc(Controller.NormalizeAccel(y)), Trunc(Controller.NormalizeAccel(x)));
      && st.raised.None?
      && st.playing == (playing || pinLevel == 0)
      && st.events == [Robot.LedGreen, Robot.Read(Wire.Horn), Robot.Read(Wire.Speed), Robot.Read(Wire.Steering),
                       Robot.SetWheels(w.0, w.1)]
  {
    Controller.ButtonHorn(pinLevel);
    Controller.SmallTiltArrivesExactly(x);
    Controller.SmallTiltArrivesExactly(y);
    Robot.RoundApplies(playing, RoundAfter(pinLevel, x, y));
  }

  /** Holding the controller level, inside the dead zone on both axes, stops both wheels. */
  lemma {:induction false} LevelControllerStops(playing: bool, pinLevel: int, x: real, y: real)
    requires Abs(x * Controller.SpeedFactor) <= Controller.SensitivityThreshold
    requires Abs(y * Controller.SpeedFactor) <= Controller.SensitivityThreshold
    ensures Robot.SetWheels(0.0, 0.0) in Robot.PollRound(playing, RoundAfter(pinLevel, x, y)).events
  {
    ControllerDrivesRobot(playing, pinLevel, x, y);
    TruncOfInt(0);
    Robot.MixIdentities(0, 0);
  }

  /**
   * The robot finds the controller: the two scripts agree on the name, so a
   * scan in which the controller's advertisement follows any number of
   * other devices yields the controller.
   */
  lemma {:induction false} FindsController(others: seq<Robot.ScanResult>, device: nat)
    requires forall i :: 0 <= i < |others| ==> others[i].name != Controller.AdvName
    ensures Robot.FindTxDevice(others + [Robot.ScanResult(Controller.AdvName, device)]) == Some(device)
    decreases |others|
  {
    var results := others + [Robot.ScanResult(Controller.AdvName, device)];
    if others != [] {
      assert results[1..] == others[1..] + [Robot.ScanResult(Controller.AdvName, device)];
      FindsController(others[1..], device);
    }
  }
}
