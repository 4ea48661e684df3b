/**
 * The hand-held controller: it turns accelerometer samples and a push button
 * into values written to its BLE characteristics. The BLE service itself,
 * advertising and the sensor driver are outside the model; a sample is a
 * parameter and each characteristic write is an entry in a log.
 */
module Controller {

  import opened Wrappers
  import opened Numeric
  import Wire

  /** The name the controller advertises under. */
  const AdvName: string := "ALVIK_REMOTE_CONTROLLER"

  /** Acceleration is scaled by this before it is sent. */
  const SpeedFactor: real := 100.0

  /** Scaled accelerations of at most this magnitude are sent as 0. */
  const SensitivityThreshold: real := 5.0

  /** `normalize_accel`: scale by 100, and send 0 inside the dead zone. */
  function NormalizeAccel(accel: real): (r: real)
    ensures r == 0.0 || r == accel * SpeedFactor
    ensures r != 0.0 <==> Abs(accel * SpeedFactor) > SensitivityThreshold
  {
    var scaled := accel * SpeedFactor;
    if Abs(scaled) > SensitivityThreshold then scaled else 0.0
  }

  /** The dead zone: no output lies strictly between 0 and the threshold in magnitude. */
  lemma DeadZone(accel: real)
    ensures NormalizeAccel(accel) == 0.0 || Abs(NormalizeAccel(accel)) > SensitivityThreshold
  {
  }

  /** Tilting the other way sends the opposite value, and a non-zero value keeps the sign of the tilt. */
  lemma NormalizeOdd(accel: real)
    ensures NormalizeAccel(-accel) == -NormalizeAccel(accel)
    ensures NormalizeAccel(accel) > 0.0 ==> accel > 0.0
    ensures NormalizeAccel(accel) < 0.0 ==> accel < 0.0
  {
  }

  /** One observable action of the controller's tasks. */
  datatype Output =
    | SetLed(level: int)                                // led.value(level)
    | Write(ch: Wire.Channel, payload: seq<Wire.Byte>)  // characteristic.write(payload, send_update=True)

  /** The horn value for a reading of the pull-up button pin: pressed reads 0. */
  function HornValue(pinLevel: int): (h: int)
    ensures h == 0 || h == 1
    ensures h == 1 <==> pinLevel == 0
  {
    if pinLevel == 0 then 1 else 0
  }

  /** One pass of `button_task`: the LED follows the button, then the horn value is written. */
  function ButtonWrites(pinLevel: int): seq<Output>
  {
    var h := HornValue(pinLevel);
    [SetLed(h), Write(Wire.Horn, Wire.EncodeData(h as real))]
  }

  /** One pass of `speed_task` on the sample (x, y, z): y drives speed, x steering, speed written first. */
  function SpeedWrites(x: real, y: real): seq<Output>
  {
    var speed := NormalizeAccel(y);
    var dir := NormalizeAccel(x);
    [Write(Wire.Speed, Wire.EncodeData(speed)), Write(Wire.Steering, Wire.EncodeData(dir))]
  }

  /** The horn characteristic carries 1 exactly when the button is pressed, and the LED shows the same value. */
  lemma ButtonHorn(pinLevel: int)
    ensures var w := ButtonWrites(pinLevel);
      && |w| == 2 && w[0].SetLed? && w[1].Write? && w[1].ch == Wire.Horn
      && Wire.Decode(Some(w[1].payload)) == Some(w[0].level)
      && (w[0].level == 1 <==> pinLevel == 0)
      && (w[0].level == 0 <==> pinLevel != 0)
  {
    Wire.RoundTrip(HornValue(pinLevel));
  }

  /**
   * A speed pass writes the speed channel and then the steering channel; read
   * back, they are the integer parts of the normalized y and x accelerations
   * (wrapped to 16 bits, which a tilt of at most 327 g never needs).
   */
  lemma {:induction false} SpeedChannels(x: real, y: real)
    ensures var w := SpeedWrites(x, y);
      && |w| == 2 && w[0].Write? && w[1].Write?
      && w[0].ch == Wire.Speed && w[1].ch == Wire.Steering
      && Wire.Decode(Some(w[0].payload)) == Some(Wire.Wrap16(Trunc(NormalizeAccel(y))))
      && Wire.Decode(Some(w[1].payload)) == Some(Wire.Wrap16(Trunc(NormalizeAccel(x))))
  {
    Wire.DecodeEncode(NormalizeAccel(y));
    Wire.DecodeEncode(NormalizeAccel(x));
  }

  /** Within a realistic tilt no wrapping happens: the robot reads exactly `int(normalize_accel(a))`. */
  lemma {:induction false} SmallTiltArrivesExactly(accel: real)
    requires -327.0 <= accel <= 327.0
    ensures Wire.Decode(Some(Wire.EncodeData(NormalizeAccel(accel)))) == Some(Trunc(NormalizeAccel(accel)))
  {
    var v := Trunc(NormalizeAccel(accel));
    assert Wire.IsInt16(v);
    Wire.DecodeEncode(NormalizeAccel(accel));
    Wire.Int16Unique(Wire.Wrap16(v), v);
  }

  /** The outputs of `button_task` over a finite script of pin readings. */
  function ButtonScript(levels: seq<int>): seq<Output>
  {
    if levels == [] then [] else ButtonWrites(levels[0]) + ButtonScript(levels[1..])
  }

  /** The outputs of `speed_task` over a finite script of (x, y, z) samples. */
  function SpeedScript(samples: seq<(real, real, real)>): seq<Output>
  {
    if samples == [] then [] else SpeedWrites(samples[0].0, samples[0].1) + SpeedScript(samples[1..])
  }

  /** The controller's state: the LED pin and everything written so far. */
  class Remote {
    var led: int
    var log: seq<Output>

    constructor ()
      ensures led == 0 && log == []
    {
      led := 0;
      log := [];
    }

    /** The body of `button_task`'s loop. */
    method ButtonStep(pinLevel: int)
      modifies this
      ensures led == HornValue(pinLevel)
      ensures log == old(log) + ButtonWrites(pinLevel)
    {
      var pressed := pinLevel == 0;
      if pressed {
        led := 1;
        log := log + [SetLed(1)];
        log := log + [Write(Wire.Horn, Wire.EncodeData(1.0))];
      } else {
        led := 0;
        log := log + [SetLed(0)];
        log := log + [Write(Wire.Horn, Wire.EncodeData(0.0))];
      }
    }

    /** The body of `speed_task`'s loop, on one accelerometer sample. */
    method SpeedStep(x: real, y: real, z: real)
      modifies this`log
      ensures log == old(log) + SpeedWrites(x, y)
    {
      var dir, speed := x, y;
      speed := NormalizeAccel(speed);
      dir := NormalizeAccel(dir);
      log := log + [Write(Wire.Speed, Wire.EncodeData(speed))];
      log := log + [Write(Wire.Steering, Wire.EncodeData(dir))];
    }

    /** `button_task` run over a finite script of pin readings. */
    method ButtonTask(levels: seq<int>)
      modifies this
      ensures log == old(log) + ButtonScript(levels)
      ensures levels != [] ==> led == HornValue(levels[|levels| - 1])
      ensures levels == [] ==> led == old(led)
    {
      var i := 0;
      while i < |levels|
        invariant 0 <= i <= |levels|
        invariant old(log) + ButtonScript(levels) == log + ButtonScript(levels[i..])
        invariant i > 0 ==> led == HornValue(levels[i - 1])
        invariant i == 0 ==> led == old(led)
      {
        assert levels[i..][1..] == levels[i + 1..];
        ButtonStep(levels[i]);
        i := i + 1;
      }
    }

    /** `speed_task` run over a finite script of accelerometer samples. */
    method SpeedTask(samples: seq<(real, real, real)>)
      modifies this`log
      ensures log == old(log) + SpeedScript(samples)
    {
      var i := 0;
      while i < |samples|
        invariant 0 <= i <= |samples|
        invariant old(log) + SpeedScript(samples) == log + SpeedScript(samples[i..])
      {
        assert samples[i..][1..] == samples[i + 1..];
        SpeedStep(samples[i].0, samples[i].1, samples[i].2);
        i := i + 1;
      }
    }
  }
}
