/**
 * The battery status tracker of the battery meter: the fields a
 * battery-changed broadcast writes, the test-mode gate on those broadcasts,
 * the charging predicate, and the synthetic level sweep of test mode.
 */
module BatteryTracking {
  import opened Wrappers
  import opened Argb

  // Status and plug constants of the platform's battery manager.
  const StatusUnknown: int := 1
  const StatusCharging: int := 2
  const StatusDischarging: int := 3
  const StatusNotCharging: int := 4
  const StatusFull: int := 5
  const HealthUnknown: int := 1
  const PluggedAc: int := 1

  /** The sentinel for "no battery status received yet". */
  const UnknownLevel: int := -1

  const IntMax: int := 0x7fff_ffff
  const IntMin: int := -0x8000_0000

  /**
   * The extras of a battery-changed broadcast; `None` is a missing extra,
   * for which the tracker substitutes its default.
   */
  datatype BatteryIntent = BatteryIntent(
    level: Option<int>,
    scale: Option<int>,
    plugged: Option<int>,
    health: Option<int>,
    status: Option<int>,
    technology: Option<string>,
    voltage: Option<int>,
    temperature: Option<int>,
    testmode: Option<bool>)

  function IntExtra(extra: Option<int>, default: int): int {
    match extra
    case Some(v) => v
    case None => default
  }

  /**
   * Whether the meter should show that the battery is charging: the status is
   * "charging", or the charger is plugged in and the status is "full".
   */
  function IndicatesCharging(status: int, plugged: bool): (r: bool)
    ensures r <==> status == StatusCharging || (plugged && status == StatusFull)
  {
    if status == StatusCharging then true
    else if plugged then status == StatusFull
    else false
  }

  /** Java's saturating `(int)` cast of a float. */
  function SaturateInt(n: int): (r: int)
    ensures IntMin <= r <= IntMax
    ensures IntMin <= n <= IntMax ==> r == n
    ensures n > IntMax ==> r == IntMax
    ensures n < IntMin ==> r == IntMin
  {
    if n > IntMax then IntMax else if n < IntMin then IntMin else n
  }

  /**
   * `(int)(100f * level / scale)`: the raw level as a percentage of the scale.
   * A zero scale divides by zero in floating point: a positive level gives
   * +Infinity, a negative one -Infinity and zero gives NaN, which the cast
   * turns into the largest int, the smallest int and 0.
   */
  function NormalizeLevel(raw: int, scale: int): (level: int)
    ensures IntMin <= level <= IntMax
    ensures 0 < scale && 0 <= raw <= scale ==> 0 <= level <= 100
    ensures 0 < scale && raw == scale ==> level == 100
    ensures 0 < scale && raw == 0 ==> level == 0
    ensures scale == 100 && 0 <= raw <= 100 ==> level == raw
  {
    if scale == 0 then
      (if raw > 0 then IntMax else if raw < 0 then IntMin else 0)
    else
      PercentBounds(raw, scale);
      SaturateInt(Trunc(100.0 * raw as real / scale as real))
  }

  /** The real-valued percentage of a level within its scale. */
  lemma PercentWithin(raw: int, scale: int)
    requires 0 < scale && 0 <= raw <= scale
    ensures 0.0 <= 100.0 * raw as real / scale as real <= 100.0
  {
    var y := 100.0 * raw as real / scale as real;
    assert y * scale as real == 100.0 * raw as real;
  }

  lemma PercentOfScale(scale: int)
    requires scale != 0
    ensures 100.0 * scale as real / scale as real == 100.0
  {
  }

  lemma PercentBounds(raw: int, scale: int)
    requires scale != 0
    ensures 0 < scale && 0 <= raw <= scale ==> 0 <= Trunc(100.0 * raw as real / scale as real) <= 100
    ensures raw == scale ==> Trunc(100.0 * raw as real / scale as real) == 100
    ensures scale == 100 ==> Trunc(100.0 * raw as real / scale as real) == raw
  {
    if 0 < scale && 0 <= raw <= scale {
      PercentWithin(raw, scale);
    }
    if raw == scale {
      PercentOfScale(scale);
    }
  }

  /** Whether a tracker in the given test-mode state takes the broadcast. */
  function Accepts(testmode: bool, intent: BatteryIntent): (r: bool)
    ensures r <==> !testmode || intent.testmode == Some(true)
  {
    !(testmode && !(match intent.testmode case Some(t) => t case None => false))
  }

  /**
   * One broadcast of the test-mode sweep; the last one of a sweep also ends
   * test mode before it is sent.
   */
  datatype TestStep = TestStep(intent: BatteryIntent, endsTestMode: bool)

  function SweepIntent(level: int, plugged: int, testmode: bool): BatteryIntent {
    BatteryIntent(Some(level), None, Some(plugged), None, None, None, None, None, Some(testmode))
  }

  /** The broadcast that ends a sweep: the saved level and plug type, not a test. */
  function RestoreStep(saveLevel: int, savePlugged: int): TestStep {
    TestStep(SweepIntent(saveLevel, savePlugged, false), true)
  }

  /**
   * The broadcasts of the level test, one every 200 ms: levels 0 to 99 on AC
   * power, then 100 down to 0 unplugged, all flagged as test broadcasts and
   * none carrying a status; the last one restores the saved level and plug
   * type without the test flag.
   */
  predicate IsTestSweep(steps: seq<TestStep>, saveLevel: int, savePlugged: int) {
    && |steps| == 202
    && (forall k :: 0 <= k < 100 ==> steps[k] == TestStep(SweepIntent(k, PluggedAc, true), false))
    && (forall k :: 100 <= k <= 200 ==> steps[k] == TestStep(SweepIntent(200 - k, 0, true), false))
    && steps[201] == RestoreStep(saveLevel, savePlugged)
  }

  /**
   * The self-reposting callback of the level test, run until it stops: each
   * run sends one broadcast, then the level moves by `incr`, which flips to
   * downwards when the level reaches 100; a negative level sends the restore
   * broadcast, leaves test mode and stops the callback.
   */
  method RunSweep(saveLevel: int, savePlugged: int) returns (steps: seq<TestStep>)
    ensures IsTestSweep(steps, saveLevel, savePlugged)
  {
    var curLevel := 0;
    var incr := 1;
    var testmode := true;
    steps := [];
    while testmode
      invariant |steps| <= 202
      invariant testmode ==> |steps| <= 201
      invariant testmode && |steps| < 100 ==> curLevel == |steps| && incr == 1
      invariant testmode && 100 <= |steps| ==> curLevel == 200 - |steps| && incr == -1
      invariant !testmode ==> |steps| == 202 && steps[201] == RestoreStep(saveLevel, savePlugged)
      invariant forall k :: 0 <= k < |steps| && k < 100 ==>
        steps[k] == TestStep(SweepIntent(k, PluggedAc, true), false)
      invariant forall k :: 100 <= k < |steps| && k <= 200 ==>
        steps[k] == TestStep(SweepIntent(200 - k, 0, true), false)
      decreases 202 - |steps|
    {
      var step;
      if curLevel < 0 {
        testmode := false;
        step := RestoreStep(saveLevel, savePlugged);
      } else {
        step := TestStep(SweepIntent(curLevel, if incr > 0 then PluggedAc else 0, true), false);
      }
      steps := steps + [step];
      if testmode {
        curLevel := curLevel + incr;
        if curLevel == 100 {
          incr := -incr;
        }
      }
    }
  }

  /** The battery status fields a battery-changed broadcast writes. */
  class Tracker {
    var level: int
    var plugType: int
    var plugged: bool
    var health: int
    var status: int
    var technology: Option<string>
    var voltage: int
    var temperature: int
    var testmode: bool

    constructor ()
      ensures level == UnknownLevel && plugType == 0 && !plugged
      ensures health == 0 && status == 0 && technology == None
      ensures voltage == 0 && temperature == 0 && !testmode
    {
      level := UnknownLevel;
      plugType := 0;
      plugged := false;
      health := 0;
      status := 0;
      technology := None;
      voltage := 0;
      temperature := 0;
      testmode := false;
    }

    predicate ShouldIndicateCharging()
      reads this
    {
      IndicatesCharging(status, plugged)
    }

    /** The status fields hold what a taken broadcast writes, with the defaults of missing extras. */
    predicate Holds(intent: BatteryIntent)
      reads this
    {
      && level == NormalizeLevel(IntExtra(intent.level, 0), IntExtra(intent.scale, 100))
      && plugType == IntExtra(intent.plugged, 0)
      && plugged == (plugType != 0)
      && health == IntExtra(intent.health, HealthUnknown)
      && status == IntExtra(intent.status, StatusUnknown)
      && technology == intent.technology
      && voltage == IntExtra(intent.voltage, 0)
      && temperature == IntExtra(intent.temperature, 0)
    }

    /**
     * A battery-changed broadcast. In test mode only test broadcasts are
     * taken; a taken broadcast overwrites every field from its extras.
     */
    method OnBatteryChanged(intent: BatteryIntent) returns (accepted: bool)
      modifies this
      ensures accepted == Accepts(old(testmode), intent)
      ensures testmode == old(testmode)
      ensures !accepted ==> unchanged(this)
      ensures accepted ==> Holds(intent)
    {
      if testmode && !(match intent.testmode case Some(t) => t case None => false) {
        return false;
      }
      level := NormalizeLevel(IntExtra(intent.level, 0), IntExtra(intent.scale, 100));
      plugType := IntExtra(intent.plugged, 0);
      plugged := plugType != 0;
      health := IntExtra(intent.health, HealthUnknown);
      status := IntExtra(intent.status, StatusUnknown);
      technology := intent.technology;
      voltage := IntExtra(intent.voltage, 0);
      temperature := IntExtra(intent.temperature, 0);
      return true;
    }

    /**
     * The level-test broadcast: enters test mode and returns the sweep it
     * schedules, which saves the current level and plug type.
     */
    method OnLevelTest() returns (sweep: seq<TestStep>)
      modifies this`testmode
      ensures testmode
      ensures IsTestSweep(sweep, level, plugType)
    {
      testmode := true;
      sweep := RunSweep(level, plugType);
    }

    /** One run of the sweep's callback: maybe leave test mode, then deliver. */
    method RunTestStep(step: TestStep) returns (accepted: bool)
      modifies this
      ensures step.endsTestMode ==> !testmode
      ensures !step.endsTestMode ==> testmode == old(testmode)
      ensures accepted == Accepts(old(testmode) && !step.endsTestMode, step.intent)
      ensures accepted ==> Holds(step.intent)
      ensures !accepted ==>
        && level == old(level) && plugType == old(plugType) && plugged == old(plugged)
        && health == old(health) && status == old(status) && technology == old(technology)
        && voltage == old(voltage) && temperature == old(temperature)
    {
      if step.endsTestMode {
        testmode := false;
      }
      accepted := OnBatteryChanged(step.intent);
    }
  }

  /**
   * Every sweep broadcast before the last is taken by a tracker in test mode,
   * and none of them indicates charging: they carry no status, so the status
   * becomes "unknown" even on AC power.
   */
  lemma SweepNeverIndicatesCharging(steps: seq<TestStep>, saveLevel: int, savePlugged: int, k: int)
    requires IsTestSweep(steps, saveLevel, savePlugged)
    requires 0 <= k < 201
    ensures !steps[k].endsTestMode && Accepts(true, steps[k].intent)
    ensures !IndicatesCharging(IntExtra(steps[k].intent.status, StatusUnknown), true)
  {
    if k < 100 {
      assert steps[k] == TestStep(SweepIntent(k, PluggedAc, true), false);
    } else {
      assert steps[k] == TestStep(SweepIntent(200 - k, 0, true), false);
    }
  }
}
