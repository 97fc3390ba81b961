/** The battery drain of the mock telemetry generators (one step of
    `mock_drone_data` in api/drone_handler.py and api/index.py): the stored
    level becomes `max(0, level - 0.1)`. */
module MockBattery {

  const DrainPerStep: real := 0.1

  /** Python's `max(0, x)` returns 0 unless x is strictly greater. */
  function DrainedLevel(level: real): (r: real)
    ensures r >= 0.0
    ensures r == 0.0 || r == level - DrainPerStep
    ensures level > DrainPerStep ==> r == level - DrainPerStep
    // a level that is not negative never rises; a negative one is raised to 0
    ensures level >= 0.0 ==> r <= level
    ensures level < 0.0 ==> r == 0.0
  {
    if level - DrainPerStep > 0.0 then level - DrainPerStep else 0.0
  }

  /** The level after `n` mock steps. */
  function DrainedAfter(level: real, n: nat): real
  {
    if n == 0 then level else DrainedLevel(DrainedAfter(level, n - 1))
  }

  function Max0(x: real): real
  {
    if x > 0.0 then x else 0.0
  }

  /** From a level that is not negative, `n` steps give `max(0, level - n/10)`. */
  lemma {:induction false} DrainedAfterSteps(level: real, n: nat)
    requires level >= 0.0
    ensures DrainedAfter(level, n) == Max0(level - (n as real) * DrainPerStep)
  {
    if n > 0 {
      DrainedAfterSteps(level, n - 1);
    }
  }

  /** The level keeps falling until it reaches 0, and then stays at 0. */
  lemma DrainedAfterEmpties(level: real, n: nat)
    requires level >= 0.0 && (n as real) * DrainPerStep >= level
    ensures DrainedAfter(level, n) == 0.0
  {
    DrainedAfterSteps(level, n);
  }
}
