/** The compiled-in configuration (main/config.h). */
module Config {
  const NUM_PROFILES := 3
  const RUN_DECEL := 800000

  // Calibration and homing
  const ENDPOINT_GUARD := 50
  const OFFSET_MIN := -8000
  const OFFSET_MAX := 8000
  const DOWN_OFFSET_DEFAULT := -500
  const CAL_PREMOVE_DOWN_STEPS := 5500
  const CAL_SPEED_HZ := 8000
  const CAL_ACCEL := 25000
  const CAL_SEARCH_STEPS := 120000
  const CAL_ABS_MIN := 12
  const CAL_REL_DROP_Q8 := 235
  const CAL_HIT_CONFIRM := 2
  const CAL_OVERSHOOT_BACKOFF_STEPS := 300
  const EARLY_MIN_TIME_MS := 50
  const EARLY_MIN_MOVE_STEPS := 200
  const EARLY_TRIP := CAL_ABS_MIN
  const CREEP_HOME_SPEED := CAL_SPEED_HZ
  const CREEP_HOME_ACCEL := CAL_ACCEL

  // Running
  const RUN_CURRENT_MIN := 1000
  const RUN_CURRENT_MAX := 4500
  const RUN_SG_TRIP_MIN := 0
  const RUN_SG_TRIP_MAX := 1023
  const RUN_SG_HIGH_NEEDED := 2
  const RUN_SG_HIGH_SATURATION_MARGIN := 4
  const RUN_SG_LOW_DECAY_COUNT := 3
  const RUN_BACKOFF_STEPS := 1000
  const SG_WORK_ZONE_MIN := 0
  const SG_WORK_ZONE_MAX := 20000
  const SG_AUTO_STROKES := 12
  const SG_AUTO_MARGIN := 1
  const SG_AUTO_TIMEOUT_MS := 120000
  const STOP_TIMEOUT_MS := 8000
  const STOP_ARRIVAL_TOL := 10
  const COUNTER_MAX := 9999
  const BATCH_TARGET_MAX := 9999

  /** The range of the driver's SG_RESULT register. */
  const SG_RESULT_MAX := 1023
}
