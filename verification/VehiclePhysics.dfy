/** Integer widths, instants and calibration constants (L0). */
module VehiclePhysics {
  type u8 = x: int | 0 <= x < 0x100
  type u16 = x: int | 0 <= x < 0x1_0000
  type u32 = x: int | 0 <= x < 0x1_0000_0000
  type u64 = x: int | 0 <= x < 0x1_0000_0000_0000_0000

  const U64_MAX: u64 := 0xFFFF_FFFF_FFFF_FFFF

  /** A clock reading; the unit is one nanosecond. */
  type Instant = int
  type Duration = int

  const MILLISECOND: Duration := 1_000_000
  const SECOND: Duration := 1_000 * MILLISECOND

  const RPM_DRIVING_THRESHOLD: u16 := 1000
  const RPM_STRESS_DURATION_THRESHOLD: Duration := 5 * SECOND
  const RPM_EXTREME_OPERATION_THRESHOLD: u16 := 5500
  const SPEED_EXTREME_OPERATION_THRESHOLD_KPH: u16 := 160
  const LUX_ON_THRESHOLD: u16 := 840
  const LUX_OFF_THRESHOLD: u16 := 860
  const FRONT_HEADLAMP_ON_ACK_WAIT: Duration := 2 * SECOND
  const FRONT_HEADLAMP_OFF_ACK_WAIT: Duration := 2 * SECOND

  const ZONE_TELL_BACK_WAIT: Duration := 500 * MILLISECOND
  const ZONE_TELL_BACK_MAX_RETRIES: u8 := 2

  datatype Option<+T> = None | Some(value: T)

  /** `u64::saturating_add(1)`. */
  function SaturatingSucc(n: u64): u64 {
    if n < U64_MAX then n + 1 else n
  }

  /** `Instant::saturating_duration_since`; also `checked_duration_since(..).unwrap_or(ZERO)`. */
  function DurationSince(later: Instant, earlier: Instant): Duration {
    if later >= earlier then later - earlier else 0
  }

  predicate SpeedThresholdExceeded(speedKph: u16) {
    speedKph > SPEED_EXTREME_OPERATION_THRESHOLD_KPH
  }

  predicate ExtremeOperationActive(rpm: u16, speedKph: u16) {
    rpm > RPM_EXTREME_OPERATION_THRESHOLD && SpeedThresholdExceeded(speedKph)
  }

  predicate OperationalWarningActive(rpm: u16, speedKph: u16) {
    SpeedThresholdExceeded(speedKph) || ExtremeOperationActive(rpm, speedKph)
  }

  /** Wheel rpm times 0.114, rounded half up, in integer arithmetic. */
  function SpeedFromRpm(rpm: u16): u16 {
    (rpm * 114 + 500) / 1000
  }
}
