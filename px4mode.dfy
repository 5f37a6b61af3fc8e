/**
  The mode codec: the generic flight mode of the drone API and PX4's custom-mode
  word, packed as `main | (sub << 16)`.

  Encoding is `mapFlightModeToPX4` / `encodePX4AutoMode` (internal/services/control.go),
  decoding is `mapPX4ModeToFlightMode` (internal/services/telemetry.go). Both are
  modelled as the code writes them, on the 32-bit word.
 */
module Px4Mode {
  import opened Wrappers
  import opened Decimal

  /** PX4 main modes, PX4_MAIN_MODE_* in internal/mavlink/client.go. */
  const MainManual: bv32 := 1
  const MainAltctl: bv32 := 2
  const MainPosctl: bv32 := 3
  const MainAuto: bv32 := 4
  const MainAcro: bv32 := 5
  const MainOffboard: bv32 := 6
  const MainStabilized: bv32 := 7
  const MainRattitude: bv32 := 8

  /** PX4 AUTO sub-modes, PX4_AUTO_MODE_* in internal/mavlink/client.go. */
  const AutoReady: bv32 := 1
  const AutoTakeoff: bv32 := 2
  const AutoLoiter: bv32 := 3
  const AutoMission: bv32 := 4
  const AutoRtl: bv32 := 5
  const AutoLand: bv32 := 6
  const AutoFollow: bv32 := 8
  const AutoPrecland: bv32 := 9

  /**
    The encoder names PX4_CUSTOM_MAIN_MODE_* and PX4_CUSTOM_SUB_MODE_AUTO_*, which
    no file of the repository defines. This model assumes they carry the same
    numbers as the PX4_MAIN_MODE_* and PX4_AUTO_MODE_* constants above, and
    defines them that way.
   */
  const CustomMainManual: bv32 := MainManual
  const CustomMainAltctl: bv32 := MainAltctl
  const CustomMainPosctl: bv32 := MainPosctl
  const CustomMainAuto: bv32 := MainAuto
  const CustomMainOffboard: bv32 := MainOffboard
  const CustomMainStabilized: bv32 := MainStabilized
  const CustomSubAutoTakeoff: bv32 := AutoTakeoff
  const CustomSubAutoLoiter: bv32 := AutoLoiter
  const CustomSubAutoMission: bv32 := AutoMission
  const CustomSubAutoRtl: bv32 := AutoRtl
  const CustomSubAutoLand: bv32 := AutoLand

  /** A value of a protobuf enum on the wire: a 32-bit signed integer. */
  type EnumNumber = v: int | -0x8000_0000 <= v < 0x8000_0000

  /**
    The API's flight modes. `Unrecognized(v)` stands for a wire value `v` that
    the enum does not name; a caller must not use it for the number of a named
    mode, since Go reads such a number as that mode. The enum's numbering lives
    in the API's protobuf definition, which is not part of this model.
   */
  datatype FlightMode =
    | Unspecified
    | Manual
    | Stabilized
    | AltitudeHold
    | PositionHold
    | Guided
    | Auto
    | ReturnHome
    | Land
    | Takeoff
    | Loiter
    | Unrecognized(value: EnumNumber)

  /** The enum value's name as the API prints it; a value without a name prints as its number. */
  function ModeName(m: FlightMode): string {
    match m
    case Unspecified => "FLIGHT_MODE_UNSPECIFIED"
    case Manual => "FLIGHT_MODE_MANUAL"
    case Stabilized => "FLIGHT_MODE_STABILIZED"
    case AltitudeHold => "FLIGHT_MODE_ALTITUDE_HOLD"
    case PositionHold => "FLIGHT_MODE_POSITION_HOLD"
    case Guided => "FLIGHT_MODE_GUIDED"
    case Auto => "FLIGHT_MODE_AUTO"
    case ReturnHome => "FLIGHT_MODE_RETURN_HOME"
    case Land => "FLIGHT_MODE_LAND"
    case Takeoff => "FLIGHT_MODE_TAKEOFF"
    case Loiter => "FLIGHT_MODE_LOITER"
    case Unrecognized(v) => IntToString(v)
  }

  /** Distinct modes print differently, so a message naming a mode identifies it. */
  lemma ModeNameInjective(a: FlightMode, b: FlightMode)
    requires ModeName(a) == ModeName(b)
    ensures a == b
  {
    if a.Unrecognized? && b.Unrecognized? {
      IntToStringInjective(a.value, b.value);
    }
  }

  datatype ModeError = UnsupportedFlightMode(mode: FlightMode)
  {
    function Text(): string {
      "unsupported flight mode: " + ModeName(mode)
    }
  }

  /** The ten modes the encoder accepts. */
  predicate Supported(m: FlightMode) {
    !m.Unspecified? && !m.Unrecognized?
  }

  /** The AUTO main mode with a sub-mode in bits 16 and up. */
  function EncodeAutoMode(sub: bv32): bv32 {
    CustomMainAuto | (sub << 16)
  }

  function Encode(m: FlightMode): (r: Result<bv32, ModeError>)
    ensures r.Ok? <==> Supported(m)
    ensures r.Err? ==> r.error == UnsupportedFlightMode(m)
  {
    match m
    case Manual => Ok(CustomMainManual)
    case Stabilized => Ok(CustomMainStabilized)
    case AltitudeHold => Ok(CustomMainAltctl)
    case PositionHold => Ok(CustomMainPosctl)
    case Guided => Ok(CustomMainOffboard)
    case Auto => Ok(EncodeAutoMode(CustomSubAutoMission))
    case ReturnHome => Ok(EncodeAutoMode(CustomSubAutoRtl))
    case Land => Ok(EncodeAutoMode(CustomSubAutoLand))
    case Takeoff => Ok(EncodeAutoMode(CustomSubAutoTakeoff))
    case Loiter => Ok(EncodeAutoMode(CustomSubAutoLoiter))
    case _ => Err(UnsupportedFlightMode(m))
  }

  /** The main-mode field the decoder reads: the low 8 bits. */
  function MainField(raw: bv32): bv32 {
    raw & 0xFF
  }

  /** The sub-mode field the decoder reads: bits 16 to 23. */
  function SubField(raw: bv32): bv32 {
    (raw >> 16) & 0xFF
  }

  function Decode(raw: bv32): (m: FlightMode)
    ensures Supported(m)
  {
    var main := MainField(raw);
    var sub := SubField(raw);
    if main == MainManual then Manual
    else if main == MainStabilized then Stabilized
    else if main == MainAltctl then AltitudeHold
    else if main == MainPosctl then PositionHold
    else if main == MainOffboard then Guided
    else if main == MainAuto then
      if sub == AutoMission then Auto
      else if sub == AutoRtl then ReturnHome
      else if sub == AutoLand then Land
      else if sub == AutoTakeoff then Takeoff
      else if sub == AutoLoiter then Loiter
      else Auto
    else Manual
  }

  /**
    The (main, sub) pair each supported mode stands for, written independently
    of the encoder: the five non-AUTO modes carry no sub-mode.
   */
  function Layout(m: FlightMode): (bv32, bv32)
    requires Supported(m)
  {
    match m
    case Manual => (MainManual, 0)
    case Stabilized => (MainStabilized, 0)
    case AltitudeHold => (MainAltctl, 0)
    case PositionHold => (MainPosctl, 0)
    case Guided => (MainOffboard, 0)
    case Auto => (MainAuto, AutoMission)
    case ReturnHome => (MainAuto, AutoRtl)
    case Land => (MainAuto, AutoLand)
    case Takeoff => (MainAuto, AutoTakeoff)
    case Loiter => (MainAuto, AutoLoiter)
  }

  /** The encoder packs exactly the layout's pair, `main | (sub << 16)`. */
  lemma EncodeMatchesLayout(m: FlightMode)
    requires Supported(m)
    ensures Encode(m).Ok?
    ensures var (main, sub) := Layout(m);
      && Encode(m).value == main | (sub << 16)
      && MainField(Encode(m).value) == main
      && SubField(Encode(m).value) == sub
  {
  }

  /** Round trip: every mode the encoder accepts decodes back to itself. */
  lemma DecodeEncode(m: FlightMode)
    requires Encode(m).Ok?
    ensures Decode(Encode(m).value) == m
  {
    EncodeMatchesLayout(m);
  }

  /** Distinct supported modes get distinct words. */
  lemma EncodeInjective(a: FlightMode, b: FlightMode)
    requires Encode(a).Ok? && Encode(b).Ok? && Encode(a).value == Encode(b).value
    ensures a == b
  {
    DecodeEncode(a);
    DecodeEncode(b);
  }

  /**
    The decoder looks at bits 0-7 and 16-23 only: words that agree there decode
    alike (bits 8-15, which its comment calls part of the main mode, are ignored).
   */
  lemma DecodeReadsTwoBytes(a: bv32, b: bv32)
    requires a & 0x00FF_00FF == b & 0x00FF_00FF
    ensures Decode(a) == Decode(b)
  {
    assert MainField(a) == MainField(b);
    assert SubField(a) == SubField(b);
  }

  /** Main modes the decoder does not know (ACRO, RATTITUDE, 0, ...) read as MANUAL. */
  lemma UnknownMainDecodesManual(raw: bv32)
    requires MainField(raw) !in {MainManual, MainStabilized, MainAltctl, MainPosctl, MainOffboard, MainAuto}
    ensures Decode(raw) == Manual
  {
  }

  /** Under AUTO, sub-modes without a generic counterpart (READY, FOLLOW, PRECLAND, ...) read as AUTO. */
  lemma UnknownAutoSubDecodesAuto(raw: bv32)
    requires MainField(raw) == MainAuto
    requires SubField(raw) !in {AutoMission, AutoRtl, AutoLand, AutoTakeoff, AutoLoiter}
    ensures Decode(raw) == Auto
  {
  }

  /** Every encoded word is below 2^24, so the float32 mode parameter carries it exactly. */
  lemma EncodedWordsFitFloat32(m: FlightMode)
    requires Encode(m).Ok?
    ensures Encode(m).value < 0x100_0000
  {
  }
}
