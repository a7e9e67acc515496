/**
 * The colour mappings of the robot status page (New.tsx): one for the health
 * severities and one for the battery charge, and the three coloured segments
 * each health tile shows.
 */
module RobotStatus {

  const Green: string := "bg-green-500"
  const Yellow: string := "bg-yellow-500"
  const Red: string := "bg-red-500"
  const Orange: string := "bg-orange-500"
  const Grey300: string := "bg-gray-300 border border-gray-400"
  const Grey200: string := "bg-gray-200 border border-gray-300"
  const Unfilled: string := "bg-white border border-gray-300"

  /** `getSeverityColor`: severities 1 to 4 have their own class, anything else the default grey. */
  function SeverityColor(severity: real): (r: string)
    ensures severity == 1.0 <==> r == "bg-green-500"
    ensures severity == 2.0 <==> r == "bg-yellow-500"
    ensures severity == 3.0 <==> r == "bg-red-500"
    ensures severity == 4.0 <==> r == "bg-gray-300 border border-gray-400"
    ensures severity !in {1.0, 2.0, 3.0, 4.0} <==> r == "bg-gray-200 border border-gray-300"
  {
    if severity == 1.0 then Green
    else if severity == 2.0 then Yellow
    else if severity == 3.0 then Red
    else if severity == 4.0 then Grey300
    else Grey200
  }

  datatype BatteryStatus = BatteryStatus(filled: nat, color: string)

  /** `getBatteryStatus`: always three filled segments, coloured by charge band. */
  function GetBatteryStatus(charge: real): (r: BatteryStatus)
    ensures r.filled == 3
    ensures r.color == "bg-green-500" <==> charge >= 70.0
    ensures r.color == "bg-orange-500" <==> 30.0 <= charge < 70.0
    ensures r.color == "bg-red-500" <==> charge < 30.0
  {
    if charge >= 70.0 then BatteryStatus(3, Green)
    else if charge >= 30.0 then BatteryStatus(3, Orange)
    else BatteryStatus(3, Red)
  }

  /** The class of segment `i` (0, 1 or 2) of the tile labelled `tile` showing `value`. */
  function SegmentColor(tile: string, value: real, i: nat): string
    requires i < 3
  {
    if tile == "Battery" then
      (if i < GetBatteryStatus(value).filled then GetBatteryStatus(value).color else Unfilled)
    else SeverityColor(value)
  }

  /** The battery tile never shows an unfilled segment: all three take the charge colour. */
  lemma BatterySegmentsAllFilled(charge: real, i: nat)
    requires i < 3
    ensures SegmentColor("Battery", charge, i) == GetBatteryStatus(charge).color
    ensures SegmentColor("Battery", charge, i) != "bg-white border border-gray-300"
  {
  }

  /** The sample robot's readings. */
  const SampleCharge: real := 35.0
  const SampleSoftware: real := 2.0
  const SampleHardware: real := 3.0
  const SampleNetwork: real := 1.0

  /** The sample robot shows an orange battery, a yellow software, a red hardware and a green network tile. */
  lemma SampleRobotColours(i: nat)
    requires i < 3
    ensures SegmentColor("Battery", SampleCharge, i) == "bg-orange-500"
    ensures SegmentColor("Software", SampleSoftware, i) == "bg-yellow-500"
    ensures SegmentColor("Hardware", SampleHardware, i) == "bg-red-500"
    ensures SegmentColor("Network", SampleNetwork, i) == "bg-green-500"
  {
  }
}
