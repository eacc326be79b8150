/**
 * The severity colour of src/components/AnalysisDetails.tsx.
 */
module AnalysisDetails {

  datatype SeverityColour = Green | Yellow | Red

  /** `getSeverityColor`: below 3 is green, below 7 yellow, anything else red. */
  function SeverityColourOf(severity: real): (c: SeverityColour)
    ensures c == Green <==> severity < 3.0
    ensures c == Yellow <==> 3.0 <= severity < 7.0
    ensures c == Red <==> severity >= 7.0
  {
    if severity < 3.0 then Green
    else if severity < 7.0 then Yellow
    else Red
  }

  /** The text class each colour is drawn with. */
  function ClassName(c: SeverityColour): string
  {
    match c
    case Green => "text-green-500"
    case Yellow => "text-yellow-500"
    case Red => "text-red-500"
  }

  function Rank(c: SeverityColour): nat
  {
    match c
    case Green => 0
    case Yellow => 1
    case Red => 2
  }

  /** A higher severity never gets a milder colour. */
  lemma ColourMonotone(a: real, b: real)
    requires a <= b
    ensures Rank(SeverityColourOf(a)) <= Rank(SeverityColourOf(b))
  {
  }

  /** The detector's severities 6..9 are yellow for 6 and red for 7 to 9. */
  lemma DetectorSeverityColours(severity: int)
    requires 6 <= severity <= 9
    ensures SeverityColourOf(severity as real) == (if severity == 6 then Yellow else Red)
  {
  }
}
