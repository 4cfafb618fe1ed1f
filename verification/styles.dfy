/** The style objects the pages pick from a status or a score. Each colour
    comes with one fixed translucent background, so a style is its accent
    colour and its icon. */
module Styles {

  datatype Colour = Success | Primary | Warning | Danger | Muted

  datatype Icon =
    | CheckCircle | Clock | AlertTriangle | AlertCircle | XCircle | TrendingUp
    | Shield | ShieldCheck | ShieldAlert | FileText

  datatype Style = Style(colour: Colour, icon: Icon)

  /** Position of a traffic-light colour from best to worst. */
  function Severity(c: Colour): nat
  {
    match c
    case Success => 0
    case Warning => 1
    case _ => 2
  }
}
