/**
 * The traffic-light bands the dashboard widgets colour a figure with: a text colour and
 * a badge background per band.
 */
module Bands {
  datatype Band = Green | Yellow | Red

  /** The text colour class of a band. */
  function TextColor(b: Band): string
  {
    match b
    case Green => "text-green-600"
    case Yellow => "text-yellow-600"
    case Red => "text-red-600"
  }

  /** The badge background class of a band. */
  function BgColor(b: Band): string
  {
    match b
    case Green => "bg-green-600/10"
    case Yellow => "bg-yellow-600/10"
    case Red => "bg-red-600/10"
  }

  /** Different bands look different, in the text and in the badge. */
  lemma ColorsDistinguishBands(a: Band, b: Band)
    ensures TextColor(a) == TextColor(b) <==> a == b
    ensures BgColor(a) == BgColor(b) <==> a == b
  {
  }
}
