/**
 * The portfolio health widget (client/src/components/portfolio-health-widget.tsx): the
 * financial margin, the share of highly engaged clients and the share of clients more
 * than 90 days overdue, each coloured by three bands.
 */
module PortfolioHealth {
  import opened Bands

  /** Margin: at least 4 green, from 3 yellow, below 3 red. */
  function MargenBand(margen: real): (b: Band)
    ensures b == Green <==> margen >= 4.0
    ensures b == Yellow <==> 3.0 <= margen < 4.0
    ensures b == Red <==> margen < 3.0
  {
    if margen >= 4.0 then Green else if margen >= 3.0 then Yellow else Red
  }

  /** `getMargenColor`. */
  function MargenColor(margen: real): (c: string)
    ensures c == TextColor(MargenBand(margen))
  {
    if margen >= 4.0 then "text-green-600"
    else if margen >= 3.0 then "text-yellow-600"
    else "text-red-600"
  }

  /** `getMargenBgColor`. */
  function MargenBgColor(margen: real): (c: string)
    ensures c == BgColor(MargenBand(margen))
  {
    if margen >= 4.0 then "bg-green-600/10"
    else if margen >= 3.0 then "bg-yellow-600/10"
    else "bg-red-600/10"
  }

  /** The margin badge text. */
  function MargenLabel(margen: real): (text: string)
    ensures text == match MargenBand(margen) case Green => "Excelente" case Yellow => "Aceptable" case Red => "Bajo"
  {
    if margen >= 4.0 then "Excelente" else if margen >= 3.0 then "Aceptable" else "Bajo"
  }

  /** Engagement: at least 60 green, from 45 yellow, below 45 red. */
  function VinculacionBand(percentage: real): (b: Band)
    ensures b == Green <==> percentage >= 60.0
    ensures b == Yellow <==> 45.0 <= percentage < 60.0
    ensures b == Red <==> percentage < 45.0
  {
    if percentage >= 60.0 then Green else if percentage >= 45.0 then Yellow else Red
  }

  /** `getVinculacionColor`. */
  function VinculacionColor(percentage: real): (c: string)
    ensures c == TextColor(VinculacionBand(percentage))
  {
    if percentage >= 60.0 then "text-green-600"
    else if percentage >= 45.0 then "text-yellow-600"
    else "text-red-600"
  }

  /** `getVinculacionBgColor`. */
  function VinculacionBgColor(percentage: real): (c: string)
    ensures c == BgColor(VinculacionBand(percentage))
  {
    if percentage >= 60.0 then "bg-green-600/10"
    else if percentage >= 45.0 then "bg-yellow-600/10"
    else "bg-red-600/10"
  }

  /**
   * Overdue share, where lower is better: below 3 green, from 3 up to and including 5
   * yellow, above 5 red.
   */
  function MoraBand(percentage: real): (b: Band)
    ensures b == Green <==> percentage < 3.0
    ensures b == Yellow <==> 3.0 <= percentage <= 5.0
    ensures b == Red <==> percentage > 5.0
  {
    if percentage < 3.0 then Green else if percentage <= 5.0 then Yellow else Red
  }

  /** `getMoraColor`. */
  function MoraColor(percentage: real): (c: string)
    ensures c == TextColor(MoraBand(percentage))
  {
    if percentage < 3.0 then "text-green-600"
    else if percentage <= 5.0 then "text-yellow-600"
    else "text-red-600"
  }

  /** `getMoraBgColor`. */
  function MoraBgColor(percentage: real): (c: string)
    ensures c == BgColor(MoraBand(percentage))
  {
    if percentage < 3.0 then "bg-green-600/10"
    else if percentage <= 5.0 then "bg-yellow-600/10"
    else "bg-red-600/10"
  }

  /** The overdue badge text. */
  function MoraLabel(percentage: real): (text: string)
    ensures text == match MoraBand(percentage) case Green => "Excelente" case Yellow => "Controlado" case Red => "Crítico"
  {
    if percentage < 3.0 then "Excelente" else if percentage <= 5.0 then "Controlado" else "Crítico"
  }

  /**
   * Each figure's text colour and badge background name the same band, whatever the
   * value: the two never disagree.
   */
  lemma ColorsAgree(x: real)
    ensures MargenColor(x) == TextColor(Green) <==> MargenBgColor(x) == BgColor(Green)
    ensures MargenColor(x) == TextColor(Red) <==> MargenBgColor(x) == BgColor(Red)
    ensures VinculacionColor(x) == TextColor(Green) <==> VinculacionBgColor(x) == BgColor(Green)
    ensures VinculacionColor(x) == TextColor(Red) <==> VinculacionBgColor(x) == BgColor(Red)
    ensures MoraColor(x) == TextColor(Green) <==> MoraBgColor(x) == BgColor(Green)
    ensures MoraColor(x) == TextColor(Red) <==> MoraBgColor(x) == BgColor(Red)
  {
    ColorsDistinguishBands(MargenBand(x), Green);
    ColorsDistinguishBands(MargenBand(x), Red);
    ColorsDistinguishBands(VinculacionBand(x), Green);
    ColorsDistinguishBands(VinculacionBand(x), Red);
    ColorsDistinguishBands(MoraBand(x), Green);
    ColorsDistinguishBands(MoraBand(x), Red);
  }

  /** Exactly 5% overdue is still yellow; only above 5 turns red. */
  lemma MoraFiveIsYellow()
    ensures MoraBand(5.0) == Yellow && MoraLabel(5.0) == "Controlado"
  {
  }

  /** The widget's figures: margin 4.25 green, engagement 62 green, overdue 3.8 yellow. */
  lemma ShownFigures()
    ensures MargenLabel(4.25) == "Excelente" && MargenColor(4.25) == "text-green-600"
    ensures VinculacionColor(62.0) == "text-green-600"
    ensures MoraLabel(3.8) == "Controlado" && MoraColor(3.8) == "text-yellow-600"
  {
  }
}
