/**
 * The analytics page (client/src/pages/analytics.tsx): the portfolio health score and
 * the share of clients contacted, each coloured and labelled by three bands.
 */
module Analytics {
  import opened Bands

  /** Health: at least 80 green, from 60 yellow, below 60 red. */
  function HealthBand(health: real): (b: Band)
    ensures b == Green <==> health >= 80.0
    ensures b == Yellow <==> 60.0 <= health < 80.0
    ensures b == Red <==> health < 60.0
  {
    if health >= 80.0 then Green else if health >= 60.0 then Yellow else Red
  }

  /** `getHealthColor`. */
  function HealthColor(health: real): (c: string)
    ensures c == TextColor(HealthBand(health))
  {
    if health >= 80.0 then "text-green-600"
    else if health >= 60.0 then "text-yellow-600"
    else "text-red-600"
  }

  /** `getHealthBgColor`. */
  function HealthBgColor(health: real): (c: string)
    ensures c == BgColor(HealthBand(health))
  {
    if health >= 80.0 then "bg-green-600/10"
    else if health >= 60.0 then "bg-yellow-600/10"
    else "bg-red-600/10"
  }

  /** The health badge text. */
  function HealthLabel(health: real): (text: string)
    ensures text == match HealthBand(health) case Green => "Excelente" case Yellow => "Aceptable" case Red => "Crítico"
  {
    if health >= 80.0 then "Excelente" else if health >= 60.0 then "Aceptable" else "Crítico"
  }

  /** The health figure's colour, its badge and its text always tell the same band. */
  lemma HealthDisplayAgrees(health: real)
    ensures HealthColor(health) == "text-green-600" <==> HealthBgColor(health) == "bg-green-600/10"
    ensures HealthColor(health) == "text-green-600" <==> HealthLabel(health) == "Excelente"
    ensures HealthColor(health) == "text-red-600" <==> HealthBgColor(health) == "bg-red-600/10"
    ensures HealthColor(health) == "text-red-600" <==> HealthLabel(health) == "Crítico"
  {
    ColorsDistinguishBands(HealthBand(health), Green);
    ColorsDistinguishBands(HealthBand(health), Red);
  }

  /** Contacted share: at least 75 green, from 60 yellow, below 60 red. */
  function ContactedBand(percentage: real): (b: Band)
    ensures b == Green <==> percentage >= 75.0
    ensures b == Yellow <==> 60.0 <= percentage < 75.0
    ensures b == Red <==> percentage < 60.0
  {
    if percentage >= 75.0 then Green else if percentage >= 60.0 then Yellow else Red
  }

  /** `getContactedColor`. */
  function ContactedColor(percentage: real): (c: string)
    ensures c == TextColor(ContactedBand(percentage))
  {
    if percentage >= 75.0 then "text-green-600"
    else if percentage >= 60.0 then "text-yellow-600"
    else "text-red-600"
  }

  /** `getContactedBgColor`. */
  function ContactedBgColor(percentage: real): (c: string)
    ensures c == BgColor(ContactedBand(percentage))
  {
    if percentage >= 75.0 then "bg-green-600/10"
    else if percentage >= 60.0 then "bg-yellow-600/10"
    else "bg-red-600/10"
  }

  /** The contacted badge text. */
  function ContactedLabel(percentage: real): (text: string)
    ensures text == match ContactedBand(percentage) case Green => "Óptimo" case Yellow => "Mejorar" case Red => "Urgente"
  {
    if percentage >= 75.0 then "Óptimo" else if percentage >= 60.0 then "Mejorar" else "Urgente"
  }

  /**
   * The two scales share the red band but not the green one: a share from 75 up to 80
   * is green as a contacted share and yellow as a health score.
   */
  lemma ScalesDiffer(x: real)
    ensures x < 60.0 ==> HealthBand(x) == ContactedBand(x) == Red
    ensures 75.0 <= x < 80.0 ==> ContactedBand(x) == Green && HealthBand(x) == Yellow
  {
  }

  /** The page's figures, 85 health and 78% contacted, both show green. */
  lemma ShownFigures()
    ensures HealthLabel(85.0) == "Excelente" && HealthColor(85.0) == "text-green-600"
    ensures ContactedLabel(78.0) == "Óptimo" && ContactedColor(78.0) == "text-green-600"
  {
  }
}
