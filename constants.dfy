/** The fixed data the screens read (constants.ts): the tier captions of the translation
    table and the mock sensor list. */
module Constants {
  import opened Types

  /** The caption of a tier in a language: the `safe`, `warning` and `danger` entries of the
      translation table. */
  function TierCaption(lang: Language, level: AlertLevel): string
  {
    match (lang, level)
    case (EN, Safe) => "SAFE"
    case (EN, Caution) => "WARNING"
    case (EN, Danger) => "DANGER"
    case (NP, Safe) => "सुरक्षित"
    case (NP, Caution) => "चेतावनी"
    case (NP, Danger) => "खतरा"
  }

  /** Distinct tiers have distinct captions in every language, so a caption names its tier. */
  lemma TierCaptionInjective(lang: Language, a: AlertLevel, b: AlertLevel)
    ensures TierCaption(lang, a) == TierCaption(lang, b) <==> a == b
  {
  }

  const KitchenMain := Sensor("1", "Kitchen Main", "Kathmandu", 245, 88, Online, "2 mins ago")
  const RestaurantUnitA := Sensor("2", "Restaurant Unit A", "Pokhara", 110, 92, Online, "5 mins ago")
  const LpgStorage := Sensor("3", "LPG Storage", "Lalitpur", 550, 45, Warning, "Now")

  /** The three sensors the monitoring and dashboard screens list, in this order. */
  const MockSensors: seq<Sensor> := [KitchenMain, RestaurantUnitA, LpgStorage]
}
