/** Label.colorForType: the text colour of a map label, chosen by the label's type. */
module Labels {

  import opened Wrappers

  /** An RGB colour as the sketch passes it to fill(). */
  datatype Rgb = Rgb(r: int, g: int, b: int)
  {
    predicate InByteRange()
    {
      0 <= r <= 255 && 0 <= g <= 255 && 0 <= b <= 255
    }
  }

  const White := Rgb(255, 255, 255)

  /** Every type string the switch lists, "station" included. */
  const ListedTypes: set<string> := {
    "bar", "fastfood", "cafe", "restaurant",
    "church", "flag", "police", "school", "synagogue", "post", "factory",
    "museum", "landmark", "theater",
    "hospital", "spa", "pharmacy",
    "business", "office", "barbershop", "sports", "hotel", "bank",
    "shop", "supermarket", "hypermarket", "clothes", "furniture", "plants", "zoo",
    "station", "park", "stadium", "metro"
  }

  /**
   * The switch on the label type. A type that is not a string (null,
   * undefined, a number) is None; it matches no case, like an unlisted string.
   */
  function ColorForType(t: Option<string>): (c: Rgb)
    ensures c.InByteRange()
  {
    match t
    case None => White
    case Some(s) =>
      match s
      case "bar" | "fastfood" | "cafe" | "restaurant" => Rgb(224, 129, 58)
      case "church" | "flag" | "police" | "school" | "synagogue" | "post" | "factory" => Rgb(142, 145, 149)
      case "museum" | "landmark" | "theater" => Rgb(16, 127, 116)
      case "hospital" => Rgb(233, 121, 107)
      case "spa" => Rgb(225, 116, 155)
      case "pharmacy" => Rgb(13, 160, 0)
      case "business" | "office" | "barbershop" | "sports" | "hotel" | "bank" => Rgb(112, 123, 230)
      case "shop" | "supermarket" | "hypermarket" | "clothes" | "furniture" | "plants" | "zoo" => Rgb(12, 127, 170)
      case "station" => Rgb(255, 255, 255)
      case "park" | "stadium" => Rgb(59, 156, 88)
      case "metro" => Rgb(83, 178, 62)
      case _ => White
  }

  /** Anything the switch does not list falls to the white default. */
  lemma UnlistedIsWhite(t: Option<string>)
    requires t.None? || t.value !in ListedTypes
    ensures ColorForType(t) == White
  {
  }

  /** Among the listed types only "station" is drawn white, so it looks like an unlisted type. */
  lemma OnlyStationListedWhite(s: string)
    requires s in ListedTypes
    ensures ColorForType(Some(s)) == White <==> s == "station"
  {
  }
}
