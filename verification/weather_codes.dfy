/**
 * The two lookup tables of the widget: weather code to glyph and weather code
 * to Spanish description. The codes are the WMO weather interpretation codes
 * (WMO code table 4677, in the subset the Open-Meteo service reports).
 */
module WeatherCodes {

  import opened Common

  /** The 28 codes both tables know. */
  const KnownCodes: set<int> :=
    {0, 1, 2, 3, 45, 48, 51, 53, 55, 56, 57, 61, 63, 65, 66, 67,
     71, 73, 75, 77, 80, 81, 82, 85, 86, 95, 96, 99}

  const Sun: string := "☀️"
  const SunBehindCloud: string := "🌤️"
  const Moon: string := "🌙"
  const UnknownIcon: string := "❓"
  const UnknownDescription: string := "Desconocido"

  /** The glyph shown for a code; only codes 0 and 1 look at the day flag. */
  function Icon(code: int, isDay: bool): (glyph: string)
    ensures glyph == UnknownIcon <==> code !in KnownCodes
    ensures code == 0 ==> glyph == (if isDay then Sun else Moon)
    ensures code == 1 ==> glyph == (if isDay then SunBehindCloud else Moon)
    ensures glyph == Moon <==> !isDay && (code == 0 || code == 1)
  {
    match code
    case 0 => if isDay then Sun else Moon
    case 1 => if isDay then SunBehindCloud else Moon
    case 2 => "⛅"
    case 3 => "☁️"
    case 45 => "🌫️"
    case 48 => "🌫️"
    case 51 => "🌦️"
    case 53 => "🌦️"
    case 55 => "🌦️"
    case 56 => "🌨️"
    case 57 => "🌨️"
    case 61 => "🌧️"
    case 63 => "🌧️"
    case 65 => "🌧️"
    case 66 => "🌨️"
    case 67 => "🌨️"
    case 71 => "🌨️"
    case 73 => "❄️"
    case 75 => "❄️"
    case 77 => "🌨️"
    case 80 => "🌦️"
    case 81 => "🌧️"
    case 82 => "⛈️"
    case 85 => "🌨️"
    case 86 => "❄️"
    case 95 => "⛈️"
    case 96 => "⛈️"
    case 99 => "⛈️"
    case _ => UnknownIcon
  }

  /** The Spanish description shown for a code. */
  function Description(code: int): (text: string)
    ensures text == UnknownDescription <==> code !in KnownCodes
    ensures |text| > 0
  {
    match code
    case 0 => "Cielo despejado"
    case 1 => "Principalmente despejado"
    case 2 => "Parcialmente nublado"
    case 3 => "Nublado"
    case 45 => "Niebla"
    case 48 => "Niebla con escarcha"
    case 51 => "Llovizna ligera"
    case 53 => "Llovizna moderada"
    case 55 => "Llovizna intensa"
    case 56 => "Llovizna helada ligera"
    case 57 => "Llovizna helada intensa"
    case 61 => "Lluvia ligera"
    case 63 => "Lluvia moderada"
    case 65 => "Lluvia intensa"
    case 66 => "Lluvia helada ligera"
    case 67 => "Lluvia helada intensa"
    case 71 => "Nevada ligera"
    case 73 => "Nevada moderada"
    case 75 => "Nevada intensa"
    case 77 => "Granos de nieve"
    case 80 => "Chubascos ligeros"
    case 81 => "Chubascos moderados"
    case 82 => "Chubascos violentos"
    case 85 => "Chubascos de nieve ligeros"
    case 86 => "Chubascos de nieve intensos"
    case 95 => "Tormenta"
    case 96 => "Tormenta con granizo ligero"
    case 99 => "Tormenta con granizo intenso"
    case _ => UnknownDescription
  }

  /** For every code other than 0 and 1 the day flag does not change the glyph. */
  lemma IconIgnoresDayFlag(code: int)
    requires code != 0 && code != 1
    ensures Icon(code, true) == Icon(code, false)
  {
  }

  /** The glyph table and the description table have the same key set. */
  lemma SameKeySet(code: int, isDay: bool)
    ensures Icon(code, isDay) != UnknownIcon <==> Description(code) != UnknownDescription
  {
  }

  /**
   * The phenomenon groups of WMO code table 4677 in the subset Open-Meteo
   * reports, used as an independent reference for the two tables.
   */
  datatype Group =
    | ClearSky | Cloudiness | Fog | Drizzle | FreezingDrizzle | Rain | FreezingRain
    | Snowfall | SnowGrains | RainShowers | SnowShowers | Thunderstorm

  /** The group of a code, stated by ranges: intensities step by 2 inside a group. */
  function GroupOf(code: int): Option<Group>
  {
    if code == 0 then Some(ClearSky)
    else if 1 <= code <= 3 then Some(Cloudiness)
    else if code == 45 || code == 48 then Some(Fog)
    else if 51 <= code <= 55 && code % 2 == 1 then Some(Drizzle)
    else if 56 <= code <= 57 then Some(FreezingDrizzle)
    else if 61 <= code <= 65 && code % 2 == 1 then Some(Rain)
    else if 66 <= code <= 67 then Some(FreezingRain)
    else if 71 <= code <= 75 && code % 2 == 1 then Some(Snowfall)
    else if code == 77 then Some(SnowGrains)
    else if 80 <= code <= 82 then Some(RainShowers)
    else if 85 <= code <= 86 then Some(SnowShowers)
    else if code == 95 || code == 96 || code == 99 then Some(Thunderstorm)
    else None
  }

  /**
   * The Spanish words every description of a group starts with. The three
   * cloudiness descriptions share no stem, so that group has none.
   */
  function Stem(g: Group): string
  {
    match g
    case ClearSky => "Cielo despejado"
    case Cloudiness => ""
    case Fog => "Niebla"
    case Drizzle => "Llovizna"
    case FreezingDrizzle => "Llovizna helada"
    case Rain => "Lluvia"
    case FreezingRain => "Lluvia helada"
    case Snowfall => "Nevada"
    case SnowGrains => "Granos de nieve"
    case RainShowers => "Chubascos"
    case SnowShowers => "Chubascos de nieve"
    case Thunderstorm => "Tormenta"
  }

  /** A code is known to both tables exactly when it belongs to a WMO group. */
  lemma KnownCodesAreWmoGroups(code: int)
    ensures GroupOf(code).Some? <==> code in KnownCodes
  {
  }

  /**
   * The descriptions agree with the WMO grouping: the description of a
   * grouped code outside the cloudiness group starts with the group's stem.
   */
  lemma DescriptionsFollowWmoGroups(code: int)
    requires GroupOf(code).Some? && GroupOf(code) != Some(Cloudiness)
    ensures Stem(GroupOf(code).value) <= Description(code)
  {
    KnownCodesAreWmoGroups(code);
  }

  /** The groups with a single glyph use it for every code they contain. */
  lemma TablesFollowWmoGroups(code: int, isDay: bool)
    ensures GroupOf(code) == Some(Thunderstorm) ==> Icon(code, isDay) == "⛈️"
    ensures GroupOf(code) == Some(Fog) ==> Icon(code, isDay) == "🌫️"
    ensures GroupOf(code) == Some(Drizzle) ==> Icon(code, isDay) == "🌦️"
    ensures GroupOf(code) == Some(Rain) ==> Icon(code, isDay) == "🌧️"
    ensures GroupOf(code) in {Some(FreezingDrizzle), Some(FreezingRain), Some(SnowGrains)} ==> Icon(code, isDay) == "🌨️"
  {
    KnownCodesAreWmoGroups(code);
  }
}
