/**
 * The daily strip: the first seven days of the daily series, the first
 * labelled "Hoy" and the others by their Spanish weekday name, each with the
 * daytime glyph and the description of its weather code.
 */
module Daily {

  import opened Common
  import WeatherCodes

  /** The strip shows at most this many days. */
  const MaxDays: nat := 7

  /** Day of the week of a date, 0 = Sunday, as the host's calendar reports it. */
  type Weekday = d: int | 0 <= d < 7

  const DayNames: seq<string> := ["Domingo", "Lunes", "Martes", "Miércoles", "Jueves", "Viernes", "Sábado"]
  const Today: string := "Hoy"

  /**
   * The daily series as parallel sequences; each date is represented by its
   * weekday.
   */
  datatype Series = Series(
    weekday: seq<Weekday>,
    code: seq<int>,
    maxTemperature: seq<real>,
    minTemperature: seq<real>,
    precipitationProbabilityMax: seq<int>,
    windSpeedMax: seq<real>)
  {
    /** Every field sequence has one element per date. */
    predicate Aligned() {
      && |code| == |weekday|
      && |maxTemperature| == |weekday|
      && |minTemperature| == |weekday|
      && |precipitationProbabilityMax| == |weekday|
      && |windSpeedMax| == |weekday|
    }
  }

  type AlignedSeries = s: Series | s.Aligned() witness Series([], [], [], [], [], [])

  /** One day of the strip. */
  datatype Card = Card(
    dayName: string,
    icon: string,
    description: string,
    maxTemperature: real,
    minTemperature: real,
    precipitationProbabilityMax: int,
    windSpeedMax: real)

  function Label(index: nat, weekday: Weekday): string
  {
    if index == 0 then Today else DayNames[weekday]
  }

  function CardAt(d: AlignedSeries, k: nat): Card
    requires k < |d.weekday|
  {
    Card(Label(k, d.weekday[k]),
         WeatherCodes.Icon(d.code[k], true),
         WeatherCodes.Description(d.code[k]),
         d.maxTemperature[k], d.minTemperature[k],
         d.precipitationProbabilityMax[k], d.windSpeedMax[k])
  }

  /** The cards of the strip, one per day of the first seven. */
  function View(d: AlignedSeries): (cards: seq<Card>)
    ensures |cards| == Min(MaxDays, |d.weekday|)
    ensures forall k :: 0 <= k < |cards| ==>
      && cards[k].icon == WeatherCodes.Icon(d.code[k], true)
      && cards[k].description == WeatherCodes.Description(d.code[k])
      && cards[k].maxTemperature == d.maxTemperature[k]
      && cards[k].minTemperature == d.minTemperature[k]
      && cards[k].precipitationProbabilityMax == d.precipitationProbabilityMax[k]
      && cards[k].windSpeedMax == d.windSpeedMax[k]
    ensures |cards| > 0 ==> cards[0].dayName == Today
    ensures forall k :: 0 < k < |cards| ==> cards[k].dayName == DayNames[d.weekday[k]]
  {
    seq(Min(MaxDays, |d.weekday|), k requires 0 <= k < Min(MaxDays, |d.weekday|) => CardAt(d, k))
  }

  /** Exactly one card is labelled "Hoy", the first: no weekday name is "Hoy". */
  lemma TodayOnlyFirst(d: AlignedSeries, k: nat)
    requires k < |View(d)|
    ensures View(d)[k].dayName == Today <==> k == 0
  {
  }

  /** The daily strip always uses the daytime glyph: no card shows the moon. */
  lemma NeverNight(d: AlignedSeries, k: nat)
    requires k < |View(d)|
    ensures View(d)[k].icon != WeatherCodes.Moon
  {
  }

  /**
   * The strip depends on the first seven days only, and not on the weekday of
   * the first day: two series agreeing there give the same strip.
   */
  lemma ViewDependsOnFirstWeek(d: AlignedSeries, e: AlignedSeries)
    requires Min(MaxDays, |d.weekday|) == Min(MaxDays, |e.weekday|)
    requires forall k :: 0 <= k < Min(MaxDays, |d.weekday|) ==>
      && d.code[k] == e.code[k]
      && d.maxTemperature[k] == e.maxTemperature[k]
      && d.minTemperature[k] == e.minTemperature[k]
      && d.precipitationProbabilityMax[k] == e.precipitationProbabilityMax[k]
      && d.windSpeedMax[k] == e.windSpeedMax[k]
      && (k > 0 ==> d.weekday[k] == e.weekday[k])
    ensures View(d) == View(e)
  {
  }
}
