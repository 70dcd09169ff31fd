/**
 * The six working days of a planning week. The service checks a `jour`
 * string against the list `lundi … samedi`; the front end iterates the same
 * list. Sunday has no slot anywhere.
 */
module Days {
  import opened Wrappers

  datatype Day = Lundi | Mardi | Mercredi | Jeudi | Vendredi | Samedi

  function DayName(d: Day): string {
    match d
    case Lundi => "lundi"
    case Mardi => "mardi"
    case Mercredi => "mercredi"
    case Jeudi => "jeudi"
    case Vendredi => "vendredi"
    case Samedi => "samedi"
  }

  /** The week in display order. */
  const AllDays: seq<Day> := [Lundi, Mardi, Mercredi, Jeudi, Vendredi, Samedi]

  /** The list the service validates against (`joursValides`) and the front end shows (`weekDays`). */
  const JoursValides: seq<string> := ["lundi", "mardi", "mercredi", "jeudi", "vendredi", "samedi"]

  /** `joursValides.includes(jour)`, returning which day it names. */
  function ParseDay(jour: string): (r: Option<Day>)
    ensures r.Some? <==> jour in JoursValides
    ensures r.Some? ==> DayName(r.value) == jour
  {
    if jour == "lundi" then Some(Lundi)
    else if jour == "mardi" then Some(Mardi)
    else if jour == "mercredi" then Some(Mercredi)
    else if jour == "jeudi" then Some(Jeudi)
    else if jour == "vendredi" then Some(Vendredi)
    else if jour == "samedi" then Some(Samedi)
    else None
  }

  /** Day names are exactly the accepted strings, in week order, and parse back to their day. */
  lemma DayNamesRoundTrip()
    ensures |AllDays| == |JoursValides| == 6
    ensures forall i :: 0 <= i < 6 ==> DayName(AllDays[i]) == JoursValides[i]
    ensures forall d: Day :: ParseDay(DayName(d)) == Some(d)
    ensures forall d: Day :: d in AllDays
  {
    forall d: Day ensures ParseDay(DayName(d)) == Some(d) && d in AllDays {
      match d
      case Lundi =>
      case Mardi =>
      case Mercredi =>
      case Jeudi =>
      case Vendredi =>
      case Samedi =>
    }
  }
}
