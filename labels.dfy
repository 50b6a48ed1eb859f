/**
 * The two enums of the screen, each pairing the key the statistics service
 * expects with the Portuguese label the spinners show, and the lookup from
 * a status label back to its key.
 */
module Labels {
  import opened Wrappers

  /** The services a query can use (`Information`); the info spinner lists them in this order. */
  datatype Information = DayOneInfo | ByCountryInfo {
    function Type(): string {
      match this
      case DayOneInfo => "Day one"
      case ByCountryInfo => "By country"
    }

    function Desc(): string {
      match this
      case DayOneInfo => "Por dia"
      case ByCountryInfo => "Por país"
    }

    /** The spinner position of the label. */
    function Ordinal(): nat {
      match this
      case DayOneInfo => 0
      case ByCountryInfo => 1
    }
  }

  /** The case status a query asks for (`Status`). */
  datatype Status = Confirmed | Recovered | Deaths {
    function Type(): string {
      match this
      case Confirmed => "Confirmed"
      case Recovered => "Recovered"
      case Deaths => "Deaths"
    }

    function Desc(): string {
      match this
      case Confirmed => "Confirmados"
      case Recovered => "Recuperados"
      case Deaths => "Mortes"
    }
  }

  /** What an unknown label is sent to the service as. */
  const InvalidStatus := "Status Inválido"

  /**
   * The service key for a status label: the key of the status whose label
   * it is, and the sentinel for any other text.
   */
  function TypeByDesc(desc: string): (r: string)
    ensures forall s: Status :: s.Desc() == desc ==> r == s.Type()
    ensures r == InvalidStatus <==> forall s: Status :: s.Desc() != desc
  {
    if desc == Confirmed.Desc() then Confirmed.Type()
    else if desc == Deaths.Desc() then Deaths.Type()
    else if desc == Recovered.Desc() then Recovered.Type()
    else InvalidStatus
  }

  /** The three labels are distinct, so the lookup above is a well-defined inverse of `Desc`. */
  lemma StatusDescInjective(s: Status, t: Status)
    requires s.Desc() == t.Desc()
    ensures s == t
  {
  }

  /** The sentinel never collides with a real service key. */
  lemma InvalidIsNoStatus(s: Status)
    ensures s.Type() != InvalidStatus
  {
  }

  /** The info spinner position of each service, as `onItemSelected` compares them. */
  function InformationAt(position: int): (r: Option<Information>)
    ensures r.Some? <==> 0 <= position < 2
    ensures r.Some? ==> r.value.Ordinal() == position
  {
    if position == DayOneInfo.Ordinal() then Some(DayOneInfo)
    else if position == ByCountryInfo.Ordinal() then Some(ByCountryInfo)
    else None
  }
}
