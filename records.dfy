/** The rows the data layer hands to the presenter: a name-to-value mapping per
    result record, as SQLAlchemy's `Row._mapping` exposes it. */
module Records {
  import opened Wrappers
  import opened Text

  /** A column value as SQLite returns it: an integer, text, or NULL (`None`). The last
      case is a name the row mapping cannot resolve, such as one that two joined columns
      share: reading it raises a `SQLAlchemyError` with the given message. */
  datatype Value = IntVal(i: int) | TextVal(s: string) | NullVal | Unreadable(message: string)

  /** One result row: the columns it has, by name. A name that is not a key is a missing column. */
  type Row = map<string, Value>

  const ID := "ID"
  const ORIGIN_AIRPORT := "ORIGIN_AIRPORT"
  const DESTINATION_AIRPORT := "DESTINATION_AIRPORT"
  const AIRLINE := "AIRLINE"
  const DELAY := "DELAY"

  /** What an f-string placeholder prints for a value: `str(v)`. An unreadable column
      raises when it is read, so it is never printed. */
  function Str(v: Value): (r: string)
    ensures v.IntVal? ==> |r| > 0 && (ParseInt(r) == Some(v.i))
    ensures v.TextVal? ==> r == v.s
    ensures v.NullVal? ==> r == "None"
  {
    match v
    case IntVal(i) => ParseIntRoundTrip(i); IntToString(i)
    case TextVal(s) => s
    case NullVal => "None"
    case Unreadable(_) => ""
  }
}
