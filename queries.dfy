/** The four query actions of the menu: each prompts for its parameter, asks the data
    layer for the matching rows and displays them. The data layer is a parameter `db`
    giving the rows a query returns (an empty sequence when the database fails). */
module Queries {
  import opened Wrappers
  import opened Text
  import opened Records
  import opened Presenter
  import opened Prompts

  /** The data layer calls, with the parameters they bind. */
  datatype Query =
    | FlightById(id: int)
    | FlightsByDate(day: int, month: int, year: int)
    | DelayedByAirline(airline: string)
    | DelayedByAirport(code: string)

  /** How an action ended: rows displayed, input ran out while prompting, or the
      display raised on a NULL delay. */
  datatype Status = Completed | OutOfInput | Aborted

  /** What one action printed (the data layer's own error lines aside), how many input lines
      it read, and the query it issued. */
  datatype Transcript = Transcript(output: seq<string>, consumed: nat, issued: Option<Query>, status: Status)

  /** What an action prints when it issues `q` after printing `before`. */
  function Answered(before: seq<string>, consumed: nat, q: Query, db: Query -> seq<Row>): Transcript {
    var shown := Present(db(q));
    Transcript(before + shown.lines, consumed, Some(q), if shown.crashed then Aborted else Completed)
  }

  /** Issues the query and displays its rows. */
  method Issue(before: seq<string>, consumed: nat, q: Query, db: Query -> seq<Row>) returns (t: Transcript)
    ensures t.issued == Some(q) && t.consumed == consumed
    ensures t.output == before + Present(db(q)).lines
    ensures t.status == if Present(db(q)).crashed then Aborted else Completed
    ensures t == Answered(before, consumed, q, db)
  {
    var lines, crashed := DisplayFlightResults(db(q));
    t := Transcript(before + lines, consumed, Some(q), if crashed then Aborted else Completed);
  }

  /** `query_delayed_flights_by_carrier`: the first line, whatever it is, names the airline. */
  method QueryDelayedFlightsByCarrier(inputs: seq<string>, db: Query -> seq<Row>) returns (t: Transcript)
    ensures inputs == [] ==> t == Transcript([], 0, None, OutOfInput)
    ensures inputs != [] ==> t == Answered([], 1, DelayedByAirline(inputs[0]), db)
  {
    if inputs == [] {
      return Transcript([], 0, None, OutOfInput);
    }
    t := Issue([], 1, DelayedByAirline(inputs[0]), db);
  }

  /** `query_delayed_flights_by_origin`: the first valid airport code is passed on as typed;
      each invalid line before it draws one complaint. */
  method QueryDelayedFlightsByOrigin(inputs: seq<string>, db: Query -> seq<Row>) returns (t: Transcript)
    ensures t.issued.None? <==> forall j :: 0 <= j < |inputs| ==> !IsValidAirportCode(inputs[j])
    ensures t.issued.None? ==> t == Transcript(seq(|inputs|, _ => INVALID_AIRPORT), |inputs|, None, OutOfInput)
    ensures t.issued.Some? ==>
      && 0 < t.consumed <= |inputs|
      && IsValidAirportCode(inputs[t.consumed - 1])
      && (forall j :: 0 <= j < t.consumed - 1 ==> !IsValidAirportCode(inputs[j]))
      && t == Answered(seq(t.consumed - 1, _ => INVALID_AIRPORT), t.consumed, DelayedByAirport(inputs[t.consumed - 1]), db)
  {
    var code, complaints, consumed := PromptOriginCode(inputs);
    assert complaints == seq(|complaints|, _ => INVALID_AIRPORT);
    if code.None? {
      return Transcript(complaints, consumed, None, OutOfInput);
    }
    t := Issue(complaints, consumed, DelayedByAirport(code.value), db);
  }

  /** `query_flight_by_identifier`: the first line that is an integer is the identifier. */
  method QueryFlightByIdentifier(inputs: seq<string>, db: Query -> seq<Row>) returns (t: Transcript)
    ensures t.issued.None? <==> forall j :: 0 <= j < |inputs| ==> ParseInt(inputs[j]).None?
    ensures t.issued.None? ==> t == Transcript(seq(|inputs|, _ => INVALID_ID), |inputs|, None, OutOfInput)
    ensures t.issued.Some? ==>
      && 0 < t.consumed <= |inputs|
      && ParseInt(inputs[t.consumed - 1]).Some?
      && (forall j :: 0 <= j < t.consumed - 1 ==> ParseInt(inputs[j]).None?)
      && t == Answered(seq(t.consumed - 1, _ => INVALID_ID), t.consumed,
                       FlightById(ParseInt(inputs[t.consumed - 1]).value), db)
  {
    var id, complaints, consumed := PromptFlightId(inputs);
    assert complaints == seq(|complaints|, _ => INVALID_ID);
    if id.None? {
      assert |complaints| == |inputs|;
      return Transcript(complaints, consumed, None, OutOfInput);
    }
    ghost var line := inputs[consumed - 1];
    assert ParseInt(line) == id;
    t := Issue(complaints, consumed, FlightById(id.value), db);
  }

  /** `query_flights_by_travel_date`: the first line that parses as a date gives its day,
      month and year. */
  method QueryFlightsByTravelDate(inputs: seq<string>, parse: string -> Result<Date, string>, db: Query -> seq<Row>)
    returns (t: Transcript)
    ensures t.issued.None? <==> forall j :: 0 <= j < |inputs| ==> parse(inputs[j]).Failure?
    ensures t.issued.None? ==>
      t == Transcript(seq(|inputs|, j requires 0 <= j < |inputs| => "Invalid date format. " + parse(inputs[j]).error),
                      |inputs|, None, OutOfInput)
    ensures t.issued.Some? ==>
      && 0 < t.consumed <= |inputs|
      && parse(inputs[t.consumed - 1]).Success?
      && (forall j :: 0 <= j < t.consumed - 1 ==> parse(inputs[j]).Failure?)
      && var d := parse(inputs[t.consumed - 1]).value;
         t == Answered(seq(t.consumed - 1, j requires 0 <= j < t.consumed - 1 => "Invalid date format. " + parse(inputs[j]).error),
                       t.consumed, FlightsByDate(d.day, d.month, d.year), db)
  {
    var date, complaints, consumed := PromptTravelDate(inputs, parse);
    assert complaints == seq(|complaints|, j requires 0 <= j < |complaints| => "Invalid date format. " + parse(inputs[j]).error);
    if date.None? {
      return Transcript(complaints, consumed, None, OutOfInput);
    }
    var d := date.value;
    t := Issue(complaints, consumed, FlightsByDate(d.day, d.month, d.year), db);
  }
}
