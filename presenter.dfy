/** `display_flight_results`: prints a count line, then one line per row, either the
    flight or the error that made the row unreadable. */
module Presenter {
  import opened Wrappers
  import opened Text
  import opened Records

  /** The five fields read from a row; the delay already converted by `int()`. */
  datatype Flight = Flight(id: Value, origin: Value, destination: Value, airline: Value, delay: int)

  /** What the `try` block makes of one row: the flight, a caught exception (its message),
      or the `TypeError` of `int(None)`, which the `except` clause does not name. */
  datatype Extraction = Extracted(flight: Flight) | Caught(message: string) | Uncaught

  /** What the loop body does with one row: print one line, or raise out of the function. */
  datatype Effect = Printed(line: string) | Raised

  /** Everything the function printed, and whether it ended by raising. */
  datatype Output = Output(lines: seq<string>, crashed: bool)

  const ERROR_PREFIX := "Error processing result: "

  function CountLine(n: nat): string {
    "Got " + IntToString(n) + " results."
  }

  /** `str()` of the `NoSuchColumnError` a row mapping raises for a key it does not hold.
      The error is a `KeyError` too, which is why `.get` falls back to its default. */
  function MissingColumnMessage(key: string): string {
    "Could not locate column in row for column '" + key + "'"
  }

  /** `str(ValueError)` raised by `int(text)`: the quoted text, cut to its first 200
      characters as the `%.200R` conversion does. */
  function IntLiteralErrorMessage(text: string): string {
    "invalid literal for int() with base 10: " + Truncated("'" + text + "'", 200)
  }

  /** The first `n` characters of `s`, as a `%.nR` precision keeps them. */
  function Truncated(s: string, n: nat): (r: string)
    ensures |r| <= n && r <= s
    ensures |s| <= n ==> r == s
  {
    if |s| > n then s[..n] else s
  }

  /** What `int()` makes of the delay column: a number, a caught exception with its
      message (the `ValueError` of a non-numeric text, the `SQLAlchemyError` of an
      unreadable column), or the `TypeError` of `int(None)`. */
  datatype Conversion = Converted(delay: int) | Failed(message: string) | TypeError

  /** `int(result_dict.get('DELAY', 0))`: a missing column reads as 0. */
  function ConvertDelay(row: Row): (c: Conversion)
    ensures c.TypeError? <==> DELAY in row && row[DELAY].NullVal?
    ensures DELAY !in row ==> c == Converted(0)
    ensures c.Converted? && DELAY in row ==> ParseInt(Str(row[DELAY])) == Some(c.delay)
    ensures c.Failed? <==>
      DELAY in row && (row[DELAY].Unreadable? || (row[DELAY].TextVal? && ParseInt(row[DELAY].s).None?))
  {
    if DELAY !in row then Converted(0)
    else match row[DELAY]
      case IntVal(i) => Converted(i)
      case TextVal(s) =>
        (match ParseInt(s)
         case Some(i) => Converted(i)
         case None => Failed(IntLiteralErrorMessage(s)))
      case NullVal => TypeError
      case Unreadable(m) => Failed(m)
  }

  /** `result_dict[col]` succeeds: the column is there and the mapping can resolve it. */
  predicate Readable(row: Row, col: string) {
    col in row && !row[col].Unreadable?
  }

  /** The message of the exception `result_dict[col]` raises: the `NoSuchColumnError` of a missing
      column or the `SQLAlchemyError` of an unreadable one. */
  function ReadFault(row: Row, col: string): string
    requires !Readable(row, col)
  {
    if col !in row then MissingColumnMessage(col) else row[col].message
  }

  /** The `try` block: the delay first, then the four mandatory columns in the order they are read. */
  function Extract(row: Row): Extraction {
    match ConvertDelay(row)
    case TypeError => Uncaught
    case Failed(m) => Caught(m)
    case Converted(d) =>
      if !Readable(row, ORIGIN_AIRPORT) then Caught(ReadFault(row, ORIGIN_AIRPORT))
      else if !Readable(row, DESTINATION_AIRPORT) then Caught(ReadFault(row, DESTINATION_AIRPORT))
      else if !Readable(row, AIRLINE) then Caught(ReadFault(row, AIRLINE))
      else if !Readable(row, ID) then Caught(ReadFault(row, ID))
      else Extracted(Flight(row[ID], row[ORIGIN_AIRPORT], row[DESTINATION_AIRPORT], row[AIRLINE], d))
  }

  /** The two display formats: the delay clause only for a strictly positive delay. */
  function FlightLine(f: Flight): string {
    var route := Str(f.id) + ". " + Str(f.origin) + " -> " + Str(f.destination) + " by " + Str(f.airline);
    if f.delay > 0 then route + ", Delay: " + IntToString(f.delay) + " Minutes" else route
  }

  function EffectOf(row: Row): Effect {
    match Extract(row)
    case Extracted(f) => Printed(FlightLine(f))
    case Caught(m) => Printed(ERROR_PREFIX + m)
    case Uncaught => Raised
  }

  /** The effect of each row, in input order. */
  function Effects(rows: seq<Row>): (effects: seq<Effect>)
    ensures |effects| == |rows|
  {
    seq(|rows|, k requires 0 <= k < |rows| => EffectOf(rows[k]))
  }

  /** The loop over the rows: each row's line in order, stopping at the first row that raises. */
  function Run(effects: seq<Effect>): Output {
    if effects == [] then Output([], false)
    else match effects[0]
      case Raised => Output([], true)
      case Printed(line) =>
        var rest := Run(effects[1..]);
        Output([line] + rest.lines, rest.crashed)
  }

  /** Everything `display_flight_results(rows)` prints. */
  function Present(rows: seq<Row>): Output {
    var body := Run(Effects(rows));
    Output([CountLine(|rows|)] + body.lines, body.crashed)
  }

  lemma EffectsAt(rows: seq<Row>, i: nat)
    requires i < |rows|
    ensures Effects(rows)[i] == EffectOf(rows[i])
  {
  }

  // ---------------------------------------------------------------------------
  // Reference definitions of a well-formed row, independent of the extraction order

  /** The four columns read after the delay, in the order the `try` block reads them. */
  const MANDATORY: seq<string> := [ORIGIN_AIRPORT, DESTINATION_AIRPORT, AIRLINE, ID]

  /** `int()` accepts the delay column, or there is none. */
  predicate DelayReadable(row: Row) {
    DELAY !in row || row[DELAY].IntVal? || (row[DELAY].TextVal? && ParseInt(row[DELAY].s).Some?)
  }

  /** The delay column holds NULL, which `int()` rejects with a TypeError. */
  predicate DelayIsNull(row: Row) {
    DELAY in row && row[DELAY].NullVal?
  }

  predicate WellFormed(row: Row) {
    && DelayReadable(row)
    && Readable(row, ORIGIN_AIRPORT) && Readable(row, DESTINATION_AIRPORT)
    && Readable(row, AIRLINE) && Readable(row, ID)
  }

  /** The delay a well-formed row is displayed with. */
  function DelayValue(row: Row): int
    requires DelayReadable(row)
  {
    if DELAY !in row then 0
    else match row[DELAY]
      case IntVal(i) => i
      case TextVal(s) => ParseInt(s).value
  }

  /** The message of a delay column `int()` rejects with a caught exception. */
  function DelayFault(row: Row): string
    requires !DelayReadable(row) && !DelayIsNull(row)
  {
    if row[DELAY].TextVal? then IntLiteralErrorMessage(row[DELAY].s) else row[DELAY].message
  }

  /** `MANDATORY[i]` is the first of the four columns that cannot be read. */
  predicate FirstUnreadable(row: Row, i: int) {
    && 0 <= i < |MANDATORY|
    && !Readable(row, MANDATORY[i])
    && forall j :: 0 <= j < i ==> Readable(row, MANDATORY[j])
  }

  /** What displaying one row does, stated case by case: a NULL delay raises; a well-formed
      row prints its flight; otherwise the line names the first read that failed. */
  predicate ShownAs(row: Row, e: Effect) {
    && (e.Raised? <==> DelayIsNull(row))
    && (WellFormed(row) ==>
         e == Printed(FlightLine(Flight(row[ID], row[ORIGIN_AIRPORT], row[DESTINATION_AIRPORT], row[AIRLINE], DelayValue(row)))))
    && (!DelayIsNull(row) && !DelayReadable(row) ==> e == Printed(ERROR_PREFIX + DelayFault(row)))
    && (DelayReadable(row) && !WellFormed(row) ==>
         exists i :: 0 <= i < |MANDATORY| && FirstUnreadable(row, i) && e == Printed(ERROR_PREFIX + ReadFault(row, MANDATORY[i])))
  }

  // ---------------------------------------------------------------------------
  // Per-row behaviour

  /** A row is displayed as a flight exactly when it is well formed, and then with
      the columns it holds; it raises exactly when its delay is NULL; otherwise it
      yields one error line, whose message `MalformedRowMessage` names. */
  lemma ExtractClassifies(row: Row)
    ensures Extract(row).Extracted? <==> WellFormed(row)
    ensures Extract(row).Uncaught? <==> DelayIsNull(row)
    ensures WellFormed(row) ==>
      Extract(row).flight == Flight(row[ID], row[ORIGIN_AIRPORT], row[DESTINATION_AIRPORT], row[AIRLINE], DelayValue(row))
    ensures !WellFormed(row) && !DelayIsNull(row) ==>
      exists m :: EffectOf(row) == Printed(ERROR_PREFIX + m)
  {
    if !WellFormed(row) && !DelayIsNull(row) {
      assert EffectOf(row) == Printed(ERROR_PREFIX + Extract(row).message);
    }
  }

  /** A well-formed row whose delay is positive shows the delay clause. */
  lemma DelayedRowLine(row: Row)
    requires WellFormed(row) && DelayValue(row) > 0
    ensures EffectOf(row) == Printed(
      Str(row[ID]) + ". " + Str(row[ORIGIN_AIRPORT]) + " -> " + Str(row[DESTINATION_AIRPORT])
      + " by " + Str(row[AIRLINE]) + ", Delay: " + IntToString(DelayValue(row)) + " Minutes")
  {
    ExtractClassifies(row);
  }

  /** A well-formed row whose delay is zero or negative, or missing, shows no delay clause. */
  lemma OnTimeRowLine(row: Row)
    requires WellFormed(row) && DelayValue(row) <= 0
    ensures EffectOf(row) == Printed(
      Str(row[ID]) + ". " + Str(row[ORIGIN_AIRPORT]) + " -> " + Str(row[DESTINATION_AIRPORT])
      + " by " + Str(row[AIRLINE]))
  {
    ExtractClassifies(row);
  }

  /** No DELAY column reads as a delay of 0, so the line has no delay clause. */
  lemma MissingDelayIsOnTime(row: Row)
    requires DELAY !in row
    requires Readable(row, ORIGIN_AIRPORT) && Readable(row, DESTINATION_AIRPORT)
    requires Readable(row, AIRLINE) && Readable(row, ID)
    ensures WellFormed(row) && DelayValue(row) == 0
    ensures EffectOf(row) == Printed(
      Str(row[ID]) + ". " + Str(row[ORIGIN_AIRPORT]) + " -> " + Str(row[DESTINATION_AIRPORT])
      + " by " + Str(row[AIRLINE]))
  {
    OnTimeRowLine(row);
  }

  /** The error line names the read that failed: the delay first, then the first of the
      four mandatory columns, in reading order, that is missing or unreadable. */
  lemma MalformedRowMessage(row: Row)
    requires !WellFormed(row) && !DelayIsNull(row)
    ensures !DelayReadable(row) ==> EffectOf(row) == Printed(ERROR_PREFIX + DelayFault(row))
    ensures DelayReadable(row) ==>
      exists i :: FirstUnreadable(row, i) && EffectOf(row) == Printed(ERROR_PREFIX + ReadFault(row, MANDATORY[i]))
  {
    if DelayReadable(row) {
      var i :=
        if !Readable(row, ORIGIN_AIRPORT) then 0
        else if !Readable(row, DESTINATION_AIRPORT) then 1
        else if !Readable(row, AIRLINE) then 2
        else 3;
      assert FirstUnreadable(row, i);
    }
  }

  /** Only one column can be the first unreadable one. */
  lemma FirstUnreadableUnique(row: Row, i: int, j: int)
    requires FirstUnreadable(row, i) && FirstUnreadable(row, j)
    ensures i == j
  {
  }

  /** The extraction order produces exactly the behaviour `ShownAs` states case by case. */
  lemma EffectOfShownAs(row: Row)
    ensures ShownAs(row, EffectOf(row))
  {
    ExtractClassifies(row);
    if !WellFormed(row) && !DelayIsNull(row) {
      MalformedRowMessage(row);
    }
  }

  /** `ShownAs` leaves no choice: one effect fits a row, and it is the extraction's. */
  lemma ShownAsIsEffectOf(row: Row, e: Effect)
    requires ShownAs(row, e)
    ensures e == EffectOf(row)
  {
    EffectOfShownAs(row);
    if DelayReadable(row) && !WellFormed(row) {
      var i :| FirstUnreadable(row, i) && e == Printed(ERROR_PREFIX + ReadFault(row, MANDATORY[i]));
      var j :| FirstUnreadable(row, j) && EffectOf(row) == Printed(ERROR_PREFIX + ReadFault(row, MANDATORY[j]));
      FirstUnreadableUnique(row, i, j);
    }
  }

  // ---------------------------------------------------------------------------
  // The whole batch

  /** The lines the loop prints are the effects' lines in order, up to the first effect
      that raises; the loop raises exactly when some effect does. */
  lemma {:induction false} RunMeaning(effects: seq<Effect>)
    ensures var out := Run(effects);
      && |out.lines| <= |effects|
      && (forall k :: 0 <= k < |out.lines| ==> effects[k] == Printed(out.lines[k]))
      && (out.crashed <==> |out.lines| < |effects|)
      && (out.crashed ==> effects[|out.lines|].Raised?)
  {
    if effects != [] && effects[0].Printed? {
      RunMeaning(effects[1..]);
    }
  }

  /** The first line counts every row, malformed ones included; then come the rows'
      lines in order, one per row, until a row with a NULL delay raises. */
  lemma PresentMeaning(rows: seq<Row>)
    ensures var out := Present(rows);
      && 1 <= |out.lines| <= |rows| + 1
      && out.lines[0] == "Got " + IntToString(|rows|) + " results."
      && (forall k :: 0 <= k < |out.lines| - 1 ==> EffectOf(rows[k]) == Printed(out.lines[k + 1]))
      && (!out.crashed ==> |out.lines| == |rows| + 1)
      && (out.crashed ==> |out.lines| <= |rows|)
      && (out.crashed <==> exists k :: 0 <= k < |rows| && DelayIsNull(rows[k]))
      && (out.crashed ==> DelayIsNull(rows[|out.lines| - 1]))
  {
    var effects := Effects(rows);
    var body := Run(effects);
    RunMeaning(effects);
    var out := Present(rows);
    assert out == Output([CountLine(|rows|)] + body.lines, body.crashed);
    forall k | 0 <= k < |body.lines|
      ensures EffectOf(rows[k]) == Printed(out.lines[k + 1]) && !DelayIsNull(rows[k])
    {
      EffectsAt(rows, k);
      RaisesIffNull(rows[k]);
      assert out.lines[k + 1] == body.lines[k];
    }
    if body.crashed {
      EffectsAt(rows, |body.lines|);
      RaisesIffNull(rows[|body.lines|]);
    }
  }

  /** A row's effect raises exactly when its delay is NULL. */
  lemma RaisesIffNull(row: Row)
    ensures EffectOf(row).Raised? <==> DelayIsNull(row)
  {
    ExtractClassifies(row);
  }

  /** With no NULL delay, exactly one line follows the count line per row: the flight
      for a well-formed row, an error line for any other; the last clause says which
      line, through `ShownAs`. */
  lemma OneLinePerRow(rows: seq<Row>)
    requires forall k :: 0 <= k < |rows| ==> !DelayIsNull(rows[k])
    ensures !Present(rows).crashed
    ensures |Present(rows).lines| == |rows| + 1
    ensures forall k :: 0 <= k < |rows| ==>
      (WellFormed(rows[k]) ==> Present(rows).lines[k + 1] == FlightLine(Extract(rows[k]).flight))
      && (!WellFormed(rows[k]) ==> exists m :: Present(rows).lines[k + 1] == ERROR_PREFIX + m)
    ensures forall k :: 0 <= k < |rows| ==> ShownAs(rows[k], Printed(Present(rows).lines[k + 1]))
  {
    PresentMeaning(rows);
    forall k | 0 <= k < |rows|
      ensures WellFormed(rows[k]) ==> Present(rows).lines[k + 1] == FlightLine(Extract(rows[k]).flight)
      ensures !WellFormed(rows[k]) ==> exists m :: Present(rows).lines[k + 1] == ERROR_PREFIX + m
      ensures ShownAs(rows[k], Printed(Present(rows).lines[k + 1]))
    {
      ExtractClassifies(rows[k]);
      EffectOfShownAs(rows[k]);
    }
  }

  /** An empty batch prints the count line and nothing else. */
  lemma NoResults()
    ensures Present([]) == Output(["Got 0 results."], false)
  {
    assert NatToString(0) == ['0'];
    assert CountLine(0) == "Got 0 results.";
    assert Effects([]) == [];
  }

  // ---------------------------------------------------------------------------
  // The loop as the source writes it

  /** One step of the loop: the row at `i` either raises or prints one line before the rest. */
  lemma RunStep(effects: seq<Effect>, i: nat)
    requires i < |effects|
    ensures effects[i].Raised? ==> Run(effects[i..]) == Output([], true)
    ensures effects[i].Printed? ==>
      Run(effects[i..]) == Output([effects[i].line] + Run(effects[i + 1..]).lines, Run(effects[i + 1..]).crashed)
  {
    assert effects[i..][1..] == effects[i + 1..];
  }

  /** The body of the loop for one row: the `try` block, then the line it prints, or the
      exception that escapes. */
  method ShowRow(row: Row) returns (effect: Effect)
    ensures ShownAs(row, effect)
  {
    EffectOfShownAs(row);
    var extraction := Extract(row);
    if extraction.Uncaught? {
      return Raised;
    }
    if extraction.Caught? {
      return Printed(ERROR_PREFIX + extraction.message);
    }
    effect := Printed(FlightLine(extraction.flight));
  }

  /** The loop body applied to the row at `i`: its effect is the one `Effects` lists there. */
  method ShowRowAt(rows: seq<Row>, i: nat) returns (effect: Effect)
    requires i < |rows|
    ensures effect == Effects(rows)[i]
  {
    effect := ShowRow(rows[i]);
    ShownAsIsEffectOf(rows[i], effect);
    EffectsAt(rows, i);
  }

  /** `display_flight_results(rows)`: prints exactly what `Present` describes. */
  method DisplayFlightResults(rows: seq<Row>) returns (lines: seq<string>, crashed: bool)
    ensures Output(lines, crashed) == Present(rows)
  {
    ghost var effects := Effects(rows);
    ghost var body := Run(effects);
    var printed: seq<string> := [];
    crashed := false;
    var i := 0;
    while i < |rows|
      invariant 0 <= i <= |rows|
      invariant body.lines == printed + Run(effects[i..]).lines
      invariant body.crashed == Run(effects[i..]).crashed
    {
      RunStep(effects, i);
      var effect := ShowRowAt(rows, i);
      if effect.Raised? {
        crashed := true;
        break;
      }
      printed := printed + [effect.line];
      i := i + 1;
    }
    assert i == |rows| ==> effects[i..] == [];
    lines := [CountLine(|rows|)] + printed;
  }
}
