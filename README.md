# Flight console: validation and result display

A Dafny model of the operator-facing part of the Sky_SQL flight lookup console
(`main.py`). The console shows a five-entry menu, prompts for the parameter of
the chosen query (a flight id, a travel date, an airline name or an origin
airport code), re-prompts until the input is acceptable, passes the parameter
to the data layer and prints the rows it gets back.

The model has six modules:

- `Wrappers` (wrappers.dfy): `Option` and `Result`.
- `Text` (text.dfy): the Python conversions the console uses, restricted to ASCII.
  These are `str()` of an integer (`IntToString`), `int()` of a string
  (`ParseInt`: surrounding whitespace, an optional sign, decimal digits) and
  `str.isalpha()`. The round trip `int(str(n)) == n` is proved.
- `Records` (records.dfy): a result row as a map from column name to a value.
  A value is an integer, text, NULL, or a name the row mapping cannot resolve
  (reading it raises a `SQLAlchemyError`). A missing key is a missing column.
- `Presenter` (presenter.dfy): `display_flight_results`. `Present` is the
  specification function and `DisplayFlightResults` is the loop, proved to
  print exactly what `Present` describes. The lemmas cover the count line, the
  two line formats, the per-row fault isolation, row order and the one
  uncaught failure.
- `Prompts` (prompts.dfy): the re-prompt loops. `PromptUntilAccepted` is the
  shared `while True` shape over a finite sequence of input lines. The airport
  code, flight id, travel date and menu prompts are instances of it.
- `Queries` (queries.dfy): the four query actions. Each one prompts, issues
  one data-layer query and displays the rows. The data layer is a parameter
  `db: Query -> seq<Row>`.

The model follows the code in two places where a reader might expect otherwise:

- A row whose DELAY column holds NULL is not skipped and not read as delay 0.
  `int(None)` raises `TypeError`, and the `except` clause does not catch it, so
  the display stops at that row and the exception leaves the function
  (`Output.crashed`, status `Aborted`). Only a missing DELAY column reads as 0.
- The airport code is only checked; its case is neither normalised nor fixed.
  "jfk" is accepted and passed on as typed.

## Model

| member | source | states |
|---|---|---|
| `Text.NatToString` | main.py:58 | the decimal text of a natural number is non-empty, all digits, and has no leading zero |
| `Text.NatToStringValue` | main.py:58 | the digits printed for n denote n |
| `Text.ParseIntRoundTrip` | main.py:32 | `int()` of the text an integer prints as gives back that integer |
| `Text.TrimStart` | main.py:32 | `int()` drops only leading whitespace, up to the first non-space character |
| `Text.TrimEnd` | main.py:32 | `int()` drops only trailing whitespace, back to the last non-space character |
| `Presenter.ConvertDelay` | main.py:64 | `int(result_dict.get('DELAY', 0))`: a missing column is 0; it raises the uncaught `TypeError` iff the delay is NULL; it fails with a caught error iff the delay is unreadable or text `int()` rejects; a converted delay is what `int()` reads back from the printed column |
| `Presenter.Extract` | main.py:63-71 | the `try` block: the delay first, then `ORIGIN_AIRPORT`, `DESTINATION_AIRPORT`, `AIRLINE`, `ID` in that order, the first failing read giving the caught message; specified by `ExtractClassifies`, `MalformedRowMessage` and `EffectOfShownAs` |
| `Presenter.FlightLine` | main.py:74-77 | the two display formats; specified by `DelayedRowLine` and `OnTimeRowLine` |
| `Presenter.EffectOf` | main.py:61-77 | one pass of the loop body: the flight line, the `Error processing result: ` line, or the uncaught exception; specified by `EffectOfShownAs` and `ShownAsIsEffectOf` |
| `Presenter.Effects` | main.py:60 | one effect per row, in the rows' order |
| `Presenter.Run` | main.py:60-77 | the loop over the rows; specified by `RunMeaning` |
| `Presenter.Present` | main.py:56-77 | everything the function prints; specified by `PresentMeaning`, `OneLinePerRow` and `NoResults` |
| `Presenter.CountLine` | main.py:58 | the `Got N results.` line; its text is stated in `PresentMeaning` and `NoResults` |
| `Presenter.ExtractClassifies` | main.py:63-71 | a row yields a flight iff its four mandatory columns can be read and its delay is absent, an integer, or text `int()` accepts; it raises iff its delay is NULL; it yields one error line otherwise |
| `Presenter.MalformedRowMessage` | main.py:63-70 | the error line names the read that failed: the delay's error when `int()` rejects it, otherwise the first of `ORIGIN_AIRPORT`, `DESTINATION_AIRPORT`, `AIRLINE`, `ID`, in reading order, that is missing (`NoSuchColumnError`) or unreadable (`SQLAlchemyError`) |
| `Presenter.MissingColumnMessage` | main.py:65-70 | the text printed for a missing mandatory column: the row mapping's `Could not locate column in row for column 'COL'` |
| `Presenter.IntLiteralErrorMessage` | main.py:64-70 | the text printed for a DELAY text `int()` rejects: `invalid literal for int() with base 10: 'TEXT'`, the quoted text cut to 200 characters as `%.200R` does |
| `Presenter.FirstUnreadableUnique` | main.py:65-68 | only one column is the first that cannot be read |
| `Presenter.EffectOfShownAs` | main.py:61-77 | the loop body does, for every row, what `ShownAs` states case by case: it raises iff the delay is NULL; a well-formed row prints its flight with the converted delay; a rejected delay prints its error; otherwise the first failing column's error is printed |
| `Presenter.ShownAsIsEffectOf` | main.py:61-77 | `ShownAs` determines the effect: the row-by-row description and the extraction order agree on every row |
| `Presenter.DelayedRowLine` | main.py:74-75 | a well-formed row with delay > 0 prints `{id}. {origin} -> {destination} by {airline}, Delay: {delay} Minutes` |
| `Presenter.OnTimeRowLine` | main.py:76-77 | a well-formed row with delay <= 0, negative included, prints `{id}. {origin} -> {destination} by {airline}` with no delay clause |
| `Presenter.MissingDelayIsOnTime` | main.py:64 | a row without a DELAY column has delay 0 and prints without the delay clause |
| `Presenter.RunMeaning` | main.py:60-77 | the loop prints each row's line in input order and stops exactly at the first row that raises |
| `Presenter.PresentMeaning` | main.py:56-77 | the first line is `Got N results.` with N counting every row; the following lines are the rows' lines in order; the display raises iff some row has a NULL delay, and then at the first such row |
| `Presenter.OneLinePerRow` | main.py:58-77 | with no NULL delay there is exactly one line per row after the count line: the flight for a well-formed row and an `Error processing result: ` line for any other row, each line as `ShownAs` describes its row |
| `Presenter.NoResults` | main.py:58 | an empty result prints exactly `Got 0 results.` |
| `Presenter.ShowRow` | main.py:61-77 | one pass of the loop body: it raises iff the delay is NULL, prints the flight of a well-formed row, and otherwise prints `Error processing result: ` with the message of the first read that failed |
| `Presenter.DisplayFlightResults` | main.py:56-77 | the loop prints exactly the lines `Present` describes and raises exactly when it does |
| `Text.ParseInt` | main.py:32 | `int()` of a line: surrounding whitespace, an optional sign and decimal digits; specified by `ParseIntRoundTrip`, `TrimStart` and `TrimEnd` |
| `Text.IntToString` | main.py:58 | `str()` of an integer: never empty; `int()` reads it back (`ParseIntRoundTrip`) |
| `Text.IsAlpha` | main.py:20 | `str.isalpha()`: non-empty and all letters; specified by `AirportCodeRule` |
| `Records.Str` | main.py:75-77 | `str()` of a column value in an f-string: an integer prints as text `int()` reads back, text as itself, NULL as `None` |
| `Prompts.PromptUntilAccepted` | main.py:18-22 | the answer comes from the first accepted line; each earlier line printed its own complaint; with no acceptable line, all inputs are read and there is no answer |
| `Prompts.AirportCodeRule` | main.py:20 | a code is accepted iff it has exactly `AIRPORT_CODE_LENGTH` = 3 characters and all are letters, in either case |
| `Prompts.PromptOriginCode` | main.py:18-22 | the code returned is the first valid input, unchanged; each earlier input printed `Invalid airport code. Please try again.` |
| `Prompts.PromptFlightId` | main.py:30-35 | the id is the value of the first input `int()` accepts; each earlier input printed `Invalid input. Please enter a numeric ID.` |
| `Prompts.AnyIntegerIsAnId` | main.py:32 | the printed text of every integer, negative numbers and zero included, is accepted as that id: there is no range check |
| `Prompts.PromptTravelDate` | main.py:44-50 | the date comes from the first input that parses; each earlier input printed `Invalid date format. ` followed by the parse error |
| `Prompts.IsValidAirportCode` | main.py:20 | `origin_code.isalpha() and len(origin_code) == AIRPORT_CODE_LENGTH`; specified by `AirportCodeRule` |
| `Prompts.Lookup` | main.py:99-100 | `key in menu_options` and `menu_options[key][0]`: no handler iff no option has the key, otherwise the handler of an option with that key |
| `Prompts.MenuChoice` | main.py:98-100 | the handler a typed line selects; specified by `MenuChoiceRule` |
| `Prompts.OptionLine` | main.py:94 | one option line `{key}. {description}`; stated for every option by `PrintMenuListing` |
| `Prompts.PrintMenuListing` | main.py:92-94 | the banner, then one line per option in table order |
| `Prompts.PromptMenuChoice` | main.py:96-103 | the handler of the first line that selects one; each earlier line selected nothing and printed `Invalid selection. Try again...`; with no such line, all inputs are read and there is no handler |
| `Prompts.MenuChoiceRule` | main.py:84-100 | a line selects a handler iff it parses as an integer from 1 to 5, and the keys 1 to 5 select by-id, by-date, by-airline, by-airport and exit |
| `Prompts.ShowApplicationMenu` | main.py:80-103 | prints the banner and the five option lines in table order, then `Invalid selection. Try again...` once per line that selects nothing, and returns the handler of the first line that selects one |
| `Queries.Issue` | main.py:12-13 | the query is issued as given and its rows are displayed after what was already printed |
| `Queries.QueryDelayedFlightsByCarrier` | main.py:9-13 | the first input line, whatever it is, is the airline name of the query |
| `Queries.QueryDelayedFlightsByOrigin` | main.py:16-25 | a query is issued iff some input is a valid code; it carries the first valid code as typed, after one complaint per earlier line |
| `Queries.QueryFlightByIdentifier` | main.py:28-38 | a query is issued iff some input is an integer; it carries the first such integer, after one complaint per earlier line |
| `Queries.QueryFlightsByTravelDate` | main.py:41-53 | a query is issued iff some input parses as a date; it carries that date's day, month and year, after one complaint per earlier line |

## Left out

- The data layer (data.py) is not part of this model. It holds a SQLAlchemy engine, four SQL texts, and error handling that returns an empty list on failure. Here it is the parameter `db`. The `DELAY >= 20` filter and the `ORDER BY DELAY DESC` ordering run inside SQLite. When a query fails, the data layer prints a `Database error: …` or `Unexpected error: …` line before `Got 0 results.`; that line is not part of `Transcript.output`.
- `datetime.strptime(..., '%d/%m/%Y')` belongs to the standard library. `PromptTravelDate` takes it as a `parse` parameter. Leap days and field widths are therefore not modelled.
- `Text.ParseInt` accepts ASCII whitespace, a sign and ASCII digits. It does not accept Python's underscores between digits, Unicode digits or Unicode whitespace. It also has no digit limit: CPython's `int()` rejects a decimal text longer than `sys.get_int_max_str_digits()` (4300 by default) with a `ValueError`. The model accepts such a line as a flight id or a menu key, and converts such a DELAY text instead of printing its error.
- `Text.IsAlpha` accepts ASCII letters only. `str.isalpha()` also accepts the other Unicode letters.
- `Presenter.IntLiteralErrorMessage` puts the rejected DELAY text between plain single quotes and cuts the result to 200 characters. CPython's `repr` escaping is not modelled. A text holding a quote is quoted differently there, and one holding a backslash, a control character or a non-printable character is escaped. The 200-character cut then applies to the escaped form.
- `Presenter.MalformedRowMessage` models a `SQLAlchemyError` as a column the mapping cannot resolve, carrying its message; the wording SQLAlchemy gives that message is not modelled.
- A `SQLAlchemyError` raised by `result._mapping` itself (main.py:61), outside the `try` block, is not modelled: the row mapping is taken as given.
- A DELAY holding a floating-point number, which `int()` truncates, is not modelled. Values are integers, text or NULL.
- Console I/O is modelled only in part. Output is the sequence of lines passed to `print`, and input is a finite sequence of lines. The prompt text that `input()` writes is not modelled. An exhausted input ends a prompt with no answer (status `OutOfInput`). Python would raise `EOFError` there.
- The `main` loop, the dispatch of the selected handler and `quit` (main.py:106-114) are not modelled. They only repeat the menu forever, and their I/O is excluded as above.
