/** The operator prompts: each reads lines until one is acceptable, printing a complaint
    for every line it rejects. Input is a finite sequence of lines; running out of it
    ends the prompt with no answer. */
module Prompts {
  import opened Wrappers
  import opened Text

  // ---------------------------------------------------------------------------
  // The shared loop shape

  /** `while True: line = input(); if accepted: break; print(complaint)`. `check` says,
      for one line, either the value it yields or the line printed to reject it.
      The answer comes from the first accepted line; `complaints` are the lines printed
      for the lines read before it; `consumed` is how many lines were read. */
  method PromptUntilAccepted<T>(inputs: seq<string>, check: string -> Result<T, string>)
    returns (answer: Option<T>, complaints: seq<string>, consumed: nat)
    ensures |complaints| <= consumed <= |inputs|
    ensures forall j :: 0 <= j < |complaints| ==> check(inputs[j]) == Failure(complaints[j])
    ensures answer.Some? ==>
      consumed == |complaints| + 1 && check(inputs[consumed - 1]) == Success(answer.value)
    ensures answer.None? ==> consumed == |complaints| == |inputs|
  {
    complaints := [];
    var i := 0;
    while i < |inputs|
      invariant 0 <= i <= |inputs|
      invariant |complaints| == i
      invariant forall j :: 0 <= j < i ==> check(inputs[j]) == Failure(complaints[j])
    {
      var outcome := check(inputs[i]);
      if outcome.Success? {
        return Some(outcome.value), complaints, i + 1;
      }
      complaints := complaints + [outcome.error];
      i := i + 1;
    }
    answer, consumed := None, i;
  }

  // ---------------------------------------------------------------------------
  // Origin airport code

  const AIRPORT_CODE_LENGTH := 3
  const INVALID_AIRPORT := "Invalid airport code. Please try again."

  /** `origin_code.isalpha() and len(origin_code) == AIRPORT_CODE_LENGTH`. */
  predicate IsValidAirportCode(code: string) {
    IsAlpha(code) && |code| == AIRPORT_CODE_LENGTH
  }

  function AirportCheck(line: string): Result<string, string> {
    if IsValidAirportCode(line) then Success(line) else Failure(INVALID_AIRPORT)
  }

  /** A code is accepted exactly when it is three letters; case is not looked at. */
  lemma AirportCodeRule(code: string)
    ensures IsValidAirportCode(code) <==>
      |code| == 3 && forall i :: 0 <= i < |code| ==> IsLetter(code[i])
    ensures IsValidAirportCode("LAX") && IsValidAirportCode("jfk") && IsValidAirportCode("sFo")
    ensures !IsValidAirportCode("") && !IsValidAirportCode("LA") && !IsValidAirportCode("LAXX")
    ensures !IsValidAirportCode("L4X") && !IsValidAirportCode("LA ")
  {
    assert !IsLetter('4') && !IsLetter(' ');
    assert "L4X"[1] == '4' && "LA "[2] == ' ';
  }

  /** The loop in `query_delayed_flights_by_origin`: the first valid code, unchanged. */
  method PromptOriginCode(inputs: seq<string>) returns (code: Option<string>, complaints: seq<string>, consumed: nat)
    ensures |complaints| <= consumed <= |inputs|
    ensures forall j :: 0 <= j < |complaints| ==> !IsValidAirportCode(inputs[j]) && complaints[j] == INVALID_AIRPORT
    ensures code.Some? ==>
      consumed == |complaints| + 1 && code.value == inputs[consumed - 1] && IsValidAirportCode(code.value)
    ensures code.None? ==> consumed == |complaints| == |inputs|
  {
    code, complaints, consumed := PromptUntilAccepted(inputs, AirportCheck);
  }

  // ---------------------------------------------------------------------------
  // Flight identifier

  const INVALID_ID := "Invalid input. Please enter a numeric ID."

  function FlightIdCheck(line: string): Result<int, string> {
    match ParseInt(line)
    case Some(n) => Success(n)
    case None => Failure(INVALID_ID)
  }

  /** The loop in `query_flight_by_identifier`: the first line `int()` accepts, of any
      value, negative numbers and zero included. */
  method PromptFlightId(inputs: seq<string>) returns (id: Option<int>, complaints: seq<string>, consumed: nat)
    ensures |complaints| <= consumed <= |inputs|
    ensures forall j :: 0 <= j < |complaints| ==> ParseInt(inputs[j]).None? && complaints[j] == INVALID_ID
    ensures id.Some? ==> consumed == |complaints| + 1 && ParseInt(inputs[consumed - 1]) == id
    ensures id.None? ==> consumed == |complaints| == |inputs|
  {
    id, complaints, consumed := PromptUntilAccepted(inputs, FlightIdCheck);
  }

  /** Any integer the operator types is taken as an identifier: there is no range check. */
  lemma AnyIntegerIsAnId(n: int)
    ensures FlightIdCheck(IntToString(n)) == Success(n)
  {
    ParseIntRoundTrip(n);
  }

  // ---------------------------------------------------------------------------
  // Travel date

  /** The fields of the `datetime` that `strptime(line, '%d/%m/%Y')` returns. */
  datatype Date = Date(day: int, month: int, year: int)

  /** `parse` stands for `datetime.strptime(line, '%d/%m/%Y')`: the date, or the text of
      the `ValueError` it raises. */
  function DateCheck(parse: string -> Result<Date, string>, line: string): Result<Date, string> {
    match parse(line)
    case Success(d) => Success(d)
    case Failure(reason) => Failure("Invalid date format. " + reason)
  }

  /** The loop in `query_flights_by_travel_date`: the first line that parses as a date. */
  method PromptTravelDate(inputs: seq<string>, parse: string -> Result<Date, string>)
    returns (date: Option<Date>, complaints: seq<string>, consumed: nat)
    ensures |complaints| <= consumed <= |inputs|
    ensures forall j :: 0 <= j < |complaints| ==>
      parse(inputs[j]).Failure? && complaints[j] == "Invalid date format. " + parse(inputs[j]).error
    ensures date.Some? ==>
      consumed == |complaints| + 1 && parse(inputs[consumed - 1]) == Success(date.value)
    ensures date.None? ==> consumed == |complaints| == |inputs|
  {
    date, complaints, consumed := PromptUntilAccepted(inputs, line => DateCheck(parse, line));
  }

  // ---------------------------------------------------------------------------
  // Application menu

  /** The handlers the menu can return. */
  datatype Action = ShowFlightById | ShowFlightsByDate | ShowDelayedByAirline | ShowDelayedByAirport | Exit

  datatype MenuOption = MenuOption(key: int, action: Action, description: string)

  /** The option table, in the order its entries are listed. */
  const MENU_OPTIONS: seq<MenuOption> := [
    MenuOption(1, ShowFlightById, "Show flight by ID"),
    MenuOption(2, ShowFlightsByDate, "Show flights by date"),
    MenuOption(3, ShowDelayedByAirline, "Delayed flights by airline"),
    MenuOption(4, ShowDelayedByAirport, "Delayed flights by origin airport"),
    MenuOption(5, Exit, "Exit")
  ]

  const MENU_BANNER := "\n------Menu------\n"
  const INVALID_SELECTION := "Invalid selection. Try again..."

  /** `menu_options[key][0]` when `key in menu_options`. */
  function Lookup(options: seq<MenuOption>, key: int): (r: Option<Action>)
    ensures r.None? <==> forall k :: 0 <= k < |options| ==> options[k].key != key
    ensures r.Some? ==> exists k :: 0 <= k < |options| && options[k].key == key && options[k].action == r.value
  {
    if options == [] then None
    else if options[0].key == key then Some(options[0].action)
    else Lookup(options[1..], key)
  }

  /** The handler a typed line selects, if any. */
  function MenuChoice(line: string): Option<Action> {
    match ParseInt(line)
    case Some(n) => Lookup(MENU_OPTIONS, n)
    case None => None
  }

  function MenuCheck(line: string): Result<Action, string> {
    match MenuChoice(line)
    case Some(a) => Success(a)
    case None => Failure(INVALID_SELECTION)
  }

  /** The keys 1 to 5 select the five handlers; every other integer and every
      non-numeric line selects nothing. */
  lemma MenuChoiceRule(line: string)
    ensures MenuChoice(line).Some? <==> ParseInt(line).Some? && 1 <= ParseInt(line).value <= 5
    ensures ParseInt(line) == Some(1) ==> MenuChoice(line) == Some(ShowFlightById)
    ensures ParseInt(line) == Some(2) ==> MenuChoice(line) == Some(ShowFlightsByDate)
    ensures ParseInt(line) == Some(3) ==> MenuChoice(line) == Some(ShowDelayedByAirline)
    ensures ParseInt(line) == Some(4) ==> MenuChoice(line) == Some(ShowDelayedByAirport)
    ensures ParseInt(line) == Some(5) ==> MenuChoice(line) == Some(Exit)
  {
    if ParseInt(line).Some? {
      var n := ParseInt(line).value;
      var rest := MENU_OPTIONS;
      assert Lookup(rest, n) == if n == 1 then Some(ShowFlightById) else Lookup(rest[1..], n);
      rest := rest[1..];
      assert Lookup(rest, n) == if n == 2 then Some(ShowFlightsByDate) else Lookup(rest[1..], n);
      rest := rest[1..];
      assert Lookup(rest, n) == if n == 3 then Some(ShowDelayedByAirline) else Lookup(rest[1..], n);
      rest := rest[1..];
      assert Lookup(rest, n) == if n == 4 then Some(ShowDelayedByAirport) else Lookup(rest[1..], n);
      rest := rest[1..];
      assert Lookup(rest, n) == if n == 5 then Some(Exit) else Lookup(rest[1..], n);
      assert rest[1..] == [];
    }
  }

  function OptionLine(option: MenuOption): string {
    IntToString(option.key) + ". " + option.description
  }

  /** `show_application_menu`: prints the banner and one line per option, then reads
      lines until one selects an option, complaining about each line that does not. */
  method ShowApplicationMenu(inputs: seq<string>) returns (choice: Option<Action>, output: seq<string>, consumed: nat)
    ensures |MENU_OPTIONS| + 1 <= |output| <= |MENU_OPTIONS| + 1 + consumed && consumed <= |inputs|
    ensures output[0] == MENU_BANNER
    ensures forall k :: 0 <= k < |MENU_OPTIONS| ==> output[k + 1] == OptionLine(MENU_OPTIONS[k])
    ensures forall j :: |MENU_OPTIONS| + 1 <= j < |output| ==>
      MenuChoice(inputs[j - |MENU_OPTIONS| - 1]).None? && output[j] == INVALID_SELECTION
    ensures choice.Some? ==>
      consumed == |output| - |MENU_OPTIONS| && MenuChoice(inputs[consumed - 1]) == choice
    ensures choice.None? ==> consumed == |output| - |MENU_OPTIONS| - 1 == |inputs|
  {
    var listing := PrintMenuListing();
    var complaints;
    choice, complaints, consumed := PromptMenuChoice(inputs);
    output := listing + complaints;
    assert forall j :: |listing| <= j < |output| ==> output[j] == complaints[j - |listing|];
  }

  /** The selection loop: the first line that selects a handler; one complaint per line before it. */
  method PromptMenuChoice(inputs: seq<string>) returns (choice: Option<Action>, complaints: seq<string>, consumed: nat)
    ensures |complaints| <= consumed <= |inputs|
    ensures forall j :: 0 <= j < |complaints| ==> MenuChoice(inputs[j]).None? && complaints[j] == INVALID_SELECTION
    ensures choice.Some? ==> consumed == |complaints| + 1 && MenuChoice(inputs[consumed - 1]) == choice
    ensures choice.None? ==> consumed == |complaints| == |inputs|
  {
    choice, complaints, consumed := PromptUntilAccepted(inputs, MenuCheck);
  }

  /** The banner, then one line per option in table order. */
  method PrintMenuListing() returns (output: seq<string>)
    ensures |output| == |MENU_OPTIONS| + 1
    ensures output[0] == MENU_BANNER
    ensures forall k :: 0 <= k < |MENU_OPTIONS| ==> output[k + 1] == OptionLine(MENU_OPTIONS[k])
  {
    output := [MENU_BANNER];
    for k := 0 to |MENU_OPTIONS|
      invariant |output| == k + 1 && output[0] == MENU_BANNER
      invariant forall m :: 0 <= m < k ==> output[m + 1] == OptionLine(MENU_OPTIONS[m])
    {
      output := output + [OptionLine(MENU_OPTIONS[k])];
    }
  }
}
