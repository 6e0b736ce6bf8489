/** The request validators of middleware/validation.js. Each one either
    passes the request on (`Next`) or answers 400 itself. Body and path
    fields are strings here. An absent field and an empty one are both the
    empty string, since the validators only test them for truthiness. */
module Validation {
  import opened Common

  /** A failed check of the collecting validators; `Message` gives the
      text reported for it. */
  datatype Problem =
    | UsernameTooShort | UsernameTooLong | EmailInvalid | PasswordTooShort
    | EmailRequired | PasswordRequired
    | PlanNameRequired | PlanNameTooLong | CityRequired | TooManyCities
    | StartDateRequired | EndDateRequired | EndBeforeStart | StartInPast

  function Message(p: Problem): string
  {
    match p
    case UsernameTooShort => "Username must be at least 3 characters long"
    case UsernameTooLong => "Username must be less than 30 characters"
    case EmailInvalid => "Please provide a valid email address"
    case PasswordTooShort => "Password must be at least 6 characters long"
    case EmailRequired => "Email is required"
    case PasswordRequired => "Password is required"
    case PlanNameRequired => "Plan name is required"
    case PlanNameTooLong => "Plan name must be less than 100 characters"
    case CityRequired => "At least one city is required"
    case TooManyCities => "Maximum 10 cities allowed per plan"
    case StartDateRequired => "Start date is required"
    case EndDateRequired => "End date is required"
    case EndBeforeStart => "End date must be after start date"
    case StartInPast => "Start date cannot be in the past"
  }

  /** What a validator does with the request. `Invalid` is the
      `{ error: 'Validation failed', messages }` reply, its messages being
      the `Message` of each problem. `Refused` is the single-message
      `{ error, message }` reply. Both have status 400. */
  datatype Verdict =
    | Next
    | Invalid(problems: seq<Problem>)
    | Refused(error: string, message: string)

  // ---------------------------------------------------------------------
  // validateRegistration
  // ---------------------------------------------------------------------

  /** `\w`: an ASCII letter, digit or underscore. */
  predicate WordChar(c: char)
  {
    'a' <= c <= 'z' || 'A' <= c <= 'Z' || '0' <= c <= '9' || c == '_'
  }

  predicate Separator(c: char)
  {
    c == '.' || c == '-'
  }

  /** `\w+([.-]?\w+)*`: word characters, with single dots or hyphens
      between them. */
  predicate WordRun(s: string)
  {
    && |s| > 0 && WordChar(s[0]) && WordChar(s[|s| - 1])
    && (forall i :: 0 <= i < |s| ==> WordChar(s[i]) || Separator(s[i]))
    && (forall i :: 0 <= i < |s| - 1 && Separator(s[i]) ==> WordChar(s[i + 1]))
  }

  /** `s` splits at `at` and `dot` as the e-mail pattern
      `^\w+([.-]?\w+)*@\w+([.-]?\w+)*(\.\w{2,3})+$` requires: a word run, `@`,
      a word run, then a last `.` followed by two or three word characters. */
  predicate EmailSplit(s: string, at: int, dot: int)
  {
    && 0 <= at < dot < |s| && s[at] == '@' && s[dot] == '.'
    && WordRun(s[..at]) && WordRun(s[at + 1..dot])
    && 2 <= |s| - dot - 1 <= 3 && (forall k :: dot < k < |s| ==> WordChar(s[k]))
  }

  /** The language of the e-mail pattern. The earlier repetitions of its
      `(\.\w{2,3})` group add nothing, because each one also extends the
      preceding word run. */
  predicate IsEmail(s: string)
  {
    exists at, dot | 0 <= at < dot < |s| :: EmailSplit(s, at, dot)
  }

  /** An accepted address has exactly one `@`. */
  lemma EmailHasOneAt(s: string)
    requires IsEmail(s)
    ensures exists at :: 0 <= at < |s| && s[at] == '@'
    ensures forall i, j :: 0 <= i < |s| && 0 <= j < |s| && s[i] == '@' && s[j] == '@' ==> i == j
  {
    var at, dot :| 0 <= at < dot < |s| && EmailSplit(s, at, dot);
    var local, domain := s[..at], s[at + 1..dot];
    assert '@' !in local && '@' !in domain;
    forall i | 0 <= i < |s| && i != at ensures s[i] != '@' {
      if i < at {
        assert s[i] == local[i];
      } else if i < dot {
        assert s[i] == domain[i - at - 1];
      }
    }
  }

  predicate RegistrationAccepted(username: string, email: string, password: string)
  {
    |Trim(username)| >= 3 && |username| <= 30 && IsEmail(email) && |password| >= 6
  }

  /** The username checks. */
  method CheckUsername(username: string) returns (errors: seq<Problem>)
    ensures UsernameTooShort in errors <==> |Trim(username)| < 3
    ensures UsernameTooLong in errors <==> |username| > 30
    ensures forall p :: p in errors ==> p == UsernameTooShort || p == UsernameTooLong
  {
    errors := [];
    if username == "" || |Trim(username)| < 3 {
      errors := errors + [UsernameTooShort];
    }
    if username != "" && |username| > 30 {
      errors := errors + [UsernameTooLong];
    }
  }

  /** Runs every check and reports all the failures together. */
  method ValidateRegistration(username: string, email: string, password: string) returns (v: Verdict)
    ensures !v.Refused?
    ensures v == Next <==> RegistrationAccepted(username, email, password)
    ensures v.Invalid? ==> (UsernameTooShort in v.problems <==> |Trim(username)| < 3)
    ensures v.Invalid? ==> (UsernameTooLong in v.problems <==> |username| > 30)
    ensures v.Invalid? ==> (EmailInvalid in v.problems <==> !IsEmail(email))
    ensures v.Invalid? ==> (PasswordTooShort in v.problems <==> |password| < 6)
    ensures v.Invalid? ==> forall p :: p in v.problems ==>
      p == UsernameTooShort || p == UsernameTooLong || p == EmailInvalid || p == PasswordTooShort
  {
    var errors := CheckUsername(username);
    if email == "" || !IsEmail(email) {
      errors := errors + [EmailInvalid];
    }
    if password == "" || |password| < 6 {
      errors := errors + [PasswordTooShort];
    }
    if |errors| > 0 {
      assert errors[0] in errors;
      return Invalid(errors);
    }
    return Next;
  }

  /** An address whose domain has several dotted labels, the last of two
      letters, is accepted. */
  lemma TwoLetterTopLevelDomainAccepted()
    ensures IsEmail("jo@mail.co.uk")
  {
    var s := "jo@mail.co.uk";
    assert s[..2] == "jo" && s[3..10] == "mail.co";
    assert EmailSplit(s, 2, 10);
  }

  /** The pattern limits the last label to three characters, so an address
      ending in `.info` is refused. */
  lemma FourLetterTopLevelDomainRefused()
    ensures !IsEmail("jo@mail.info")
  {
    var s := "jo@mail.info";
    forall at, dot | 0 <= at < dot < |s| ensures !EmailSplit(s, at, dot) {
      assert s[8] == 'i' && s[9] == 'n';
    }
  }

  // ---------------------------------------------------------------------
  // validateLogin
  // ---------------------------------------------------------------------

  method ValidateLogin(email: string, password: string) returns (v: Verdict)
    ensures !v.Refused?
    ensures v == Next <==> email != "" && password != ""
    ensures v.Invalid? ==> (EmailRequired in v.problems <==> email == "")
    ensures v.Invalid? ==> (PasswordRequired in v.problems <==> password == "")
    ensures v.Invalid? ==> forall p :: p in v.problems ==> p in {EmailRequired, PasswordRequired}
  {
    var errors: seq<Problem> := [];
    if email == "" {
      errors := errors + [EmailRequired];
    }
    if password == "" {
      errors := errors + [PasswordRequired];
    }
    if |errors| > 0 {
      assert errors[0] in errors;
      return Invalid(errors);
    }
    return Next;
  }

  // ---------------------------------------------------------------------
  // validateTravelPlan
  // ---------------------------------------------------------------------

  /** A date field: absent or empty (falsy), text `new Date` cannot parse
      (an Invalid Date, for which every comparison is false), or an
      instant in milliseconds. */
  datatype DateInput = NoDate | Unparseable | At(ms: int)

  /** The `cities` field: falsy (absent, null, ''), a truthy value that is
      not an array, or an array. A non-array still has the `length` the
      "too many" check reads: a string's length, and 0 for a value whose
      `length` is undefined (undefined > 10 is false). */
  datatype CitiesInput = NoCities | NotAList(length: nat) | CityList(names: seq<string>)

  /** `cities.length` as the "too many" check sees it. */
  function CitiesLength(cities: CitiesInput): nat
  {
    match cities
    case NoCities => 0
    case NotAList(n) => n
    case CityList(names) => |names|
  }

  /** A plan passes when it has a non-blank name of at most 100
      characters, one to ten cities and both dates, and when the dates
      that parse put the start no earlier than now and before the end. */
  predicate TravelPlanAccepted(planName: string, cities: CitiesInput, start: DateInput, end: DateInput, now: int)
  {
    && |Trim(planName)| > 0 && |planName| <= 100
    && cities.CityList? && 1 <= |cities.names| <= 10
    && !start.NoDate? && !end.NoDate?
    && (start.At? && end.At? ==> start.ms < end.ms)
    && (start.At? ==> start.ms >= now)
  }

  /** The problems the date checks can report. */
  function DateProblems(): set<Problem>
  {
    {StartDateRequired, EndDateRequired, EndBeforeStart, StartInPast}
  }

  /** The problems the travel-plan checks can report. */
  function PlanProblems(): set<Problem>
  {
    {PlanNameRequired, PlanNameTooLong, CityRequired, TooManyCities} + DateProblems()
  }

  /** The plan-name checks. */
  method CheckPlanName(planName: string) returns (errors: seq<Problem>)
    ensures PlanNameRequired in errors <==> |Trim(planName)| == 0
    ensures PlanNameTooLong in errors <==> |planName| > 100
    ensures errors == [] <==> |Trim(planName)| > 0 && |planName| <= 100
    ensures forall p :: p in errors ==> p == PlanNameRequired || p == PlanNameTooLong
    ensures CityRequired !in errors && TooManyCities !in errors && StartDateRequired !in errors && EndDateRequired !in errors && EndBeforeStart !in errors && StartInPast !in errors
  {
    errors := [];
    if planName == "" || |Trim(planName)| == 0 {
      errors := errors + [PlanNameRequired];
    }
    if planName != "" && |planName| > 100 {
      errors := errors + [PlanNameTooLong];
    }
  }

  /** The city-list checks. */
  method CheckCities(cities: CitiesInput) returns (errors: seq<Problem>)
    ensures CityRequired in errors <==> !cities.CityList? || |cities.names| == 0
    ensures TooManyCities in errors <==> CitiesLength(cities) > 10
    ensures errors == [] <==> cities.CityList? && 1 <= |cities.names| <= 10
    ensures forall p :: p in errors ==> p == CityRequired || p == TooManyCities
    ensures PlanNameRequired !in errors && PlanNameTooLong !in errors && StartDateRequired !in errors && EndDateRequired !in errors && EndBeforeStart !in errors && StartInPast !in errors
  {
    errors := [];
    if cities.NoCities? || cities.NotAList? || |cities.names| == 0 {
      errors := errors + [CityRequired];
    }
    if !cities.NoCities? && CitiesLength(cities) > 10 {
      errors := errors + [TooManyCities];
    }
  }

  /** The date checks. */
  method CheckDates(start: DateInput, end: DateInput, now: int) returns (errors: seq<Problem>)
    ensures StartDateRequired in errors <==> start.NoDate?
    ensures EndDateRequired in errors <==> end.NoDate?
    ensures EndBeforeStart in errors <==> start.At? && end.At? && start.ms >= end.ms
    ensures StartInPast in errors <==> start.At? && !end.NoDate? && start.ms < now
    ensures errors == [] <==>
      && !start.NoDate? && !end.NoDate?
      && (start.At? && end.At? ==> start.ms < end.ms) && (start.At? ==> start.ms >= now)
    ensures forall p :: p in errors ==> p in DateProblems()
    ensures PlanNameRequired !in errors && PlanNameTooLong !in errors && CityRequired !in errors && TooManyCities !in errors
  {
    errors := [];
    if start.NoDate? {
      errors := errors + [StartDateRequired];
    }
    if end.NoDate? {
      errors := errors + [EndDateRequired];
    }
    if !start.NoDate? && !end.NoDate? {
      if start.At? && end.At? && start.ms >= end.ms {
        errors := errors + [EndBeforeStart];
      }
      if start.At? && start.ms < now {
        errors := errors + [StartInPast];
      }
    }
  }

  /** The date comparisons run only when both dates are truthy, and an
      unparseable date fails no comparison: such a date is let through. */
  method ValidateTravelPlan(planName: string, cities: CitiesInput, start: DateInput, end: DateInput, now: int)
    returns (v: Verdict)
    ensures !v.Refused?
    ensures v == Next <==> TravelPlanAccepted(planName, cities, start, end, now)
    ensures v.Invalid? ==> (PlanNameRequired in v.problems <==> |Trim(planName)| == 0)
    ensures v.Invalid? ==> (PlanNameTooLong in v.problems <==> |planName| > 100)
    ensures v.Invalid? ==> (CityRequired in v.problems <==> !cities.CityList? || |cities.names| == 0)
    ensures v.Invalid? ==> (TooManyCities in v.problems <==> CitiesLength(cities) > 10)
    ensures v.Invalid? ==> (StartDateRequired in v.problems <==> start.NoDate?)
    ensures v.Invalid? ==> (EndDateRequired in v.problems <==> end.NoDate?)
    ensures v.Invalid? ==> (EndBeforeStart in v.problems <==> start.At? && end.At? && start.ms >= end.ms)
    ensures v.Invalid? ==> (StartInPast in v.problems <==> start.At? && !end.NoDate? && start.ms < now)
    ensures v.Invalid? ==> forall p :: p in v.problems ==> p in PlanProblems()
  {
    var nameErrors := CheckPlanName(planName);
    var cityErrors := CheckCities(cities);
    var dateErrors := CheckDates(start, end, now);
    var errors := nameErrors + cityErrors + dateErrors;
    if |errors| > 0 {
      return Invalid(errors);
    }
    return Next;
  }

  // ---------------------------------------------------------------------
  // validateCityName and validateCurrencyCode
  // ---------------------------------------------------------------------

  const InvalidCityName := "Invalid city name"

  /** Blank after trimming, or longer than 50 characters before trimming;
      only the first failure is reported. */
  function ValidateCityName(city: string): (v: Verdict)
    ensures v == Next <==> |Trim(city)| > 0 && |city| <= 50
    ensures |Trim(city)| == 0 ==> v == Refused(InvalidCityName, "City name is required")
    ensures |Trim(city)| > 0 && |city| > 50 ==> v == Refused(InvalidCityName, "City name is too long")
  {
    if city == "" || |Trim(city)| == 0 then Refused(InvalidCityName, "City name is required")
    else if |city| > 50 then Refused(InvalidCityName, "City name is too long")
    else Next
  }

  const InvalidCurrencyCode := "Invalid currency code"
  const SourceCodeMessage := "Source currency must be a valid 3-letter code (e.g., USD)"
  const TargetCodeMessage := "Target currency must be a valid 3-letter code (e.g., EUR)"

  /** `/^[A-Z]{3}$/`. */
  predicate IsUpperCode(s: string)
  {
    |s| == 3 && forall i :: 0 <= i < |s| ==> IsUpperAscii(s[i])
  }

  /** Three ASCII letters in any mix of cases. */
  predicate ThreeLetters(s: string)
  {
    |s| == 3 && forall i :: 0 <= i < |s| ==> IsUpperAscii(s[i]) || IsLowerAscii(s[i])
  }

  /** The pattern is tested on the upper-cased code, so it accepts exactly
      three letters in either case. */
  lemma UpperCodeIffThreeLetters(s: string)
    ensures IsUpperCode(ToUpper(s)) <==> ThreeLetters(s)
  {
    if ThreeLetters(s) {
      forall i | 0 <= i < 3 ensures IsUpperAscii(ToUpper(s)[i]) {
        assert IsUpperAscii(s[i]) || IsLowerAscii(s[i]);
      }
    }
    if IsUpperCode(ToUpper(s)) {
      forall i | 0 <= i < 3 ensures IsUpperAscii(s[i]) || IsLowerAscii(s[i]) {
        assert IsUpperAscii(UpperChar(s[i]));
      }
    }
  }

  /** `from` is checked before `to`. */
  function ValidateCurrencyCode(from: string, to: string): (v: Verdict)
    ensures v == Next <==> ThreeLetters(from) && ThreeLetters(to)
    ensures !ThreeLetters(from) ==> v == Refused(InvalidCurrencyCode, SourceCodeMessage)
    ensures ThreeLetters(from) && !ThreeLetters(to) ==> v == Refused(InvalidCurrencyCode, TargetCodeMessage)
  {
    UpperCodeIffThreeLetters(from);
    UpperCodeIffThreeLetters(to);
    if from == "" || !IsUpperCode(ToUpper(from)) then Refused(InvalidCurrencyCode, SourceCodeMessage)
    else if to == "" || !IsUpperCode(ToUpper(to)) then Refused(InvalidCurrencyCode, TargetCodeMessage)
    else Next
  }
}
