/**
 * The login screen: a country picker and a digits-only phone field; Sign In validates the number
 * against the country's length, looks the user up by the national number, stores the session and
 * replaces the screen according to the user's role.
 */
module LoginScreen {
  import opened Opt
  import opened Text
  import opened ListOps
  import opened Ui

  datatype Country = Country(name: string, code: string, digits: nat)

  const India: Country := Country("India", "+91", 10)
  const Usa: Country := Country("USA", "+1", 10)
  const Uk: Country := Country("UK", "+44", 10)
  const Australia: Country := Country("Australia", "+61", 9)

  /** The picker's choices, in order; India is selected at first. */
  const Countries: seq<Country> := [India, Usa, Uk, Australia]

  datatype Screen = AdminPanel | TeacherDashboard | Main

  /** The fields of the user record the screen reads. */
  datatype FetchedUser = FetchedUser(role: string, name: string, id: string, semester: string)

  /** The outcome of `fetchUserByPhone`: the user, or the message of the error it threw. */
  datatype Fetch = Fetched(user: FetchedUser) | FetchFailed(message: string)

  datatype Session = Session(role: string, name: string, id: string, phone: string, semester: string)

  /** The checks `handleLogin` makes before any request: the alert it shows, or `None` to proceed. */
  function ValidateLogin(phone: string, country: Country): (r: Option<Alert>)
    ensures r.None? <==> phone != "" && |phone| == country.digits
    ensures phone == "" ==> r == Some(Alert("Error", "Phone number is required"))
    ensures phone != "" && |phone| != country.digits ==> r.value.title == "Invalid Number"
  {
    if phone == "" then Some(Alert("Error", "Phone number is required"))
    else if |phone| != country.digits then
      Some(Alert("Invalid Number", "Enter " + NatToString(country.digits) + "-digit phone number"))
    else None
  }

  /** `${country.code}${phone}` */
  function FullPhone(country: Country, phone: string): (r: string)
    ensures |r| == |country.code| + |phone|
    ensures r[..|country.code|] == country.code && EndsWith(r, phone)
  {
    country.code + phone
  }

  /** The screen that replaces the login screen; it depends on the role alone. */
  function NextScreen(role: string): (s: Screen)
    ensures s == AdminPanel <==> role == "admin"
    ensures s == TeacherDashboard <==> role == "teacher"
    ensures s == Main <==> role != "admin" && role != "teacher"
  {
    if role == "admin" then AdminPanel
    else if role == "teacher" then TeacherDashboard
    else Main
  }

  /** The session record `saveSession` receives. */
  function SessionFor(user: FetchedUser, country: Country, phone: string): (s: Session)
    ensures s.role == user.role && s.name == user.name && s.id == user.id && s.semester == user.semester
    ensures s.phone == FullPhone(country, phone)
  {
    Session(user.role, user.name, user.id, FullPhone(country, phone), user.semester)
  }

  /** The catch branch: the error's message, or the default when it is empty. */
  function FailureAlert(message: string): (a: Alert)
    ensures a.title == "Login Failed"
    ensures a.message == if message == "" then "User not found" else message
  {
    Alert("Login Failed", if message == "" then "User not found" else message)
  }

  /** The Sign In button's `disabled`. */
  predicate SignInDisabled(phone: string, country: Country, loading: bool) {
    |phone| != country.digits || loading
  }

  /** Every country offered expects some digits, so an enabled button always passes validation. */
  lemma EnabledButtonPassesValidation(phone: string, country: Country)
    requires country in Countries
    requires !SignInDisabled(phone, country, false)
    ensures ValidateLogin(phone, country).None?
  {
  }

  /** The server receives the national number, whose digits are the full number's after the code's. */
  lemma FullPhoneDigits(country: Country, phone: string)
    requires AllDigits(phone)
    ensures DigitsOf(FullPhone(country, phone)) == DigitsOf(country.code) + phone
  {
    DigitsOfAppend(country.code, phone);
    DigitsOfIdentity(phone);
  }

  /** `countries.find((c) => c.code === value)` */
  function CountryWithCode(code: string): (c: Option<Country>)
    ensures c.Some? <==> exists i :: 0 <= i < |Countries| && Countries[i].code == code
    ensures c.Some? ==> c.value in Countries && c.value.code == code
  {
    match FirstWhere(Countries, (c: Country) => c.code == code)
    case None => None
    case Some(i) => Some(Countries[i])
  }

  /** Every code the picker lists selects its own country. */
  lemma PickerCodesSelectTheirCountry(i: nat)
    requires i < |Countries|
    ensures CountryWithCode(Countries[i].code) == Some(Countries[i])
  {
    var k := FirstWhere(Countries, (c: Country) => c.code == Countries[i].code);
    assert k == Some(i);
  }

  /**
   * The screen's state: the phone field, the selected country, the loading flag, and what the
   * screen has done so far (alerts shown, the session saved, the screen it navigated to).
   * `pendingCountry` and `pendingPhone` are the values the running `handleLogin` call closed over
   * when Sign In was pressed; the fields stay editable while the lookup is awaited.
   */
  class LoginState {
    var phone: string
    var country: Country
    var pendingCountry: Country
    var pendingPhone: string
    var loading: bool
    var alerts: seq<Alert>
    var session: Option<Session>
    var navigatedTo: Option<Screen>

    /** The phone field holds digits only and the country is one of the picker's. */
    ghost predicate Valid()
      reads this
    {
      AllDigits(phone) && country in Countries
    }

    constructor ()
      ensures Valid()
      ensures phone == "" && country == India && !loading
      ensures pendingPhone == "" && pendingCountry == India
      ensures alerts == [] && session == None && navigatedTo == None
    {
      phone := "";
      country := India;
      pendingPhone := "";
      pendingCountry := India;
      loading := false;
      alerts := [];
      session := None;
      navigatedTo := None;
    }

    /** `onChangeText`: the field keeps only the digits typed. */
    method OnChangeText(text: string)
      requires Valid()
      modifies this
      ensures Valid()
      ensures phone == DigitsOf(text)
      ensures country == old(country) && loading == old(loading) && alerts == old(alerts)
      ensures pendingCountry == old(pendingCountry) && pendingPhone == old(pendingPhone)
      ensures session == old(session) && navigatedTo == old(navigatedTo)
    {
      phone := DigitsOf(text);
    }

    /** `onValueChange` of the picker: select the country with that code and clear the phone. */
    method OnCountryChange(code: string)
      requires Valid()
      requires CountryWithCode(code).Some?
      modifies this
      ensures Valid()
      ensures country == CountryWithCode(code).value && country.code == code && phone == ""
      ensures loading == old(loading) && alerts == old(alerts)
      ensures pendingCountry == old(pendingCountry) && pendingPhone == old(pendingPhone)
      ensures session == old(session) && navigatedTo == old(navigatedTo)
    {
      country := CountryWithCode(code).value;
      phone := "";
    }

    /**
     * The synchronous part of `handleLogin`: a failed check shows its alert and stops; otherwise
     * the loading flag is set, the country and number are captured for `fullPhone`, and the
     * lookup of that number starts (`started`).
     */
    method HandleLogin() returns (started: bool)
      requires Valid()
      modifies this
      ensures Valid()
      ensures started <==> ValidateLogin(old(phone), old(country)).None?
      ensures !started ==>
        alerts == old(alerts) + [ValidateLogin(old(phone), old(country)).value] && loading == old(loading)
      ensures !started ==> pendingCountry == old(pendingCountry) && pendingPhone == old(pendingPhone)
      ensures started ==> alerts == old(alerts) && loading
      ensures started ==> pendingCountry == old(country) && pendingPhone == old(phone)
      ensures phone == old(phone) && country == old(country)
      ensures session == old(session) && navigatedTo == old(navigatedTo)
    {
      var check := ValidateLogin(phone, country);
      if check.Some? {
        alerts := alerts + [check.value];
        return false;
      }
      loading := true;
      pendingCountry, pendingPhone := country, phone;
      return true;
    }

    /**
     * The rest of `handleLogin`, when the lookup of the captured number settles: on success the
     * session is saved with the full number captured at Sign In, whatever the fields hold now, and
     * the screen chosen by role replaces this one; on failure an alert is shown. Either way the
     * loading flag is cleared.
     */
    method CompleteLogin(fetch: Fetch)
      requires Valid()
      modifies this
      ensures Valid()
      ensures !loading && phone == old(phone) && country == old(country)
      ensures pendingCountry == old(pendingCountry) && pendingPhone == old(pendingPhone)
      ensures fetch.Fetched? ==>
        session == Some(SessionFor(fetch.user, old(pendingCountry), old(pendingPhone)))
        && navigatedTo == Some(NextScreen(fetch.user.role)) && alerts == old(alerts)
      ensures fetch.FetchFailed? ==>
        alerts == old(alerts) + [FailureAlert(fetch.message)]
        && session == old(session) && navigatedTo == old(navigatedTo)
    {
      if fetch.Fetched? {
        session := Some(SessionFor(fetch.user, pendingCountry, pendingPhone));
        navigatedTo := Some(NextScreen(fetch.user.role));
      } else {
        alerts := alerts + [FailureAlert(fetch.message)];
      }
      loading := false;
    }
  }

  /**
   * Changing the country while the lookup is awaited does not change the saved number: the
   * session keeps the India number the user signed in with, "+919321656320", not one with "+44".
   */
  method CountryChangeDuringLookup(user: FetchedUser) returns (saved: Option<Session>)
    ensures saved.Some? && saved.value.phone == FullPhone(India, "9321656320")
  {
    var number := "9321656320";
    assert AllDigits(number);
    DigitsOfIdentity(number);
    var screen := new LoginState();
    screen.OnChangeText(number);
    assert ValidateLogin(number, India).None?;
    var started := screen.HandleLogin();
    PickerCodesSelectTheirCountry(2);
    screen.OnCountryChange("+44");
    screen.CompleteLogin(Fetched(user));
    saved := screen.session;
  }
}
