/** The sign-up page: the password strength meter and the submit handler's
    checks, its call to the authentication service and what follows it. */
module Signup {
  import opened Records

  predicate IsUpper(c: char) { 'A' <= c <= 'Z' }

  predicate IsDigit(c: char) { '0' <= c <= '9' }

  /** `/[A-Z]/.test(s)`, scanning from the left. */
  function HasUpper(s: string): (b: bool)
    ensures b <==> exists i :: 0 <= i < |s| && IsUpper(s[i])
  {
    if s == [] then false
    else if IsUpper(s[0]) then true
    else
      assert forall i :: 1 <= i < |s| ==> s[i] == s[1..][i - 1];
      HasUpper(s[1..])
  }

  /** `/[0-9]/.test(s)`, scanning from the left. */
  function HasDigit(s: string): (b: bool)
    ensures b <==> exists i :: 0 <= i < |s| && IsDigit(s[i])
  {
    if s == [] then false
    else if IsDigit(s[0]) then true
    else
      assert forall i :: 1 <= i < |s| ==> s[i] == s[1..][i - 1];
      HasDigit(s[1..])
  }

  datatype Level = Weak | Medium | Strong

  /** The meter's text, bar colour and bar width. */
  datatype Meter = Meter(level: Level, text: string, color: string, width: string)

  function Display(level: Level): (m: Meter)
    ensures m.level == level
  {
    match level
    case Weak => Meter(Weak, "Weak", "bg-destructive", "33%")
    case Medium => Meter(Medium, "Medium", "bg-warning", "66%")
    case Strong => Meter(Strong, "Strong", "bg-success", "100%")
  }

  /** Each level has its own text, colour and width, so the meter tells the
      three levels apart by any one of them. */
  lemma DisplayDistinct(a: Level, b: Level)
    requires a != b
    ensures Display(a).text != Display(b).text
    ensures Display(a).color != Display(b).color
    ensures Display(a).width != Display(b).width
  {
  }

  /** `getStrength`: under six characters is weak; ten or more characters with
      an upper-case letter and a digit is strong; anything else is medium. */
  function Strength(password: string): (m: Meter)
    ensures m == Display(m.level)
    ensures m.level == Weak <==> |password| < 6
    ensures m.level == Strong <==>
      (&& |password| >= 10
       && (exists i :: 0 <= i < |password| && IsUpper(password[i]))
       && (exists i :: 0 <= i < |password| && IsDigit(password[i])))
  {
    if |password| < 6 then Display(Weak)
    else if |password| < 10 || !HasUpper(password) || !HasDigit(password) then Display(Medium)
    else Display(Strong)
  }

  function LevelRank(level: Level): nat {
    match level
    case Weak => 0
    case Medium => 1
    case Strong => 2
  }

  /** Typing more characters never lowers the strength. */
  lemma StrengthGrows(password: string, more: string)
    ensures LevelRank(Strength(password).level) <= LevelRank(Strength(password + more).level)
  {
    var p := password + more;
    assert forall i :: 0 <= i < |password| ==> p[i] == password[i];
    if Strength(password).level == Strong {
      var u :| 0 <= u < |password| && IsUpper(password[u]);
      var d :| 0 <= d < |password| && IsDigit(password[d]);
      assert IsUpper(p[u]) && IsDigit(p[d]);
    }
  }

  /** The meter appears once something has been typed (`password && ...`). */
  function MeterShown(password: string): (r: Option<Meter>)
    ensures r.None? <==> password == ""
    ensures r.Some? ==> r.value == Strength(password)
    ensures r.Some? ==> r.value.level != Strong || |password| >= 10
  {
    if password == "" then None else Some(Strength(password))
  }

  /** t occurs in s starting at index i. */
  predicate OccursAt(s: string, t: string, i: int) {
    0 <= i && i + |t| <= |s| && s[i..i + |t|] == t
  }

  /** `s.includes(t)`, searching from the left. */
  function Contains(s: string, t: string): (b: bool)
    ensures b <==> exists i :: OccursAt(s, t, i)
    decreases |s|
  {
    if |s| < |t| then false
    else if s[..|t|] == t then
      assert OccursAt(s, t, 0);
      true
    else if s == [] then false
    else
      var r := Contains(s[1..], t);
      if r then
        var i :| OccursAt(s[1..], t, i);
        ShiftSlice(s, |t|, i + 1);
        assert OccursAt(s, t, i + 1);
        r
      else
        forall i | 0 <= i && i + |t| <= |s| ensures !OccursAt(s, t, i) {
          if i == 0 {
            assert s[i..i + |t|] == s[..|t|];
          } else {
            ShiftSlice(s, |t|, i);
            assert !OccursAt(s[1..], t, i - 1);
          }
        }
        r
  }

  /** A window of `s` starting at `i >= 1` is the window of `s[1..]` one to the left. */
  lemma ShiftSlice(s: string, n: nat, i: nat)
    requires 1 <= i && i + n <= |s|
    ensures s[i..i + n] == s[1..][i - 1..i - 1 + n]
  {
    var window, shifted := s[i..i + n], s[1..][i - 1..i - 1 + n];
    forall j | 0 <= j < n
      ensures window[j] == shifted[j]
    {
      assert window[j] == s[i + j];
    }
    assert window == shifted;
  }

  const AlreadyRegistered := "already registered"
  const AccountExists := "An account with this email already exists"

  /** The toast for a failed sign-up: a message mentioning an existing
      registration is replaced, any other message is shown as it is. */
  function ErrorToast(message: string): string {
    if Contains(message, AlreadyRegistered) then AccountExists else message
  }

  /** Wherever the phrase occurs in the service's message, the replacement is
      shown. */
  lemma AlreadyRegisteredReplaced(before: string, after: string)
    ensures ErrorToast(before + AlreadyRegistered + after) == AccountExists
  {
    var s := before + AlreadyRegistered + after;
    assert s[|before|..|before| + |AlreadyRegistered|] == AlreadyRegistered;
    assert OccursAt(s, AlreadyRegistered, |before|);
  }

  /** A message without the phrase is shown unchanged. */
  lemma OtherMessagesKept(message: string)
    requires forall i :: !OccursAt(message, AlreadyRegistered, i)
    ensures ErrorToast(message) == message
  {
  }

  /** The form's fields; the phone number is collected but never sent. */
  datatype Form = Form(fullName: string, email: string, phone: string, password: string)

  /** `signUp(email, password, fullName)` */
  datatype Request = Request(email: string, password: string, fullName: string)

  datatype Outcome =
    | Refused(message: string)
    | Failed(request: Request, message: string)
    | Created(request: Request, message: string, navigateTo: string)

  const FillIn := "Please fill in all required fields"
  const TooShort := "Password must be at least 6 characters"
  const CheckEmail := "Account created! Please check your email to verify."

  /** `handleSubmit`. signUp gives the service's error message for a request,
      None when the account was created. */
  function HandleSubmit(f: Form, signUp: Request -> Option<string>): (o: Outcome)
    ensures o.Refused? <==> f.fullName == "" || f.email == "" || f.password == "" || |f.password| < 6
    ensures o.Refused? ==> o.message == (if f.fullName == "" || f.email == "" || f.password == "" then FillIn else TooShort)
    ensures !o.Refused? ==>
      o.request == Request(f.email, f.password, f.fullName) && Strength(f.password).level != Weak
    ensures o.Failed? <==> !o.Refused? && signUp(o.request).Some?
    ensures o.Failed? ==> o.message == ErrorToast(signUp(o.request).value)
    ensures o.Created? ==> o.message == CheckEmail && o.navigateTo == "/auth"
  {
    if f.fullName == "" || f.email == "" || f.password == "" then Refused(FillIn)
    else if |f.password| < 6 then Refused(TooShort)
    else
      var request := Request(f.email, f.password, f.fullName);
      var error := signUp(request);
      if error.Some? then Failed(request, ErrorToast(error.value))
      else Created(request, CheckEmail, "/auth")
  }

  /** The phone field has no effect on the submission. */
  lemma PhoneIgnored(f: Form, phone: string, signUp: Request -> Option<string>)
    ensures HandleSubmit(f.(phone := phone), signUp) == HandleSubmit(f, signUp)
  {
  }

  /** Every password the handler sends is at least medium on the meter, and a
      password the meter calls weak is always refused. */
  lemma SentPasswordsAreNotWeak(f: Form, signUp: Request -> Option<string>)
    ensures Strength(f.password).level == Weak ==> HandleSubmit(f, signUp).Refused?
    ensures !HandleSubmit(f, signUp).Refused? ==> MeterShown(f.password).Some? && MeterShown(f.password).value.level != Weak
  {
  }
}
