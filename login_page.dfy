/**
 * The login form: a phone-number format check before a code is sent, a
 * 60-second resend countdown, and a submit that delegates to `verifyLogin`.
 */
module LoginPage {
  import opened Common
  import opened Storage
  import AuthService

  const CountdownStart: nat := 60
  const HomeRoute: string := "/"

  // ---------------------------------------------------------------------------
  // The phone pattern /^1[3-9]\d{9}$/

  /** One position of an anchored pattern without repetition operators. */
  datatype CharClass = Literal(c: char) | Between(lo: char, hi: char) | AnyDigit

  predicate ClassMatches(k: CharClass, c: char)
  {
    match k
    case Literal(l) => c == l
    case Between(lo, hi) => lo <= c <= hi
    case AnyDigit => IsDigit(c)
  }

  /** `^1[3-9]\d{9}$` with the repetition written out. */
  const PhonePattern: seq<CharClass> := [Literal('1'), Between('3', '9')] + seq(9, _ => AnyDigit)

  /** Anchored match of `s` against a pattern, one character at a time. */
  function Matches(pattern: seq<CharClass>, s: string): bool
  {
    if pattern == [] then s == []
    else s != [] && ClassMatches(pattern[0], s[0]) && Matches(pattern[1..], s[1..])
  }

  /** A pattern matches exactly the strings of its length whose every character fits its class. */
  lemma {:induction false} MatchesPositionwise(pattern: seq<CharClass>, s: string)
    ensures Matches(pattern, s) <==>
      |s| == |pattern| && forall i :: 0 <= i < |s| ==> ClassMatches(pattern[i], s[i])
  {
    if pattern != [] && s != [] {
      MatchesPositionwise(pattern[1..], s[1..]);
      if |s| == |pattern| && forall i :: 0 <= i < |s| ==> ClassMatches(pattern[i], s[i]) {
        forall i | 0 <= i < |s| - 1 ensures ClassMatches(pattern[1..][i], s[1..][i]) {
          assert ClassMatches(pattern[i + 1], s[i + 1]);
        }
      }
    }
  }

  /** A mainland mobile number: 11 characters, `1`, then `3`-`9`, then nine ASCII digits. */
  predicate IsValidPhone(s: string)
  {
    && |s| == 11
    && s[0] == '1'
    && '3' <= s[1] <= '9'
    && forall i :: 2 <= i < 11 ==> IsDigit(s[i])
  }

  /** The regular expression accepts exactly the valid phone numbers. */
  lemma PhonePatternIsValidPhone(s: string)
    ensures Matches(PhonePattern, s) <==> IsValidPhone(s)
  {
    MatchesPositionwise(PhonePattern, s);
    assert |PhonePattern| == 11;
    assert forall i :: 2 <= i < 11 ==> PhonePattern[i] == AnyDigit;
  }

  // ---------------------------------------------------------------------------
  // The resend countdown

  /** One tick of the interval: `prev <= 1 ? 0 : prev - 1`. */
  function Tick(prev: int): (next: int)
    ensures next >= 0
    ensures next == 0 <==> prev <= 1
    ensures prev > 1 ==> next == prev - 1
  {
    if prev <= 1 then 0 else prev - 1
  }

  /** The countdown after `n` ticks. */
  function Ticks(p: int, n: nat): int
  {
    if n == 0 then p else Tick(Ticks(p, n - 1))
  }

  /** After `n` ticks from `p` the countdown is `p - n`, or 0 once that is used up. */
  lemma {:induction false} TicksCountDown(p: nat, n: nat)
    ensures Ticks(p, n) == if n >= p then 0 else p - n
  {
    if n > 0 {
      TicksCountDown(p, n - 1);
    }
  }

  /** The countdown started at 60 is positive for 59 ticks and reaches 0 at the 60th. */
  lemma CountdownReachesZero(n: nat)
    ensures n < CountdownStart ==> Ticks(CountdownStart, n) > 0
    ensures n >= CountdownStart ==> Ticks(CountdownStart, n) == 0
  {
    TicksCountDown(CountdownStart, n);
  }

  datatype Alert = InvalidPhoneAlert | LoginFailedAlert

  class LoginForm {
    const store: LocalStorage
    var phone: string
    var code: string
    var countdown: int
    var loading: bool
    /** Whether the countdown interval is scheduled. */
    var timerRunning: bool
    var lastAlert: Option<Alert>
    var navigatedTo: Option<string>

    /** What holds between any two events. */
    ghost predicate Valid()
      reads this
    {
      && 0 <= countdown <= CountdownStart
      && (timerRunning <==> countdown > 0)
      && !loading
    }

    constructor (store: LocalStorage)
      ensures this.store == store
      ensures Valid() && phone == "" && code == "" && countdown == 0
      ensures !timerRunning && lastAlert == None && navigatedTo == None
    {
      this.store := store;
      phone := "";
      code := "";
      countdown := 0;
      loading := false;
      timerRunning := false;
      lastAlert := None;
      navigatedTo := None;
    }

    /**
     * The "send code" button is disabled while counting down or loading;
     * between events that is exactly while the countdown interval runs.
     */
    function SendDisabled(): (b: bool)
      reads this
      ensures !loading ==> (b <==> countdown > 0)
      ensures Valid() ==> (b <==> timerRunning)
    {
      countdown > 0 || loading
    }

    method EnterPhone(text: string)
      requires Valid()
      modifies this`phone
      ensures Valid() && phone == text
    {
      phone := text;
    }

    method EnterCode(text: string)
      requires Valid()
      modifies this`code
      ensures Valid() && code == text
    {
      code := text;
    }

    /**
     * `handleSendCode`, called from its button only while that is enabled:
     * a malformed phone number raises an alert and nothing else; a valid one
     * sends the code and starts the countdown at 60.
     */
    method HandleSendCode()
      requires Valid() && !SendDisabled()
      modifies this`loading, this`countdown, this`timerRunning, this`lastAlert
      ensures Valid() && unchanged(store)
      ensures !IsValidPhone(phone) ==>
        lastAlert == Some(InvalidPhoneAlert) && countdown == old(countdown) && timerRunning == old(timerRunning)
      ensures IsValidPhone(phone) ==>
        countdown == CountdownStart && timerRunning && lastAlert == old(lastAlert) && SendDisabled()
    {
      PhonePatternIsValidPhone(phone);
      if !Matches(PhonePattern, phone) {
        lastAlert := Some(InvalidPhoneAlert);
        return;
      }
      loading := true;
      AuthService.SendCode(store, phone);
      countdown := CountdownStart;
      timerRunning := true;
      loading := false;
    }

    /** One firing of the countdown interval; the last one clears it. */
    method CountdownTick()
      requires Valid() && timerRunning
      modifies this`countdown, this`timerRunning
      ensures Valid()
      ensures countdown == Tick(old(countdown)) && countdown < old(countdown)
      ensures timerRunning <==> countdown > 0
    {
      countdown := Tick(countdown);
      if countdown == 0 {
        timerRunning := false;
      }
    }

    /**
     * `handleSubmit`: delegates to `verifyLogin` and goes home on success,
     * alerts on failure; `loading` is false afterwards either way. The browser
     * submits the form only when both required inputs are filled.
     */
    method HandleSubmit(nowMs: nat)
      requires Valid() && phone != "" && code != ""
      modifies this`loading, this`lastAlert, this`navigatedTo, store
      ensures Valid()
      ensures code != AuthService.MockCode ==>
        && unchanged(store)
        && lastAlert == Some(LoginFailedAlert) && navigatedTo == old(navigatedTo)
      ensures code == AuthService.MockCode ==>
        && store.token == Some(AuthService.MockToken(phone, nowMs))
        && store.userPhone == Some(phone)
        && store.stories == old(store.stories)
        && AuthService.IsAuthenticated(store)
        && navigatedTo == Some(HomeRoute) && lastAlert == old(lastAlert)
    {
      loading := true;
      var response := AuthService.VerifyLogin(store, phone, code, nowMs);
      if response.Success? {
        navigatedTo := Some(HomeRoute);
      } else {
        lastAlert := Some(LoginFailedAlert);
      }
      loading := false;
    }
  }
}
