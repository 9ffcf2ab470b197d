/**
 * The mock authentication service: a fixed verification code, and a session
 * made of the `token` and `userPhone` keys of browser storage.
 */
module AuthService {
  import opened Common
  import opened Storage

  /** The only verification code the mock accepts. */
  const MockCode: string := "1234"

  const TokenPrefix: string := "mock_token_"

  datatype LoginResponse = LoginResponse(token: string, phone: string)

  datatype AuthError = InvalidCode

  /** The session token issued at millisecond `nowMs`: `mock_token_${phone}_${Date.now()}`. */
  function MockToken(phone: string, nowMs: nat): (t: string)
    ensures |t| > |TokenPrefix| && t[..|TokenPrefix|] == TokenPrefix
  {
    TokenPrefix + phone + "_" + DecimalString(nowMs)
  }

  /** Where the pieces of `a + "_" + d` sit. */
  lemma JoinLayout(a: string, d: string)
    ensures (a + "_" + d)[|a|] == '_'
    ensures forall i :: |a| < i < |a| + 1 + |d| ==> (a + "_" + d)[i] == d[i - |a| - 1]
  {
  }

  /** A string ending in `_` and a numeral splits there in only one way. */
  lemma SplitBeforeNumeral(a: string, d1: string, b: string, d2: string)
    requires AllDigits(d1) && AllDigits(d2)
    requires a + "_" + d1 == b + "_" + d2
    ensures a == b && d1 == d2
  {
    var t := a + "_" + d1;
    assert t == b + "_" + d2;
    if |d1| != |d2| {
      JoinLayout(a, d1);
      JoinLayout(b, d2);
      assert false;
    }
    assert d1 == t[|t| - |d1|..] == d2;
    assert a == t[..|a|] == b;
  }

  /** A token names exactly one phone number and one login time. */
  lemma MockTokenInjective(p1: string, n1: nat, p2: string, n2: nat)
    ensures MockToken(p1, n1) == MockToken(p2, n2) <==> p1 == p2 && n1 == n2
  {
    if MockToken(p1, n1) == MockToken(p2, n2) {
      SplitBeforeNumeral(TokenPrefix + p1, DecimalString(n1), TokenPrefix + p2, DecimalString(n2));
      assert p1 == (TokenPrefix + p1)[|TokenPrefix|..];
      assert p2 == (TokenPrefix + p2)[|TokenPrefix|..];
      DecimalStringInjective(n1, n2);
    }
  }

  /** `sendCode`: waits and logs the code; nothing is stored. */
  method SendCode(store: LocalStorage, phone: string)
    ensures unchanged(store)
  {
  }

  /**
   * `verifyLogin`: a wrong code is rejected and nothing is written; the right
   * code stores a fresh token and the phone number, and returns both.
   */
  method VerifyLogin(store: LocalStorage, phone: string, code: string, nowMs: nat)
    returns (r: Result<LoginResponse, AuthError>)
    modifies store
    ensures code != MockCode ==> r == Failure(InvalidCode) && unchanged(store)
    ensures code == MockCode ==>
      && r == Success(LoginResponse(MockToken(phone, nowMs), phone))
      && store.token == Some(r.value.token)
      && store.userPhone == Some(phone)
      && store.stories == old(store.stories)
    ensures r.Success? ==> IsAuthenticated(store) && GetUserInfo(store) == Some(phone)
  {
    if code != MockCode {
      return Failure(InvalidCode);
    }
    var response := LoginResponse(MockToken(phone, nowMs), phone);
    store.token := Some(response.token);
    store.userPhone := Some(phone);
    r := Success(response);
  }

  /** `logout`: removes both session keys; the stored stories stay. */
  method Logout(store: LocalStorage)
    modifies store
    ensures store.token == None && store.userPhone == None
    ensures store.stories == old(store.stories)
    ensures !IsAuthenticated(store) && GetUserInfo(store) == None
  {
    store.token := None;
    store.userPhone := None;
  }

  /** `isAuthenticated`: `!!localStorage.getItem('token')`. */
  function IsAuthenticated(store: LocalStorage): (b: bool)
    reads store
    ensures b <==> store.token.Some? && |store.token.value| > 0
  {
    Truthy(store.token)
  }

  /** `getUserInfo().phone`: the stored phone number, possibly null. */
  function GetUserInfo(store: LocalStorage): (phone: Option<string>)
    reads store
    ensures phone.Some? <==> store.userPhone.Some?
    ensures phone.Some? ==> phone.value == store.userPhone.value
  {
    store.userPhone
  }
}
