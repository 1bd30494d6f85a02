/**
 * The sign-up form: its ordered field checks, the request it sends to the
 * authentication service and how it reports the service's answer.
 */
module Signup {
  import opened Wrappers

  const FillInAllFields := "Please fill in all fields"
  const PasswordsDoNotMatch := "Passwords do not match"
  const PasswordTooShort := "Password must be at least 6 characters"
  const MinPasswordLength: nat := 6

  /**
   * The first failing check's message, or none when the input is valid: every
   * field filled in, then matching passwords, then a long enough password.
   */
  function ValidationError(email: string, password: string, confirm: string): (m: Option<string>)
    ensures m == Some(FillInAllFields) <==> email == "" || password == "" || confirm == ""
    ensures m == Some(PasswordsDoNotMatch) <==>
              email != "" && password != "" && confirm != "" && password != confirm
    ensures m == Some(PasswordTooShort) <==>
              email != "" && password != "" && confirm != "" && password == confirm && |password| < MinPasswordLength
    ensures m.None? <==>
              email != "" && password == confirm && |password| >= MinPasswordLength
  {
    if email == "" || password == "" || confirm == "" then Some(FillInAllFields)
    else if password != confirm then Some(PasswordsDoNotMatch)
    else if |password| < MinPasswordLength then Some(PasswordTooShort)
    else None
  }

  /** The checks are ordered: an empty field is reported even when the passwords also differ. */
  lemma FirstFailureWins()
    ensures ValidationError("", "abc", "abd") == Some(FillInAllFields)
    ensures ValidationError("a@b.c", "abc", "abd") == Some(PasswordsDoNotMatch)
    ensures ValidationError("a@b.c", "abc", "abc") == Some(PasswordTooShort)
  {
  }

  /** The white space and line terminators that JavaScript's `trim` removes. */
  predicate IsJsSpace(c: char) {
    var n := c as int;
    || (0x09 <= n <= 0x0D) || n == 0x20 || n == 0xA0 || n == 0x1680
    || (0x2000 <= n <= 0x200A) || n == 0x2028 || n == 0x2029 || n == 0x202F
    || n == 0x205F || n == 0x3000 || n == 0xFEFF
  }

  /** The first position from `i` on that is not white space, or `|s|`. */
  function SpaceEnd(s: string, i: nat): (j: nat)
    requires i <= |s|
    ensures i <= j <= |s|
    ensures forall k :: i <= k < j ==> IsJsSpace(s[k])
    ensures j < |s| ==> !IsJsSpace(s[j])
    decreases |s| - i
  {
    if i < |s| && IsJsSpace(s[i]) then SpaceEnd(s, i + 1) else i
  }

  /** Going back from `j` no further than `lo`, the position where trailing white space starts. */
  function SpaceStart(s: string, lo: nat, j: nat): (e: nat)
    requires lo <= j <= |s|
    ensures lo <= e <= j
    ensures forall k :: e <= k < j ==> IsJsSpace(s[k])
    ensures e > lo ==> !IsJsSpace(s[e - 1])
  {
    if j > lo && IsJsSpace(s[j - 1]) then SpaceStart(s, lo, j - 1) else j
  }

  /** `r` is `s` with white space only cut off at its start (before `i`) and its end. */
  predicate TrimmedAt(s: string, r: string, i: int) {
    && 0 <= i <= |s| - |r| && r == s[i..i + |r|]
    && (forall k :: 0 <= k < i ==> IsJsSpace(s[k]))
    && (forall k :: i + |r| <= k < |s| ==> IsJsSpace(s[k]))
  }

  /** `s.trim()`: the part of `s` between its leading and trailing white space. */
  function Trim(s: string): (r: string)
    ensures r == [] || (!IsJsSpace(r[0]) && !IsJsSpace(r[|r| - 1]))
    ensures exists i :: TrimmedAt(s, r, i)
  {
    var i := SpaceEnd(s, 0);
    var e := SpaceStart(s, i, |s|);
    assert TrimmedAt(s, s[i..e], i);
    s[i..e]
  }

  /** A string with no white space at either end is its own trim. */
  lemma TrimOfTrimmed(s: string)
    requires s == [] || (!IsJsSpace(s[0]) && !IsJsSpace(s[|s| - 1]))
    ensures Trim(s) == s
  {
  }

  /** Trimming twice is trimming once. */
  lemma TrimIdempotent(s: string)
    ensures Trim(Trim(s)) == Trim(s)
  {
    TrimOfTrimmed(Trim(s));
  }

  /** What the authentication service is asked, with the form's loading flag during the call. */
  datatype SignUpCall = SignUpCall(email: string, password: string, loadingDuringCall: bool)

  class SignupForm {
    var email: string
    var password: string
    var confirmPassword: string
    var loading: bool
    var error: string
    /** Every sign-up request sent, oldest first. */
    var requests: seq<SignUpCall>

    constructor ()
      ensures email == "" && password == "" && confirmPassword == ""
      ensures !loading && error == "" && requests == []
    {
      email, password, confirmPassword := "", "", "";
      loading, error, requests := false, "", [];
    }

    method SetFields(e: string, p: string, c: string)
      modifies this`email, this`password, this`confirmPassword
      ensures email == e && password == p && confirmPassword == c
    {
      email, password, confirmPassword := e, p, c;
    }

    /**
     * Submits the form. `authError` is the service's error message, if it answers
     * with one. `success` says whether the screen moves on.
     */
    method HandleSignup(authError: Option<string>) returns (success: bool)
      modifies this`loading, this`error, this`requests
      ensures var invalid := ValidationError(email, password, confirmPassword);
              if invalid.Some? then
                && !success && error == invalid.value
                && requests == old(requests) && loading == old(loading)
              else
                && requests == old(requests) + [SignUpCall(Trim(email), password, true)]
                && !loading
                && success == authError.None?
                && error == (if authError.Some? then authError.value else "")
    {
      var invalid := ValidationError(email, password, confirmPassword);
      if invalid.Some? {
        error := invalid.value;
        return false;
      }
      error := "";
      loading := true;
      requests := requests + [SignUpCall(Trim(email), password, loading)];
      loading := false;
      if authError.Some? {
        error := authError.value;
        return false;
      }
      return true;
    }
  }
}
