/** The profile dialog: it checks that the trimmed name and email are not empty and that the
    email contains something shaped like `x@y.z`, then stores the trimmed values under
    `@user_data` and closes with them. */
module UserModal {
  import opened Wrappers
  import UserContext

  type Profile = UserContext.Profile

  /** The white-space characters of JavaScript (`\s` in a pattern, and what `trim` removes). */
  predicate IsSpace(c: char) {
    c == ' ' || c == '\t' || c == '\n' || c == '\U{0B}' || c == '\U{0C}' || c == '\r' ||
    c == '\U{A0}' || c == '\U{1680}' || ('\U{2000}' <= c <= '\U{200A}') ||
    c == '\U{2028}' || c == '\U{2029}' || c == '\U{202F}' || c == '\U{205F}' ||
    c == '\U{3000}' || c == '\U{FEFF}'
  }

  /** How many white-space characters `s` starts with. */
  function LeadingSpaces(s: string): (n: nat)
    ensures n <= |s|
    ensures forall i :: 0 <= i < n ==> IsSpace(s[i])
    ensures n < |s| ==> !IsSpace(s[n])
  {
    if s == [] || !IsSpace(s[0]) then 0
    else
      var m := LeadingSpaces(s[1..]);
      assert forall i :: 1 <= i < m + 1 ==> s[i] == s[1..][i - 1];
      m + 1
  }

  /** How many white-space characters `s` ends with. */
  function TrailingSpaces(s: string): (n: nat)
    ensures n <= |s|
    ensures forall i :: |s| - n <= i < |s| ==> IsSpace(s[i])
    ensures n < |s| ==> !IsSpace(s[|s| - 1 - n])
  {
    if s == [] || !IsSpace(s[|s| - 1]) then 0
    else
      var m := TrailingSpaces(s[..|s| - 1]);
      assert forall i :: |s| - 1 - m <= i < |s| - 1 ==> s[i] == s[..|s| - 1][i];
      m + 1
  }

  /** `s.trim()`: `s` without its leading and trailing white space. The result is the slice of
      `s` starting at its first non-space character, it neither starts nor ends with white
      space, and it is empty exactly when `s` is all white space. */
  function Trim(s: string): (r: string)
    ensures |r| + LeadingSpaces(s) <= |s| && r == s[LeadingSpaces(s)..LeadingSpaces(s) + |r|]
    ensures forall i :: LeadingSpaces(s) + |r| <= i < |s| ==> IsSpace(s[i])
    ensures r != [] ==> !IsSpace(r[0]) && !IsSpace(r[|r| - 1])
    ensures r == [] <==> forall i :: 0 <= i < |s| ==> IsSpace(s[i])
  {
    var t := s[LeadingSpaces(s)..];
    var n := TrailingSpaces(t);
    assert forall i :: LeadingSpaces(s) + |t| - n <= i < |s| ==> s[i] == t[i - LeadingSpaces(s)];
    t[..|t| - n]
  }

  /** The pattern `\S+@\S+\.\S+` matches `s` with its `@` at `a` and the dot after it at `d`. */
  predicate EmailMatchAt(s: string, a: int, d: int) {
    1 <= a && a + 1 < d && d + 1 < |s| &&
    !IsSpace(s[a - 1]) && s[a] == '@' && s[d] == '.' && !IsSpace(s[d + 1]) &&
    forall k :: a < k < d ==> !IsSpace(s[k])
  }

  /** `/\S+@\S+\.\S+/.test(s)`: the pattern is not anchored, so any substring may match. */
  predicate HasEmailShape(s: string) {
    exists a, d | 0 <= a < |s| && 0 <= d < |s| :: EmailMatchAt(s, a, d)
  }

  /** A match in the trimmed text is a match in the original, shifted by the leading spaces. */
  lemma MatchInTrimmed(s: string, a: int, d: int)
    requires EmailMatchAt(Trim(s), a, d)
    ensures EmailMatchAt(s, a + LeadingSpaces(s), d + LeadingSpaces(s))
  {
    MatchShifted(s, Trim(s), LeadingSpaces(s), a, d);
  }

  /** A match in a slice `r` of `s` starting at `l` is a match in `s`, `l` places further on. */
  lemma MatchShifted(s: string, r: string, l: nat, a: int, d: int)
    requires l + |r| <= |s| && r == s[l..l + |r|]
    requires EmailMatchAt(r, a, d)
    ensures EmailMatchAt(s, a + l, d + l)
  {
    assert s[a + l - 1] == r[a - 1] && s[a + l] == r[a];
    assert s[d + l] == r[d] && s[d + l + 1] == r[d + 1];
    forall k | a + l < k < d + l ensures !IsSpace(s[k]) {
      assert s[k] == r[k - l];
    }
  }

  /** A match in the original lies inside the trimmed text, since it has no white space. */
  lemma MatchInOriginal(s: string, a: int, d: int)
    requires EmailMatchAt(s, a, d)
    ensures EmailMatchAt(Trim(s), a - LeadingSpaces(s), d - LeadingSpaces(s))
  {
    var r := Trim(s);
    var l := LeadingSpaces(s);
    assert l <= a - 1;
    assert d + 1 < l + |r|;
    assert r == s[l..l + |r|];
    assert forall j :: 0 <= j < |r| ==> r[j] == s[j + l];
    forall k | a - l < k < d - l ensures !IsSpace(r[k]) {
      assert r[k] == s[k + l];
    }
  }

  /** The pattern's match consists of non-space characters only, so trimming keeps it:
      an email passes the check exactly when its trimmed form does. */
  lemma TrimKeepsEmailShape(s: string)
    ensures HasEmailShape(Trim(s)) <==> HasEmailShape(s)
  {
    var l := LeadingSpaces(s);
    if HasEmailShape(s) {
      var a, d :| 0 <= a < |s| && 0 <= d < |s| && EmailMatchAt(s, a, d);
      MatchInOriginal(s, a, d);
      assert 0 <= a - l < |Trim(s)| && 0 <= d - l < |Trim(s)|;
    }
    if HasEmailShape(Trim(s)) {
      var a, d :| 0 <= a < |Trim(s)| && 0 <= d < |Trim(s)| && EmailMatchAt(Trim(s), a, d);
      MatchInTrimmed(s, a, d);
    }
  }

  datatype FormError = EmptyField | InvalidEmail

  /** The checks of `handleSave`, in order, and the profile it saves: the trimmed name and
      email, both non-empty, without surrounding white space, the email matching the pattern. */
  function ValidateProfile(username: string, email: string): (r: Result<Profile, FormError>)
    ensures r == Err(EmptyField) <==> Trim(username) == [] || Trim(email) == []
    ensures r == Err(InvalidEmail) <==> Trim(username) != [] && Trim(email) != [] && !HasEmailShape(email)
    ensures r.Ok? ==> r.value == UserContext.Profile(Trim(username), Trim(email))
    ensures r.Ok? ==> r.value.username != [] && !IsSpace(r.value.username[0]) && HasEmailShape(r.value.email)
  {
    TrimKeepsEmailShape(email);
    if Trim(username) == [] || Trim(email) == [] then Err(EmptyField)
    else if !HasEmailShape(email) then Err(InvalidEmail)
    else Ok(UserContext.Profile(Trim(username), Trim(email)))
  }

  /** The dialog's inputs. */
  class ProfileForm {
    var username: string
    var email: string
    /** the content of `@user_data` as this dialog writes it; None until it does */
    ghost var storedUser: Option<Profile>

    constructor ()
      ensures username == "" && email == "" && storedUser == None
    {
      username := "";
      email := "";
      storedUser := None;
    }

    /** `loadUserData`: prefill the inputs from a stored profile; a missing field reads as "". */
    method LoadUserData(saved: Option<Profile>)
      modifies this`username, this`email
      ensures saved.Some? ==> username == saved.value.username && email == saved.value.email
      ensures saved.None? ==> username == old(username) && email == old(email)
    {
      if saved.Some? {
        username := saved.value.username;
        email := saved.value.email;
      }
    }

    /** `handleSave`: on a valid form store the trimmed profile and close the dialog with it
        (`closedWith`); on an invalid one store nothing and stay open. */
    method HandleSave() returns (closedWith: Option<Profile>)
      modifies this`storedUser
      ensures ValidateProfile(username, email).Ok? ==>
        closedWith == Some(ValidateProfile(username, email).value) && storedUser == closedWith
      ensures ValidateProfile(username, email).Err? ==> closedWith == None && storedUser == old(storedUser)
    {
      var u := Trim(username);
      var e := Trim(email);
      if u == [] || e == [] {
        return None;
      }
      if !HasEmailShape(email) {
        return None;
      }
      var profile := UserContext.Profile(u, e);
      storedUser := Some(profile);
      closedWith := Some(profile);
    }
  }
}
