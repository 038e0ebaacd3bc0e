/** The input validators shared by the data layer and the routes: `checkString`, `checkUsername`,
    `checkPassword` and `checkForNoRestrictions`. A thrown message is an `Err`. */
module Helpers {
  import opened Wrappers
  import Js
  import Text

  /** The validators' failures; `Message` is the text the source throws. */
  datatype CheckError =
    | NotAString(name: string)
    | Blank(name: string)
    | UsernameTooShort
    | UsernameSpecialCharacters
    | UsernameWithoutLetter
    | PasswordTooShort
    | PasswordWithSpace
    | PasswordTooWeak
  {
    function Message(): string
    {
      match this
      case NotAString(name) => name + " must exist and be a string"
      case Blank(name) => name + " cannot be empty"
      case UsernameTooShort => "username must be at least 5 characters"
      case UsernameSpecialCharacters => "Username cannot have any special characters or spaces"
      case UsernameWithoutLetter => "Username must have at least 1 letter"
      case PasswordTooShort => "password must be at least 8 characters"
      case PasswordWithSpace => "password cannot contain spaces"
      case PasswordTooWeak =>
        "password must contain at least 1 uppercase, 1 lowercase, 1 number, and 1 special character"
    }
  }

  /** `checkString(val, name)`: a string that is not blank, returned trimmed. */
  function CheckString(val: Js.Value, name: string): (r: Result<string, CheckError>)
    ensures r.Ok? <==> val.Str? && !Text.AllSpace(val.s)
    ensures r.Ok? ==> r.value != [] && r.value == Text.Trim(val.s)
    ensures !val.Str? ==> r == Err(NotAString(name))
    ensures val.Str? && Text.AllSpace(val.s) ==> r == Err(Blank(name))
  {
    if !val.Str? then Err(NotAString(name))
    else
      var t := Text.Trim(val.s);
      if t == "" then Err(Blank(name)) else Ok(t)
  }

  predicate IsAsciiLetter(c: char)
  {
    ('A' <= c <= 'Z') || ('a' <= c <= 'z')
  }

  predicate IsAsciiDigit(c: char)
  {
    '0' <= c <= '9'
  }

  /** What `checkUsername` accepts, stated on the trimmed input: a `length` of at least five code
      units, only ASCII letters and digits, and at least one letter. */
  predicate IsUsername(t: string)
  {
    Text.Utf16Length(t) >= 5 && AllAlphanumeric(t) && HasLetter(t)
  }

  /** `checkUsername(username)`: the trimmed input must be a username; it is returned in lower case.
      The checks run in the source's order, so each failure carries the message of the first check
      that fails. */
  method CheckUsername(val: Js.Value) returns (r: Result<string, CheckError>)
    ensures r.Ok? <==> val.Str? && IsUsername(Text.Trim(val.s))
    ensures r.Ok? ==> r.value == Text.ToLower(Text.Trim(val.s))
    ensures (!val.Str? || Text.AllSpace(val.s)) ==> r == CheckString(val, "username")
    ensures val.Str? && !Text.AllSpace(val.s) && Text.Utf16Length(Text.Trim(val.s)) < 5 ==>
      r == Err(UsernameTooShort)
    ensures val.Str? && Text.Utf16Length(Text.Trim(val.s)) >= 5 && !AllAlphanumeric(Text.Trim(val.s)) ==>
      r == Err(UsernameSpecialCharacters)
    ensures val.Str? && Text.Utf16Length(Text.Trim(val.s)) >= 5 && AllAlphanumeric(Text.Trim(val.s))
            && !HasLetter(Text.Trim(val.s)) ==>
      r == Err(UsernameWithoutLetter)
  {
    var checked := CheckString(val, "username");
    if checked.Err? {
      return Err(checked.error);
    }
    var username := checked.value;
    if Text.Utf16Length(username) < 5 {
      return Err(UsernameTooShort);
    }
    r := ScanUsername(username);
  }

  predicate AllAlphanumeric(t: string)
  {
    forall i :: 0 <= i < |t| ==> IsAsciiLetter(t[i]) || IsAsciiDigit(t[i])
  }

  predicate HasLetter(t: string)
  {
    exists i :: 0 <= i < |t| && IsAsciiLetter(t[i])
  }

  /** The character loop of `checkUsername`: every character a letter or a digit, and some letter. */
  method ScanUsername(username: string) returns (r: Result<string, CheckError>)
    ensures r.Ok? <==> AllAlphanumeric(username) && HasLetter(username)
    ensures r.Ok? ==> r.value == Text.ToLower(username)
    ensures !AllAlphanumeric(username) ==> r == Err(UsernameSpecialCharacters)
    ensures AllAlphanumeric(username) && !HasLetter(username) ==> r == Err(UsernameWithoutLetter)
  {
    var hasLetter := false;
    var i := 0;
    while i < |username|
      invariant 0 <= i <= |username|
      invariant forall j :: 0 <= j < i ==> IsAsciiLetter(username[j]) || IsAsciiDigit(username[j])
      invariant hasLetter <==> exists j :: 0 <= j < i && IsAsciiLetter(username[j])
    {
      var c := username[i];
      if IsAsciiLetter(c) {
        hasLetter := true;
      } else if IsAsciiDigit(c) {
      } else {
        return Err(UsernameSpecialCharacters);
      }
      i := i + 1;
    }
    if !hasLetter {
      return Err(UsernameWithoutLetter);
    }
    return Ok(Text.ToLower(username));
  }

  /** `checkUsername` accepts its own output and returns it unchanged: the lower-cased form of an
      accepted username is an accepted username that trimming and lower-casing leave as it is. */
  lemma UsernameIdempotent(s: string)
    requires IsUsername(Text.Trim(s))
    ensures IsUsername(Text.Trim(Text.ToLower(Text.Trim(s))))
    ensures Text.ToLower(Text.Trim(Text.ToLower(Text.Trim(s)))) == Text.ToLower(Text.Trim(s))
  {
    var t := Text.Trim(s);
    LowerUsername(t);
    var u := Text.ToLower(t);
    AlphanumericIsTrimmed(u);
    Text.ToLowerIdempotent(t);
  }

  lemma LowerUsername(t: string)
    requires IsUsername(t)
    ensures IsUsername(Text.ToLower(t)) && AllAlphanumeric(Text.ToLower(t))
  {
    var u := Text.ToLower(t);
    assert forall i :: 0 <= i < |u| ==> IsAsciiLetter(u[i]) || IsAsciiDigit(u[i]);
    var k :| 0 <= k < |t| && IsAsciiLetter(t[k]);
    assert IsAsciiLetter(u[k]);
    Text.Utf16LengthBmp(t);
    Text.Utf16LengthBmp(u);
  }

  lemma AlphanumericIsTrimmed(u: string)
    requires AllAlphanumeric(u)
    ensures Text.Trim(u) == u
  {
    forall i | 0 <= i < |u|
      ensures !Text.IsSpace(u[i])
    {
      AlphanumericNotSpace(u[i]);
    }
    NoSpaceTrims(u);
  }

  lemma AlphanumericNotSpace(c: char)
    requires IsAsciiLetter(c) || IsAsciiDigit(c)
    ensures !Text.IsSpace(c)
  {
  }

  lemma NoSpaceTrims(u: string)
    requires forall i :: 0 <= i < |u| ==> !Text.IsSpace(u[i])
    ensures Text.Trim(u) == u
  {
    assert Text.TrimStart(u) == u;
    assert Text.TrimEnd(u) == u;
  }

  /** The examples of the unit tests: "USERNAME123" is a username (one with nothing to trim, by
      `AlphanumericIsTrimmed`) and comes back as "username123"; "" is not a username. */
  lemma UsernameExamples()
    ensures IsUsername("USERNAME123") && Text.Trim("USERNAME123") == "USERNAME123"
    ensures Text.ToLower("USERNAME123") == "username123"
    ensures !IsUsername(Text.Trim(""))
  {
    UpperExample();
    AlphanumericIsTrimmed("USERNAME123");
    LowerExample();
  }

  lemma UpperExample()
    ensures IsUsername("USERNAME123") && AllAlphanumeric("USERNAME123")
  {
    var s := "USERNAME123";
    assert IsAsciiLetter(s[0]);
  }

  lemma LowerExample()
    ensures Text.ToLower("USERNAME123") == "username123"
  {
    var u := Text.ToLower("USERNAME123");
    assert |u| == 11;
    assert u[0] == 'u' && u[1] == 's' && u[2] == 'e' && u[3] == 'r' && u[4] == 'n' && u[5] == 'a';
    assert u[6] == 'm' && u[7] == 'e' && u[8] == '1' && u[9] == '2' && u[10] == '3';
  }

  predicate IsAsciiUpper(c: char) { 'A' <= c <= 'Z' }
  predicate IsAsciiLower(c: char) { 'a' <= c <= 'z' }

  /** Neither a space nor an ASCII letter or digit: what `checkPassword` counts as special. */
  predicate IsSpecial(c: char)
  {
    c != ' ' && !IsAsciiUpper(c) && !IsAsciiLower(c) && !IsAsciiDigit(c)
  }

  /** What `checkPassword` accepts, stated on the trimmed input: a `length` of at least eight code
      units, no space, and each of the four kinds of character. */
  predicate IsStrongPassword(t: string)
  {
    Text.Utf16Length(t) >= 8 && AllKinds(t)
  }

  /** What the character loop of `checkPassword` demands: no space, and an uppercase letter, a
      lowercase letter, a digit and a special character. */
  predicate AllKinds(t: string)
  {
    && (forall i :: 0 <= i < |t| ==> t[i] != ' ')
    && (exists i :: 0 <= i < |t| && IsAsciiUpper(t[i]))
    && (exists i :: 0 <= i < |t| && IsAsciiLower(t[i]))
    && (exists i :: 0 <= i < |t| && IsAsciiDigit(t[i]))
    && (exists i :: 0 <= i < |t| && IsSpecial(t[i]))
  }

  /** `checkPassword(password)`: the trimmed input must be strong; it is returned trimmed, so white
      space around the password is accepted and dropped. */
  method CheckPassword(val: Js.Value) returns (r: Result<string, CheckError>)
    ensures r.Ok? <==> val.Str? && IsStrongPassword(Text.Trim(val.s))
    ensures r.Ok? ==> r.value == Text.Trim(val.s)
    ensures (!val.Str? || Text.AllSpace(val.s)) ==> r == CheckString(val, "password")
    ensures val.Str? && !Text.AllSpace(val.s) && Text.Utf16Length(Text.Trim(val.s)) < 8 ==>
      r == Err(PasswordTooShort)
    ensures val.Str? && Text.Utf16Length(Text.Trim(val.s)) >= 8 && ' ' in Text.Trim(val.s) ==>
      r == Err(PasswordWithSpace)
    ensures val.Str? && Text.Utf16Length(Text.Trim(val.s)) >= 8 && ' ' !in Text.Trim(val.s)
            && !AllKinds(Text.Trim(val.s)) ==>
      r == Err(PasswordTooWeak)
  {
    var checked := CheckString(val, "password");
    if checked.Err? {
      return Err(checked.error);
    }
    var password := checked.value;
    if Text.Utf16Length(password) < 8 {
      return Err(PasswordTooShort);
    }
    r := ScanPassword(password);
  }

  /** The character loop of `checkPassword`: a space fails at once, a missing kind fails at the end. */
  method ScanPassword(password: string) returns (r: Result<string, CheckError>)
    ensures r.Ok? <==> AllKinds(password)
    ensures r.Ok? ==> r.value == password
    ensures ' ' in password ==> r == Err(PasswordWithSpace)
    ensures ' ' !in password && !AllKinds(password) ==> r == Err(PasswordTooWeak)
  {
    var hasUpper, hasLower, hasNumber, hasSpecial := false, false, false, false;
    var i := 0;
    while i < |password|
      invariant 0 <= i <= |password|
      invariant forall j :: 0 <= j < i ==> password[j] != ' '
      invariant hasUpper <==> exists j :: 0 <= j < i && IsAsciiUpper(password[j])
      invariant hasLower <==> exists j :: 0 <= j < i && IsAsciiLower(password[j])
      invariant hasNumber <==> exists j :: 0 <= j < i && IsAsciiDigit(password[j])
      invariant hasSpecial <==> exists j :: 0 <= j < i && IsSpecial(password[j])
    {
      var c := password[i];
      if c == ' ' {
        return Err(PasswordWithSpace);
      } else if IsAsciiUpper(c) {
        hasUpper := true;
      } else if IsAsciiLower(c) {
        hasLower := true;
      } else if IsAsciiDigit(c) {
        hasNumber := true;
      } else {
        hasSpecial := true;
      }
      i := i + 1;
    }
    if !hasUpper || !hasLower || !hasNumber || !hasSpecial {
      return Err(PasswordTooWeak);
    }
    return Ok(password);
  }

  /** A password of six characters whose two emoji make its `length` eight is strong. */
  lemma EmojiPasswordStrong()
    ensures IsStrongPassword("Aa1!\U{1F600}\U{1F600}")
  {
    var s := "Aa1!\U{1F600}\U{1F600}";
    Text.EmojiLength();
    assert IsAsciiUpper(s[0]) && IsAsciiLower(s[1]) && IsAsciiDigit(s[2]) && IsSpecial(s[3]);
  }

  /** White space around a password changes neither the verdict nor the returned password. */
  lemma PaddedPasswordSameVerdict(pre: string, p: string, post: string)
    requires Text.AllSpace(pre) && Text.AllSpace(post)
    ensures IsStrongPassword(Text.Trim(pre + p + post)) == IsStrongPassword(Text.Trim(p))
    ensures Text.Trim(pre + p + post) == Text.Trim(p)
  {
    Text.TrimPadded(pre, p, post);
  }

  /** `checkForNoRestrictions(obj)`: true exactly when no property of the object holds a truthy value. */
  method CheckForNoRestrictions(restrictions: map<string, Js.Value>) returns (noRestrictions: bool)
    ensures noRestrictions <==> forall k :: k in restrictions ==> !Js.Truthy(restrictions[k])
  {
    noRestrictions := true;
    var pending := restrictions.Keys;
    while pending != {}
      invariant pending <= restrictions.Keys
      invariant noRestrictions <==> forall k :: k in restrictions && k !in pending ==> !Js.Truthy(restrictions[k])
      decreases pending
    {
      var k :| k in pending;
      if Js.Truthy(restrictions[k]) {
        noRestrictions := false;
      }
      pending := pending - {k};
    }
  }
}
