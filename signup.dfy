/** The registration store of test/signup.py: a dictionary from e-mail address to password,
    filled by `register_user` after its checks pass. */
module Signup {
  import opened Wrappers

  datatype SignupError = MissingFields | InvalidEmail | PasswordTooShort | UserExists
  {
    /** The text of the `ValueError` the source raises. */
    function Message(): string
    {
      match this
      case MissingFields => "Email and password are required."
      case InvalidEmail => "Invalid email format."
      case PasswordTooShort => "Password must be at least 6 characters long."
      case UserExists => "User already exists."
    }
  }

  /** `\w`, read as ASCII: a letter, a digit or an underscore. */
  predicate IsWordChar(c: char)
  {
    ('a' <= c <= 'z') || ('A' <= c <= 'Z') || ('0' <= c <= '9') || c == '_'
  }

  /** `[\w\.-]` */
  predicate IsAddressChar(c: char)
  {
    IsWordChar(c) || c == '.' || c == '-'
  }

  /** `email` splits at `at` and `dot` into `local@domain.tld` as the pattern
      `^[\w\.-]+@[\w\.-]+\.\w+$` reads it: every part non-empty. */
  predicate SplitsAt(email: string, at: int, dot: int)
  {
    && 1 <= at && at + 2 <= dot && dot + 2 <= |email|
    && email[at] == '@' && email[dot] == '.'
    && (forall i :: 0 <= i < at ==> IsAddressChar(email[i]))
    && (forall i :: at < i < dot ==> IsAddressChar(email[i]))
    && (forall i :: dot < i < |email| ==> IsWordChar(email[i]))
  }

  /** `_is_valid_email(email)`: the pattern matches the whole address. */
  predicate IsValidEmail(email: string)
  {
    exists at, dot | 0 <= at < dot < |email| :: SplitsAt(email, at, dot)
  }

  /** A valid address has exactly one '@', and it is where the pattern splits it. */
  lemma ValidEmailHasOneAt(email: string, at: int, dot: int)
    requires SplitsAt(email, at, dot)
    ensures forall i :: 0 <= i < |email| && email[i] == '@' ==> i == at
  {
  }

  /** "test@example.com" is accepted. */
  lemma TestEmailValid()
    ensures IsValidEmail("test@example.com")
  {
    assert SplitsAt("test@example.com", 4, 12);
  }

  /** "valid@email.com" is accepted. */
  lemma ValidEmailValid()
    ensures IsValidEmail("valid@email.com")
  {
    assert SplitsAt("valid@email.com", 5, 11);
  }

  /** "invalidemail", with no '@', is refused. */
  lemma NoAtInvalid()
    ensures !IsValidEmail("invalidemail")
  {
    var s := "invalidemail";
    assert forall i :: 0 <= i < |s| ==> s[i] != '@';
  }

  class UserDatabase {
    /** `self.users`: e-mail address to password. */
    var users: map<string, string>

    constructor ()
      ensures users == map[]
    {
      users := map[];
    }

    /** `register_user(email, password)`: the checks run in the source's order, and only a call that
        passes them all changes the store, adding the one new address. */
    method RegisterUser(email: string, password: string) returns (r: Result<bool, SignupError>)
      modifies this
      ensures (email == "" || password == "") ==> r == Err(MissingFields)
      ensures email != "" && password != "" && !IsValidEmail(email) ==> r == Err(InvalidEmail)
      ensures email != "" && password != "" && IsValidEmail(email) && |password| < 6 ==>
        r == Err(PasswordTooShort)
      ensures email != "" && IsValidEmail(email) && |password| >= 6 && email in old(users) ==>
        r == Err(UserExists)
      ensures r.Ok? <==>
        email != "" && password != "" && IsValidEmail(email) && |password| >= 6 && email !in old(users)
      ensures r.Ok? ==> r.value && users == old(users)[email := password]
      ensures r.Err? ==> users == old(users)
    {
      if email == "" || password == "" {
        return Err(MissingFields);
      }
      if !IsValidEmail(email) {
        return Err(InvalidEmail);
      }
      if |password| < 6 {
        return Err(PasswordTooShort);
      }
      if email in users {
        return Err(UserExists);
      }
      users := users[email := password];
      return Ok(true);
    }
  }

  /** test_successful_registration: a first registration succeeds and stores the address. */
  method SuccessfulRegistration() returns (r: Result<bool, SignupError>, stored: bool)
    ensures r == Ok(true) && stored
  {
    TestEmailValid();
    var db := new UserDatabase();
    r := db.RegisterUser("test@example.com", "secure123");
    stored := "test@example.com" in db.users;
  }

  /** test_duplicate_registration: registering an address twice fails with "User already exists." */
  method DuplicateRegistration() returns (r: Result<bool, SignupError>)
    ensures r == Err(UserExists) && r.error.Message() == "User already exists."
  {
    assert SplitsAt("user@example.com", 4, 12);
    var db := new UserDatabase();
    var first := db.RegisterUser("user@example.com", "password123");
    assert "user@example.com" in db.users;
    r := db.RegisterUser("user@example.com", "newpass123");
  }

  /** test_invalid_email: an address without '@' is refused. */
  method InvalidEmailRefused() returns (r: Result<bool, SignupError>)
    ensures r == Err(InvalidEmail)
  {
    NoAtInvalid();
    var db := new UserDatabase();
    r := db.RegisterUser("invalidemail", "password123");
  }

  /** test_short_password: a three-character password is refused. */
  method ShortPasswordRefused() returns (r: Result<bool, SignupError>)
    ensures r == Err(PasswordTooShort)
  {
    ValidEmailValid();
    var db := new UserDatabase();
    r := db.RegisterUser("valid@email.com", "123");
  }
}
