/** `UserService`: registration checks, registration and login against the
    users collection.  Password hashing is outside the model: the hash
    function and the hash check are parameters, and nothing is assumed of
    them. */
module UserService {
  import opened Values
  import opened UserRepo

  /** The registration form's fields. */
  datatype RegistrationData = RegistrationData(name: string, username: string, email: string, phone: string,
                                               password: string, confirmPassword: string)

  /** The ten flags `validate_registration` may set. */
  datatype RegistrationError =
    | UserError | PassError | LengthError | UpperCaseError | LowerCaseError
    | NumberError | SpecialCharError | PhoneError | MailNotValidError | MailError

  // ---- character classes, as in the regular expressions ----

  /** `[A-Z]`, `[a-z]`, `[0-9]` and `[@$!%*?&#]`. */
  datatype CharClass = Upper | Lower | Digit | Special

  predicate InClass(c: char, k: CharClass) {
    match k
    case Upper => 'A' <= c <= 'Z'
    case Lower => 'a' <= c <= 'z'
    case Digit => '0' <= c <= '9'
    case Special => c == '@' || c == '$' || c == '!' || c == '%' || c == '*' || c == '?' || c == '&' || c == '#'
  }

  ghost predicate Contains(s: string, k: CharClass) {
    exists i :: 0 <= i < |s| && InClass(s[i], k)
  }

  /** `re.search(k, s)` finds a match: some character of s is in the class. */
  function Search(s: string, k: CharClass): (found: bool)
    ensures found <==> Contains(s, k)
  {
    if s == [] then false
    else if InClass(s[0], k) then true
    else
      var found := Search(s[1..], k);
      assert Contains(s, k) ==> Contains(s[1..], k) by {
        if Contains(s, k) {
          var i :| 0 <= i < |s| && InClass(s[i], k);
          assert s[1..][i - 1] == s[i];
        }
      }
      found
  }

  ghost predicate AllDigits(s: string) {
    forall i :: 0 <= i < |s| ==> '0' <= s[i] <= '9'
  }

  /** `s.isdigit()`: a non-empty string of decimal digits. */
  function IsDigitString(s: string): (r: bool)
    ensures r <==> s != [] && AllDigits(s)
  {
    if s == [] then false
    else if !('0' <= s[0] <= '9') then false
    else if |s| == 1 then true
    else
      var r := IsDigitString(s[1..]);
      assert AllDigits(s) <==> AllDigits(s[1..]) by {
        assert forall i :: 0 < i < |s| ==> s[1..][i - 1] == s[i];
      }
      r
  }

  // ---- the e-mail pattern ----

  /** No "@" at positions lo to hi (exclusive) of s. */
  ghost predicate NoAt(s: string, lo: int, hi: int) {
    forall k :: lo <= k < hi && 0 <= k < |s| ==> s[k] != '@'
  }

  /** `re.match(r"[^@]+@[^@]+\.[^@]+", s)` succeeds: s starts with a
      non-empty run without "@", an "@", a non-empty run without "@", a ".",
      and one more character that is not "@"; anything may follow. */
  ghost predicate MailPattern(s: string) {
    exists i, j :: 0 < i && i + 1 < j && j + 1 < |s|
      && NoAt(s, 0, i) && s[i] == '@' && NoAt(s, i + 1, j) && s[j] == '.' && s[j + 1] != '@'
  }

  /** Position of the first "@" at or after p, or |s|. */
  function AtFrom(s: string, p: nat): (i: nat)
    requires p <= |s|
    ensures p <= i <= |s| && NoAt(s, p, i) && (i < |s| ==> s[i] == '@')
    decreases |s| - p
  {
    if p == |s| || s[p] == '@' then p else AtFrom(s, p + 1)
  }

  /** Scanning from position p: a "." followed by a character other than
      "@", before any "@". */
  function DotFrom(s: string, p: nat): bool
    requires p <= |s|
    decreases |s| - p
  {
    if p + 1 >= |s| || s[p] == '@' then false
    else if s[p] == '.' && s[p + 1] != '@' then true
    else DotFrom(s, p + 1)
  }

  /** A successful scan has found such a ".". */
  lemma {:induction false} DotFromWitness(s: string, p: nat) returns (q: nat)
    requires p <= |s| && DotFrom(s, p)
    ensures p <= q && q + 1 < |s| && NoAt(s, p, q) && s[q] == '.' && s[q + 1] != '@'
    decreases |s| - p
  {
    if s[p] == '.' && s[p + 1] != '@' {
      q := p;
    } else {
      q := DotFromWitness(s, p + 1);
    }
  }

  /** The scan does not miss such a ".". */
  lemma {:induction false} DotFromFinds(s: string, p: nat, q: nat)
    requires p <= q && q + 1 < |s| && NoAt(s, p, q) && s[q] == '.' && s[q + 1] != '@'
    ensures DotFrom(s, p)
    decreases q - p
  {
    if p < q && !(s[p] == '.' && s[p + 1] != '@') {
      assert s[p] != '@';
      DotFromFinds(s, p + 1, q);
    }
  }

  /** The e-mail check as a scan: the local part ends at the first "@",
      the domain part after it starts with a character other than "@" and
      holds a suitable "." further on. */
  function MailMatches(s: string): bool {
    var i := AtFrom(s, 0);
    0 < i && i + 2 < |s| && s[i + 1] != '@' && DotFrom(s, i + 2)
  }

  /** Every address the scan accepts matches the pattern. */
  lemma MailMatchesSound(s: string)
    requires MailMatches(s)
    ensures MailPattern(s)
  {
    var i := AtFrom(s, 0);
    var j := DotFromWitness(s, i + 2);
    assert NoAt(s, i + 1, j);
    assert 0 < i && i + 1 < j && j + 1 < |s|
      && NoAt(s, 0, i) && s[i] == '@' && NoAt(s, i + 1, j) && s[j] == '.' && s[j + 1] != '@';
  }

  /** The first "@" ends every local part free of "@". */
  lemma {:induction false} AtFromIs(s: string, p: nat, a: nat)
    requires p <= a < |s| && NoAt(s, p, a) && s[a] == '@'
    ensures AtFrom(s, p) == a
    decreases a - p
  {
    if p < a {
      AtFromIs(s, p + 1, a);
    }
  }

  /** Every address the pattern matches is accepted by the scan. */
  lemma MailMatchesComplete(s: string)
    requires MailPattern(s)
    ensures MailMatches(s)
  {
    forall a, j | 0 < a && a + 1 < j && j + 1 < |s|
      && NoAt(s, 0, a) && s[a] == '@' && NoAt(s, a + 1, j) && s[j] == '.' && s[j + 1] != '@'
      ensures MailMatches(s)
    {
      MailMatchesAt(s, a, j);
    }
  }

  lemma MailMatchesAt(s: string, a: nat, j: nat)
    requires 0 < a && a + 1 < j && j + 1 < |s|
    requires NoAt(s, 0, a) && s[a] == '@' && NoAt(s, a + 1, j) && s[j] == '.' && s[j + 1] != '@'
    ensures MailMatches(s)
  {
    AtFromIs(s, 0, a);
    assert s[a + 1] != '@';
    assert NoAt(s, a + 2, j);
    DotFromFinds(s, a + 2, j);
  }

  /** The scan accepts exactly the addresses the pattern matches. */
  lemma MailMatchesIff(s: string)
    ensures MailMatches(s) <==> MailPattern(s)
  {
    if MailMatches(s) {
      MailMatchesSound(s);
    }
    if MailPattern(s) {
      MailMatchesComplete(s);
    }
  }

  /** The checks on the password alone, in the order the service makes them. */
  method PasswordErrors(password: string, confirmPassword: string) returns (errors: set<RegistrationError>)
    ensures errors <= {PassError, LengthError, UpperCaseError, LowerCaseError, NumberError, SpecialCharError}
    ensures PassError in errors <==> password != confirmPassword
    ensures LengthError in errors <==> |password| < 8
    ensures UpperCaseError in errors <==> !Contains(password, Upper)
    ensures LowerCaseError in errors <==> !Contains(password, Lower)
    ensures NumberError in errors <==> !Contains(password, Digit)
    ensures SpecialCharError in errors <==> !Contains(password, Special)
  {
    errors := {};
    if password != confirmPassword {
      errors := errors + {PassError};
    }
    if |password| < 8 {
      errors := errors + {LengthError};
    }
    if !Search(password, Upper) {
      errors := errors + {UpperCaseError};
    }
    if !Search(password, Lower) {
      errors := errors + {LowerCaseError};
    }
    if !Search(password, Digit) {
      errors := errors + {NumberError};
    }
    if !Search(password, Special) {
      errors := errors + {SpecialCharError};
    }
  }

  // ---- the service ----

  class UserService {
    const repo: UserStore

    constructor (repo: UserStore)
      ensures this.repo == repo
    {
      this.repo := repo;
    }

    /** The checks on the username, phone number and e-mail address. */
    method AccountErrors(data: RegistrationData) returns (errors: set<RegistrationError>)
      ensures errors <= {UserError, PhoneError, MailNotValidError, MailError}
      ensures UserError in errors <==> data.username in repo.users
      ensures PhoneError in errors <==> !(data.phone != [] && AllDigits(data.phone)) || |data.phone| < 10
      ensures MailNotValidError in errors <==> !MailPattern(data.email)
      ensures MailError in errors <==> repo.HasEmail(data.email)
    {
      errors := {};
      if repo.GetUserByUsername(data.username).Some? {
        errors := errors + {UserError};
      }
      if !IsDigitString(data.phone) || |data.phone| < 10 {
        errors := errors + {PhoneError};
      }
      MailMatchesIff(data.email);
      if !MailMatches(data.email) {
        errors := errors + {MailNotValidError};
      }
      if repo.HasEmail(data.email) {
        errors := errors + {MailError};
      }
    }

    /** `validate_registration`: each flag is set exactly when its check
        fails, and the store is only read. */
    method ValidateRegistration(data: RegistrationData) returns (errors: set<RegistrationError>)
      ensures UserError in errors <==> data.username in repo.users
      ensures PassError in errors <==> data.password != data.confirmPassword
      ensures LengthError in errors <==> |data.password| < 8
      ensures UpperCaseError in errors <==> !Contains(data.password, Upper)
      ensures LowerCaseError in errors <==> !Contains(data.password, Lower)
      ensures NumberError in errors <==> !Contains(data.password, Digit)
      ensures SpecialCharError in errors <==> !Contains(data.password, Special)
      ensures PhoneError in errors <==> !(data.phone != [] && AllDigits(data.phone)) || |data.phone| < 10
      ensures MailNotValidError in errors <==> !MailPattern(data.email)
      ensures MailError in errors <==> repo.HasEmail(data.email)
    {
      var account := AccountErrors(data);
      var password := PasswordErrors(data.password, data.confirmPassword);
      errors := account + password;
    }

    /** `register_user`: the document under the username becomes the
        submitted details with the password replaced by its hash; an
        existing document under that username is overwritten. */
    method RegisterUser(data: RegistrationData, hash: string -> string, now: int)
      modifies repo
      ensures repo.users == old(repo.users)[data.username :=
        User(data.name, data.username, data.email, Some(data.phone), hash(data.password), now)]
    {
      var hashed := hash(data.password);
      repo.SaveUser(User(data.name, data.username, data.email, Some(data.phone), hashed, now));
    }

    /** `authenticate_user`: exactly one of the two results is present; an
        unknown username is reported before the password is looked at. */
    method AuthenticateUser(username: string, password: string, checkHash: (string, string) -> bool)
      returns (user: Option<User>, error: Option<string>)
      ensures user.None? <==> error.Some?
      ensures error == Some("User not found") <==> username !in repo.users
      ensures error == Some("Invalid password") <==> username in repo.users && !checkHash(repo.users[username].password, password)
      ensures user.Some? <==> username in repo.users && checkHash(repo.users[username].password, password)
      ensures user.Some? ==> user.value == repo.users[username]
    {
      var found := repo.GetUserByUsername(username);
      if found.None? {
        return None, Some("User not found");
      }
      if !checkHash(found.value.password, password) {
        return None, Some("Invalid password");
      }
      return found, None;
    }
  }

  /** The registration passes, with no flag set, exactly when all ten checks pass. */
  lemma NoErrorsIffAllChecksPass(errors: set<RegistrationError>, data: RegistrationData, users: map<string, User>,
                                 emailTaken: bool)
    requires UserError in errors <==> data.username in users
    requires PassError in errors <==> data.password != data.confirmPassword
    requires LengthError in errors <==> |data.password| < 8
    requires UpperCaseError in errors <==> !Contains(data.password, Upper)
    requires LowerCaseError in errors <==> !Contains(data.password, Lower)
    requires NumberError in errors <==> !Contains(data.password, Digit)
    requires SpecialCharError in errors <==> !Contains(data.password, Special)
    requires PhoneError in errors <==> !(data.phone != [] && AllDigits(data.phone)) || |data.phone| < 10
    requires MailNotValidError in errors <==> !MailPattern(data.email)
    requires MailError in errors <==> emailTaken
    requires forall e :: e in errors ==> e in {UserError, PassError, LengthError, UpperCaseError, LowerCaseError,
                                               NumberError, SpecialCharError, PhoneError, MailNotValidError, MailError}
    ensures errors == {} <==>
      && data.username !in users
      && data.password == data.confirmPassword
      && |data.password| >= 8
      && Contains(data.password, Upper) && Contains(data.password, Lower)
      && Contains(data.password, Digit) && Contains(data.password, Special)
      && data.phone != [] && AllDigits(data.phone) && |data.phone| >= 10
      && MailPattern(data.email)
      && !emailTaken
  {
  }
}
