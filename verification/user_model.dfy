/**
 * The User document: schema defaults and validation, the stored form of the
 * e-mail address, the public profile, and the user collection that the
 * notification-preference handler writes to.
 */
module UserModel {
  import opened Common

  datatype Role = PatientRole | CaregiverRole | ProviderRole | AdminRole

  function ParseRole(s: string): (r: Option<Role>)
    ensures r.Some? <==> s in {"patient", "caregiver", "provider", "admin"}
  {
    if s == "patient" then Some(PatientRole)
    else if s == "caregiver" then Some(CaregiverRole)
    else if s == "provider" then Some(ProviderRole)
    else if s == "admin" then Some(AdminRole)
    else None
  }

  /** Per-channel opt-ins. */
  datatype Preferences = Preferences(email: bool, sms: bool, push: bool)

  const DefaultPreferences := Preferences(true, true, true)

  datatype User = User(
    id: nat,
    firstName: string,
    lastName: string,
    email: string,
    password: Option<string>,
    phone: Option<string>,
    dateOfBirth: Option<Time>,
    role: Role,
    profileImage: Option<string>,
    isEmailVerified: bool,
    isPhoneVerified: bool,
    notificationPreferences: Preferences,
    timezone: string,
    lastLogin: Option<Time>,
    resetPasswordToken: Option<string>,
    resetPasswordExpire: Option<Time>,
    isActive: bool)

  /** The fields a new account is created from; absent optional fields are `None`. */
  datatype Registration = Registration(
    firstName: string,
    lastName: string,
    email: string,
    password: string,
    phone: Option<string>,
    dateOfBirth: Option<Time>,
    role: Option<string>)

  // ---------------------------------------------------------------------------
  // The e-mail pattern ^\w+([.-]?\w+)*@\w+([.-]?\w+)*(\.\w{2,3})+$

  predicate IsWordChar(c: char)
  {
    ('a' <= c <= 'z') || ('A' <= c <= 'Z') || ('0' <= c <= '9') || c == '_'
  }

  predicate IsSeparator(c: char)
  {
    c == '.' || c == '-'
  }

  /** `\w+` */
  predicate Word(s: string)
  {
    |s| > 0 && forall i :: 0 <= i < |s| ==> IsWordChar(s[i])
  }

  /** `[.-]?\w+` */
  predicate Piece(s: string)
  {
    Word(s) || (|s| > 1 && IsSeparator(s[0]) && Word(s[1..]))
  }

  /** `([.-]?\w+)*` */
  predicate Pieces(s: string)
    decreases |s|
  {
    s == [] || exists k | 0 < k <= |s| :: Piece(s[..k]) && Pieces(s[k..])
  }

  /** `\w+([.-]?\w+)*` */
  predicate Dotted(s: string)
  {
    exists k | 0 < k <= |s| :: Word(s[..k]) && Pieces(s[k..])
  }

  /** `\.\w{2,3}` */
  predicate Suffix(s: string)
  {
    (|s| == 3 || |s| == 4) && s[0] == '.' && Word(s[1..])
  }

  /** `(\.\w{2,3})+` */
  predicate Suffixes(s: string)
    decreases |s|
  {
    exists k | 0 < k <= |s| :: Suffix(s[..k]) && (k == |s| || Suffixes(s[k..]))
  }

  /** The whole pattern, anchored at both ends. */
  predicate EmailPattern(s: string)
  {
    exists a | 0 <= a < |s| ::
      && s[a] == '@'
      && Dotted(s[..a])
      && exists d | a + 1 <= d <= |s| :: Dotted(s[a + 1..d]) && Suffixes(s[d..])
  }

  /** The characters the pattern's parts are made of: word characters, `.` and `-`. */
  predicate AddressChar(c: char)
  {
    IsWordChar(c) || IsSeparator(c)
  }

  lemma PieceChars(s: string)
    requires Piece(s)
    ensures forall i :: 0 <= i < |s| ==> AddressChar(s[i])
  {
    if !Word(s) {
      forall i | 1 <= i < |s| ensures AddressChar(s[i]) {
        assert s[i] == s[1..][i - 1];
      }
    }
  }

  lemma {:induction false} PiecesChars(s: string)
    requires Pieces(s)
    ensures forall i :: 0 <= i < |s| ==> AddressChar(s[i])
    decreases |s|
  {
    if s != [] {
      var k :| 0 < k <= |s| && Piece(s[..k]) && Pieces(s[k..]);
      PieceChars(s[..k]);
      PiecesChars(s[k..]);
      forall i | 0 <= i < |s| ensures AddressChar(s[i]) {
        if i < k {
          assert s[i] == s[..k][i];
        } else {
          assert s[i] == s[k..][i - k];
        }
      }
    }
  }

  lemma DottedChars(s: string)
    requires Dotted(s)
    ensures forall i :: 0 <= i < |s| ==> AddressChar(s[i])
  {
    var k :| 0 < k <= |s| && Word(s[..k]) && Pieces(s[k..]);
    PiecesChars(s[k..]);
    forall i | 0 <= i < |s| ensures AddressChar(s[i]) {
      if i < k {
        assert s[i] == s[..k][i];
      } else {
        assert s[i] == s[k..][i - k];
      }
    }
  }

  lemma {:induction false} SuffixesChars(s: string)
    requires Suffixes(s)
    ensures forall i :: 0 <= i < |s| ==> AddressChar(s[i])
    decreases |s|
  {
    var k :| 0 < k <= |s| && Suffix(s[..k]) && (k == |s| || Suffixes(s[k..]));
    if k < |s| {
      SuffixesChars(s[k..]);
    }
    forall i | 0 <= i < |s| ensures AddressChar(s[i]) {
      if i == 0 {
        assert s[0] == s[..k][0];
      } else if i < k {
        assert s[i] == s[..k][1..][i - 1];
      } else {
        assert s[i] == s[k..][i - k];
      }
    }
  }

  /**
   * An address the pattern accepts has exactly one `@`, neither first nor
   * last, and otherwise only word characters, `.` and `-`: in particular no
   * white space and nothing the `trim` setter would remove.
   */
  lemma EmailPatternShape(s: string)
    requires EmailPattern(s)
    ensures exists a :: 0 < a < |s| - 1 && s[a] == '@' && forall i :: 0 <= i < |s| && i != a ==> AddressChar(s[i])
    ensures forall i :: 0 <= i < |s| ==> !IsSpace(s[i])
  {
    var a :| 0 <= a < |s| && s[a] == '@' && Dotted(s[..a])
      && exists d | a + 1 <= d <= |s| :: Dotted(s[a + 1..d]) && Suffixes(s[d..]);
    var d :| a + 1 <= d <= |s| && Dotted(s[a + 1..d]) && Suffixes(s[d..]);
    DottedChars(s[..a]);
    DottedChars(s[a + 1..d]);
    SuffixesChars(s[d..]);
    forall i | 0 <= i < |s| && i != a ensures AddressChar(s[i]) {
      if i < a {
        assert s[i] == s[..a][i];
      } else if i < d {
        assert s[i] == s[a + 1..d][i - a - 1];
      } else {
        assert s[i] == s[d..][i - d];
      }
    }
  }

  /** The address as stored: the `lowercase` and `trim` setters applied. */
  function NormalizeEmail(s: string): (r: string)
    ensures Trimmed(r)
    ensures forall i :: 0 <= i < |r| ==> !('A' <= r[i] <= 'Z')
  {
    TrimFacts(s);
    LowerFacts(Trim(s));
    Lower(Trim(s))
  }

  lemma {:induction false} NormalizeEmailIdempotent(s: string)
    ensures NormalizeEmail(NormalizeEmail(s)) == NormalizeEmail(s)
  {
    var n := NormalizeEmail(s);
    TrimFacts(n);
    LowerFacts(Trim(s));
  }

  // ---------------------------------------------------------------------------
  // Creation

  /** What the schema validators demand of a registration, after the setters. */
  predicate ValidRegistration(reg: Registration)
  {
    && Trim(reg.firstName) != ""
    && Trim(reg.lastName) != ""
    && NormalizeEmail(reg.email) != ""
    && EmailPattern(NormalizeEmail(reg.email))
    && Utf16Length(reg.password) >= 8
    && (reg.role.Some? ==> ParseRole(reg.role.value).Some?)
  }

  /**
   * Saving a new user: the setters trim names, phone and address and lower-case
   * the address; the pre-save hook stores `hash(password)`; every other field
   * takes its schema default. `None` is a validation error.
   */
  function NewUser(id: nat, reg: Registration, hash: string -> string): (r: Option<User>)
    ensures r.Some? <==> ValidRegistration(reg)
    ensures r.Some? ==> var u := r.value;
      && u.id == id
      && u.firstName == Trim(reg.firstName) && u.firstName != ""
      && u.lastName == Trim(reg.lastName) && u.lastName != ""
      && u.email == NormalizeEmail(reg.email) && EmailPattern(u.email)
      && (reg.phone.None? ==> u.phone.None?)
      && (reg.phone.Some? ==> u.phone == Some(Trim(reg.phone.value)))
      && u.dateOfBirth == reg.dateOfBirth
      && u.profileImage.None? && u.lastLogin.None?
      && u.password == Some(hash(reg.password))
      && u.notificationPreferences == DefaultPreferences
      && !u.isPhoneVerified && !u.isEmailVerified
      && u.isActive && u.timezone == "UTC"
      && u.role == (if reg.role.Some? then ParseRole(reg.role.value).value else PatientRole)
      && u.resetPasswordToken == None && u.resetPasswordExpire == None
  {
    if !ValidRegistration(reg) then None
    else
      Some(User(
        id,
        Trim(reg.firstName),
        Trim(reg.lastName),
        NormalizeEmail(reg.email),
        Some(hash(reg.password)),
        if reg.phone.Some? then Some(Trim(reg.phone.value)) else None,
        reg.dateOfBirth,
        if reg.role.Some? then ParseRole(reg.role.value).value else PatientRole,
        None,
        false,
        false,
        DefaultPreferences,
        "UTC",
        None,
        None,
        None,
        true))
  }

  /**
   * `minlength: 8` counts UTF-16 code units: four characters from beyond the
   * Basic Multilingual Plane are long enough, seven plain letters are not.
   */
  lemma PasswordLengthInCodeUnits(reg: Registration)
    ensures reg.password == "\U{1F48A}\U{1F48A}\U{1F48A}\U{1F48A}" ==> |reg.password| == 4 && Utf16Length(reg.password) == 8
    ensures reg.password == "abcdefg" ==> !ValidRegistration(reg)
  {
    var pill := "\U{1F48A}";
    assert Utf16Length(pill) == 2;
    assert Utf16Length(pill + pill) == 4 by { assert (pill + pill)[1..] == pill; }
    assert Utf16Length(pill + pill + pill) == 6 by { assert (pill + pill + pill)[1..] == pill + pill; }
    assert "\U{1F48A}\U{1F48A}\U{1F48A}\U{1F48A}" == pill + pill + pill + pill;
    assert (pill + pill + pill + pill)[1..] == pill + pill + pill;
    if reg.password == "abcdefg" {
      assert Utf16Length(reg.password) == 7;
    }
  }

  /** A phone number is "present" when the string is non-empty (JavaScript truthiness). */
  predicate HasPhone(u: User)
  {
    u.phone.Some? && u.phone.value != ""
  }

  /** The condition under which the dispatcher attempts an SMS. */
  predicate SmsReachable(u: User)
  {
    u.notificationPreferences.sms && HasPhone(u) && u.isPhoneVerified
  }

  /** A freshly registered user opts into every channel but cannot be reached by SMS. */
  lemma NewUserNotSmsReachable(id: nat, reg: Registration, hash: string -> string)
    requires ValidRegistration(reg)
    ensures var u := NewUser(id, reg, hash).value;
      u.notificationPreferences.email && u.notificationPreferences.push
      && u.notificationPreferences.sms && !SmsReachable(u)
  {
  }

  /** `getPublicProfile`: the document without the password and the reset token fields. */
  function PublicProfile(u: User): (p: User)
    ensures p.password == None && p.resetPasswordToken == None && p.resetPasswordExpire == None
    ensures p.(password := u.password, resetPasswordToken := u.resetPasswordToken,
               resetPasswordExpire := u.resetPasswordExpire) == u
  {
    u.(password := None, resetPasswordToken := None, resetPasswordExpire := None)
  }

  // ---------------------------------------------------------------------------
  // Lookups

  /** `User.findById(id)`. */
  function FindUser(users: seq<User>, id: nat): (r: Option<User>)
    ensures r.Some? ==> r.value in users && r.value.id == id
    ensures r.None? ==> forall i :: 0 <= i < |users| ==> users[i].id != id
  {
    if users == [] then None
    else if users[0].id == id then Some(users[0])
    else FindUser(users[1..], id)
  }

  /** The position of the user `id` in the collection. */
  function IndexOfUser(users: seq<User>, id: nat): (r: Option<nat>)
    ensures r.Some? ==> r.value < |users| && users[r.value].id == id
    ensures r.Some? ==> forall i :: 0 <= i < r.value ==> users[i].id != id
    ensures r.None? ==> forall i :: 0 <= i < |users| ==> users[i].id != id
  {
    if users == [] then None
    else if users[0].id == id then Some(0)
    else match IndexOfUser(users[1..], id)
      case None => None
      case Some(k) => Some(k + 1)
  }

  /** `User.findOne({ email })`: an exact match on the stored address. */
  function FindUserByEmail(users: seq<User>, email: string): (r: Option<User>)
    ensures r.Some? ==> r.value in users && r.value.email == email
    ensures r.None? ==> forall i :: 0 <= i < |users| ==> users[i].email != email
  {
    if users == [] then None
    else if users[0].email == email then Some(users[0])
    else FindUserByEmail(users[1..], email)
  }

  /** Distinct ids and, by the unique index, distinct addresses. */
  ghost predicate UniqueUsers(users: seq<User>)
  {
    forall i, j :: 0 <= i < j < |users| ==> users[i].id != users[j].id && users[i].email != users[j].email
  }

  class UserCollection {
    var users: seq<User>

    ghost predicate Valid()
      reads this
    {
      UniqueUsers(users)
    }

    constructor (users: seq<User>)
      requires UniqueUsers(users)
      ensures Valid() && this.users == users
    {
      this.users := users;
    }
  }
}
