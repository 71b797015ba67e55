/** The session held by `AuthProvider` (src/context/AuthContext.tsx): the
    signed-in user, the loading flag, and the browser's `localStorage`, where
    the user is kept as JSON under one key. The three actions are given twice:
    as transitions of a `Session` value, which the lemmas reason about, and as
    methods of the `AuthProvider` class that update its fields in place.
    `JSON.parse` and `JSON.stringify` are parameters. */
module AuthContext {
  import opened Wrappers

  /** The session user: fixed fields plus the optional organization and role. */
  datatype User = User(
    id: string,
    email: string,
    firstName: string,
    lastName: string,
    organizationId: Option<string>,
    role: Option<string>)

  const StorageKey := "b2b_user"
  const LoginError := "Invalid credentials"

  /** The value the provider holds in `user`: `null`, a user record, or any
      other JSON value a stored entry may parse to (a number, a boolean, a
      string, an array), which the provider takes without checking. Such a
      value is known here only by its JavaScript truthiness, and it has no
      `role`, `email`, `firstName` or `lastName` property. */
  datatype UserValue = Null | Record(user: User) | NonRecord(truthy: bool)
  {
    /** `!!user`. */
    predicate Truthy() {
      Record? || (NonRecord? && truthy)
    }

    /** `user?.role`: only a record has one. */
    function Role(): (r: Option<string>)
      ensures r.Some? ==> Record? && r == user.role
      ensures Record? ==> r == user.role
    {
      if Record? then user.role else None
    }
  }

  /** What `JSON.parse` makes of a stored string: a syntax error (it throws)
      or a value, which is stored as it is. */
  datatype Parsed = Malformed | Value(value: UserValue)

  /** The user `login` signs in, whatever the password. */
  function MockUser(email: string): (u: User)
    ensures u.id == "user_1" && u.email == email
    ensures u.firstName == "John" && u.lastName == "Doe"
    ensures u.organizationId == Some("org_1") && u.role == Some("admin")
  {
    User("user_1", email, "John", "Doe", Some("org_1"), Some("admin"))
  }

  /** The stored session string, when it is present and non-empty. */
  function Saved(storage: map<string, string>): Option<string>
  {
    if StorageKey in storage && storage[StorageKey] != "" then Some(storage[StorageKey]) else None
  }

  datatype Session = Session(user: UserValue, isLoading: bool, storage: map<string, string>)
  {
    /** `isAuthenticated: !!user`. */
    predicate IsAuthenticated() {
      user.Truthy()
    }

    /** `checkAuth`: restore the user from storage. A present, non-empty entry
        is parsed and whatever it parses to becomes the user, unchecked; a
        parse error removes the entry and keeps the user. The loading flag
        ends up false in every case. */
    function CheckAuth(parse: string -> Parsed): (r: Session)
      ensures !r.isLoading
      ensures Saved(storage).None? ==> r.user == user && r.storage == storage
      ensures Saved(storage).Some? && parse(Saved(storage).value).Value? ==>
                r.user == parse(Saved(storage).value).value && r.storage == storage
      ensures Saved(storage).Some? && parse(Saved(storage).value).Malformed? ==>
                r.user == user && r.storage == storage - {StorageKey}
    {
      match Saved(storage)
      case None => this.(isLoading := false)
      case Some(text) =>
        match parse(text)
        case Value(v) => this.(user := v, isLoading := false)
        case Malformed => this.(isLoading := false, storage := storage - {StorageKey})
    }

    /** The session while `login` awaits its simulated delay. */
    function LoginPending(): (r: Session)
      ensures r.isLoading && r.user == user && r.storage == storage
    {
      this.(isLoading := true)
    }

    /** `login(email, password)` once the delay is over. The user is set before
        the write to storage, so a failing write (quota, private mode: the
        only step that can throw) leaves the user signed in but unsaved and
        rejects with the fixed message. The password is never read. */
    function Login(email: string, stringify: User -> string, storageWritable: bool): (r: (Session, Result<(), string>))
      ensures r.0.user == Record(MockUser(email)) && r.0.IsAuthenticated() && !r.0.isLoading
      ensures storageWritable ==> r.1.Ok? && r.0.storage == storage[StorageKey := stringify(MockUser(email))]
      ensures !storageWritable ==> r.1 == Err(LoginError) && r.0.storage == storage
    {
      var u := MockUser(email);
      if storageWritable then
        (Session(Record(u), false, storage[StorageKey := stringify(u)]), Ok(()))
      else
        (Session(Record(u), false, storage), Err(LoginError))
    }

    /** `logout`: forget the user and its stored copy; the loading flag is
        not touched. */
    function Logout(): (r: Session)
      ensures r.user.Null? && !r.IsAuthenticated()
      ensures StorageKey !in r.storage
      ensures forall k :: k in storage && k != StorageKey ==> k in r.storage && r.storage[k] == storage[k]
      ensures r.isLoading == isLoading
    {
      Session(Null, isLoading, storage - {StorageKey})
    }
  }

  /** The provider's first render: no user, loading, storage as the browser has it. */
  function Initial(storage: map<string, string>): (r: Session)
    ensures r.user.Null? && !r.IsAuthenticated() && r.isLoading && r.storage == storage
  {
    Session(Null, true, storage)
  }

  // ---------------------------------------------------------------- properties

  /** Logging out twice is logging out once. */
  lemma LogoutIdempotent(s: Session)
    ensures s.Logout().Logout() == s.Logout()
  {
  }

  /** Logging in and then out leaves nobody signed in and nothing stored. */
  lemma LoginThenLogout(s: Session, email: string, stringify: User -> string, writable: bool)
    ensures !s.Login(email, stringify, writable).0.Logout().IsAuthenticated()
    ensures StorageKey !in s.Login(email, stringify, writable).0.Logout().storage
  {
  }

  /** A saved login survives a reload: a new provider whose storage is the one
      `login` wrote restores the same user, provided `JSON.parse` inverts
      `JSON.stringify` on it (the text of a JSON object is never empty). */
  lemma SessionSurvivesReload(s: Session, email: string, stringify: User -> string, parse: string -> Parsed)
    requires stringify(MockUser(email)) != ""
    requires parse(stringify(MockUser(email))) == Value(Record(MockUser(email)))
    ensures Initial(s.Login(email, stringify, true).0.storage).CheckAuth(parse).user == Record(MockUser(email))
  {
    var written := s.Login(email, stringify, true).0.storage;
    assert Saved(written) == Some(stringify(MockUser(email)));
  }

  /** After logout a reload restores nobody. */
  lemma LogoutSurvivesReload(s: Session, parse: string -> Parsed)
    ensures Initial(s.Logout().storage).CheckAuth(parse).user.Null?
  {
  }

  /** A corrupt entry is removed, so a second check finds nothing to parse. */
  lemma MalformedEntryRemoved(s: Session, parse: string -> Parsed)
    requires Saved(s.storage).Some? && parse(Saved(s.storage).value) == Malformed
    ensures Saved(s.CheckAuth(parse).storage).None?
    ensures s.CheckAuth(parse).CheckAuth(parse) == s.CheckAuth(parse)
  {
  }

  /** Without a stored entry a fresh provider stays signed out. */
  lemma NoEntryStaysSignedOut(storage: map<string, string>, parse: string -> Parsed)
    requires StorageKey !in storage
    ensures !Initial(storage).CheckAuth(parse).IsAuthenticated()
    ensures !Initial(storage).CheckAuth(parse).isLoading
  {
  }

  /** A stored entry that parses to something other than an object or `null`
      is taken as the user: the session is signed in exactly when that value
      is truthy (`"x"`, `[]`, `1`, `true`, but not `0` or `false`), and it has
      no role. */
  lemma NonRecordEntryTaken(storage: map<string, string>, parse: string -> Parsed, truthy: bool)
    requires Saved(storage).Some? && parse(Saved(storage).value) == Value(NonRecord(truthy))
    ensures Initial(storage).CheckAuth(parse).IsAuthenticated() <==> truthy
    ensures Initial(storage).CheckAuth(parse).user.Role().None?
    ensures Initial(storage).CheckAuth(parse).storage == storage
  {
  }

  // ---------------------------------------------------------------- the provider

  /** The React provider; its three state cells become fields. */
  class AuthProvider {
    var user: UserValue
    var isLoading: bool
    var storage: map<string, string>

    function State(): Session
      reads this
    {
      Session(user, isLoading, storage)
    }

    /** `useState(null)`, `useState(true)`. */
    constructor (browserStorage: map<string, string>)
      ensures State() == Initial(browserStorage)
    {
      user := Null;
      isLoading := true;
      storage := browserStorage;
    }

    /** The mount effect. */
    method CheckAuth(parse: string -> Parsed)
      modifies this
      ensures State() == old(State()).CheckAuth(parse)
    {
      if StorageKey in storage && storage[StorageKey] != "" {
        var parsed := parse(storage[StorageKey]);
        match parsed
        case Value(v) => user := v;
        case Malformed => storage := storage - {StorageKey};
      }
      isLoading := false;
    }

    /** `login`, run to completion; the state seen while it awaits is
        `Session.LoginPending`. */
    method Login(email: string, password: string, stringify: User -> string, storageWritable: bool)
      returns (outcome: Result<(), string>)
      modifies this
      ensures (State(), outcome) == old(State()).Login(email, stringify, storageWritable)
    {
      isLoading := true;
      var mockUser := MockUser(email);
      user := Record(mockUser);
      if storageWritable {
        storage := storage[StorageKey := stringify(mockUser)];
        outcome := Ok(());
      } else {
        outcome := Err(LoginError);
      }
      isLoading := false;
    }

    method Logout()
      modifies this
      ensures State() == old(State()).Logout()
    {
      user := Null;
      storage := storage - {StorageKey};
    }
  }
}
