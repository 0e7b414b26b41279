/** Seeding of the built-in super-administrator at startup: create the
    account when no user has its e-mail address, otherwise promote the
    existing account (repairing its key material if any of it is missing),
    and leave an account that is already a fully privileged super-admin as
    it is. Key generation, `encryptText`, bcrypt and the clock are inputs. */
module SuperadminSeed {
  import opened Wrappers
  import Strings

  /** The built-in account. */
  const SeedUsername := "ritesh"
  const SeedEmail := "ritesh@admin.com"
  const SeedPassword := "ritesh123"
  /** The e-mail address the account is looked up and stored under,
      `SeedEmail` in lower case (see SeedEmailLowered). */
  const SeedEmailLower := "ritesh@admin.com"

  const SuperadminRole := "superadmin"
  /** bcrypt cost factor of the seeded password hash. */
  const BcryptCost := 12
  /** `disabled` is not given to `User.create`; it takes the schema's default,
      taken here to be `false`. */
  const DefaultDisabled := false

  /** A point in time, as `new Date()` yields it. */
  type Timestamp = int

  /** One result of `generateUserKeyPairs`: an RSA pair and an X25519 pair, as PEM text. */
  datatype KeyPairs = KeyPairs(
    cryptoPublicKeyPem: string,
    cryptoPrivateKeyPem: string,
    chatPublicKeyPem: string,
    chatPrivateKeyPem: string)

  /** The fields of a user record that seeding reads or writes. A key field
      that is `undefined`, `null` or empty (all falsy) is "". */
  datatype UserState = UserState(
    username: string,
    email: string,
    passwordHash: string,
    role: string,
    adminApproved: bool,
    verified: bool,
    disabled: bool,
    approvedAt: Option<Timestamp>,
    cryptoPublicKeyPem: string,
    cryptoPrivateKeyEnc: string,
    chatPublicKeyPem: string,
    chatPrivateKeyEnc: string)

  /** Role `superadmin`, approved and verified: the record seeding leaves alone. */
  predicate IsPrivileged(u: UserState) {
    u.role == SuperadminRole && u.adminApproved && u.verified
  }

  /** At least one of the four key fields is falsy. */
  predicate KeysMissing(u: UserState) {
    u.cryptoPublicKeyPem == "" || u.cryptoPrivateKeyEnc == "" ||
    u.chatPublicKeyPem == "" || u.chatPrivateKeyEnc == ""
  }

  /** All four key fields come from the one generated key set `p`, the private
      halves stored only as `encrypt` of their PEM. */
  predicate HoldsKeys(u: UserState, p: KeyPairs, encrypt: string -> string) {
    u.cryptoPublicKeyPem == p.cryptoPublicKeyPem &&
    u.cryptoPrivateKeyEnc == encrypt(p.cryptoPrivateKeyPem) &&
    u.chatPublicKeyPem == p.chatPublicKeyPem &&
    u.chatPrivateKeyEnc == encrypt(p.chatPrivateKeyPem)
  }

  /** The four key fields of `u` and `v` agree. */
  predicate SameKeys(u: UserState, v: UserState) {
    u.cryptoPublicKeyPem == v.cryptoPublicKeyPem && u.cryptoPrivateKeyEnc == v.cryptoPrivateKeyEnc &&
    u.chatPublicKeyPem == v.chatPublicKeyPem && u.chatPrivateKeyEnc == v.chatPrivateKeyEnc
  }

  /** Name, e-mail address and password hash of `u` and `v` agree. */
  predicate SameIdentity(u: UserState, v: UserState) {
    u.username == v.username && u.email == v.email && u.passwordHash == v.passwordHash
  }

  /** The record `User.create` writes when no account has the seed e-mail address. */
  function Created(p: KeyPairs, encrypt: string -> string, hash: (string, nat) -> string, now: Timestamp): (r: UserState)
    ensures IsPrivileged(r) && r.approvedAt == Some(now) && !r.disabled
    ensures r.username == SeedUsername && r.email == SeedEmailLower
    ensures r.passwordHash == hash(SeedPassword, BcryptCost)
    ensures HoldsKeys(r, p, encrypt)
  {
    UserState(
      username := SeedUsername,
      email := SeedEmailLower,
      passwordHash := hash(SeedPassword, BcryptCost),
      role := SuperadminRole,
      adminApproved := true,
      verified := true,
      disabled := DefaultDisabled,
      approvedAt := Some(now),
      cryptoPublicKeyPem := p.cryptoPublicKeyPem,
      cryptoPrivateKeyEnc := encrypt(p.cryptoPrivateKeyPem),
      chatPublicKeyPem := p.chatPublicKeyPem,
      chatPrivateKeyEnc := encrypt(p.chatPrivateKeyPem))
  }

  /** The promotion of an existing account: privileges granted, the account
      re-enabled and approved now, and all four key fields replaced together
      from `p` exactly when one of them was missing. */
  function Promoted(u: UserState, p: KeyPairs, encrypt: string -> string, now: Timestamp): (r: UserState)
    ensures IsPrivileged(r) && !r.disabled && r.approvedAt == Some(now)
    ensures SameIdentity(r, u)
    ensures KeysMissing(u) ==> HoldsKeys(r, p, encrypt)
    ensures !KeysMissing(u) ==> SameKeys(r, u)
  {
    var granted := u.(role := SuperadminRole, adminApproved := true, verified := true,
                      disabled := false, approvedAt := Some(now));
    if KeysMissing(u) then
      granted.(cryptoPublicKeyPem := p.cryptoPublicKeyPem,
               cryptoPrivateKeyEnc := encrypt(p.cryptoPrivateKeyPem),
               chatPublicKeyPem := p.chatPublicKeyPem,
               chatPrivateKeyEnc := encrypt(p.chatPrivateKeyPem))
    else
      granted
  }

  /** What seeding does to the record found under the seed e-mail address
      (`None` when there is none), given the key set a generation would yield. */
  function SeedRule(existing: Option<UserState>, p: KeyPairs, encrypt: string -> string,
                    hash: (string, nat) -> string, now: Timestamp): (r: UserState)
    ensures IsPrivileged(r)
    ensures existing.Some? && IsPrivileged(existing.value) ==> r == existing.value
    ensures existing.Some? ==> SameIdentity(r, existing.value)
    ensures GeneratesKeys(existing) ==> HoldsKeys(r, p, encrypt)
    ensures existing.Some? && !GeneratesKeys(existing) ==> SameKeys(r, existing.value)
  {
    match existing
    case None => Created(p, encrypt, hash, now)
    case Some(u) => if IsPrivileged(u) then u else Promoted(u, p, encrypt, now)
  }

  /** Seeding calls `generateUserKeyPairs` (once) exactly when it creates the
      account or promotes one with a missing key field. */
  predicate GeneratesKeys(existing: Option<UserState>) {
    existing.None? || (!IsPrivileged(existing.value) && KeysMissing(existing.value))
  }

  /** How seeding ended, after the log events it writes. */
  datatype SeedOutcome = Seeded | PromotedExisting | AlreadySuperAdmin

  function Classify(existing: Option<UserState>): (o: SeedOutcome)
    ensures o == AlreadySuperAdmin <==> existing.Some? && IsPrivileged(existing.value)
    ensures o == Seeded <==> existing.None?
  {
    match existing
    case None => Seeded
    case Some(u) => if IsPrivileged(u) then AlreadySuperAdmin else PromotedExisting
  }

  /** An already privileged record is never repaired: it comes back as it was
      even when a key field is missing or the account is disabled. */
  lemma PrivilegedNeverRepaired(u: UserState, p: KeyPairs, encrypt: string -> string,
                                hash: (string, nat) -> string, now: Timestamp)
    requires IsPrivileged(u)
    ensures SeedRule(Some(u), p, encrypt, hash, now) == u
    ensures !GeneratesKeys(Some(u))
    ensures KeysMissing(u) ==> KeysMissing(SeedRule(Some(u), p, encrypt, hash, now))
    ensures u.disabled ==> SeedRule(Some(u), p, encrypt, hash, now).disabled
  {
  }

  /** Seeding twice is seeding once: the second run finds a privileged record,
      changes nothing and generates no keys. */
  lemma SeedRuleIdempotent(existing: Option<UserState>, p: KeyPairs, q: KeyPairs, encrypt: string -> string,
                           hash: (string, nat) -> string, now: Timestamp, later: Timestamp)
    ensures var once := SeedRule(existing, p, encrypt, hash, now);
      SeedRule(Some(once), q, encrypt, hash, later) == once &&
      !GeneratesKeys(Some(once)) && Classify(Some(once)) == AlreadySuperAdmin
  {
  }

  /** When key generation and encryption yield non-empty text, every record
      seeding creates or promotes ends with all four key fields set. */
  lemma KeysSetAfterSeeding(existing: Option<UserState>, p: KeyPairs, encrypt: string -> string,
                            hash: (string, nat) -> string, now: Timestamp)
    requires existing.None? || !IsPrivileged(existing.value)
    requires p.cryptoPublicKeyPem != "" && p.chatPublicKeyPem != ""
    requires encrypt(p.cryptoPrivateKeyPem) != "" && encrypt(p.chatPrivateKeyPem) != ""
    ensures !KeysMissing(SeedRule(existing, p, encrypt, hash, now))
  {
  }

  /** The seed account is looked up and stored under the lowercase of its
      address, which is already in lower case. */
  lemma SeedEmailLowered()
    ensures Strings.ToLower(SeedEmail) == SeedEmailLower
    ensures Strings.ToLower(SeedEmailLower) == SeedEmailLower
  {
    Strings.ToLowerOfNoUpper(SeedEmail);
  }

  /** `SUPERADMIN.email.toLowerCase()`, the address seeding looks up and stores. */
  method LookupEmail() returns (e: string)
    ensures e == SeedEmailLower
  {
    e := Strings.ToLower(SeedEmail);
    SeedEmailLowered();
  }

  /** A user document; seeding updates its fields in place before saving it. */
  class User {
    var username: string
    var email: string
    var passwordHash: string
    var role: string
    var adminApproved: bool
    var verified: bool
    var disabled: bool
    var approvedAt: Option<Timestamp>
    var cryptoPublicKeyPem: string
    var cryptoPrivateKeyEnc: string
    var chatPublicKeyPem: string
    var chatPrivateKeyEnc: string

    function State(): UserState
      reads this
    {
      UserState(username, email, passwordHash, role, adminApproved, verified, disabled, approvedAt,
                cryptoPublicKeyPem, cryptoPrivateKeyEnc, chatPublicKeyPem, chatPrivateKeyEnc)
    }

    /** `User.create({...})` with the given fields. */
    constructor Create(s: UserState)
      ensures State() == s
    {
      username := s.username;
      email := s.email;
      passwordHash := s.passwordHash;
      role := s.role;
      adminApproved := s.adminApproved;
      verified := s.verified;
      disabled := s.disabled;
      approvedAt := s.approvedAt;
      cryptoPublicKeyPem := s.cryptoPublicKeyPem;
      cryptoPrivateKeyEnc := s.cryptoPrivateKeyEnc;
      chatPublicKeyPem := s.chatPublicKeyPem;
      chatPrivateKeyEnc := s.chatPrivateKeyEnc;
    }
  }

  /** The users collection, found by exact e-mail address as `User.findOne({ email })` does. */
  class UserStore {
    var byEmail: map<string, User>

    /** Each document is stored under its own e-mail address. */
    ghost predicate Valid()
      reads this, byEmail.Values
    {
      forall e :: e in byEmail ==> byEmail[e].email == e
    }

    /** The document stored under `email`, as a set (empty when there is none). */
    function Found(email: string): set<object>
      reads this
    {
      if email in byEmail then {byEmail[email]} else {}
    }

    /** The fields of the document stored under `email`, if any. */
    function Find(email: string): Option<UserState>
      reads this, byEmail.Values
    {
      if email in byEmail then Some(byEmail[email].State()) else None
    }
  }

  /** The source of fresh key material: call number `calls` of
      `generateUserKeyPairs` yields `gen(calls)`. */
  class KeyPairGenerator {
    const gen: nat -> KeyPairs
    var calls: nat

    constructor (gen: nat -> KeyPairs)
      ensures this.gen == gen && calls == 0
    {
      this.gen := gen;
      calls := 0;
    }

    /** The key set the next call yields. */
    function Next(): KeyPairs
      reads this
    {
      gen(calls)
    }

    /** `generateUserKeyPairs()`. */
    method Generate() returns (p: KeyPairs)
      modifies this
      ensures p == old(Next()) && calls == old(calls) + 1
    {
      p := gen(calls);
      calls := calls + 1;
    }
  }

  /** The promotion branch of `ensureSuperAdmin()` on the fetched document:
      its fields are set one by one, key generation runs only when a key field
      is missing. */
  method Promote(existing: User, keys: KeyPairGenerator, encrypt: string -> string, now: Timestamp)
    modifies existing, keys
    ensures existing.State() == Promoted(old(existing.State()), old(keys.Next()), encrypt, now)
    ensures keys.calls == old(keys.calls) + if KeysMissing(old(existing.State())) then 1 else 0
  {
    existing.role := SuperadminRole;
    existing.adminApproved := true;
    existing.verified := true;
    existing.disabled := false;
    existing.approvedAt := Some(now);
    if existing.cryptoPublicKeyPem == "" || existing.cryptoPrivateKeyEnc == "" ||
       existing.chatPublicKeyPem == "" || existing.chatPrivateKeyEnc == "" {
      var pairs := keys.Generate();
      existing.cryptoPublicKeyPem := pairs.cryptoPublicKeyPem;
      existing.cryptoPrivateKeyEnc := encrypt(pairs.cryptoPrivateKeyPem);
      existing.chatPublicKeyPem := pairs.chatPublicKeyPem;
      existing.chatPrivateKeyEnc := encrypt(pairs.chatPrivateKeyPem);
    }
  }

  /** The creation branch of `ensureSuperAdmin()`: generate the key
      material, hash the seed password and insert the new document. */
  method CreateSeedUser(store: UserStore, keys: KeyPairGenerator, encrypt: string -> string,
                        hash: (string, nat) -> string, now: Timestamp)
    returns (row: User)
    requires store.Valid() && SeedEmailLower !in store.byEmail
    modifies store, keys
    ensures store.Valid()
    ensures fresh(row) && store.byEmail == old(store.byEmail)[SeedEmailLower := row]
    ensures row.State() == Created(old(keys.Next()), encrypt, hash, now)
    ensures keys.calls == old(keys.calls) + 1
  {
    var pairs := keys.Generate();
    var passwordHash := hash(SeedPassword, BcryptCost);
    row := new User.Create(UserState(
      username := SeedUsername,
      email := SeedEmailLower,
      passwordHash := passwordHash,
      role := SuperadminRole,
      adminApproved := true,
      verified := true,
      disabled := DefaultDisabled,
      approvedAt := Some(now),
      cryptoPublicKeyPem := pairs.cryptoPublicKeyPem,
      cryptoPrivateKeyEnc := encrypt(pairs.cryptoPrivateKeyPem),
      chatPublicKeyPem := pairs.chatPublicKeyPem,
      chatPrivateKeyEnc := encrypt(pairs.chatPrivateKeyPem)));
    store.byEmail := store.byEmail[SeedEmailLower := row];
  }

  /** `ensureSuperAdmin()`. Only the document stored under the seed address
      can change, and the store only by the insertion of a new one. */
  method EnsureSuperAdmin(store: UserStore, keys: KeyPairGenerator, encrypt: string -> string,
                          hash: (string, nat) -> string, now: Timestamp)
    returns (row: User, outcome: SeedOutcome)
    requires store.Valid()
    modifies store, keys, store.Found(SeedEmailLower)
    ensures store.Valid()
    ensures row.State() == SeedRule(old(store.Find(SeedEmailLower)), old(keys.Next()), encrypt, hash, now)
    ensures outcome == Classify(old(store.Find(SeedEmailLower)))
    ensures keys.calls == old(keys.calls) + if GeneratesKeys(old(store.Find(SeedEmailLower))) then 1 else 0
    ensures old(SeedEmailLower in store.byEmail) ==>
              row == old(store.byEmail[SeedEmailLower]) && store.byEmail == old(store.byEmail)
    ensures !old(SeedEmailLower in store.byEmail) ==>
              fresh(row) && store.byEmail == old(store.byEmail)[SeedEmailLower := row]
    ensures outcome == AlreadySuperAdmin ==> unchanged(row)
  {
    var email := LookupEmail();
    if email !in store.byEmail {
      row := CreateSeedUser(store, keys, encrypt, hash, now);
      outcome := Seeded;
      return;
    }
    var existing := store.byEmail[email];
    ghost var before := existing.State();
    assert old(store.Find(SeedEmailLower)) == Some(before);
    if existing.role != SuperadminRole || !existing.adminApproved || !existing.verified {
      Promote(existing, keys, encrypt, now);
      outcome := PromotedExisting;
    } else {
      outcome := AlreadySuperAdmin;
    }
    row := existing;
  }
}
