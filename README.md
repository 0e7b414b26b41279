# VaultWire startup configuration and super-admin seeding, in Dafny

VaultWire's backend refuses to start unless its environment provides a
well-formed server master key (32 bytes, written as 64 hexadecimal
characters) and the other required settings. On startup it also seeds the
built-in super-administrator account. It creates the account with full
privileges and key material when no account has its e-mail address. It
promotes an existing account that is not yet a privileged super-admin, and
regenerates its key material only during that promotion, when a key field is
missing. An account that is already privileged is left as it is, even if its
key material is missing. This project models those two pieces of logic and
proves what they guarantee.

- `wrappers.dfy` — `Option` and `Result`; `Result` stands in for a thrown `Error`.
- `strings.dfy` (module `Strings`) — the hex alphabets and character-wise lowercasing.
- `env.dfy` (module `Env`) — `required`, the `||` defaults, the
  `^[0-9a-fA-F]{64}$` test as a matcher, `validateMasterKey`, and loading the
  whole configuration from an environment `map<string, string>`. All pure functions.
- `superadmin_seed.dfy` (module `SuperadminSeed`) — `ensureSuperAdmin`. The
  user document is a class whose fields the promotion branch updates one by
  one. The users collection is a class holding a map from e-mail address to
  document. Key generation is a generator object with a call counter. Each
  method is proved against a pure rule (`Created`, `Promoted`, `SeedRule`),
  and the lemmas state the seeding properties on that rule.

Inputs the model takes as parameters, because they are foreign library
calls or I/O:
- `generateUserKeyPairs` becomes `KeyPairGenerator`: call number `n` yields `gen(n)`.
- `encryptText` becomes `encrypt: string -> string`.
- `bcrypt.hash` becomes `hash: (string, nat) -> string`.
- `new Date()` becomes `now`.
- `process.env` becomes a map.

## Model

| member | source | states |
|---|---|---|
| `Strings.ToLower` | backend/src/config/env.js:14 | the result has the input's length, and each character is the lowercase of the input's character at that position |
| `Strings.ToLowerHex` | backend/src/config/env.js:14 | a string is in `[0-9a-fA-F]*` exactly when its lowercase is in `[0-9a-f]*` |
| `Env.Required` | backend/src/config/env.js:4-8 | succeeds iff the variable is set non-empty or the fallback is non-empty; prefers the environment value, else the fallback; never yields ""; otherwise fails with `MissingEnv(name)` ("Missing env <name>") |
| `Env.OrDefault` | backend/src/config/env.js:20-29 | `process.env[name] \|\| default`: the non-empty environment value, else the default; never empty when the default is not |
| `Env.MatchesHexRepeatExactly` | backend/src/config/env.js:11 | the anchored regex `^[0-9a-fA-F]{n}$`, run as a matcher, accepts exactly the strings of length n whose every character is a hex digit |
| `Env.ValidateMasterKey` | backend/src/config/env.js:10-15 | succeeds iff the input is 64 characters of `[0-9a-fA-F]`; otherwise fails with `InvalidMasterKey` and no value; on success returns the character-wise lowercase, 64 characters of `[0-9a-f]` |
| `Env.ValidateMasterKeyIdempotent` | backend/src/config/env.js:10-15 | validating an accepted key's result again succeeds and returns it unchanged |
| `Env.ValidateMasterKeyCaseInsensitive` | backend/src/config/env.js:14 | two inputs equal up to letter case are both rejected, or both accepted with the same key |
| `Env.LoadConfig` | backend/src/config/env.js:17-33 | startup succeeds iff `SERVER_MASTER_KEY` is well formed and the four other required settings are set; the stored key is then the lowercase of the environment's, 64 lower-case hex characters; a missing key fails with "Missing env SERVER_MASTER_KEY" and a malformed one with `InvalidMasterKey`, before any other setting is looked at |
| `Env.LoadedConfigSettings` | backend/src/config/env.js:19-33 | in a loaded configuration the required settings are the environment's values, and the defaulted ones are non-empty and come from the environment when it sets them |
| `Env.MissingSettingReported` | backend/src/config/env.js:17-28 | with a well-formed master key, startup still fails when `MONGODB_URI`, `JWT_ACCESS_SECRET`, `JWT_REFRESH_SECRET` or `ADMIN_BOOTSTRAP_TOKEN` is missing, naming the first missing one in the order of the exported object |
| `SuperadminSeed.SeedEmailLowered` | backend/src/modules/auth/superadmin.seed.js:27 | the lookup address `SUPERADMIN.email.toLowerCase()` is "ritesh@admin.com", which is already in lower case |
| `SuperadminSeed.LookupEmail` | backend/src/modules/auth/superadmin.seed.js:27 | computes the lowercased seed address that the account is found and stored under |
| `SuperadminSeed.Created` | backend/src/modules/auth/superadmin.seed.js:48-61 | the created record is privileged (role `superadmin`, approved, verified), approved now, not disabled, has the seed username, the lowercased e-mail and the bcrypt hash of the seed password at cost 12, and its four key fields come from one generated key set with both private halves encrypted |
| `SuperadminSeed.Promoted` | backend/src/modules/auth/superadmin.seed.js:29-41 | a promoted record is privileged, not disabled and approved now; username, e-mail and password hash are kept; all four key fields are replaced from one generated key set iff one was missing, and otherwise all four are kept |
| `SuperadminSeed.SeedRule` | backend/src/modules/auth/superadmin.seed.js:26-64 | seeding always ends with a privileged record; a record that is already privileged is returned as it was; an existing record keeps its identity fields; key fields come from the generated set exactly when keys are generated, and otherwise stay as they were |
| `SuperadminSeed.Classify` | backend/src/modules/auth/superadmin.seed.js:28-46 | no save and no log event exactly for an existing privileged record; creation exactly when no record exists |
| `SuperadminSeed.PrivilegedNeverRepaired` | backend/src/modules/auth/superadmin.seed.js:29-45 | an already privileged record is never repaired: it comes back unchanged and no keys are generated, even with a missing key field or `disabled` set |
| `SuperadminSeed.SeedRuleIdempotent` | backend/src/modules/auth/superadmin.seed.js:26-64 | a second seeding run finds a privileged record, changes nothing and generates no keys |
| `SuperadminSeed.KeysSetAfterSeeding` | backend/src/modules/auth/superadmin.seed.js:35-60 | when generation and encryption yield non-empty text, every created or promoted record ends with all four key fields set |
| `SuperadminSeed.KeyPairGenerator.Generate` | backend/src/modules/auth/superadmin.seed.js:14-24 | each call yields the next key set of the generator's stream, and the call count goes up by one |
| `SuperadminSeed.Promote` | backend/src/modules/auth/superadmin.seed.js:29-41 | the field-by-field update of the fetched document leaves it equal to `Promoted` of its old state; it generates keys once if a key field was missing, and never otherwise |
| `SuperadminSeed.CreateSeedUser` | backend/src/modules/auth/superadmin.seed.js:48-61 | generates one key set and inserts a fresh document equal to `Created` under the lowercased seed address; the store's invariant is kept |
| `SuperadminSeed.EnsureSuperAdmin` | backend/src/modules/auth/superadmin.seed.js:26-64 | the returned document's state is `SeedRule` of what the store held under the seed address; the outcome is `Classify` of it; keys are generated once exactly when `GeneratesKeys` holds; an existing document is returned in place and the store's map is unchanged, otherwise exactly one fresh document is added; a privileged document is left untouched; no other document can change |

## Left out

- Key material: RSA-2048 generation with node-forge, X25519 generation with Node's `crypto`, and PEM export (superadmin.seed.js:15-21) are not modelled. A key set is an opaque value from the generator's stream.
- `encryptText` comes from a module that is not part of this model. It is the parameter `encrypt`, a function. If the real one uses a fresh random nonce per call, two encryptions of one PEM differ there but are equal here.
- `bcrypt.hash`: random salting is not modelled. The hash is a function of the password and the cost.
- `new Date()` is the single parameter `now`.
- `User.findOne`, `save` and `create` become operations on a map keyed by e-mail. A document's fields are its stored state, so `save()` has no separate step. The users schema (`../users/user.model`) is not part of this model. That the e-mail key is unique, and that `disabled` defaults to `false` on `create`, are assumptions of the model (`DefaultDisabled`).
- Rejected promises are not modelled: a failing database call, key generation or hash. The seeding methods always complete. Two processes seeding at once (a race between `findOne` and `create`) are not modelled either.
- `logger.info` events are not modelled as output. They become the `SeedOutcome` value.
- `dotenv.config()` (env.js:2) reads a file into the environment. That is I/O. The model starts from the resulting environment map.
- `PORT`, `REFRESH_TOKEN_TTL_DAYS`, `RATE_LIMIT_WINDOW_MS`, `RATE_LIMIT_MAX` and `AUTH_RATE_LIMIT_MAX` are parsed with JavaScript `Number`, which has floating-point semantics. They are not in `Config`.
- `Env.Required`: only string fallbacks are modelled (`Option<string>`, with `None` for `undefined`). The source calls it only without a fallback.
- `Strings.ToLower`: lowercases ASCII letters only, whereas JavaScript's `toLowerCase` also maps non-ASCII letters. The model applies it only to strings that passed the hex test and to the ASCII seed address, and on those the two agree.
- The key custody, certificate authority, vault, message and signature engines are not part of this model. Their source is not among the modelled files.
