# Session store model (`useAuthStore`)

This project models the client-side session store of a browser application,
`useAuthStore` in `src/stores/auth.js`, and proves properties of the model with Dafny.

The store holds the signed-in user record and the access token in two cached fields,
`_user` and `_token`. It persists them in the browser's key-value storage under
`OA_USER_KEY` and `OA_TOKEN_KEY`. The `user` and `token` getters read through to storage
while their cached value is empty. From these the store derives `is_logined` and a
three-bit permission mask. `has_permission` tests a list of required masks against that
mask, combining the answers with OR or AND.

Files:

- `entities.dfy` (module `Entities`): the user record and its department, the empty
  record `{}`, the two exceptions the store can let escape (`SyntaxError`, `TypeError`)
  as a `Result`, and the `Codec` standing for `JSON.stringify`/`JSON.parse`.
- `permissions.dfy` (module `Permissions`): the `PermissionChoices` flags, the mask
  derivation (`own_permissions`) and the requirement check (`has_permission`) as pure
  functions. Masks are `bv3`.
- `auth_store.dfy` (module `AuthStore`): the store's state (`State`: cached user, cached
  token, storage map) with one specification function per operation. Each getter's
  function returns its answer together with the state it leaves (`Read`). The class
  `Store` holds the same three fields and the codec. Each method is proved to produce
  exactly what its specification function gives. The lemmas about those functions state
  the frame, idempotence, read-through and round-trip properties.

Modelling choices:

- `localStorage` is the field `storage: map<string, string>`. `getItem` gives `None` for
  an absent key.
- `JSON.stringify`/`JSON.parse` are the two functions of a `Codec` value the store is
  built with. The round-trip lemmas assume `ValidCodec`: a serialised user is never `""`,
  and parsing it gives the same user back.
- The source does not catch a parse failure in the `user` getter (line 48). The model
  returns `Err(SyntaxError)` and leaves the state unchanged, as the exception would.
  The fault propagates through `is_logined`, `own_permissions` and `has_permission`.
- A logged-in user without a `department` faults at line 76 with a `TypeError`. The
  model returns `Err(TypeError)` from `OwnPermissions` for this case. A precondition
  would have excluded it instead.
- `is_logined` short-circuits: the token getter does not run when the user is empty.
- `has_permission` reads `own_permissions` inside the `map` callback, once per
  requirement (`ReadResults`). For an empty list the callback never runs, so nothing is
  read and nothing can fault. For a non-empty list every read after the first repeats
  the first one (`ReadsAreStable`). So the whole map behaves as one read of the mask
  followed by the pure check (`ReadResultsOnce`).
- `opt` defaults to `"|"` in `Permissions.Combine`, `Permissions.HasPermission`,
  `AuthStore.ReadHasPermission` and `AuthStore.Store.HasPermission`, as in the source.

## Model

| member | source | states |
|---|---|---|
| `Permissions.OwnPermissions` | src/stores/auth.js:71-88 | Logged out gives `Staff`. Logged in with no department faults with `TypeError`. Otherwise the mask has only Boarder and Leader bits, so it is never `All`. Boarder is set iff the department name is the board's. Leader is set iff the uid equals the department leader. |
| `Permissions.FlagsIndependent` | src/stores/auth.js:76-85 | The Boarder bit depends only on the department name. The Leader bit depends only on the leader and the uid. |
| `Permissions.SatisfiesBitwise` | src/stores/auth.js:97 | `(p & own) == p` holds iff every flag bit set in `p` is also set in `own`. |
| `Permissions.Results` | src/stores/auth.js:96-98 | The mapped list has the input's length, and each entry is the subset test of the matching requirement. |
| `Permissions.IndexOf` | src/stores/auth.js:101-107 | Gives -1 iff the value is absent. Otherwise gives the first position holding it. |
| `Permissions.Combine` | src/stores/auth.js:100-112 | With `"\|"` (the default), true iff some mapped answer is true. With any other mode, true iff no answer is false. |
| `Permissions.HasPermission` | src/stores/auth.js:90-113 | With `"\|"` (the default), true iff some requirement is satisfied. With any other mode, true iff every requirement is satisfied. |
| `Permissions.HasPermissionVacuous` | src/stores/auth.js:100-112 | An empty list gives false for `"\|"` and true for any other mode, whatever the mask. |
| `Permissions.AllUnreachable` | src/stores/auth.js:7-16 | For every mask the store can derive, `[All]` is never satisfied and `[Staff]` always is, in either mode. |
| `Permissions.Scenarios` | src/stores/auth.js:71-113 | A board member who is not the leader gets Boarder: OR (the default) over `[Boarder, Leader]` holds, AND does not. A leader outside the board gets Leader. Logged out gives Staff, which satisfies `[Staff]` but not `[Boarder]`. |
| `AuthStore.SetUserTokenWrites` | src/stores/auth.js:22-30 | After `setUserToken(u, t)`, memory holds `u` and `t`. Storage maps the user key to the serialised `u` and the token key to `t`. Every other key is unchanged. |
| `AuthStore.ClearUserTokenLogsOut` | src/stores/auth.js:32-37 | After `clearUserToken`, memory holds `{}` and `""`. Both keys are absent and every other key is unchanged. The getters return `{}` and `""` and change nothing, and `is_logined` is false. |
| `AuthStore.ClearUserTokenIdempotent` | src/stores/auth.js:32-37 | Clearing twice gives the same state as clearing once. |
| `AuthStore.ReadsKeepStorage` | src/stores/auth.js:40-113 | No getter and no permission check changes storage. |
| `AuthStore.ReadUserCached` | src/stores/auth.js:45-51 | A non-empty cached user is returned unchanged, whatever storage holds, and the state does not change. |
| `AuthStore.ReadUserLoads` | src/stores/auth.js:45-51 | With an empty cache and no truthy stored text, the getter returns `{}`. Truthy text that parses is returned and cached. Truthy text that does not parse raises `SyntaxError` and changes nothing. |
| `AuthStore.ReadTokenCached` | src/stores/auth.js:55-61 | A non-empty cached token is returned unchanged, whatever storage holds. |
| `AuthStore.ReadTokenLoads` | src/stores/auth.js:55-61 | With an empty cache, truthy stored text is returned and cached. Otherwise the getter returns `""`. |
| `AuthStore.ReadsAreStable` | src/stores/auth.js:40-88 | Reading the user, the token, `is_logined` or `own_permissions` again right after a read gives the same answer and the same state. |
| `AuthStore.ReadResultsOnce` | src/stores/auth.js:96-98 | Mapping a non-empty list, with one `own_permissions` read per element, faults as a single read does. Otherwise it yields the pure answers for the mask that read gives, and leaves the same state. |
| `AuthStore.LoginedMeansBoth` | src/stores/auth.js:64-69 | When `is_logined` does not fault, it is true iff, after the reads, the user has an attribute and the token is non-empty. |
| `AuthStore.ReloadRoundTrip` | src/stores/auth.js:22-62 | After `setUserToken(u, t)`, the same store reads back `u` and `t` from its cache. A fresh store over the same storage reads them back from storage, for every token including `""`. |
| `AuthStore.LoginRoundTrip` | src/stores/auth.js:22-88 | After `setUserToken` with a non-empty user and token, `is_logined` is true and the mask is the one derived from `u`. This holds in the same store and in a fresh store over the same storage. |
| `AuthStore.HasPermissionEmptyReadsNothing` | src/stores/auth.js:90-98 | For an empty list, `has_permission` gives `opt != "\|"`, and false when `opt` is left out. It reads nothing and changes nothing, even when the stored user is malformed. |
| `AuthStore.HasPermissionUsesOwnPermissions` | src/stores/auth.js:90-113 | For a non-empty list, `has_permission` faults iff `own_permissions` does. Otherwise it is the pure check against the derived mask, and it leaves the same state. |
| `AuthStore.Store.constructor` | src/stores/auth.js:19-20 | A new store caches `{}` and `""` over the given storage. |
| `AuthStore.Store.SetUserToken` | src/stores/auth.js:22-30 | The new state is `WithUserToken` of the old state. |
| `AuthStore.Store.ClearUserToken` | src/stores/auth.js:32-37 | The new state is `Cleared` of the old state. |
| `AuthStore.Store.GetUser` | src/stores/auth.js:40-52 | The result and the new state are those of the read-through `ReadUser`. |
| `AuthStore.Store.GetToken` | src/stores/auth.js:54-62 | The result and the new state are those of the read-through `ReadToken`. |
| `AuthStore.Store.IsLogined` | src/stores/auth.js:64-69 | The result and the new state are those of `ReadLogined`. |
| `AuthStore.Store.OwnPermissions` | src/stores/auth.js:71-88 | The result and the new state are those of `ReadOwnPermissions`. |
| `AuthStore.Store.HasPermission` | src/stores/auth.js:90-113 | The result and the new state are those of `ReadHasPermission`. The loop reads `own_permissions` once per requirement, as the `map` callback does. |
| `AuthStore.Reload` | src/stores/auth.js:19-62 | A store that saved `u` and `t`, then a second store created over its storage: the second store's getters return `u` and `t`. |

## Left out

- The Vue and Pinia machinery is not modelled: `ref`, `computed` memoisation and the `defineStore` singleton (src/stores/auth.js:1-2, 18). The getters are ordinary methods on one explicitly constructed `Store`, re-evaluated on each call. With memoisation, `computed` would evaluate `own_permissions` once per `has_permission` call. Without it, the model reads it once per requirement. The two agree because every repeated read gives the same answer and state (`ReadsAreStable`).
- `localStorage` is modelled only as a map. Its errors are not modelled: quota or availability failures of `setItem`/`removeItem`, changes made by other tabs, and clearing by the browser.
- `JSON.stringify` and `JSON.parse` are abstract (`Codec`). Their round trip is a hypothesis (`ValidCodec`), not a proof about RFC 8259.
- Stored text that parses to something other than an object is not modelled. The model raises `SyntaxError` for it, because `decode` yields `None` for anything but a user object. The source behaves differently:
  - For `null`, the value is cached and `Object.keys` faults with a `TypeError` in `is_logined`.
  - For a number such as `5`, the value is cached and has no keys. `is_logined` is false, the mask is `Staff`, and nothing faults.
  - For a non-empty string such as `"ab"`, the value has index keys. `is_logined` can be true, and then `own_permissions` faults with a `TypeError` at line 76.
- The user record is reduced to `uid`, `department` (`name`, `leader`) and the names of its other attributes. A department with a missing `name` or `leader` is not modelled.
- JavaScript loose equality is not modelled. `Object.keys(_user.value) == 0` (line 45) also holds for a record whose only key is `"0"` or another key that coerces to zero. The model tests for no attributes at all. The comparisons at lines 76 and 83 are modelled as plain equality, so number/string coercion between `leader` and `uid` is left out.
- Masks are `bv3`. A required mask outside 0..7, or a non-number, is not modelled.
- `setUserToken` with a token that is not a string is not modelled. `setItem` would store its string form while memory keeps the original value.
