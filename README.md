# UserManager session store, in Dafny

This project models `UserManager`, the client-side session and profile store
of a tutoring web site, and proves properties of the model. The store holds
one optional user record, `currentUser`. It mirrors that record into the
single `bsk_user` slot of the browser's local storage. It also runs a
navigation guard that sends a visitor to the dashboard, to the profile-setup
page or to the landing page, depending on the session flags and the page.

Layout:

- `js_strings.dfy` (module `JsStrings`): `split` with a one-character
  separator and `join`, proved inverse to each other.
- `js_values.dfy` (module `JsValues`): the JavaScript values a record holds,
  truthiness, `a || b` and string conversion.
- `user_records.dfy` (module `UserRecords`): the record, the spread merge,
  the JSON round trip, and the partial records that register, login and
  profile setup save. It also holds the level table, the read-only accessors,
  the record logout keeps, the greeting and the avatar initial, and the
  lemmas about the three transitions and logout.
- `navigation.dfy` (module `Navigation`): the page name of a path, the
  public and protected page lists, the four guard rules (`FiredTargets`),
  and the decision table they amount to (`Redirect`).
- `user_manager.dfy` (module `UserManagement`): the class `UserManager`.
  Its fields are `currentUser`, `stored` (the `bsk_user` slot) and
  `location` (the last page assigned to `window.location.href`). Its methods
  change those fields in place, as the source's methods do.

How the model treats its inputs:

- A record is a `map<string, Value>`. The spread merge adds and overrides
  keys rather than filling a fixed structure.
- The slot holds either a record this store serialised (`Serialized`) or
  text put there by something else (`Foreign`). JSON serialisation is
  modelled by what it does to a record: keys whose value is `undefined`
  disappear (`DropUndefined`).
- `JSON.parse` on foreign text is a parameter `parse`. The current time is
  a parameter `now`, the hour for the greeting is `hour`, the path is
  `path`, and `toUpperCase` is a parameter `upper`.
- The read-only accessors are functions of the record (`user` stands for
  `currentUser`, and `None` for `null`).

The guard's four rules are independent `if`s in the code, so the last
assignment to `location` wins. Reading the rules as "first match wins" gives
the same result: `AtMostOneRuleFires` proves that no state and page make two
rules fire.

Three behaviours of the code worth noting:

- `loadUserData` tests the stored text for truthiness, so an empty string in
  the slot is treated like a missing key and keeps the current user
  (`Foreign("")` in `Loaded`).
- Any of the three transitions creates the record when there is none, not only
  registration and login: `setupProfile` merges into `null` as well.
- Logout with no user still writes a record, all of whose kept fields are
  `undefined`, so afterwards the preferences are no longer `null`.

## Model

| member | source | states |
|---|---|---|
| `JsValues.Truthy` | userManager.js:89-131 | the truthiness the `||` reads and the `if` tests use (also at lines 260 and 273): a value is truthy exactly when it is not `undefined`, `null`, `false` or `""`; arrays, even empty ones, are truthy |
| `JsValues.Or` | userManager.js:89-131 | `a || b` (also at line 273) is `a` when `a` is truthy and `b` otherwise, so it is truthy exactly when either operand is |
| `JsValues.ToText` | userManager.js:274 | the template conversion: `undefined` and `null` become "undefined" and "null", a string is itself, `true` and `false` become "true" and "false", an empty list becomes "" and a non-empty list its items joined by commas |
| `JsStrings.Split` | userManager.js:140 | `split('/')` yields at least one piece, and no piece holds the separator |
| `JsStrings.SplitLast` | userManager.js:140 | the last piece of a split is the whole string when there is one piece, otherwise exactly the suffix after the last separator |
| `JsStrings.JoinSplit` | userManager.js:140 | joining the pieces of a split with the separator gives the original string back |
| `JsStrings.SplitJoin` | userManager.js:140 | splitting joined pieces that hold no separator gives the pieces back |
| `UserRecords.Field` | userManager.js:94-133 | `currentUser?.key` (also at lines 260 and 273) is the stored value when the user has the key, and `undefined` when there is no user or no such key |
| `UserRecords.Merge` | userManager.js:27 | the spread merge: the keys are the union of both records' keys, every key of the partial record takes its value, every other key reads as before, and merging into `null` gives the partial record |
| `UserRecords.DropUndefined` | userManager.js:28 | the JSON round trip of a record drops only `undefined`-valued keys, so every property read agrees with the original |
| `UserRecords.SaveTwice` | userManager.js:26-30 | two saves in a row equal one save of both partial records, with the second winning on shared keys |
| `UserRecords.DropUndefinedIdempotent` | userManager.js:14 | a record read back from JSON is unchanged by another round trip |
| `UserRecords.RegisterPatch` | userManager.js:34-39 | the registration record has exactly the keys name, email, isLoggedIn and registeredAt, sets `isLoggedIn` to true, and holds no `undefined` |
| `UserRecords.LoginPatch` | userManager.js:48-52 | the login record has exactly the keys email, isLoggedIn and lastLogin, sets `isLoggedIn` to true, leaves name and the setup flag out, and holds no `undefined` |
| `UserRecords.ProfilePatch` | userManager.js:60-67 | the profile record has exactly the six profile keys, sets `setupCompleted` to true, leaves `isLoggedIn` out, and holds no `undefined` |
| `UserRecords.DetermineLevel` | userManager.js:74-90 | "advanced" exactly for grade 11 with EGE, "intermediate" exactly for grade 10 with EGE, "basic" for every other pair, including grade 9 with EGE and unmapped grades |
| `UserRecords.IsLoggedIn` | userManager.js:98-100 | truthy exactly when the record's `isLoggedIn` is truthy; otherwise exactly `false`, in particular with no user |
| `UserRecords.IsProfileSetup` | userManager.js:93-95 | truthy exactly when the record's `setupCompleted` is truthy; otherwise exactly `false`, in particular with no user |
| `UserRecords.Subjects` | userManager.js:112 | a truthy subject list is reported as is; a missing one as the empty list |
| `UserRecords.GetUserPreferences` | userManager.js:103-114 | `null` exactly when there is no user; otherwise exactly the keys grade, exam, level and subjects, the first three read from the record and the subjects reported as `subjects || []` does: a truthy list as is, an absent one as `[]` |
| `UserRecords.GetUserInfo` | userManager.js:117-135 | with no user, exactly `{isLoggedIn: false, setupCompleted: false}`; in every case its two flags are the results of `isLoggedIn()` and `isProfileSetup()` |
| `UserRecords.InfoShape` | userManager.js:103-135 | with a user, the display data has exactly the eight display keys, its profile fields are read from the record, and it repeats the preferences field for field |
| `UserRecords.LogoutRecord` | userManager.js:191-202 | exactly the keys name, email, grade, exam, subjects, setupCompleted, registeredAt (each copied from before) plus `isLoggedIn = false`; level, lastLogin and profileCompletedAt are gone |
| `UserRecords.Greeting` | userManager.js:266-271 | "Доброе утро" exactly before 12, "Добрый день" exactly from 12 to before 18, "Добрый вечер" exactly from 18; the initial "Добро пожаловать" is never the result |
| `UserRecords.WelcomeMessage` | userManager.js:265-275 | the greeting followed by the string conversion of a truthy name (the name itself when it is a string), or by "Ученик" when no truthy name is set |
| `UserRecords.Initials` | userManager.js:259-262 | "У" when no truthy name is set, the upper-cased first character of a string name, and a `TypeError` exactly for a truthy name that is not a string |
| `UserRecords.RegisterLogsIn` | userManager.js:33-43 | after registration the user is logged in with the given name, e-mail and timestamp, the setup flag reads as before, and every other field is untouched |
| `UserRecords.LoginKeepsProfile` | userManager.js:46-56 | after login the user is logged in with the given e-mail and timestamp, and every other field, name and grade included, is untouched |
| `UserRecords.SetupCompletesProfile` | userManager.js:59-71 | after profile setup the profile is complete and the level is the table's level for the grade and exam |
| `UserRecords.SetupSetsPreferences` | userManager.js:59-71 | after profile setup the preferences report exactly the new grade, exam, level and subjects |
| `UserRecords.SetupKeepsSession` | userManager.js:59-71 | profile setup leaves the login flag and every field outside the profile untouched |
| `UserRecords.LogoutKeepsProfile` | userManager.js:189-206 | after logout the user is logged out, the setup flag, grade, exam and subjects read as before, the level reads as `undefined`, and the welcome message is unchanged |
| `UserRecords.SameFieldsSameView` | userManager.js:93-135 | records whose fields read the same give the same result from every accessor, so a JSON round trip changes nothing the pages can see |
| `Navigation.Page` | userManager.js:140 | the page is the text after the last `/` of the path (or the whole path): it contains no `/`, is a suffix of the path, and is preceded by `/` whenever it is shorter than the path |
| `Navigation.TrailingSlashIsRoot` | userManager.js:140-143 | a path ending in `/` names the page `""`, which is public |
| `Navigation.PlainNameIsPage` | userManager.js:140 | a path without `/` is its own page name |
| `Navigation.FiredTargets` | userManager.js:148-170 | the targets of the rules that fire are among dashboard, profile-setup and landing; no rule fires on a page in neither list; a logged-in visitor is never sent to landing; for a logged-out visitor a rule fires exactly on a protected page |
| `Navigation.Redirect` | userManager.js:143-170 | a target is one of dashboard, profile-setup and landing; a page in neither list gives none; a logged-out visitor is redirected exactly from the protected pages, and a logged-in visitor never to the landing page |
| `Navigation.RuleByRule` | userManager.js:148-170 | each rule that fires names the decision table's target, and when no rule fires the table gives no target |
| `Navigation.AtMostOneRuleFires` | userManager.js:148-170 | for every session state and page at most one of the four rules fires, and its target is the decision table's |
| `Navigation.NoRedirectLoop` | userManager.js:148-170 | whenever the guard redirects, the target page itself is not redirected again for the same state |
| `UserManagement.Loaded` | userManager.js:10-23 | a missing or empty slot keeps the current user; foreign text that fails to parse or parses to `null` clears it; an object becomes the user; a record this store wrote comes back with the same fields |
| `UserManagement.AuthRedirect` | userManager.js:138-171 | with no user, a redirect happens exactly on a protected page; on a path ending in `/` a logged-in visitor goes to the dashboard or profile setup by the setup flag, and a logged-out one stays |
| `UserManagement.UserManager.constructor` | userManager.js:3-7 | the new manager holds the loaded user and the location the guard chose for the path |
| `UserManagement.UserManager.LoadUserData` | userManager.js:10-23 | the user becomes `Loaded` of the slot; reloading a slot that mirrors memory changes no field |
| `UserManagement.UserManager.SaveUserData` | userManager.js:26-30 | the user becomes the merge of the old user and the partial record, and the slot holds exactly that record |
| `UserManagement.UserManager.RegisterUser` | userManager.js:33-43 | returns true, merges the registration record, persists it, and leaves the user logged in with other fields untouched |
| `UserManagement.UserManager.LoginUser` | userManager.js:46-56 | returns true, merges the login record, persists it, and leaves the user logged in with other fields untouched |
| `UserManagement.UserManager.SetupProfile` | userManager.js:59-71 | returns true, merges the profile record, persists it, completes the profile with the table's level and keeps the login flag |
| `UserManagement.UserManager.CheckAuthStatus` | userManager.js:138-171 | the four sequential rules leave the location at the guard's target, or unchanged when no rule fires |
| `UserManagement.UserManager.RedirectAfterProfileSetup` | userManager.js:174-176 | the location becomes the dashboard |
| `UserManagement.UserManager.RedirectAfterLogin` | userManager.js:179-186 | the location becomes the dashboard when the profile is set up, profile setup otherwise |
| `UserManagement.UserManager.Logout` | userManager.js:189-209 | memory and slot both hold the logout record, the location becomes the landing page, the user is logged out and the setup flag reads as before |

## Left out

- `send-code.php` (the e-mail relay) is not part of this model. It is HTTP plumbing around PHP's e-mail validation and its `mail()` transport, which are foreign calls.
- `showNotification` is not modelled: it only builds DOM elements, sets styles and starts timers.
- Local storage is a field and JSON text is not modelled. A record this store writes is stored as the record itself, and reading it back drops the `undefined`-valued keys. Foreign text is handed to the `parse` parameter.
- A slot whose JSON is a number, string, boolean or array at top level is not modelled; `Parsed` covers a syntax error, `null` and an object.
- Record values are `undefined`, `null`, booleans, strings and lists of strings. Numbers, nested objects and lists of other values are not modelled.
- The parameters of `registerUser`, `loginUser` and `setupProfile` are typed as strings and a string list, as the site's forms supply them; JavaScript would accept any value.
- The unused `password` parameters of `registerUser` and `loginUser` are dropped: they are never read.
- `UserRecords.DetermineLevel`: the lookup ignores properties inherited from `Object.prototype`. In JavaScript an exam such as `"constructor"` reads an inherited property instead of falling back to "basic".
- `UserRecords.Initials`: `charAt(0)` is modelled as the first `char` of the string, not as a UTF-16 code unit; `toUpperCase` is the parameter `upper`.
- `console.log` and `console.error`, `new Date()`, `toISOString()` and `getHours()` are left out; the timestamp and hour are parameters.
- Navigation is recorded in `location`, not performed. The source goes on running after it assigns `window.location.href`, and so does the model.
