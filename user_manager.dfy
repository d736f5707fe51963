/** The `UserManager` of the tutoring site: it holds the current user record,
    mirrors it into the single `bsk_user` storage slot, and runs the
    navigation guard. Storage is the `stored` field, navigation is the
    `location` field (the last `window.location.href` assigned), and the
    clock, the path and JSON parsing come in as parameters. */
module UserManagement {
  import opened JsValues
  import opened UserRecords
  import opened Navigation

  /** What the `bsk_user` slot holds: a record this store serialised, or
      text that something else put there (possibly not JSON at all). */
  datatype Blob = Serialized(record: Record) | Foreign(text: string)

  /** The outcome of `JSON.parse` on foreign text: a syntax error, `null`,
      or an object. */
  datatype Parsed = Invalid | JsonNull | Object(record: Record)

  /** The user `loadUserData` leaves: an empty or missing slot keeps the
      current user; text that does not parse, or parses to `null`, clears it
      without an error reaching the caller; otherwise the parsed record wins.
      A record this store wrote comes back as its JSON round trip. */
  function Loaded(user: Option<Record>, slot: Option<Blob>, parse: string -> Parsed): (r: Option<Record>)
    ensures slot == None || slot == Some(Foreign("")) ==> r == user
    ensures slot.Some? && slot.value.Serialized? ==> SameFields(r, Some(slot.value.record))
    ensures slot.Some? && slot.value.Foreign? && slot.value.text != "" ==>
              r == match parse(slot.value.text)
                   case Object(record) => Some(record)
                   case _ => None
  {
    match slot
    case None => user
    case Some(Serialized(record)) => Some(DropUndefined(record))
    case Some(Foreign(text)) =>
      if text == "" then user
      else match parse(text)
        case Invalid => None
        case JsonNull => None
        case Object(record) => Some(record)
  }

  /** Where the guard sends a visitor: the decision table applied to the
      two session flags and the page the path names. */
  function AuthRedirect(user: Option<Record>, path: string): (target: Option<string>)
    ensures user == None ==> (target.Some? <==> Page(path) in ProtectedPages)
    ensures |path| > 0 && path[|path| - 1] == '/' ==>
              target == (if Truthy(IsLoggedIn(user)) then
                           Some(if Truthy(IsProfileSetup(user)) then Dashboard else ProfileSetup)
                         else None)
  {
    assert |path| > 0 && path[|path| - 1] == '/' ==> Page(path) == "" by {
      if |path| > 0 && path[|path| - 1] == '/' {
        TrailingSlashIsRoot(path);
      }
    }
    Redirect(Truthy(IsLoggedIn(user)), Truthy(IsProfileSetup(user)), Page(path))
  }

  class UserManager {
    /** `this.currentUser`; `None` is `null`. */
    var currentUser: Option<Record>
    /** The `bsk_user` entry of local storage. */
    var stored: Option<Blob>
    /** The last page `window.location.href` was set to, if any. */
    var location: Option<string>

    /** The slot holds exactly what is in memory, up to the keys whose value
        is `undefined`, which JSON text drops. */
    ghost predicate Mirrored()
      reads this
    {
      currentUser.Some? && stored.Some? && stored.value.Serialized?
      && SameFields(currentUser, Some(stored.value.record))
    }

    /** `new UserManager()`: start without a user, load the slot, run the guard. */
    constructor (slot: Option<Blob>, parse: string -> Parsed, path: string)
      ensures stored == slot
      ensures currentUser == Loaded(None, slot, parse)
      ensures location == AuthRedirect(currentUser, path)
    {
      currentUser := None;
      stored := slot;
      location := None;
      new;
      LoadUserData(parse);
      CheckAuthStatus(path);
    }

    /** `loadUserData` */
    method LoadUserData(parse: string -> Parsed)
      modifies this`currentUser
      ensures currentUser == Loaded(old(currentUser), stored, parse)
      ensures old(Mirrored()) ==> Mirrored() && SameFields(currentUser, old(currentUser))
    {
      match stored {
        case None =>
        case Some(Serialized(record)) =>
          currentUser := Some(DropUndefined(record));
        case Some(Foreign(text)) =>
          if text != "" {
            match parse(text) {
              case Invalid => currentUser := None;
              case JsonNull => currentUser := None;
              case Object(record) => currentUser := Some(record);
            }
          }
      }
    }

    /** `saveUserData`: merge the partial record into the current one and
        persist the result. */
    method SaveUserData(userData: Record)
      modifies this`currentUser, this`stored
      ensures currentUser == Some(Merge(old(currentUser), userData))
      ensures stored == Some(Serialized(currentUser.value))
      ensures Mirrored()
    {
      currentUser := Some(Merge(currentUser, userData));
      stored := Some(Serialized(currentUser.value));
    }

    /** `registerUser`; the password is never read. */
    method RegisterUser(name: string, email: string, now: string) returns (ok: bool)
      modifies this`currentUser, this`stored
      ensures ok
      ensures currentUser == Some(Merge(old(currentUser), RegisterPatch(name, email, now)))
      ensures stored == Some(Serialized(currentUser.value))
      ensures IsLoggedIn(currentUser) == Bool(true)
      ensures forall k :: k !in {"name", "email", "isLoggedIn", "registeredAt"} ==> Field(currentUser, k) == Field(old(currentUser), k)
    {
      SaveUserData(RegisterPatch(name, email, now));
      ok := true;
      RegisterLogsIn(old(currentUser), name, email, now);
    }

    /** `loginUser`; there is no credential check. */
    method LoginUser(email: string, now: string) returns (ok: bool)
      modifies this`currentUser, this`stored
      ensures ok
      ensures currentUser == Some(Merge(old(currentUser), LoginPatch(email, now)))
      ensures stored == Some(Serialized(currentUser.value))
      ensures IsLoggedIn(currentUser) == Bool(true)
      ensures forall k :: k !in {"email", "isLoggedIn", "lastLogin"} ==> Field(currentUser, k) == Field(old(currentUser), k)
    {
      SaveUserData(LoginPatch(email, now));
      ok := true;
      LoginKeepsProfile(old(currentUser), email, now);
    }

    /** `setupProfile` */
    method SetupProfile(grade: string, exam: string, subjects: seq<string>, now: string) returns (ok: bool)
      modifies this`currentUser, this`stored
      ensures ok
      ensures currentUser == Some(Merge(old(currentUser), ProfilePatch(grade, exam, subjects, now)))
      ensures stored == Some(Serialized(currentUser.value))
      ensures IsProfileSetup(currentUser) == Bool(true)
      ensures Field(currentUser, "level") == Str(DetermineLevel(grade, exam))
      ensures IsLoggedIn(currentUser) == IsLoggedIn(old(currentUser))
    {
      SaveUserData(ProfilePatch(grade, exam, subjects, now));
      ok := true;
      SetupCompletesProfile(old(currentUser), grade, exam, subjects, now);
      SetupKeepsSession(old(currentUser), grade, exam, subjects, now);
    }

    /** `checkAuthStatus`: four independent rules, each of which may set the
        location; at most one of them fires. */
    method CheckAuthStatus(path: string)
      modifies this`location
      ensures location == match AuthRedirect(currentUser, path)
                          case None => old(location)
                          case Some(target) => Some(target)
    {
      var info := GetUserInfo(currentUser);
      var loggedIn := Truthy(info["isLoggedIn"]);
      var setupDone := Truthy(info["setupCompleted"]);
      var page := Page(path);
      RuleByRule(loggedIn, setupDone, page);
      if loggedIn && page in PublicPages {
        if setupDone {
          location := Some(Dashboard);
        } else {
          location := Some(ProfileSetup);
        }
      }
      if !loggedIn && page in ProtectedPages {
        location := Some(Landing);
      }
      if loggedIn && !setupDone && page == Dashboard {
        location := Some(ProfileSetup);
      }
      if loggedIn && setupDone && page == ProfileSetup {
        location := Some(Dashboard);
      }
    }

    /** `redirectAfterProfileSetup` */
    method RedirectAfterProfileSetup()
      modifies this`location
      ensures location == Some(Dashboard)
    {
      location := Some(Dashboard);
    }

    /** `redirectAfterLogin`: to the dashboard once the profile is set up,
        to profile setup before. */
    method RedirectAfterLogin()
      modifies this`location
      ensures location == Some(if Truthy(IsProfileSetup(currentUser)) then Dashboard else ProfileSetup)
    {
      var info := GetUserInfo(currentUser);
      if Truthy(info["setupCompleted"]) {
        location := Some(Dashboard);
      } else {
        location := Some(ProfileSetup);
      }
    }

    /** `logout`: replace the record by the kept fields and the logged-out
        flag, persist it, and go to the landing page. */
    method Logout()
      modifies this`currentUser, this`stored, this`location
      ensures currentUser == Some(LogoutRecord(old(currentUser)))
      ensures stored == Some(Serialized(currentUser.value))
      ensures location == Some(Landing)
      ensures Mirrored()
      ensures IsLoggedIn(currentUser) == Bool(false)
      ensures IsProfileSetup(currentUser) == IsProfileSetup(old(currentUser))
    {
      var keep := LogoutRecord(currentUser);
      LogoutKeepsProfile(currentUser);
      stored := Some(Serialized(keep));
      currentUser := Some(keep);
      location := Some(Landing);
    }
  }
}
