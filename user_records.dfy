/** The user record of the tutoring site's session store and everything the
    store computes from it: the shallow merge every save performs, the
    partial records that registration, login and profile setup merge in, the
    grade x exam level table, the record logout keeps, and the read-only
    accessors. `user` stands for the manager's `currentUser`: `None` is `null`. */
module UserRecords {
  import opened JsValues

  /** A user record: a JavaScript object from field name to value. */
  type Record = map<string, Value>

  /** `user?.[key]`: `undefined` when there is no user or no such key. */
  function Field(user: Option<Record>, key: string): (v: Value)
    ensures user.Some? && key in user.value ==> v == user.value[key]
    ensures user == None || key !in user.value ==> v == Undefined
  {
    match user
    case None => Undefined
    case Some(r) => if key in r then r[key] else Undefined
  }

  /** Both sides are users or both are not, and every property read agrees.
      This is what survives a trip through JSON text. */
  ghost predicate SameFields(a: Option<Record>, b: Option<Record>) {
    a.Some? == b.Some? && forall k :: Field(a, k) == Field(b, k)
  }

  /** `{...user, ...patch}`: every key of `patch` takes `patch`'s value, every
      other key of the previous record keeps its value, and spreading `null`
      adds nothing. */
  function Merge(user: Option<Record>, patch: Record): (r: Record)
    ensures r.Keys == patch.Keys + (if user.Some? then user.value.Keys else {})
    ensures forall k :: k in patch ==> r[k] == patch[k]
    ensures forall k :: k !in patch ==> Field(Some(r), k) == Field(user, k)
    ensures user == None ==> r == patch
  {
    match user
    case None => patch
    case Some(prev) => prev + patch
  }

  /** What `JSON.parse(JSON.stringify(r))` gives back: the keys whose value
      is `undefined` are gone, and nothing else changes. */
  function DropUndefined(r: Record): (d: Record)
    ensures Undefined !in d.Values
    ensures d.Keys <= r.Keys
    ensures SameFields(Some(d), Some(r))
  {
    map k | k in r && r[k] != Undefined :: r[k]
  }

  /** Two saves in a row merge like one save of both partial records, the
      second one winning where they share a key. */
  lemma SaveTwice(user: Option<Record>, first: Record, second: Record)
    ensures Merge(Some(Merge(user, first)), second) == Merge(user, first + second)
  {
  }

  /** Serialising a record that came out of JSON text changes nothing. */
  lemma DropUndefinedIdempotent(r: Record)
    ensures DropUndefined(DropUndefined(r)) == DropUndefined(r)
  {
  }

  // ---- the three state transitions' partial records ----

  /** The record `registerUser` saves; `now` is `new Date().toISOString()`. */
  function RegisterPatch(name: string, email: string, now: string): (r: Record)
    ensures r.Keys == {"name", "email", "isLoggedIn", "registeredAt"}
    ensures r["isLoggedIn"] == Bool(true)
    ensures Undefined !in r.Values
  {
    map["name" := Str(name), "email" := Str(email), "isLoggedIn" := Bool(true), "registeredAt" := Str(now)]
  }

  /** The record `loginUser` saves. */
  function LoginPatch(email: string, now: string): (r: Record)
    ensures r.Keys == {"email", "isLoggedIn", "lastLogin"}
    ensures r["isLoggedIn"] == Bool(true)
    ensures "name" !in r && "setupCompleted" !in r
    ensures Undefined !in r.Values
  {
    map["email" := Str(email), "isLoggedIn" := Bool(true), "lastLogin" := Str(now)]
  }

  /** The record `setupProfile` saves. */
  function ProfilePatch(grade: string, exam: string, subjects: seq<string>, now: string): (r: Record)
    ensures r.Keys == {"grade", "exam", "subjects", "level", "setupCompleted", "profileCompletedAt"}
    ensures r["setupCompleted"] == Bool(true)
    ensures "isLoggedIn" !in r
    ensures Undefined !in r.Values
  {
    map["grade" := Str(grade), "exam" := Str(exam), "subjects" := List(subjects),
        "level" := Str(DetermineLevel(grade, exam)), "setupCompleted" := Bool(true),
        "profileCompletedAt" := Str(now)]
  }

  // ---- the level table ----

  /** The fixed grade -> exam -> level table. */
  const Levels: map<string, map<string, string>> := map[
    "11" := map["ege" := "advanced", "oge" := "basic"],
    "10" := map["ege" := "intermediate", "oge" := "basic"],
    "9" := map["oge" := "basic"]
  ]

  /** `levels[grade]?.[exam] || 'basic'`: only the 11th-grade EGE is advanced
      and only the 10th-grade EGE intermediate; every other pair, mapped or
      not, is basic. */
  function DetermineLevel(grade: string, exam: string): (level: string)
    ensures level == "advanced" <==> grade == "11" && exam == "ege"
    ensures level == "intermediate" <==> grade == "10" && exam == "ege"
    ensures level == "basic" <==> !(exam == "ege" && (grade == "11" || grade == "10"))
  {
    if grade in Levels && exam in Levels[grade] && Levels[grade][exam] != "" then
      Levels[grade][exam]
    else
      "basic"
  }

  // ---- read-only accessors ----

  /** `currentUser?.isLoggedIn || false` */
  function IsLoggedIn(user: Option<Record>): (r: Value)
    ensures Truthy(r) <==> Truthy(Field(user, "isLoggedIn"))
    ensures !Truthy(r) ==> r == Bool(false)
    ensures user == None ==> r == Bool(false)
  {
    Or(Field(user, "isLoggedIn"), Bool(false))
  }

  /** `currentUser?.setupCompleted || false` */
  function IsProfileSetup(user: Option<Record>): (r: Value)
    ensures Truthy(r) <==> Truthy(Field(user, "setupCompleted"))
    ensures !Truthy(r) ==> r == Bool(false)
    ensures user == None ==> r == Bool(false)
  {
    Or(Field(user, "setupCompleted"), Bool(false))
  }

  /** `subjects || []`: a missing subject list reads as `[]`. */
  function Subjects(user: Option<Record>): (r: Value)
    ensures Truthy(Field(user, "subjects")) ==> r == Field(user, "subjects")
    ensures !Truthy(Field(user, "subjects")) ==> r == List([])
  {
    Or(Field(user, "subjects"), List([]))
  }

  const PreferenceKeys: set<string> := {"grade", "exam", "level", "subjects"}

  /** The filter data for the task list, or `null` without a user. */
  function GetUserPreferences(user: Option<Record>): (r: Option<Record>)
    ensures r == None <==> user == None
    ensures r.Some? ==> r.value.Keys == PreferenceKeys
    ensures r.Some? ==> forall k :: k in PreferenceKeys && k != "subjects" ==> r.value[k] == Field(user, k)
    ensures r.Some? ==> r.value["subjects"] == Subjects(user)
  {
    match user
    case None => None
    case Some(_) =>
      Some(map["grade" := Field(user, "grade"), "exam" := Field(user, "exam"),
               "level" := Field(user, "level"), "subjects" := Subjects(user)])
  }

  const InfoKeys: set<string> := {"isLoggedIn", "setupCompleted", "grade", "exam", "level", "subjects", "name", "email"}

  /** The display data: exactly `{isLoggedIn: false, setupCompleted: false}`
      without a user, otherwise both flags with `false` defaults plus the
      profile fields (see `InfoShape`). Its two flags are the results of
      `isLoggedIn()` and `isProfileSetup()`. */
  function GetUserInfo(user: Option<Record>): (r: Record)
    ensures user == None ==> r == map["isLoggedIn" := Bool(false), "setupCompleted" := Bool(false)]
    ensures "isLoggedIn" in r && r["isLoggedIn"] == IsLoggedIn(user)
    ensures "setupCompleted" in r && r["setupCompleted"] == IsProfileSetup(user)
  {
    match user
    case None => map["isLoggedIn" := Bool(false), "setupCompleted" := Bool(false)]
    case Some(_) =>
      map["isLoggedIn" := Or(Field(user, "isLoggedIn"), Bool(false)),
          "setupCompleted" := Or(Field(user, "setupCompleted"), Bool(false)),
          "grade" := Field(user, "grade"), "exam" := Field(user, "exam"),
          "level" := Field(user, "level"), "subjects" := Subjects(user),
          "name" := Field(user, "name"), "email" := Field(user, "email")]
  }

  /** With a user, the display data has exactly the eight display keys; the
      profile fields are read from the record, and it repeats the
      preferences field for field. */
  lemma InfoShape(user: Option<Record>)
    requires user.Some?
    ensures GetUserInfo(user).Keys == InfoKeys
    ensures forall k :: k in InfoKeys && k !in {"isLoggedIn", "setupCompleted", "subjects"} ==>
              GetUserInfo(user)[k] == Field(user, k)
    ensures forall k :: k in PreferenceKeys ==> GetUserInfo(user)[k] == GetUserPreferences(user).value[k]
  {
  }

  // ---- logout ----

  /** The fields logout copies over. */
  const KeptKeys: set<string> := {"name", "email", "grade", "exam", "subjects", "setupCompleted", "registeredAt"}

  /** The record logout writes: the kept fields copied (as `undefined` where
      they were never set) and `isLoggedIn: false`. */
  function LogoutRecord(user: Option<Record>): (r: Record)
    ensures r.Keys == KeptKeys + {"isLoggedIn"}
    ensures forall k :: k in KeptKeys ==> r[k] == Field(user, k)
    ensures r["isLoggedIn"] == Bool(false)
    ensures "level" !in r && "lastLogin" !in r && "profileCompletedAt" !in r
  {
    map["name" := Field(user, "name"), "email" := Field(user, "email"),
        "grade" := Field(user, "grade"), "exam" := Field(user, "exam"),
        "subjects" := Field(user, "subjects"), "setupCompleted" := Field(user, "setupCompleted"),
        "registeredAt" := Field(user, "registeredAt"), "isLoggedIn" := Bool(false)]
  }

  // ---- greeting and avatar ----

  /** The greeting for an hour of the day: morning before 12, afternoon
      before 18, evening otherwise; the initial "Добро пожаловать" is always
      overwritten. */
  function Greeting(hour: int): (g: string)
    ensures hour < 12 <==> g == "Доброе утро"
    ensures 12 <= hour < 18 <==> g == "Добрый день"
    ensures 18 <= hour <==> g == "Добрый вечер"
    ensures g != "Добро пожаловать"
  {
    if hour < 12 then "Доброе утро"
    else if hour < 18 then "Добрый день"
    else "Добрый вечер"
  }

  /** `${greeting}, ${currentUser?.name || 'Ученик'}!` */
  function WelcomeMessage(user: Option<Record>, hour: int): (m: string)
    ensures !Truthy(Field(user, "name")) ==> m == Greeting(hour) + ", Ученик!"
    ensures Truthy(Field(user, "name")) ==> m == Greeting(hour) + ", " + ToText(Field(user, "name")) + "!"
    ensures Field(user, "name").Str? && Field(user, "name").s != "" ==>
              m == Greeting(hour) + ", " + Field(user, "name").s + "!"
  {
    Greeting(hour) + ", " + ToText(Or(Field(user, "name"), Str("Ученик"))) + "!"
  }

  /** The avatar letter: "У" when no truthy name is set, otherwise the first
      character of the name, upper-cased by `upper` (`toUpperCase`). A truthy
      name that is not a string has no `charAt` and throws. */
  function Initials(user: Option<Record>, upper: string -> string): (r: Completion<string>)
    ensures !Truthy(Field(user, "name")) ==> r == Normal("У")
    ensures Field(user, "name").Str? && Field(user, "name").s != "" ==>
              r == Normal(upper([Field(user, "name").s[0]]))
    ensures r == TypeError <==> Truthy(Field(user, "name")) && !Field(user, "name").Str?
  {
    var name := Field(user, "name");
    if !Truthy(name) then Normal("У")
    else match name
      case Str(s) => Normal(upper([s[0]]))
      case _ => TypeError
  }

  // ---- properties of the transitions ----

  /** Registration logs the user in with the given name and e-mail and
      leaves every other field as it was. */
  lemma RegisterLogsIn(user: Option<Record>, name: string, email: string, now: string)
    ensures var after := Some(Merge(user, RegisterPatch(name, email, now)));
      && IsLoggedIn(after) == Bool(true)
      && Field(after, "name") == Str(name) && Field(after, "email") == Str(email)
      && Field(after, "registeredAt") == Str(now)
      && IsProfileSetup(after) == IsProfileSetup(user)
      && forall k :: k !in {"name", "email", "isLoggedIn", "registeredAt"} ==> Field(after, k) == Field(user, k)
  {
  }

  /** Login logs the user in and keeps the profile: name, grade, exam,
      subjects, level and the setup flag are untouched. */
  lemma LoginKeepsProfile(user: Option<Record>, email: string, now: string)
    ensures var after := Some(Merge(user, LoginPatch(email, now)));
      && IsLoggedIn(after) == Bool(true)
      && Field(after, "email") == Str(email) && Field(after, "lastLogin") == Str(now)
      && IsProfileSetup(after) == IsProfileSetup(user)
      && forall k :: k !in {"email", "isLoggedIn", "lastLogin"} ==> Field(after, k) == Field(user, k)
  {
  }

  /** Profile setup completes the profile with the level the table gives. */
  lemma SetupCompletesProfile(user: Option<Record>, grade: string, exam: string, subjects: seq<string>, now: string)
    ensures var after := Some(Merge(user, ProfilePatch(grade, exam, subjects, now)));
      && IsProfileSetup(after) == Bool(true)
      && Field(after, "level") == Str(DetermineLevel(grade, exam))
  {
    var patch := ProfilePatch(grade, exam, subjects, now);
    assert patch["setupCompleted"] == Bool(true);
    assert patch["level"] == Str(DetermineLevel(grade, exam));
  }

  /** After profile setup the preferences report exactly the new grade,
      exam, level and subjects. */
  lemma SetupSetsPreferences(user: Option<Record>, grade: string, exam: string, subjects: seq<string>, now: string)
    ensures GetUserPreferences(Some(Merge(user, ProfilePatch(grade, exam, subjects, now)))) ==
              Some(map["grade" := Str(grade), "exam" := Str(exam),
                       "level" := Str(DetermineLevel(grade, exam)), "subjects" := List(subjects)])
  {
    var patch := ProfilePatch(grade, exam, subjects, now);
    var after := Some(Merge(user, patch));
    assert patch["grade"] == Str(grade) && patch["exam"] == Str(exam);
    assert patch["level"] == Str(DetermineLevel(grade, exam)) && patch["subjects"] == List(subjects);
    assert Field(after, "grade") == Str(grade) && Field(after, "exam") == Str(exam);
    assert Field(after, "level") == Str(DetermineLevel(grade, exam));
    assert Field(after, "subjects") == List(subjects);
  }

  /** Profile setup touches only the profile fields; in particular it does
      not change whether the user is logged in. */
  lemma SetupKeepsSession(user: Option<Record>, grade: string, exam: string, subjects: seq<string>, now: string)
    ensures var after := Some(Merge(user, ProfilePatch(grade, exam, subjects, now)));
      && IsLoggedIn(after) == IsLoggedIn(user)
      && forall k :: k !in {"grade", "exam", "subjects", "level", "setupCompleted", "profileCompletedAt"} ==>
           Field(after, k) == Field(user, k)
  {
  }

  /** After logout the user is logged out but keeps the profile: the setup
      flag, grade, exam and subjects read as before, and the level is gone. */
  lemma LogoutKeepsProfile(user: Option<Record>)
    ensures var after := Some(LogoutRecord(user));
      && IsLoggedIn(after) == Bool(false)
      && IsProfileSetup(after) == IsProfileSetup(user)
      && GetUserPreferences(after) == Some(map["grade" := Field(user, "grade"), "exam" := Field(user, "exam"),
           "level" := Undefined, "subjects" := Subjects(user)])
      && forall hour :: WelcomeMessage(after, hour) == WelcomeMessage(user, hour)
  {
  }

  /** Every accessor reads a record only through its fields, so two records
      with the same fields look the same; in particular a record and its
      JSON round trip. */
  lemma SameFieldsSameView(a: Option<Record>, b: Option<Record>, hour: int, upper: string -> string)
    requires SameFields(a, b)
    ensures IsLoggedIn(a) == IsLoggedIn(b) && IsProfileSetup(a) == IsProfileSetup(b)
    ensures GetUserPreferences(a) == GetUserPreferences(b)
    ensures GetUserInfo(a) == GetUserInfo(b)
    ensures LogoutRecord(a) == LogoutRecord(b)
    ensures WelcomeMessage(a, hour) == WelcomeMessage(b, hour)
    ensures Initials(a, upper) == Initials(b, upper)
  {
  }
}
