/**
 * The records of the backend (nitrous-backend/models/models.go), the
 * validation rules carried by the request records' binding tags, and the
 * JSON form the handlers send back.
 */
module Models {

  /** An instant, as nanoseconds since Go's zero time (January 1, year 1, UTC). */
  datatype Instant = Instant(nanos: int)

  /** The zero `time.Time`, which a record holds when nothing set the field. */
  const ZeroTime: Instant := Instant(0)

  const Hour: int := 3600 * 1000000000

  /** `t.Add(d)` for a duration of `d` nanoseconds. */
  function Add(t: Instant, d: int): Instant
  {
    Instant(t.nanos + d)
  }

  /** A float64, carried as its IEEE 754 bit pattern; no arithmetic is done on it. */
  datatype Float64 = Float64(bits: bv64)

  datatype Event = Event(
    id: string,
    title: string,
    location: string,
    date: Instant,
    time: string,
    isLive: bool,
    category: string,
    thumbnailUrl: string,
    createdAt: Instant)

  datatype Category = Category(
    id: string,
    name: string,
    slug: string,
    icon: string,
    liveCount: int,
    description: string,
    color: string)

  datatype Journey = Journey(
    id: string,
    title: string,
    category: string,
    description: string,
    badge: string,
    slotsLeft: int,
    date: Instant,
    price: Float64,
    thumbnailUrl: string)

  datatype MerchItem = MerchItem(
    id: string,
    name: string,
    icon: string,
    price: Float64,
    category: string)

  datatype User = User(
    id: string,
    email: string,
    passwordHash: string,
    name: string,
    createdAt: Instant)

  datatype LoginRequest = LoginRequest(email: string, password: string)

  datatype RegisterRequest = RegisterRequest(email: string, password: string, name: string)

  /** The filter of GET /events/live. */
  function IsLive(e: Event): bool { e.isLive }

  /** The filter of GET /events?category=c. */
  function InCategory(category: string): Event -> bool { (e: Event) => e.category == category }

  // The keys the handlers look records up by, in store order.

  function EventIds(s: seq<Event>): seq<string> { seq(|s|, i requires 0 <= i < |s| => s[i].id) }
  function CategoryIds(s: seq<Category>): seq<string> { seq(|s|, i requires 0 <= i < |s| => s[i].id) }
  function CategorySlugs(s: seq<Category>): seq<string> { seq(|s|, i requires 0 <= i < |s| => s[i].slug) }
  function JourneyIds(s: seq<Journey>): seq<string> { seq(|s|, i requires 0 <= i < |s| => s[i].id) }
  function MerchIds(s: seq<MerchItem>): seq<string> { seq(|s|, i requires 0 <= i < |s| => s[i].id) }
  function UserIds(s: seq<User>): seq<string> { seq(|s|, i requires 0 <= i < |s| => s[i].id) }
  function UserEmails(s: seq<User>): seq<string> { seq(|s|, i requires 0 <= i < |s| => s[i].email) }

  // ---------------------------------------------------------------------
  // Validation. A binding tag such as `required,min=8` is checked tag by
  // tag and stops at the first tag that fails, so a field contributes at
  // most one error; every field is checked, in declaration order.
  // ---------------------------------------------------------------------

  /** A failed binding tag: the struct field and the tag (`required`, `email`, `min`). */
  datatype FieldError = FieldError(field: string, tag: string)

  /** `binding:"required,email"` on a string field. `isEmail` is the validator's address syntax check. */
  function EmailErrors(field: string, value: string, isEmail: string -> bool): seq<FieldError>
  {
    if value == "" then [FieldError(field, "required")]
    else if !isEmail(value) then [FieldError(field, "email")]
    else []
  }

  /** `binding:"required"` on a string field. */
  function RequiredErrors(field: string, value: string): seq<FieldError>
  {
    if value == "" then [FieldError(field, "required")] else []
  }

  /** `binding:"required,min=8"` on a string field; the length counts characters. */
  function PasswordErrors(field: string, value: string): seq<FieldError>
  {
    if value == "" then [FieldError(field, "required")]
    else if |value| < 8 then [FieldError(field, "min")]
    else []
  }

  /** The failed tags of a LoginRequest; it is valid when there are none. */
  function LoginErrors(req: LoginRequest, isEmail: string -> bool): (errs: seq<FieldError>)
    ensures errs == [] <==> req.email != "" && isEmail(req.email) && req.password != ""
    ensures forall e :: e in errs ==> e.field in {"Email", "Password"}
  {
    EmailErrors("Email", req.email, isEmail) + RequiredErrors("Password", req.password)
  }

  /** The failed tags of a RegisterRequest; it is valid when there are none. */
  function RegisterErrors(req: RegisterRequest, isEmail: string -> bool): (errs: seq<FieldError>)
    ensures errs == [] <==>
      req.email != "" && isEmail(req.email) && |req.password| >= 8 && req.name != ""
    ensures FieldError("Password", "min") in errs <==> 0 < |req.password| < 8
    ensures forall e :: e in errs ==> e.field in {"Email", "Password", "Name"}
  {
    EmailErrors("Email", req.email, isEmail)
      + PasswordErrors("Password", req.password)
      + RequiredErrors("Name", req.name)
  }

  // ---------------------------------------------------------------------
  // JSON form. Fields appear in declaration order under their `json` tag
  // names; `omitempty` drops an empty string; `json:"-"` drops the field.
  // ---------------------------------------------------------------------

  datatype Json = JString(s: string) | JBool(b: bool) | JInt(i: int) | JFloat(f: Float64) | JTime(t: Instant)

  type JsonObject = seq<(string, Json)>

  function Keys(obj: JsonObject): seq<string> { seq(|obj|, i requires 0 <= i < |obj| => obj[i].0) }

  /** A string field with `omitempty`: present only when non-empty. */
  function OmitEmpty(key: string, value: string): JsonObject
  {
    if value == "" then [] else [(key, JString(value))]
  }

  function EventJson(e: Event): JsonObject
  {
    [("id", JString(e.id)), ("title", JString(e.title)), ("location", JString(e.location)),
     ("date", JTime(e.date))]
    + OmitEmpty("time", e.time)
    + [("isLive", JBool(e.isLive)), ("category", JString(e.category))]
    + OmitEmpty("thumbnailUrl", e.thumbnailUrl)
    + [("createdAt", JTime(e.createdAt))]
  }

  function JourneyJson(j: Journey): JsonObject
  {
    [("id", JString(j.id)), ("title", JString(j.title)), ("category", JString(j.category)),
     ("description", JString(j.description)), ("badge", JString(j.badge)),
     ("slotsLeft", JInt(j.slotsLeft)), ("date", JTime(j.date)), ("price", JFloat(j.price))]
    + OmitEmpty("thumbnailUrl", j.thumbnailUrl)
  }

  function UserJson(u: User): JsonObject
  {
    [("id", JString(u.id)), ("email", JString(u.email)), ("name", JString(u.name)),
     ("createdAt", JTime(u.createdAt))]
  }

  /** The password hash never reaches the output: users that differ only in it serialise identically. */
  lemma UserJsonHidesHash(u: User, v: User)
    requires u.(passwordHash := v.passwordHash) == v
    ensures UserJson(u) == UserJson(v)
    ensures forall k :: k in Keys(UserJson(u)) ==> k != "passwordHash"
  {
  }

  /** The keys of a concatenation are the keys of its parts, in order. */
  lemma KeysAppend(a: JsonObject, b: JsonObject)
    ensures Keys(a + b) == Keys(a) + Keys(b)
  {
  }

  function OptionalKey(key: string, value: string): seq<string>
  {
    if value == "" then [] else [key]
  }

  /** `time` and `thumbnailUrl` are present in an event's JSON exactly when non-empty. */
  lemma EventJsonOmitsEmpty(e: Event)
    ensures "time" in Keys(EventJson(e)) <==> e.time != ""
    ensures "thumbnailUrl" in Keys(EventJson(e)) <==> e.thumbnailUrl != ""
  {
    var a: JsonObject := [("id", JString(e.id)), ("title", JString(e.title)),
      ("location", JString(e.location)), ("date", JTime(e.date))];
    var b := OmitEmpty("time", e.time);
    var c: JsonObject := [("isLive", JBool(e.isLive)), ("category", JString(e.category))];
    var d := OmitEmpty("thumbnailUrl", e.thumbnailUrl);
    var f: JsonObject := [("createdAt", JTime(e.createdAt))];
    KeysAppend(a, b);
    KeysAppend(a + b, c);
    KeysAppend(a + b + c, d);
    KeysAppend(a + b + c + d, f);
    assert Keys(EventJson(e)) == ["id", "title", "location", "date"] + OptionalKey("time", e.time)
      + ["isLive", "category"] + OptionalKey("thumbnailUrl", e.thumbnailUrl) + ["createdAt"];
  }

  /** `thumbnailUrl` is present in a journey's JSON exactly when non-empty. */
  lemma JourneyJsonOmitsEmpty(j: Journey)
    ensures "thumbnailUrl" in Keys(JourneyJson(j)) <==> j.thumbnailUrl != ""
  {
    var a: JsonObject := [("id", JString(j.id)), ("title", JString(j.title)), ("category", JString(j.category)),
      ("description", JString(j.description)), ("badge", JString(j.badge)),
      ("slotsLeft", JInt(j.slotsLeft)), ("date", JTime(j.date)), ("price", JFloat(j.price))];
    var b := OmitEmpty("thumbnailUrl", j.thumbnailUrl);
    KeysAppend(a, b);
    assert Keys(JourneyJson(j)) == ["id", "title", "category", "description", "badge", "slotsLeft", "date", "price"]
      + OptionalKey("thumbnailUrl", j.thumbnailUrl);
  }
}
