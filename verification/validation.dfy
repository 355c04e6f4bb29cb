/** The request-body schemas of the validation middleware, as predicates
    over a JSON body, and `validate`. Only the constraints the schemas
    declare are modelled; Joi's messages, type coercions and the `uuid` and
    `email` formats (the parameters `isUuid`, `isEmail`) are not. */
module Validation {
  import opened Common
  import opened Decimal
  import Constants

  datatype Json = JNull | JBool(b: bool) | JNum(n: real) | JStr(s: string) | JObj(fields: map<string, Json>)

  /** A scalar schema: `Joi.string()` with extra rules (Joi refuses the empty
      string by default), `Joi.number()` with optional inclusive bounds, or
      `Joi.boolean()`. */
  datatype Leaf =
    | Str(rule: string -> bool)
    | Num(min: Option<real>, max: Option<real>)
    | Bool

  /** A key of a `Joi.object({...})`; objects nest one level deep here. */
  datatype Field<K> = Field(key: string, required: bool, kind: K)

  datatype Kind = Scalar(leaf: Leaf) | Object(children: seq<Field<Leaf>>)

  /** Which part of the body the first error is about: a key whose value
      breaks its rule, or an object holding a key its schema does not name. */
  datatype Violation = Invalid(path: seq<string>) | UnknownKey(parent: seq<string>)

  /** The middleware's two outcomes: pass on to the handler, or answer. */
  datatype Outcome = CallNext | Respond(status: int, detail: Violation)

  predicate LeafAccepts(leaf: Leaf, v: Json) {
    match leaf
    case Str(rule) => v.JStr? && v.s != "" && rule(v.s)
    case Num(lo, hi) =>
      v.JNum? && (lo.Some? ==> lo.value <= v.n) && (hi.Some? ==> v.n <= hi.value)
    case Bool => v.JBool?
  }

  predicate Declares<K>(fields: seq<Field<K>>, key: string) {
    exists i | 0 <= i < |fields| :: fields[i].key == key
  }

  /** The first key, in schema order, that is missing while required or
      present with a value its leaf rule refuses. */
  function FirstBadChild(children: seq<Field<Leaf>>, obj: map<string, Json>): (r: Option<string>)
    ensures r.None? <==> forall i | 0 <= i < |children| ::
      (children[i].key in obj ==> LeafAccepts(children[i].kind, obj[children[i].key]))
      && (children[i].required ==> children[i].key in obj)
    ensures r.Some? ==> Declares(children, r.value)
  {
    if children == [] then None
    else
      var f := children[0];
      if f.key in obj && !LeafAccepts(f.kind, obj[f.key]) then Some(f.key)
      else if f.key !in obj && f.required then Some(f.key)
      else
        var rest := FirstBadChild(children[1..], obj);
        if rest.Some? then assert children[1..][0] == children[1]; rest else rest
  }

  predicate OnlyDeclared<K>(fields: seq<Field<K>>, obj: map<string, Json>) {
    forall k | k in obj :: Declares(fields, k)
  }

  /** Errors inside one key's value: a wrong type, a bad child, an unknown child. */
  function ValueViolation(key: string, kind: Kind, v: Json): Option<Violation> {
    match kind
    case Scalar(leaf) => if LeafAccepts(leaf, v) then None else Some(Invalid([key]))
    case Object(children) =>
      if !v.JObj? then Some(Invalid([key]))
      else
        var bad := FirstBadChild(children, v.fields);
        if bad.Some? then Some(Invalid([key, bad.value]))
        else if !OnlyDeclared(children, v.fields) then Some(UnknownKey([key]))
        else None
  }

  /** The first violation of a body against a top-level object schema:
      keys in schema order first, then keys the schema does not declare. */
  function FirstViolation(fields: seq<Field<Kind>>, body: map<string, Json>): (r: Option<Violation>)
    ensures r.None? ==> OnlyDeclared(fields, body)
    ensures r.None? <==> OnlyDeclared(fields, body) && forall i | 0 <= i < |fields| ::
      (fields[i].key in body ==> ValueViolation(fields[i].key, fields[i].kind, body[fields[i].key]).None?)
      && (fields[i].required ==> fields[i].key in body)
  {
    FieldViolation(fields, body, 0)
  }

  function FieldViolation(fields: seq<Field<Kind>>, body: map<string, Json>, from: nat): (r: Option<Violation>)
    requires from <= |fields|
    ensures r.None? <==> OnlyDeclared(fields, body) && forall i | from <= i < |fields| ::
      (fields[i].key in body ==> ValueViolation(fields[i].key, fields[i].kind, body[fields[i].key]).None?)
      && (fields[i].required ==> fields[i].key in body)
    decreases |fields| - from
  {
    if from == |fields| then
      if OnlyDeclared(fields, body) then None else Some(UnknownKey([]))
    else
      var f := fields[from];
      if f.key in body && ValueViolation(f.key, f.kind, body[f.key]).Some? then
        ValueViolation(f.key, f.kind, body[f.key])
      else if f.key !in body && f.required then Some(Invalid([f.key]))
      else FieldViolation(fields, body, from + 1)
  }

  /** `validate(schema)`: answer 400 with the first error and stop, or
      hand the request on. */
  function Validate(schema: seq<Field<Kind>>, body: map<string, Json>): (r: Outcome)
    ensures r.CallNext? <==> FirstViolation(schema, body).None?
    ensures r.Respond? ==> r.status == 400 && r.detail == FirstViolation(schema, body).value
  {
    var v := FirstViolation(schema, body);
    if v.Some? then Respond(BadRequest, v.value) else CallNext
  }

  // ---- The rules the schemas use.

  /** `pattern(/^[0-9]{10,15}$/)`. */
  predicate PhonePattern(s: string) {
    10 <= |s| <= 15 && AllDigits(s)
  }

  /** `length(6).pattern(/^[0-9]+$/)`. */
  predicate OtpPattern(s: string) {
    |s| == 6 && AllDigits(s)
  }

  /** `min(1).max(50)`. */
  predicate NameLength(s: string) {
    1 <= |s| <= 50
  }

  predicate AnyString(s: string) {
    true
  }

  predicate UserTypeName(s: string) {
    s == Constants.PassengerType || s == Constants.DriverType
  }

  predicate RideTypeName(s: string) {
    s == "standard" || s == "premium"
  }

  /** The seven values of `updateStatus.status`. */
  const StatusValues: seq<string> :=
    ["requested", "accepted", "driver_en_route", "arrived", "in_progress", "completed", "cancelled"]

  predicate StatusName(s: string) {
    s in StatusValues
  }

  const Latitude := Num(Some(-90.0), Some(90.0))
  const Longitude := Num(Some(-180.0), Some(180.0))

  // ---- The schemas.

  const SendOtpSchema: seq<Field<Kind>> :=
    [Field("phone", true, Scalar(Str(PhonePattern)))]

  function UserDataSchema(isEmail: string -> bool): seq<Field<Leaf>> {
    [ Field("firstName", false, Str(NameLength)),
      Field("lastName", false, Str(NameLength)),
      Field("email", false, Str(isEmail)),
      Field("userType", true, Str(UserTypeName)) ]
  }

  function VerifyOtpSchema(isEmail: string -> bool): seq<Field<Kind>> {
    [ Field("phone", true, Scalar(Str(PhonePattern))),
      Field("otp", true, Scalar(Str(OtpPattern))),
      Field("userData", false, Object(UserDataSchema(isEmail))) ]
  }

  const PlaceSchema: seq<Field<Leaf>> :=
    [ Field("address", true, Str(AnyString)),
      Field("latitude", true, Latitude),
      Field("longitude", true, Longitude) ]

  /** `rideType` declares a default of "standard", but `validate` throws the
      validated value away, so the default never reaches the handler. */
  const RequestRideSchema: seq<Field<Kind>> :=
    [ Field("pickup", true, Object(PlaceSchema)),
      Field("destination", true, Object(PlaceSchema)),
      Field("rideType", false, Scalar(Str(RideTypeName))) ]

  const UpdateStatusSchema: seq<Field<Kind>> :=
    [Field("status", true, Scalar(Str(StatusName)))]

  const UpdateLocationSchema: seq<Field<Kind>> :=
    [ Field("latitude", true, Scalar(Latitude)),
      Field("longitude", true, Scalar(Longitude)),
      Field("heading", false, Scalar(Num(Some(0.0), Some(360.0)))),
      Field("is_online", false, Scalar(Bool)) ]

  function AcceptRideSchema(isUuid: string -> bool): seq<Field<Kind>> {
    [Field("rideId", true, Scalar(Str(isUuid)))]
  }

  function ProcessPaymentSchema(isUuid: string -> bool): seq<Field<Kind>> {
    [ Field("rideId", true, Scalar(Str(isUuid))),
      Field("amount", true, Scalar(Num(Some(0.0), None))),
      Field("commissionRate", false, Scalar(Num(Some(0.0), Some(1.0)))) ]
  }

  // ---- What each schema accepts.

  predicate IsString(body: map<string, Json>, key: string, rule: string -> bool) {
    key in body && body[key].JStr? && body[key].s != "" && rule(body[key].s)
  }

  /** send-otp accepts exactly a body whose only key is a 10-15 digit phone. */
  lemma SendOtpSchemaAccepts(body: map<string, Json>)
    ensures Validate(SendOtpSchema, body).CallNext?
      <==> body.Keys == {"phone"} && body["phone"].JStr? && PhonePattern(body["phone"].s)
  {
    var ok := body.Keys == {"phone"} && body["phone"].JStr? && PhonePattern(body["phone"].s);
    if ok {
      assert SendOtpSchema[0].key == "phone";
      assert OnlyDeclared(SendOtpSchema, body);
    }
    if FirstViolation(SendOtpSchema, body).None? {
      assert SendOtpSchema[0].required;
      forall k | k in body ensures k == "phone" {
        assert Declares(SendOtpSchema, k);
      }
    }
  }

  /** What an optional userData object must satisfy when present. */
  predicate UserDataAccepted(isEmail: string -> bool, v: Json) {
    && v.JObj?
    && v.fields.Keys <= {"firstName", "lastName", "email", "userType"}
    && IsString(v.fields, "userType", UserTypeName)
    && ("firstName" in v.fields ==> IsString(v.fields, "firstName", NameLength))
    && ("lastName" in v.fields ==> IsString(v.fields, "lastName", NameLength))
    && ("email" in v.fields ==> IsString(v.fields, "email", isEmail))
  }

  /** verify-otp: a 10-15 digit phone, a 6-digit otp, and userData either
      absent or an object with a passenger/driver userType and 1-50
      character names. */
  lemma VerifyOtpSchemaAccepts(isEmail: string -> bool, body: map<string, Json>)
    ensures Validate(VerifyOtpSchema(isEmail), body).CallNext? <==>
      && body.Keys <= {"phone", "otp", "userData"}
      && IsString(body, "phone", PhonePattern)
      && IsString(body, "otp", OtpPattern)
      && ("userData" in body ==> UserDataAccepted(isEmail, body["userData"]))
  {
    var schema := VerifyOtpSchema(isEmail);
    var children := UserDataSchema(isEmail);
    assert schema[0].key == "phone" && schema[1].key == "otp" && schema[2].key == "userData";
    assert children[0].key == "firstName" && children[1].key == "lastName";
    assert children[2].key == "email" && children[3].key == "userType";
    if "userData" in body && body["userData"].JObj? {
      var m := body["userData"].fields;
      if OnlyDeclared(children, m) {
        forall k | k in m ensures k in {"firstName", "lastName", "email", "userType"} {
          assert Declares(children, k);
        }
      }
      if m.Keys <= {"firstName", "lastName", "email", "userType"} {
        assert OnlyDeclared(children, m);
      }
    }
    if OnlyDeclared(schema, body) {
      forall k | k in body ensures k in {"phone", "otp", "userData"} {
        assert Declares(schema, k);
      }
    }
    if body.Keys <= {"phone", "otp", "userData"} {
      assert OnlyDeclared(schema, body);
    }
  }

  predicate PlaceAccepted(v: Json) {
    && v.JObj?
    && v.fields.Keys <= {"address", "latitude", "longitude"}
    && IsString(v.fields, "address", AnyString)
    && "latitude" in v.fields && v.fields["latitude"].JNum?
    && -90.0 <= v.fields["latitude"].n <= 90.0
    && "longitude" in v.fields && v.fields["longitude"].JNum?
    && -180.0 <= v.fields["longitude"].n <= 180.0
  }

  /** A place object passes its schema exactly when `PlaceAccepted` holds. */
  lemma PlaceViolationIff(key: string, v: Json)
    ensures ValueViolation(key, Object(PlaceSchema), v).None? <==> PlaceAccepted(v)
  {
    assert PlaceSchema[0].key == "address" && PlaceSchema[1].key == "latitude" && PlaceSchema[2].key == "longitude";
    if v.JObj? && OnlyDeclared(PlaceSchema, v.fields) {
      forall k | k in v.fields ensures k in {"address", "latitude", "longitude"} {
        assert Declares(PlaceSchema, k);
      }
    }
  }

  /** request-ride: both places with an address and in-range coordinates;
      rideType, when present, is "standard" or "premium". */
  lemma RequestRideSchemaAccepts(body: map<string, Json>)
    ensures Validate(RequestRideSchema, body).CallNext? <==>
      && body.Keys <= {"pickup", "destination", "rideType"}
      && "pickup" in body && PlaceAccepted(body["pickup"])
      && "destination" in body && PlaceAccepted(body["destination"])
      && ("rideType" in body ==> IsString(body, "rideType", RideTypeName))
  {
    var schema := RequestRideSchema;
    assert schema[0].key == "pickup" && schema[1].key == "destination" && schema[2].key == "rideType";
    if "pickup" in body {
      PlaceViolationIff("pickup", body["pickup"]);
    }
    if "destination" in body {
      PlaceViolationIff("destination", body["destination"]);
    }
    if OnlyDeclared(schema, body) {
      forall k | k in body ensures k in {"pickup", "destination", "rideType"} {
        assert Declares(schema, k);
      }
    }
  }

  /** update-status: exactly a status from the seven-value list. */
  lemma UpdateStatusSchemaAccepts(body: map<string, Json>)
    ensures Validate(UpdateStatusSchema, body).CallNext? <==>
      body.Keys == {"status"} && body["status"].JStr? && body["status"].s in Constants.RideStatusNames
  {
    assert UpdateStatusSchema[0].key == "status";
    if OnlyDeclared(UpdateStatusSchema, body) {
      forall k | k in body ensures k == "status" {
        assert Declares(UpdateStatusSchema, k);
      }
    }
  }

  /** The status list of the schema is the RIDE_STATUS list of the constants file. */
  lemma StatusValuesAreRideStatuses()
    ensures StatusValues == Constants.RideStatusNames
  {
  }

  /** update-location: in-range coordinates, heading in [0, 360] when present. */
  lemma UpdateLocationSchemaAccepts(body: map<string, Json>)
    ensures Validate(UpdateLocationSchema, body).CallNext? <==>
      && body.Keys <= {"latitude", "longitude", "heading", "is_online"}
      && "latitude" in body && body["latitude"].JNum? && -90.0 <= body["latitude"].n <= 90.0
      && "longitude" in body && body["longitude"].JNum? && -180.0 <= body["longitude"].n <= 180.0
      && ("heading" in body ==> body["heading"].JNum? && 0.0 <= body["heading"].n <= 360.0)
      && ("is_online" in body ==> body["is_online"].JBool?)
  {
    var schema := UpdateLocationSchema;
    assert schema[0].key == "latitude" && schema[1].key == "longitude";
    assert schema[2].key == "heading" && schema[3].key == "is_online";
    if OnlyDeclared(schema, body) {
      forall k | k in body ensures k in {"latitude", "longitude", "heading", "is_online"} {
        assert Declares(schema, k);
      }
    }
  }

  /** process-payment: a rideId, an amount of at least 0, and a commission
      rate in [0, 1] when present. */
  lemma ProcessPaymentSchemaAccepts(isUuid: string -> bool, body: map<string, Json>)
    ensures Validate(ProcessPaymentSchema(isUuid), body).CallNext? <==>
      && body.Keys <= {"rideId", "amount", "commissionRate"}
      && IsString(body, "rideId", isUuid)
      && "amount" in body && body["amount"].JNum? && body["amount"].n >= 0.0
      && ("commissionRate" in body ==>
            body["commissionRate"].JNum? && 0.0 <= body["commissionRate"].n <= 1.0)
  {
    var schema := ProcessPaymentSchema(isUuid);
    assert schema[0].key == "rideId" && schema[1].key == "amount" && schema[2].key == "commissionRate";
    if OnlyDeclared(schema, body) {
      forall k | k in body ensures k in {"rideId", "amount", "commissionRate"} {
        assert Declares(schema, k);
      }
    }
  }

  /** accept-ride: exactly a rideId in the uuid format. */
  lemma AcceptRideSchemaAccepts(isUuid: string -> bool, body: map<string, Json>)
    ensures Validate(AcceptRideSchema(isUuid), body).CallNext? <==>
      body.Keys == {"rideId"} && IsString(body, "rideId", isUuid)
  {
    var schema := AcceptRideSchema(isUuid);
    assert schema[0].key == "rideId";
    if OnlyDeclared(schema, body) {
      forall k | k in body ensures k == "rideId" {
        assert Declares(schema, k);
      }
    }
  }
}
