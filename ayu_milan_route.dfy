/**
 * How the Ayu Milan route feeds a request body to the builder: the body is
 * validated against an object schema, which keeps only its declared keys, and
 * the builder then reads its own keys from what was kept.
 */
module AyuMilanRoute {
  import opened Wrappers
  import opened Schemas
  import opened BirthData
  import opened AyuMilan

  const InvalidPayload := "Invalid ayu milan payload."

  /** The keys under which the builder reads one person's fields. */
  datatype PersonKeys = PersonKeys(
    name: string,
    birthDate: string,
    birthTime: string,
    latitudeDeg: string,
    latitudeMin: string,
    latitudeDir: string,
    longitudeDeg: string,
    longitudeMin: string,
    longitudeDir: string,
    timezoneOffset: string)

  const BoyKeys := PersonKeys(
    "boyName", "boyBirthDate", "boyBirthTime",
    "boyLatitudeDeg", "boyLatitudeMin", "boyLatitudeDir",
    "boyLongitudeDeg", "boyLongitudeMin", "boyLongitudeDir",
    "boyTimezoneOffset")

  const GirlKeys := PersonKeys(
    "girlName", "girlBirthDate", "girlBirthTime",
    "girlLatitudeDeg", "girlLatitudeMin", "girlLatitudeDir",
    "girlLongitudeDeg", "girlLongitudeMin", "girlLongitudeDir",
    "girlTimezoneOffset")

  /** A property read from the parsed object; `None` is `undefined`. */
  function Lookup(data: map<string, string>, key: string): (r: Option<string>)
    ensures r.Some? <==> key in data
    ensures r.Some? ==> r.value == data[key]
  {
    if key in data then Some(data[key]) else None
  }

  /** The keys without which the builder cannot even split the date and time. */
  predicate HasTextKeys(data: map<string, string>, keys: PersonKeys)
  {
    keys.name in data && keys.birthDate in data && keys.birthTime in data
  }

  function PersonOf(data: map<string, string>, keys: PersonKeys): PersonFields
    requires HasTextKeys(data, keys)
  {
    PersonFields(
      data[keys.name], data[keys.birthDate], data[keys.birthTime],
      Lookup(data, keys.latitudeDeg), Lookup(data, keys.latitudeMin), Lookup(data, keys.latitudeDir),
      Lookup(data, keys.longitudeDeg), Lookup(data, keys.longitudeMin), Lookup(data, keys.longitudeDir),
      Lookup(data, keys.timezoneOffset))
  }

  /** `parsed.data` as the builder's record. */
  function ValuesOf(data: map<string, string>): AyuMilanValues
    requires HasTextKeys(data, BoyKeys) && HasTextKeys(data, GirlKeys)
  {
    AyuMilanValues(PersonOf(data, BoyKeys), PersonOf(data, GirlKeys))
  }

  /** The schema requires the name, date and time keys of both persons. */
  predicate RequiresTextKeys(fields: seq<RequiredText>)
  {
    && BoyKeys.name in KeySet(fields) && BoyKeys.birthDate in KeySet(fields) && BoyKeys.birthTime in KeySet(fields)
    && GirlKeys.name in KeySet(fields) && GirlKeys.birthDate in KeySet(fields) && GirlKeys.birthTime in KeySet(fields)
  }

  /** Validation, then the builder on the parsed object; either failure becomes an error. */
  function ValidateAndBuild(body: map<string, string>, env: AyuMilanEnv, fields: seq<RequiredText>)
    : (r: Result<AyuMilanApiPayload>)
    requires RequiresTextKeys(fields)
    ensures !HasAllTexts(body, fields) ==> r == Err(InvalidPayload)
  {
    match ParseRequiredTexts(body, fields)
    case None => Err(InvalidPayload)
    case Some(data) => BuildAyuMilanPayload(ValuesOf(data), env)
  }

  lemma AyuMilanFieldsRequireTextKeys()
    ensures RequiresTextKeys(AyuMilanFields)
  {
    assert AyuMilanFields[0].key == BoyKeys.name;
    assert AyuMilanFields[1].key == BoyKeys.birthDate;
    assert AyuMilanFields[2].key == BoyKeys.birthTime;
    assert AyuMilanFields[7].key == GirlKeys.name;
    assert AyuMilanFields[8].key == GirlKeys.birthDate;
    assert AyuMilanFields[9].key == GirlKeys.birthTime;
  }

  /** None of the fourteen schema keys is the key of the boy's longitude degree. */
  lemma LongitudeKeyNotDeclared()
    ensures BoyKeys.longitudeDeg !in KeySet(AyuMilanFields)
  {
  }

  /** The object the schema yields never holds the boy's longitude degree. */
  lemma ParsedDataLacksLongitude(body: map<string, string>)
    requires ParseRequiredTexts(body, AyuMilanFields).Some?
    ensures BoyKeys.longitudeDeg !in ParseRequiredTexts(body, AyuMilanFields).value
  {
    LongitudeKeyNotDeclared();
  }

  /** The boy's date and time are present and read as birth parts. */
  predicate BoyBirthPartsRead(body: map<string, string>)
  {
    && BoyKeys.birthDate in body && BoyKeys.birthTime in body
    && AyuMilan.ParseBirthParts(body[BoyKeys.birthDate], body[BoyKeys.birthTime], "Boy").Ok?
  }

  /**
   * With `ayuMilanSchema` nothing is built: the schema drops the coordinate
   * and offset keys the builder reads, so a valid body fails on the boy's
   * longitude degree once the boy's birth parts are read.
   */
  lemma AsWrittenSchemaLosesLongitude(body: map<string, string>, env: AyuMilanEnv)
    ensures RequiresTextKeys(AyuMilanFields)
    ensures ValidateAndBuild(body, env, AyuMilanFields).Err?
    ensures HasAllTexts(body, AyuMilanFields) && BoyBirthPartsRead(body)
        ==> ValidateAndBuild(body, env, AyuMilanFields).error == InvalidNumber(Label("Boy", "longitude degree"))
  {
    AyuMilanFieldsRequireTextKeys();
    var parsed := ParseRequiredTexts(body, AyuMilanFields);
    if parsed.Some? {
      var data := parsed.value;
      ParsedDataLacksLongitude(body);
      var values := ValuesOf(data);
      var boyArgs := (OrElse(env.boyGender, DefaultBoyGender), ChartStyle(env), KpHorary(env));
      ToPersonPayloadWithoutLongitude(values.boy, boyArgs.0, boyArgs.1, boyArgs.2, "Boy");
      BuildAyuMilanPayloadOfFailedBoy(values, env);
      assert ValidateAndBuild(body, env, AyuMilanFields) == BuildAyuMilanPayload(values, env);
      if BoyBirthPartsRead(body) {
        assert values.boy.birthDate == body[BoyKeys.birthDate] && values.boy.birthTime == body[BoyKeys.birthTime];
      }
    }
  }

  /**
   * The route as written: `ayuMilanSchema`, then the builder. An invalid body
   * is refused; a valid one fails in the builder, on the boy's longitude
   * degree once the boy's birth parts are read. No request gets through.
   */
  function HandleAyuMilanRequest(body: map<string, string>, env: AyuMilanEnv): (r: Result<AyuMilanApiPayload>)
    ensures !HasAllTexts(body, AyuMilanFields) ==> r == Err(InvalidPayload)
    ensures r.Err?
    ensures HasAllTexts(body, AyuMilanFields) && BoyBirthPartsRead(body)
        ==> r.error == InvalidNumber(Label("Boy", "longitude degree"))
  {
    AyuMilanFieldsRequireTextKeys();
    AsWrittenSchemaLosesLongitude(body, env);
    ValidateAndBuild(body, env, AyuMilanFields)
  }

  /** Each key the builder reads for one person, required with a message in the schema's style. */
  function PersonRequiredTexts(keys: PersonKeys, person: string): seq<RequiredText>
  {
    [ RequiredText(keys.name, person + " Name is required"),
      RequiredText(keys.birthDate, person + " Birth Date is required"),
      RequiredText(keys.birthTime, person + " Birth Time is required"),
      RequiredText(keys.latitudeDeg, person + " Latitude Degree is required"),
      RequiredText(keys.latitudeMin, person + " Latitude Minute is required"),
      RequiredText(keys.latitudeDir, person + " Latitude Direction is required"),
      RequiredText(keys.longitudeDeg, person + " Longitude Degree is required"),
      RequiredText(keys.longitudeMin, person + " Longitude Minute is required"),
      RequiredText(keys.longitudeDir, person + " Longitude Direction is required"),
      RequiredText(keys.timezoneOffset, person + " Timezone Offset is required") ]
  }

  /** The schema the builder needs: its own keys, plus the places of birth the route stores. */
  function CorrectedAyuMilanFields(): seq<RequiredText>
  {
    PersonRequiredTexts(BoyKeys, "Boy") + [RequiredText("boyPlaceOfBirth", "Boy Place of Birth is required")]
    + PersonRequiredTexts(GirlKeys, "Girl") + [RequiredText("girlPlaceOfBirth", "Girl Place of Birth is required")]
  }

  /** Every key of one person's fields. */
  predicate DeclaresPerson(keySet: set<string>, keys: PersonKeys)
  {
    && keys.name in keySet && keys.birthDate in keySet && keys.birthTime in keySet
    && keys.latitudeDeg in keySet && keys.latitudeMin in keySet && keys.latitudeDir in keySet
    && keys.longitudeDeg in keySet && keys.longitudeMin in keySet && keys.longitudeDir in keySet
    && keys.timezoneOffset in keySet
  }

  lemma PersonRequiredTextsDeclare(keys: PersonKeys, person: string)
    ensures DeclaresPerson(KeySet(PersonRequiredTexts(keys, person)), keys)
  {
    var f := PersonRequiredTexts(keys, person);
    assert f[0].key == keys.name && f[1].key == keys.birthDate && f[2].key == keys.birthTime;
    assert f[3].key == keys.latitudeDeg && f[4].key == keys.latitudeMin && f[5].key == keys.latitudeDir;
    assert f[6].key == keys.longitudeDeg && f[7].key == keys.longitudeMin && f[8].key == keys.longitudeDir;
    assert f[9].key == keys.timezoneOffset;
  }

  lemma KeySetOfAppend(fs: seq<RequiredText>, gs: seq<RequiredText>)
    ensures KeySet(fs + gs) == KeySet(fs) + KeySet(gs)
  {
    forall key | key in KeySet(fs + gs)
      ensures key in KeySet(fs) + KeySet(gs)
    {
      var k :| 0 <= k < |fs + gs| && (fs + gs)[k].key == key;
      if k < |fs| {
        assert fs[k].key == key;
      } else {
        assert gs[k - |fs|].key == key;
      }
    }
    forall key | key in KeySet(gs)
      ensures key in KeySet(fs + gs)
    {
      var k :| 0 <= k < |gs| && gs[k].key == key;
      assert (fs + gs)[|fs| + k].key == key;
    }
    forall key | key in KeySet(fs)
      ensures key in KeySet(fs + gs)
    {
      var k :| 0 <= k < |fs| && fs[k].key == key;
      assert (fs + gs)[k].key == key;
    }
  }

  lemma CorrectedFieldsDeclareBothPersons()
    ensures DeclaresPerson(KeySet(CorrectedAyuMilanFields()), BoyKeys)
    ensures DeclaresPerson(KeySet(CorrectedAyuMilanFields()), GirlKeys)
    ensures RequiresTextKeys(CorrectedAyuMilanFields())
  {
    var boy := PersonRequiredTexts(BoyKeys, "Boy");
    var boyPlace := [RequiredText("boyPlaceOfBirth", "Boy Place of Birth is required")];
    var girl := PersonRequiredTexts(GirlKeys, "Girl");
    var girlPlace := [RequiredText("girlPlaceOfBirth", "Girl Place of Birth is required")];
    PersonRequiredTextsDeclare(BoyKeys, "Boy");
    PersonRequiredTextsDeclare(GirlKeys, "Girl");
    KeySetOfAppend(boy, boyPlace);
    KeySetOfAppend(boy + boyPlace, girl);
    KeySetOfAppend(boy + boyPlace + girl, girlPlace);
  }

  /** Keeping a set of keys that covers a person's leaves that person's fields as they were. */
  lemma PersonOfRestricted(body: map<string, string>, data: map<string, string>, keys: PersonKeys)
    requires HasTextKeys(body, keys)
    requires DeclaresPerson(data.Keys, keys)
    requires forall key :: key in data ==> key in body && data[key] == body[key]
    ensures HasTextKeys(data, keys) && PersonOf(data, keys) == PersonOf(body, keys)
  {
  }

  /** A required key of a body that passes the schema is present. */
  lemma DeclaredKeyPresent(body: map<string, string>, fields: seq<RequiredText>, key: string)
    requires HasAllTexts(body, fields) && key in KeySet(fields)
    ensures key in body
  {
    var k :| 0 <= k < |fields| && fields[k].key == key;
  }

  /**
   * A schema that declares every key the builder reads loses none of them:
   * a valid body is built exactly as if the builder read the body itself.
   */
  lemma ValidateAndBuildOfDeclared(body: map<string, string>, env: AyuMilanEnv, fields: seq<RequiredText>)
    requires RequiresTextKeys(fields)
    requires DeclaresPerson(KeySet(fields), BoyKeys) && DeclaresPerson(KeySet(fields), GirlKeys)
    requires HasAllTexts(body, fields)
    ensures HasTextKeys(body, BoyKeys) && HasTextKeys(body, GirlKeys)
    ensures ValidateAndBuild(body, env, fields) == BuildAyuMilanPayload(ValuesOf(body), env)
  {
    DeclaredKeyPresent(body, fields, BoyKeys.name);
    DeclaredKeyPresent(body, fields, BoyKeys.birthDate);
    DeclaredKeyPresent(body, fields, BoyKeys.birthTime);
    DeclaredKeyPresent(body, fields, GirlKeys.name);
    DeclaredKeyPresent(body, fields, GirlKeys.birthDate);
    DeclaredKeyPresent(body, fields, GirlKeys.birthTime);
    var data := ParseRequiredTexts(body, fields).value;
    PersonOfRestricted(body, data, BoyKeys);
    PersonOfRestricted(body, data, GirlKeys);
  }

  /**
   * The route with the corrected schema. An invalid body is refused; a valid
   * one is built exactly as if the builder read the body itself, since the
   * schema keeps every key the builder reads.
   */
  function HandleAyuMilanRequestCorrected(body: map<string, string>, env: AyuMilanEnv): (r: Result<AyuMilanApiPayload>)
    ensures !HasAllTexts(body, CorrectedAyuMilanFields()) ==> r == Err(InvalidPayload)
    ensures HasAllTexts(body, CorrectedAyuMilanFields())
        ==> HasTextKeys(body, BoyKeys) && HasTextKeys(body, GirlKeys) && r == BuildAyuMilanPayload(ValuesOf(body), env)
  {
    CorrectedFieldsDeclareBothPersons();
    if HasAllTexts(body, CorrectedAyuMilanFields()) then
      ValidateAndBuildOfDeclared(body, env, CorrectedAyuMilanFields());
      ValidateAndBuild(body, env, CorrectedAyuMilanFields())
    else
      ValidateAndBuild(body, env, CorrectedAyuMilanFields())
  }
}
