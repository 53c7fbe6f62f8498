/**
 * `buildAyuMilanPayload`: the boy's and the girl's birth details become the
 * two person records sent to the match-making API, or the first field without
 * a numeric reading is reported, its label carrying the person.
 */
module AyuMilan {
  import opened Wrappers
  import opened Text
  import opened JsNumber
  import opened BirthData
  import AstroForm

  /**
   * One person's fields as the builder reads them. The coordinate, direction
   * and offset fields are `None` when the validated record lacks them.
   */
  datatype PersonFields = PersonFields(
    name: string,
    birthDate: string,
    birthTime: string,
    latitudeDeg: Option<string>,
    latitudeMin: Option<string>,
    latitudeDir: Option<string>,
    longitudeDeg: Option<string>,
    longitudeMin: Option<string>,
    longitudeDir: Option<string>,
    timezoneOffset: Option<string>)

  /** The validated request: the `boy…` fields and the `girl…` fields. */
  datatype AyuMilanValues = AyuMilanValues(boy: PersonFields, girl: PersonFields)

  /** The environment variables the builder reads; `None` is an unset variable. */
  datatype AyuMilanEnv = AyuMilanEnv(
    chartStyle: Option<string>,
    kpHoraryNumber: Option<string>,
    boyGender: Option<string>,
    girlGender: Option<string>)

  /** `PersonPayload`; `timezone` is the accepted offset text, directions are copied as given. */
  datatype PersonPayload = PersonPayload(
    name: string,
    gender: string,
    day: int,
    month: int,
    year: int,
    hour: int,
    minute: int,
    second: int,
    longitudeDeg: int,
    longitudeMin: int,
    longitudeDir: Option<string>,
    latitudeDeg: int,
    latitudeMin: int,
    latitudeDir: Option<string>,
    timezone: string,
    chartStyle: string,
    kpHoraryNumber: int)

  datatype AyuMilanApiPayload = AyuMilanApiPayload(boyData: PersonPayload, girlData: PersonPayload)

  const DefaultChartStyle := "North Indian"
  const DefaultBoyGender := "Male"
  const DefaultGirlGender := "Female"

  /** JavaScript's `v || fallback` on an optional string. */
  function OrElse(v: Option<string>, fallback: string): string
  {
    if Truthy(v) then v.value else fallback
  }

  /** The chart style shared by both persons. */
  function ChartStyle(env: AyuMilanEnv): (r: string)
    ensures Truthy(env.chartStyle) ==> r == env.chartStyle.value
    ensures !Truthy(env.chartStyle) ==> r == DefaultChartStyle
  {
    OrElse(env.chartStyle, DefaultChartStyle)
  }

  /**
   * The horary number shared by both persons: the `parseInt` reading of the
   * setting, or of "0" when it is unset or empty; 0 when there is no reading.
   */
  function KpHorary(env: AyuMilanEnv): (r: int)
    ensures !Truthy(env.kpHoraryNumber) ==> r == 0
    ensures Truthy(env.kpHoraryNumber) && ParseInt(env.kpHoraryNumber.value).Some?
      ==> r == ParseInt(env.kpHoraryNumber.value).value
    ensures Truthy(env.kpHoraryNumber) && ParseInt(env.kpHoraryNumber.value).None? ==> r == 0
  {
    ParseIntOfNatToString(0);
    match ParseInt(OrElse(env.kpHoraryNumber, "0"))
    case Some(n) => n
    case None => 0
  }

  /**
   * `parseBirthParts(birthDate, birthTime, prefix)`: day, month, year, hour,
   * minute, then an optional second. On success each part is the integer
   * reading of its piece, and an absent or empty second is 0.
   */
  function ParseBirthParts(birthDate: string, birthTime: string, prefix: string): (r: Result<BirthParts>)
    ensures r.Ok? ==>
      && ReadsAs(DatePiece(birthDate, 0), r.value.year)
      && ReadsAs(DatePiece(birthDate, 1), r.value.month)
      && ReadsAs(DatePiece(birthDate, 2), r.value.day)
      && ReadsAs(TimePiece(birthTime, 0), r.value.hour)
      && ReadsAs(TimePiece(birthTime, 1), r.value.minute)
      && (if Truthy(TimePiece(birthTime, 2)) then ReadsAs(TimePiece(birthTime, 2), r.value.second) else r.value.second == 0)
  {
    var day :- ParseInteger(DatePiece(birthDate, 2), Label(prefix, "day"));
    var month :- ParseInteger(DatePiece(birthDate, 1), Label(prefix, "month"));
    var year :- ParseInteger(DatePiece(birthDate, 0), Label(prefix, "year"));
    var hour :- ParseInteger(TimePiece(birthTime, 0), Label(prefix, "hour"));
    var minute :- ParseInteger(TimePiece(birthTime, 1), Label(prefix, "minute"));
    var second :- OptionalSecond(TimePiece(birthTime, 2), Label(prefix, "second"));
    Ok(BirthParts(day, month, year, hour, minute, second))
  }

  /**
   * `toPersonPayload`: the birth parts, then longitude, latitude and the
   * offset. On success the record copies the name, the gender, the
   * directions, the chart style and the horary number it is given, and each
   * numeric field is the `parseInt` reading of its text.
   */
  function ToPersonPayload(person: PersonFields, gender: string, chartStyle: string, kpHoraryNumber: int, prefix: string)
    : (r: Result<PersonPayload>)
    ensures r.Ok? ==>
      && ParseBirthParts(person.birthDate, person.birthTime, prefix).Ok?
      && var birth := ParseBirthParts(person.birthDate, person.birthTime, prefix).value;
      && r.value.name == person.name && r.value.gender == gender
      && r.value.day == birth.day && r.value.month == birth.month && r.value.year == birth.year
      && r.value.hour == birth.hour && r.value.minute == birth.minute && r.value.second == birth.second
      && ReadsAs(person.longitudeDeg, r.value.longitudeDeg)
      && ReadsAs(person.longitudeMin, r.value.longitudeMin)
      && ReadsAs(person.latitudeDeg, r.value.latitudeDeg)
      && ReadsAs(person.latitudeMin, r.value.latitudeMin)
      && r.value.longitudeDir == person.longitudeDir && r.value.latitudeDir == person.latitudeDir
      && person.timezoneOffset == Some(r.value.timezone) && HasDecimalPrefix(r.value.timezone)
      && r.value.chartStyle == chartStyle && r.value.kpHoraryNumber == kpHoraryNumber
  {
    var birth :- ParseBirthParts(person.birthDate, person.birthTime, prefix);
    var longitudeDeg :- ParseInteger(person.longitudeDeg, Label(prefix, "longitude degree"));
    var longitudeMin :- ParseInteger(person.longitudeMin, Label(prefix, "longitude minute"));
    var latitudeDeg :- ParseInteger(person.latitudeDeg, Label(prefix, "latitude degree"));
    var latitudeMin :- ParseInteger(person.latitudeMin, Label(prefix, "latitude minute"));
    var timezone :- ParseDecimal(person.timezoneOffset, Label(prefix, "timezone"));
    Ok(PersonPayload(
      person.name, gender,
      birth.day, birth.month, birth.year, birth.hour, birth.minute, birth.second,
      longitudeDeg, longitudeMin, person.longitudeDir,
      latitudeDeg, latitudeMin, person.latitudeDir,
      timezone, chartStyle, kpHoraryNumber))
  }

  /**
   * `buildAyuMilanPayload`: the boy's record is built before the girl's. On
   * success both records carry the same chart style and horary number, the
   * genders fall back to "Male" and "Female", and the names are copied.
   */
  function BuildAyuMilanPayload(values: AyuMilanValues, env: AyuMilanEnv): (r: Result<AyuMilanApiPayload>)
    ensures r.Ok? ==>
      && r.value.boyData.chartStyle == r.value.girlData.chartStyle == ChartStyle(env)
      && r.value.boyData.kpHoraryNumber == r.value.girlData.kpHoraryNumber == KpHorary(env)
      && r.value.boyData.gender == (if Truthy(env.boyGender) then env.boyGender.value else DefaultBoyGender)
      && r.value.girlData.gender == (if Truthy(env.girlGender) then env.girlGender.value else DefaultGirlGender)
      && r.value.boyData.name == values.boy.name && r.value.girlData.name == values.girl.name
    ensures r.Ok? ==>
      && ToPersonPayload(values.boy, OrElse(env.boyGender, DefaultBoyGender), ChartStyle(env), KpHorary(env), "Boy") == Ok(r.value.boyData)
      && ToPersonPayload(values.girl, OrElse(env.girlGender, DefaultGirlGender), ChartStyle(env), KpHorary(env), "Girl") == Ok(r.value.girlData)
  {
    var chartStyle := ChartStyle(env);
    var kpHorary := KpHorary(env);
    var boy :- ToPersonPayload(values.boy, OrElse(env.boyGender, DefaultBoyGender), chartStyle, kpHorary, "Boy");
    var girl :- ToPersonPayload(values.girl, OrElse(env.girlGender, DefaultGirlGender), chartStyle, kpHorary, "Girl");
    Ok(AyuMilanApiPayload(boy, girl))
  }

  /** The birth fields of one person, in the order the object literal reads them. */
  function BirthChecks(birthDate: string, birthTime: string, prefix: string): seq<FieldCheck>
  {
    [ IntegerField(Label(prefix, "day"), DatePiece(birthDate, 2)),
      IntegerField(Label(prefix, "month"), DatePiece(birthDate, 1)),
      IntegerField(Label(prefix, "year"), DatePiece(birthDate, 0)),
      IntegerField(Label(prefix, "hour"), TimePiece(birthTime, 0)),
      IntegerField(Label(prefix, "minute"), TimePiece(birthTime, 1)) ]
    + (if Truthy(TimePiece(birthTime, 2)) then [IntegerField(Label(prefix, "second"), TimePiece(birthTime, 2))] else [])
  }

  /** The coordinate and offset fields of one person, in reading order. */
  function CoordinateChecks(person: PersonFields, prefix: string): seq<FieldCheck>
  {
    [ IntegerField(Label(prefix, "longitude degree"), person.longitudeDeg),
      IntegerField(Label(prefix, "longitude minute"), person.longitudeMin),
      IntegerField(Label(prefix, "latitude degree"), person.latitudeDeg),
      IntegerField(Label(prefix, "latitude minute"), person.latitudeMin),
      DecimalField(Label(prefix, "timezone"), person.timezoneOffset) ]
  }

  function PersonChecks(person: PersonFields, prefix: string): seq<FieldCheck>
  {
    BirthChecks(person.birthDate, person.birthTime, prefix) + CoordinateChecks(person, prefix)
  }

  /** Every numeric field of both persons, boy first. */
  function PayloadChecks(values: AyuMilanValues): seq<FieldCheck>
  {
    PersonChecks(values.boy, "Boy") + PersonChecks(values.girl, "Girl")
  }

  /**
   * The birth parts fail exactly when some piece has no integer reading, with
   * the error of the first such piece in the order day, month, year, hour,
   * minute, second.
   */
  lemma ParseBirthPartsReportsFirstError(birthDate: string, birthTime: string, prefix: string)
    ensures var r := ParseBirthParts(birthDate, birthTime, prefix);
      && (r.Err? <==> FirstError(BirthChecks(birthDate, birthTime, prefix)).Some?)
      && (r.Err? ==> r.error == FirstError(BirthChecks(birthDate, birthTime, prefix)).value)
  {
    BirthChecksFirstError(birthDate, birthTime, prefix);
  }

  /** The first failing birth field, written out case by case. */
  lemma BirthChecksFirstError(birthDate: string, birthTime: string, prefix: string)
    ensures var c := BirthChecks(birthDate, birthTime, prefix);
      FirstError(c)
      == if !Accepts(c[0]) then Some(InvalidNumber(c[0].fieldLabel))
         else if !Accepts(c[1]) then Some(InvalidNumber(c[1].fieldLabel))
         else if !Accepts(c[2]) then Some(InvalidNumber(c[2].fieldLabel))
         else if !Accepts(c[3]) then Some(InvalidNumber(c[3].fieldLabel))
         else if !Accepts(c[4]) then Some(InvalidNumber(c[4].fieldLabel))
         else if |c| == 6 && !Accepts(c[5]) then Some(InvalidNumber(c[5].fieldLabel))
         else None
  {
    var c := BirthChecks(birthDate, birthTime, prefix);
    var tail := c[5..];
    assert c == [c[0]] + ([c[1]] + ([c[2]] + ([c[3]] + ([c[4]] + tail))));
    FirstErrorOfCons(c[0], [c[1]] + ([c[2]] + ([c[3]] + ([c[4]] + tail))));
    FirstErrorOfCons(c[1], [c[2]] + ([c[3]] + ([c[4]] + tail)));
    FirstErrorOfCons(c[2], [c[3]] + ([c[4]] + tail));
    FirstErrorOfCons(c[3], [c[4]] + tail);
    FirstErrorOfCons(c[4], tail);
    if tail != [] {
      FirstErrorOfCons(tail[0], []);
      assert tail == [tail[0]] + [];
    } else {
      assert FirstError(tail).None?;
    }
  }

  /** The first failing coordinate field, written out case by case. */
  lemma CoordinateChecksFirstError(person: PersonFields, prefix: string)
    ensures var c := CoordinateChecks(person, prefix);
      FirstError(c)
      == if !Accepts(c[0]) then Some(InvalidNumber(c[0].fieldLabel))
         else if !Accepts(c[1]) then Some(InvalidNumber(c[1].fieldLabel))
         else if !Accepts(c[2]) then Some(InvalidNumber(c[2].fieldLabel))
         else if !Accepts(c[3]) then Some(InvalidNumber(c[3].fieldLabel))
         else if !Accepts(c[4]) then Some(InvalidNumber(c[4].fieldLabel))
         else None
  {
    var c := CoordinateChecks(person, prefix);
    assert c == [c[0]] + ([c[1]] + ([c[2]] + ([c[3]] + ([c[4]] + []))));
    FirstErrorOfCons(c[0], [c[1]] + ([c[2]] + ([c[3]] + ([c[4]] + []))));
    FirstErrorOfCons(c[1], [c[2]] + ([c[3]] + ([c[4]] + [])));
    FirstErrorOfCons(c[2], [c[3]] + ([c[4]] + []));
    FirstErrorOfCons(c[3], [c[4]] + []);
    FirstErrorOfCons(c[4], []);
  }

  /**
   * One person's record fails exactly when some numeric field has no reading,
   * with the error of the first: the birth fields, then longitude degree and
   * minute, latitude degree and minute, then the offset.
   */
  lemma ToPersonPayloadReportsFirstError(person: PersonFields, gender: string, chartStyle: string, kpHoraryNumber: int, prefix: string)
    ensures var r := ToPersonPayload(person, gender, chartStyle, kpHoraryNumber, prefix);
      && (r.Err? <==> FirstError(PersonChecks(person, prefix)).Some?)
      && (r.Err? ==> r.error == FirstError(PersonChecks(person, prefix)).value)
  {
    FirstErrorOfAppend(BirthChecks(person.birthDate, person.birthTime, prefix), CoordinateChecks(person, prefix));
    ParseBirthPartsReportsFirstError(person.birthDate, person.birthTime, prefix);
    CoordinateChecksFirstError(person, prefix);
  }

  /**
   * The payload fails exactly when some field of either person has no
   * reading, and then with the error of the first in reading order: all of
   * the boy's fields come before the girl's.
   */
  lemma BuildAyuMilanPayloadReportsFirstError(values: AyuMilanValues, env: AyuMilanEnv)
    ensures var r := BuildAyuMilanPayload(values, env);
      && (r.Err? <==> FirstError(PayloadChecks(values)).Some?)
      && (r.Err? ==> r.error == FirstError(PayloadChecks(values)).value)
  {
    FirstErrorOfAppend(PersonChecks(values.boy, "Boy"), PersonChecks(values.girl, "Girl"));
    ToPersonPayloadReportsFirstError(values.boy, OrElse(env.boyGender, DefaultBoyGender), ChartStyle(env), KpHorary(env), "Boy");
    ToPersonPayloadReportsFirstError(values.girl, OrElse(env.girlGender, DefaultGirlGender), ChartStyle(env), KpHorary(env), "Girl");
  }

  /** An invalid boy field is the one reported, whatever the girl's fields hold. */
  lemma BoyErrorWins(values: AyuMilanValues, env: AyuMilanEnv)
    requires FirstError(PersonChecks(values.boy, "Boy")).Some?
    ensures BuildAyuMilanPayload(values, env) == Err(FirstError(PersonChecks(values.boy, "Boy")).value)
  {
    BuildAyuMilanPayloadReportsFirstError(values, env);
    FirstErrorOfAppend(PersonChecks(values.boy, "Boy"), PersonChecks(values.girl, "Girl"));
  }

  /** `${prefix} field`, the label of one of a person's fields. */
  function Label(prefix: string, field: string): string
  {
    prefix + " " + field
  }

  lemma LabelPrefixed(prefix: string, field: string)
    ensures prefix + " " <= Label(prefix, field)
  {
    assert Label(prefix, field)[..|prefix + " "|] == prefix + " ";
  }

  /** Every label of a person's fields starts with the person's prefix and a space. */
  lemma PersonLabelsPrefixed(person: PersonFields, prefix: string)
    ensures forall k :: 0 <= k < |PersonChecks(person, prefix)| ==> prefix + " " <= PersonChecks(person, prefix)[k].fieldLabel
  {
    LabelPrefixed(prefix, "day");
    LabelPrefixed(prefix, "month");
    LabelPrefixed(prefix, "year");
    LabelPrefixed(prefix, "hour");
    LabelPrefixed(prefix, "minute");
    LabelPrefixed(prefix, "second");
    LabelPrefixed(prefix, "longitude degree");
    LabelPrefixed(prefix, "longitude minute");
    LabelPrefixed(prefix, "latitude degree");
    LabelPrefixed(prefix, "latitude minute");
    LabelPrefixed(prefix, "timezone");
  }

  /** A reported error always names the person whose field it is. */
  lemma BuildAyuMilanPayloadErrorNamesPerson(values: AyuMilanValues, env: AyuMilanEnv)
    requires BuildAyuMilanPayload(values, env).Err?
    ensures "Boy " <= BuildAyuMilanPayload(values, env).error || "Girl " <= BuildAyuMilanPayload(values, env).error
  {
    var boy, girl := PersonChecks(values.boy, "Boy"), PersonChecks(values.girl, "Girl");
    BuildAyuMilanPayloadReportsFirstError(values, env);
    FirstErrorOfAppend(boy, girl);
    PersonLabelsPrefixed(values.boy, "Boy");
    PersonLabelsPrefixed(values.girl, "Girl");
    FirstErrorLabelled(boy, "Boy ");
    FirstErrorLabelled(girl, "Girl ");
  }

  /**
   * The two builders read a date and a time the same way: both succeed on
   * the same texts with the same parts; only the order of the checks and the
   * labels of the errors differ.
   */
  lemma BirthPartsAgree(birthDate: string, birthTime: string, prefix: string)
    ensures ParseBirthParts(birthDate, birthTime, prefix).Ok? <==> AstroForm.ParseBirthParts(birthDate, birthTime).Ok?
    ensures ParseBirthParts(birthDate, birthTime, prefix).Ok?
      ==> ParseBirthParts(birthDate, birthTime, prefix).value == AstroForm.ParseBirthParts(birthDate, birthTime).value
  {
    BirthChecksFirstError(birthDate, birthTime, prefix);
    AstroForm.ParseBirthPartsReportsFirstError(birthDate, birthTime);
  }

  /** Dates and times written as plain decimal numbers are read back exactly. */
  lemma ParseBirthPartsOfRendered(year: nat, month: nat, day: nat, hour: nat, minute: nat, second: Option<nat>, prefix: string)
    ensures ParseBirthParts(RenderDate(year, month, day), RenderTime(hour, minute, second), prefix)
      == Ok(BirthParts(day, month, year, hour, minute, if second.Some? then second.value else 0))
  {
    AstroForm.ParseBirthPartsOfRendered(year, month, day, hour, minute, second);
    BirthPartsAgree(RenderDate(year, month, day), RenderTime(hour, minute, second), prefix);
  }

  /**
   * When neither the year nor the day piece has a reading, the astro-form
   * builder reports the year and this builder the day.
   */
  lemma CheckOrderDiffers(birthDate: string, birthTime: string, prefix: string)
    requires !Accepts(IntegerField("", DatePiece(birthDate, 0)))
    requires !Accepts(IntegerField("", DatePiece(birthDate, 2)))
    ensures AstroForm.ParseBirthParts(birthDate, birthTime) == Err(InvalidNumber("Birth year"))
    ensures ParseBirthParts(birthDate, birthTime, prefix) == Err(InvalidNumber(Label(prefix, "day")))
  {
  }

  /**
   * A person without a longitude degree never gets a record: the birth
   * parts' error, or else the longitude degree's.
   */
  lemma ToPersonPayloadWithoutLongitude(person: PersonFields, gender: string, chartStyle: string, kpHoraryNumber: int, prefix: string)
    requires person.longitudeDeg.None?
    ensures ToPersonPayload(person, gender, chartStyle, kpHoraryNumber, prefix).Err?
    ensures ParseBirthParts(person.birthDate, person.birthTime, prefix).Ok?
        ==> ToPersonPayload(person, gender, chartStyle, kpHoraryNumber, prefix).error == InvalidNumber(Label(prefix, "longitude degree"))
  {
  }

  /** When the boy's record fails, the payload fails with the boy's error. */
  lemma BuildAyuMilanPayloadOfFailedBoy(values: AyuMilanValues, env: AyuMilanEnv)
    requires ToPersonPayload(values.boy, OrElse(env.boyGender, DefaultBoyGender), ChartStyle(env), KpHorary(env), "Boy").Err?
    ensures BuildAyuMilanPayload(values, env)
         == ToPersonPayload(values.boy, OrElse(env.boyGender, DefaultBoyGender), ChartStyle(env), KpHorary(env), "Boy").PropagateFailure()
  {
  }
}
