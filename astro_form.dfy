/**
 * `buildAstroFormPayload`: the astro-form fields, as submitted text, become the
 * numeric record sent to the chart API, or the first field without a numeric
 * reading is reported.
 */
module AstroForm {
  import opened Wrappers
  import opened Text
  import opened JsNumber
  import opened BirthData

  datatype LonDir = E | W
  datatype LatDir = N | S

  /** The fields of the validated astro form that the builder reads. */
  datatype AstroFormValues = AstroFormValues(
    name: string,
    gender: string,
    birthDate: string,
    birthTime: string,
    longitudeDeg: string,
    longitudeMin: string,
    longitudeDir: LonDir,
    latitudeDeg: string,
    latitudeMin: string,
    latitudeDir: LatDir,
    timezoneOffset: string,
    chartStyle: string,
    kpHoraryNumber: string)

  /** `AstroFormApiPayload`; `timezone` is the accepted offset text (its double is not modelled). */
  datatype AstroFormApiPayload = AstroFormApiPayload(
    name: string,
    gender: string,
    day: int,
    month: int,
    year: int,
    hour: int,
    minute: int,
    second: int,
    longitudeDeg: int,
    longitudeMin: int,
    longitudeDir: LonDir,
    latitudeDeg: int,
    latitudeMin: int,
    latitudeDir: LatDir,
    timezone: string,
    chartStyle: string,
    kpHoraryNumber: int)

  const DefaultKpHoraryNumber := 145

  /**
   * `parseBirthParts`: year, month, day, hour, minute, then an optional second.
   * On success each part is the integer reading of its piece, and an absent or
   * empty second is 0.
   */
  function ParseBirthParts(birthDate: string, birthTime: string): (r: Result<BirthParts>)
    ensures r.Ok? ==>
      && ReadsAs(DatePiece(birthDate, 0), r.value.year)
      && ReadsAs(DatePiece(birthDate, 1), r.value.month)
      && ReadsAs(DatePiece(birthDate, 2), r.value.day)
      && ReadsAs(TimePiece(birthTime, 0), r.value.hour)
      && ReadsAs(TimePiece(birthTime, 1), r.value.minute)
      && (if Truthy(TimePiece(birthTime, 2)) then ReadsAs(TimePiece(birthTime, 2), r.value.second) else r.value.second == 0)
  {
    var year :- ParseInteger(DatePiece(birthDate, 0), "Birth year");
    var month :- ParseInteger(DatePiece(birthDate, 1), "Birth month");
    var day :- ParseInteger(DatePiece(birthDate, 2), "Birth day");
    var hour :- ParseInteger(TimePiece(birthTime, 0), "Birth hour");
    var minute :- ParseInteger(TimePiece(birthTime, 1), "Birth minute");
    var second :- OptionalSecond(TimePiece(birthTime, 2), "Birth second");
    Ok(BirthParts(day, month, year, hour, minute, second))
  }

  /** `toApiGender`. */
  function ToApiGender(gender: string): (r: string)
    ensures r == "Male" <==> gender == "male"
    ensures r == "Female" <==> gender == "female"
    ensures r == "Other" <==> gender != "male" && gender != "female"
  {
    if gender == "male" then "Male"
    else if gender == "female" then "Female"
    else "Other"
  }

  /** The horary number: the `parseInt` value, 145 when there is none; never an error. */
  function KpHoraryNumber(text: string): (r: int)
    ensures ParseInt(text).Some? ==> r == ParseInt(text).value
    ensures ParseInt(text).None? ==> r == DefaultKpHoraryNumber
  {
    match ParseInt(text)
    case Some(n) => n
    case None => DefaultKpHoraryNumber
  }

  /**
   * `buildAstroFormPayload`. On success the text fields are copied unchanged,
   * the gender is mapped, the horary number never fails, and each numeric field
   * is the `parseInt` reading of its text.
   */
  function BuildAstroFormPayload(values: AstroFormValues): (r: Result<AstroFormApiPayload>)
    ensures r.Ok? ==>
      && ParseBirthParts(values.birthDate, values.birthTime).Ok?
      && var birth := ParseBirthParts(values.birthDate, values.birthTime).value;
      && r.value.name == values.name
      && r.value.gender == ToApiGender(values.gender)
      && r.value.year == birth.year && r.value.month == birth.month && r.value.day == birth.day
      && r.value.hour == birth.hour && r.value.minute == birth.minute && r.value.second == birth.second
      && ParseInt(values.longitudeDeg) == Some(r.value.longitudeDeg)
      && ParseInt(values.longitudeMin) == Some(r.value.longitudeMin)
      && ParseInt(values.latitudeDeg) == Some(r.value.latitudeDeg)
      && ParseInt(values.latitudeMin) == Some(r.value.latitudeMin)
      && r.value.longitudeDir == values.longitudeDir && r.value.latitudeDir == values.latitudeDir
      && HasDecimalPrefix(values.timezoneOffset) && r.value.timezone == values.timezoneOffset
      && r.value.chartStyle == values.chartStyle
      && r.value.kpHoraryNumber == KpHoraryNumber(values.kpHoraryNumber)
  {
    var birth :- ParseBirthParts(values.birthDate, values.birthTime);
    var kpHoraryNumber := KpHoraryNumber(values.kpHoraryNumber);
    var longitudeDeg :- ParseInteger(Some(values.longitudeDeg), "Longitude degree");
    var longitudeMin :- ParseInteger(Some(values.longitudeMin), "Longitude minute");
    var latitudeDeg :- ParseInteger(Some(values.latitudeDeg), "Latitude degree");
    var latitudeMin :- ParseInteger(Some(values.latitudeMin), "Latitude minute");
    var timezone :- ParseDecimal(Some(values.timezoneOffset), "Timezone offset");
    Ok(AstroFormApiPayload(
      values.name, ToApiGender(values.gender),
      birth.day, birth.month, birth.year, birth.hour, birth.minute, birth.second,
      longitudeDeg, longitudeMin, values.longitudeDir,
      latitudeDeg, latitudeMin, values.latitudeDir,
      timezone, values.chartStyle, kpHoraryNumber))
  }

  /** The numeric fields in the order the builder reads them. */
  function BirthChecks(birthDate: string, birthTime: string): seq<FieldCheck>
  {
    [ IntegerField("Birth year", DatePiece(birthDate, 0)),
      IntegerField("Birth month", DatePiece(birthDate, 1)),
      IntegerField("Birth day", DatePiece(birthDate, 2)),
      IntegerField("Birth hour", TimePiece(birthTime, 0)),
      IntegerField("Birth minute", TimePiece(birthTime, 1)) ]
    + (if Truthy(TimePiece(birthTime, 2)) then [IntegerField("Birth second", TimePiece(birthTime, 2))] else [])
  }

  /** The coordinate and offset fields, in the order the payload literal reads them. */
  function CoordinateChecks(values: AstroFormValues): seq<FieldCheck>
  {
    [ IntegerField("Longitude degree", Some(values.longitudeDeg)),
      IntegerField("Longitude minute", Some(values.longitudeMin)),
      IntegerField("Latitude degree", Some(values.latitudeDeg)),
      IntegerField("Latitude minute", Some(values.latitudeMin)),
      DecimalField("Timezone offset", Some(values.timezoneOffset)) ]
  }

  function PayloadChecks(values: AstroFormValues): seq<FieldCheck>
  {
    BirthChecks(values.birthDate, values.birthTime) + CoordinateChecks(values)
  }

  /** The first failing coordinate field, written out case by case. */
  lemma CoordinateChecksFirstError(values: AstroFormValues)
    ensures var c := CoordinateChecks(values);
      FirstError(c)
      == if !Accepts(c[0]) then Some(InvalidNumber(c[0].fieldLabel))
         else if !Accepts(c[1]) then Some(InvalidNumber(c[1].fieldLabel))
         else if !Accepts(c[2]) then Some(InvalidNumber(c[2].fieldLabel))
         else if !Accepts(c[3]) then Some(InvalidNumber(c[3].fieldLabel))
         else if !Accepts(c[4]) then Some(InvalidNumber(c[4].fieldLabel))
         else None
  {
    var c := CoordinateChecks(values);
    assert c == [c[0]] + ([c[1]] + ([c[2]] + ([c[3]] + ([c[4]] + []))));
    FirstErrorOfCons(c[0], [c[1]] + ([c[2]] + ([c[3]] + ([c[4]] + []))));
    FirstErrorOfCons(c[1], [c[2]] + ([c[3]] + ([c[4]] + [])));
    FirstErrorOfCons(c[2], [c[3]] + ([c[4]] + []));
    FirstErrorOfCons(c[3], [c[4]] + []);
    FirstErrorOfCons(c[4], []);
  }

  /**
   * The birth parts fail exactly when some date or time piece has no integer
   * reading, with the error of the first such piece in the order year, month,
   * day, hour, minute, second; an absent or empty second is 0.
   */
  lemma ParseBirthPartsReportsFirstError(birthDate: string, birthTime: string)
    ensures var r := ParseBirthParts(birthDate, birthTime);
      && (r.Err? <==> FirstError(BirthChecks(birthDate, birthTime)).Some?)
      && (r.Err? ==> r.error == FirstError(BirthChecks(birthDate, birthTime)).value)
  {
    var c := BirthChecks(birthDate, birthTime);
    var tail := if Truthy(TimePiece(birthTime, 2)) then [IntegerField("Birth second", TimePiece(birthTime, 2))] else [];
    assert c == [c[0]] + ([c[1]] + ([c[2]] + ([c[3]] + ([c[4]] + tail))));
    FirstErrorOfCons(c[0], [c[1]] + ([c[2]] + ([c[3]] + ([c[4]] + tail))));
    FirstErrorOfCons(c[1], [c[2]] + ([c[3]] + ([c[4]] + tail)));
    FirstErrorOfCons(c[2], [c[3]] + ([c[4]] + tail));
    FirstErrorOfCons(c[3], [c[4]] + tail);
    FirstErrorOfCons(c[4], tail);
    if tail != [] {
      FirstErrorOfCons(tail[0], []);
      assert tail == [tail[0]] + [];
    } else {
      assert FirstError(tail).None?;
    }
  }

  /**
   * The builder fails exactly when some numeric field has no reading, and then
   * with the error of the first such field in the order: year, month, day,
   * hour, minute, second (when present), longitude degree, longitude minute,
   * latitude degree, latitude minute, timezone offset.
   */
  lemma BuildAstroFormPayloadReportsFirstError(values: AstroFormValues)
    ensures var r := BuildAstroFormPayload(values);
      && (r.Err? <==> FirstError(PayloadChecks(values)).Some?)
      && (r.Err? ==> r.error == FirstError(PayloadChecks(values)).value)
  {
    FirstErrorOfAppend(BirthChecks(values.birthDate, values.birthTime), CoordinateChecks(values));
    ParseBirthPartsReportsFirstError(values.birthDate, values.birthTime);
    CoordinateChecksFirstError(values);
  }

  /**
   * Dates and times written as plain decimal numbers are read back exactly,
   * whatever their range: nothing checks that a month is at most 12.
   */
  lemma ParseBirthPartsOfRendered(year: nat, month: nat, day: nat, hour: nat, minute: nat, second: Option<nat>)
    ensures ParseBirthParts(RenderDate(year, month, day), RenderTime(hour, minute, second))
      == Ok(BirthParts(day, month, year, hour, minute, if second.Some? then second.value else 0))
  {
    var date := RenderDate(year, month, day);
    var time := RenderTime(hour, minute, second);
    DatePiecesOfRendered(year, month, day);
    TimePiecesOfRendered(hour, minute, second);
    ReadsRendered(DatePiece(date, 0), year);
    ReadsRendered(DatePiece(date, 1), month);
    ReadsRendered(DatePiece(date, 2), day);
    ReadsRendered(TimePiece(time, 0), hour);
    ReadsRendered(TimePiece(time, 1), minute);
    if second.Some? {
      ReadsRendered(TimePiece(time, 2), second.value);
      ParseBirthPartsOfReadings(date, time, year, month, day, hour, minute, second.value);
    } else {
      ParseBirthPartsOfReadings(date, time, year, month, day, hour, minute, 0);
    }
  }

  /** Pieces that read as numbers give exactly those numbers. */
  lemma ParseBirthPartsOfReadings(birthDate: string, birthTime: string, year: int, month: int, day: int, hour: int, minute: int, second: int)
    requires ReadsAs(DatePiece(birthDate, 0), year)
    requires ReadsAs(DatePiece(birthDate, 1), month)
    requires ReadsAs(DatePiece(birthDate, 2), day)
    requires ReadsAs(TimePiece(birthTime, 0), hour)
    requires ReadsAs(TimePiece(birthTime, 1), minute)
    requires if Truthy(TimePiece(birthTime, 2)) then ReadsAs(TimePiece(birthTime, 2), second) else second == 0
    ensures ParseBirthParts(birthDate, birthTime) == Ok(BirthParts(day, month, year, hour, minute, second))
  {
  }
}
