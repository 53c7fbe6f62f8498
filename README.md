# Astrology dashboard core, modelled in Dafny

This project models the decision logic of a Next.js astrology dashboard that is written in TypeScript. It covers the parts that turn user input into numbers, verdicts and menus:

- **Birth-detail payload builders** (`lib/astro-form.ts`, `lib/ayu-milan.ts`).
  - A birth date `YYYY-MM-DD` is split on `-` and a time `HH:MM[:SS]` on `:`.
  - Every piece goes through `Number.parseInt(…, 10)`, and each coordinate through `parseInt` or `parseFloat`.
  - The first field without a numeric reading throws `"<label> must be a valid number."`.
  - Each builder is a total function returning a `Result`. The order in which fields are read decides which error is reported.
- **Form validators** (`lib/zod.ts`): password, e-mail, phone and name rules, the terms literal, the confirmation refinement, and the required texts of the life-calculator and match-making schemas.
  - Each schema is a function from the submitted form to its list of issues. zod runs every check of a string and reports each failure.
- **The match-making route** (`app/api/ayu-milan/route.ts`), only the step from `safeParse` to the builder.
- **The sidebar** (`components/app-sidebar.tsx`, `components/nav-main.tsx`).
  - Recognising a single report from the path, and extracting its id.
  - Rewriting the report menu.
  - The active, open and item-kind rules of the menu.
  - The one piece of mutable state, the open group, which is a class with a `ToggleGroup` method.
- **The place input** (`components/shared/place-autocomplete-input.tsx`): the `UTC±h[.d]` label derived from an offset in minutes, and what the input reports when a place is picked or the user types.

Shared modules:

- `Text`: the ECMAScript white-space set, `trim`, `split` on one character, `join`, global replacement, and the decimal rendering of integers.
- `JsNumber`: `parseInt` exactly, and whether `parseFloat` finds a number.
- `BirthData`: the parsed birth parts, and an ordered table of field checks. This table is the reference definition that both builders' error order is proved against.

## Model

| member | source | states |
|---|---|---|
| JsNumber.ParseIntReadsAfterSpace | lib/astro-form.ts:33 | `parseInt` is the signed leading digit run of the text after its leading white space: a sign is taken only as the first character there, and no digit at all is NaN |
| JsNumber.ParseIntOfParts | lib/astro-form.ts:33 | `parseInt` skips leading white space and at most one sign, then reads the longest run of decimal digits as a signed value and ignores what follows |
| JsNumber.ParseIntOfNonNumber | lib/astro-form.ts:33-35 | when no digit follows the white space and the sign, `parseInt` gives NaN; after a sign this covers a second sign and white space, as in `+-5` or `- 5` |
| JsNumber.ParseIntOfIntToString | lib/astro-form.ts:33 | `parseInt` reads back every integer as rendered by `String`, whatever non-digit text follows it |
| JsNumber.HasDecimalPrefixAfterSpace | lib/astro-form.ts:41-42 | `parseFloat` finds a number exactly when the text after its leading white space and at most one sign starts with `Infinity`, a digit, or a point and a digit |
| JsNumber.IntegerIsDecimal | lib/astro-form.ts:40-46 | every text `parseInt` accepts is one `parseFloat` accepts |
| Text.Split | lib/astro-form.ts:49-50 | `split` on one character always yields at least one segment |
| Text.ReplaceAll | components/app-sidebar.tsx:78 | a text without the character is left as it is, and when the replacement lacks the character the result lacks it too |
| Text.ReplaceAllIsSplitJoin | components/app-sidebar.tsx:78 | replacing every `:` equals splitting on `:` and joining with the replacement |
| Text.Trim | lib/zod.ts:11 | the trimmed text is no longer than the text and neither starts nor ends with white space |
| Text.TrimDecomposes | lib/zod.ts:11 | a text is the white space `trim` drops in front, the trimmed text as a contiguous piece, and the white space it drops behind |
| Text.TrimOfPadded | lib/zod.ts:11 | `trim` removes exactly the white space around a text whose ends are not white space |
| BirthData.Segment | lib/astro-form.ts:49-50 | a destructured piece past the end of the split is `undefined` |
| BirthData.ParseInteger | lib/astro-form.ts:32-38 | succeeds exactly when the piece is defined and has a `parseInt` reading, and returns that reading; otherwise the error names the field |
| BirthData.ParseDecimal | lib/astro-form.ts:40-46 | succeeds exactly when `parseFloat` finds a number; otherwise the error names the field |
| BirthData.OptionalSecond | lib/astro-form.ts:57 | an absent or empty seconds piece gives 0; otherwise the piece must parse |
| BirthData.DatePiecesOfRendered | lib/astro-form.ts:49 | splitting a date rendered as `y-m-d` gives back the three rendered numbers |
| BirthData.TimePiecesOfRendered | lib/astro-form.ts:50 | splitting `h:m[:s]` gives back the rendered numbers; the third piece is `undefined` without seconds |
| AstroForm.ToApiGender | lib/astro-form.ts:62-66 | `male` maps to `Male`, `female` to `Female`, and every other value to `Other` |
| AstroForm.KpHoraryNumber | lib/astro-form.ts:89 | the horary number is the `parseInt` reading, or 145 when there is none; it never fails |
| AstroForm.ParseBirthPartsReportsFirstError | lib/astro-form.ts:48-60 | fails exactly when some piece has no reading, with the error of the first such piece in the order year, month, day, hour, minute, second |
| AstroForm.ParseBirthParts | lib/astro-form.ts:48-60 | on success every part is the `parseInt` reading of its piece, and an absent or empty second is 0 |
| AstroForm.ParseBirthPartsOfRendered | lib/astro-form.ts:48-60 | any date and time rendered in decimal read back exactly; nothing checks ranges |
| AstroForm.CoordinateChecksFirstError | lib/astro-form.ts:81-87 | the coordinate fields are checked in the order longitude degree, longitude minute, latitude degree, latitude minute, timezone offset |
| AstroForm.BuildAstroFormPayloadReportsFirstError | lib/astro-form.ts:68-91 | the builder fails exactly when some numeric field has no reading, and then with the first such field's error in that order: the birth parts, then the coordinates |
| AstroForm.BuildAstroFormPayload | lib/astro-form.ts:68-91 | on success the name, directions and chart style are copied, the gender is mapped, the birth parts are those parsed, each coordinate is its field's `parseInt` reading, the offset text is one `parseFloat` accepts, and the horary number is its default-backed reading |
| AyuMilan.ChartStyle | lib/ayu-milan.ts:107 | the configured chart style when it is non-empty, else `North Indian` |
| AyuMilan.KpHorary | lib/ayu-milan.ts:108 | the `parseInt` reading of the configured horary number; 0 when it is unset, empty or unreadable |
| AyuMilan.BirthChecksFirstError | lib/ayu-milan.ts:57-64 | the birth pieces are checked in object-literal order: day, month, year, hour, minute, second |
| AyuMilan.ParseBirthParts | lib/ayu-milan.ts:53-65 | on success every part is the `parseInt` reading of its piece, and an absent or empty second is 0 |
| AyuMilan.ParseBirthPartsReportsFirstError | lib/ayu-milan.ts:53-65 | fails exactly when some piece has no reading, with the first such piece's error in that order; the labels carry the person's prefix |
| AyuMilan.CheckOrderDiffers | lib/ayu-milan.ts:57-60 | when both year and day are unreadable, the single-chart builder reports `Birth year` and this builder reports `<prefix> day` |
| AyuMilan.BirthPartsAgree | lib/ayu-milan.ts:53-65 | succeeds for the same inputs as the single-chart parse, with the same parts |
| AyuMilan.ParseBirthPartsOfRendered | lib/ayu-milan.ts:53-65 | rendered dates and times read back exactly, for any prefix |
| AyuMilan.CoordinateChecksFirstError | lib/ayu-milan.ts:94-100 | a person's coordinates are checked longitude degree, longitude minute, latitude degree, latitude minute, then timezone |
| AyuMilan.ToPersonPayloadReportsFirstError | lib/ayu-milan.ts:67-104 | a person fails exactly when some numeric field has no reading: birth parts first, then the coordinates |
| AyuMilan.ToPersonPayload | lib/ayu-milan.ts:67-104 | on success the name, gender, directions, chart style and horary number are copied, the birth parts are those parsed, each coordinate is its field's reading, and the offset is kept as a text `parseFloat` accepts |
| AyuMilan.PersonLabelsPrefixed | lib/ayu-milan.ts:58-100 | every field label of a person starts with the person's prefix and a space |
| AyuMilan.BuildAyuMilanPayloadReportsFirstError | lib/ayu-milan.ts:106-144 | fails exactly when some field of either person has no reading, and then with the first such field's error: all the boy's fields come before the girl's |
| AyuMilan.BoyErrorWins | lib/ayu-milan.ts:110-142 | an invalid boy field is reported whatever the girl's fields hold |
| AyuMilan.BuildAyuMilanPayloadErrorNamesPerson | lib/ayu-milan.ts:58-100 | every error the builder reports starts with `Boy ` or `Girl ` |
| AyuMilan.BuildAyuMilanPayload | lib/ayu-milan.ts:106-144 | on success the boy's record is `toPersonPayload` of the boy's fields and the girl's of the girl's; both persons get the same chart style and horary number; the genders default to `Male` and `Female`; the names are copied |
| AyuMilan.ToPersonPayloadWithoutLongitude | lib/ayu-milan.ts:83-94 | an undefined longitude degree always fails the person; when the birth parts read, the error is the longitude-degree error |
| AyuMilan.BuildAyuMilanPayloadOfFailedBoy | lib/ayu-milan.ts:110-126 | when the boy fails, the builder fails with the boy's error |
| Schemas.Utf16Length | lib/zod.ts:6-7 | zod counts UTF-16 code units, between one and two per character |
| Schemas.PasswordIssues | lib/zod.ts:4-10 | no issue exactly when the length is 8 to 15 and there are a letter, a digit and a symbol; each message appears exactly when its rule fails |
| Schemas.EmailIssues | lib/zod.ts:14-17 | no issue exactly when the address is non-empty and matches the e-mail pattern |
| Schemas.LoginIssues | lib/zod.ts:20-23 | a login passes exactly when the e-mail and the password pass |
| Schemas.PhoneIssues | lib/zod.ts:33-37 | no issue exactly when the length is 10 to 20 and every character is a digit, `+`, `(`, `)`, `-` or white space; each message appears exactly when its rule fails |
| Schemas.PhoneAcceptsDigits | lib/zod.ts:33-37 | every string of 10 to 20 digits is a valid phone number |
| Schemas.PhoneHasNoLetter | lib/zod.ts:37 | a valid phone number holds no letter |
| Schemas.RegisterIssues | lib/zod.ts:26-41 | a registration passes exactly when the login passes, username and name have at least 2 units, the phone passes and the terms are accepted |
| Schemas.RegisterTermsIssue | lib/zod.ts:38-40 | the terms issue is raised exactly when the terms are not accepted |
| Schemas.ForgotPasswordIssues | lib/zod.ts:44-46 | passes exactly when the e-mail passes |
| Schemas.CreatePasswordIssues | lib/zod.ts:49-62 | passes exactly when the password rules hold, the terms are accepted and the trimmed password equals the raw confirmation; the mismatch is reported only after the terms literal passes |
| Schemas.CreatePasswordRejectsPaddedEntry | lib/zod.ts:59-62 | the same text typed twice is a mismatch when it starts or ends with white space |
| Schemas.CreatePasswordRejectsExample | lib/zod.ts:59-62 | `Abcdef1! ` typed twice, terms accepted, is refused with the mismatch issue alone |
| Schemas.CreatePasswordIssuesCorrected | lib/zod.ts:59-62 | with the confirmation trimmed too, a mismatch means the trimmed entries differ, and the same text typed twice passes exactly when the password rules and the terms hold |
| Schemas.ContactFormIssues | lib/zod.ts:64-70 | passes exactly when both names are non-empty, the e-mail matches, the phone has at least 10 units and the password at least 6 |
| Schemas.LifeCalculatorIssues | lib/zod.ts:74-85 | passes exactly when every text is non-empty and the gender is `male`, `female` or `other` |
| Schemas.RequiredIssues | lib/zod.ts:89-104 | no issue exactly when every declared key is present with a non-empty text |
| Schemas.MissingKeyIsReported | lib/zod.ts:89-104 | a missing declared key is reported at that key with `Required` |
| Schemas.ParseRequiredTexts | lib/zod.ts:89-104 | a valid body parses to exactly the declared keys with their submitted texts; undeclared keys are stripped |
| AyuMilanRoute.ValidateAndBuild | app/api/ayu-milan/route.ts:33-56 | a body that fails the schema is answered with `Invalid ayu milan payload.` |
| AyuMilanRoute.LongitudeKeyNotDeclared | lib/zod.ts:89-104 | the match-making schema does not declare `boyLongitudeDeg` |
| AyuMilanRoute.ParsedDataLacksLongitude | app/api/ayu-milan/route.ts:34-47 | the parsed data handed to the builder never holds `boyLongitudeDeg` |
| AyuMilanRoute.AsWrittenSchemaLosesLongitude | app/api/ayu-milan/route.ts:34-47 | validating with the match-making schema and then building never succeeds; a valid body whose boy's birth parts read fails on the boy's longitude degree |
| AyuMilanRoute.HandleAyuMilanRequest | app/api/ayu-milan/route.ts:33-56 | an invalid body is answered with `Invalid ayu milan payload.`; every request fails, and a valid body whose boy's birth parts read fails on the boy's longitude degree |
| AyuMilanRoute.CorrectedFieldsDeclareBothPersons | lib/zod.ts:89-104 | the corrected schema declares every key the builder reads for either person |
| AyuMilanRoute.ValidateAndBuildOfDeclared | app/api/ayu-milan/route.ts:33-56 | with a schema that declares every key the builder reads, a valid body is built exactly as if the builder read the body itself |
| AyuMilanRoute.HandleAyuMilanRequestCorrected | app/api/ayu-milan/route.ts:33-56 | with the corrected schema an invalid body is answered with `Invalid ayu milan payload.`, and a valid body holds both persons' text keys and is built exactly as if the builder read the body itself |
| NavMain.IsLinkActive | components/nav-main.tsx:169-170 | a link is active exactly when its url is a prefix of the path; the equality test adds nothing |
| NavMain.AnyActive | components/nav-main.tsx:58-61 | some sub-item's url is a prefix of the path |
| NavMain.IsGroupActive | components/nav-main.tsx:58-61 | a group is active exactly when it has sub-items and one of their urls is a prefix of the path |
| NavMain.AvatarInitial | components/nav-main.tsx:139 | one character: the plan's first, or `B` for an empty plan |
| NavMain.RenderSubItems | components/nav-main.tsx:93-124 | one entry per sub-item, in order, active exactly when its url is a prefix of the path |
| NavMain.Render | components/nav-main.tsx:57-193 | an item with sub-items, details or a profile card is a group, open exactly when it was opened or is active; otherwise a truthy label renders as a label; otherwise a truthy url and title render as a link, active by prefix; otherwise nothing; a group's sub-items are its rendered sub-items and its details are the item's details; a group has a card exactly when the item has a profile card, with the plan's initial, the plan and the phone |
| NavMain.RenderMenu | components/nav-main.tsx:57-194 | one view per item, in order |
| NavMain.ToggledGroup | components/nav-main.tsx:49-52 | a missing or empty title changes nothing; a title becomes the open group exactly when it was not the open group, and otherwise closes it |
| NavMain.NavMainState.constructor | components/nav-main.tsx:47 | no group is open at first |
| NavMain.NavMainState.ToggleGroup | components/nav-main.tsx:49-52 | the open group becomes the toggled value, and only non-empty titles are ever stored |
| NavMain.UntitledOpenOnlyWhenActive | components/nav-main.tsx:47-64 | since only non-empty titles are ever stored as the open group, an untitled group is open exactly when it is active |
| NavMain.ToggleTwice | components/nav-main.tsx:49-52 | two clicks on a title restore the state when nothing or that title was open, and close everything otherwise |
| NavMain.ClickFlipsInactiveGroup | components/nav-main.tsx:49-64 | a click on an inactive group flips whether it is open |
| NavMain.ActiveGroupStaysOpen | components/nav-main.tsx:64 | an active group is open before and after any click |
| NavMain.AtMostOneOpenByClick | components/nav-main.tsx:47-64 | of two inactive groups with different titles, at most one is open |
| NavMain.ActiveSubItemOpensGroup | components/nav-main.tsx:58-96 | a sub-item whose url is a prefix of the path renders its group open with that sub-item active |
| AppSidebar.IsAstroSingleReport | components/app-sidebar.tsx:44 | every accepted path is the reports prefix followed by one or two non-empty, slash-free segments |
| AppSidebar.SingleReportOfOne | components/app-sidebar.tsx:44 | the reports prefix and one non-empty, slash-free segment is accepted |
| AppSidebar.SingleReportOfTwo | components/app-sidebar.tsx:44 | the reports prefix and two such segments joined by `/` is accepted |
| AppSidebar.ReportId | components/app-sidebar.tsx:45-48 | the maximal digit run right after the reports prefix; null exactly when no digit follows the prefix |
| AppSidebar.ReportIdOf | components/app-sidebar.tsx:45-48 | any path whose digits after the prefix are followed by a non-digit yields those digits |
| AppSidebar.ReportTabUrlRecognized | components/app-sidebar.tsx:44-48 | the page of any tab of a report whose id is digits is itself a single-report path, from which the same id is read |
| AppSidebar.TabKeyIsSegment | components/app-sidebar.tsx:16-25 | every Dasha tab key is a non-empty, slash-free segment |
| AppSidebar.DashaItems | components/app-sidebar.tsx:103-111 | eight sub-items in tab order, each titled like its tab, with url `/astro-form/reports/<id>/<tabKey>` |
| AppSidebar.EditItems | components/app-sidebar.tsx:113-123 | one sub-item, `Edit Chart`, with url `/astro-form/reports/<id>/edit-chart` |
| AppSidebar.AddedLinksStayOnReport | components/app-sidebar.tsx:44-122 | every url the rewrite adds is itself a single-report path with the same report id |
| AppSidebar.TimeText | components/app-sidebar.tsx:78 | the time's `:`-separated pieces joined by ` : ` |
| AppSidebar.TimeTextOfPieces | components/app-sidebar.tsx:78 | `hh:mm` reads `hh : mm` |
| AppSidebar.DetailLines | components/app-sidebar.tsx:73-88 | three lines: the date, the widened time, and the place with longitude then latitude |
| AppSidebar.OrDefault | components/app-sidebar.tsx:96-97 | only a missing value falls back; an empty one is kept |
| AppSidebar.ProfileCardOf | components/app-sidebar.tsx:93-100 | the plan defaults to `BASIC PLAN`, the phone to `-`, and the edit url is the profile editor |
| AppSidebar.DefaultPlanAvatar | components/app-sidebar.tsx:96 | a report without a plan shows the avatar letter `B`, the same as an empty plan |
| AppSidebar.RewriteItem | components/app-sidebar.tsx:69-126 | untitled items are unchanged; index 1 with a report gets the Kundli title and the detail lines; index 2 gets the profile card; only after those, `Dasha` and `Edit` get their links when there is an id; url and label never change |
| AppSidebar.RewrittenItemIsGroup | components/app-sidebar.tsx:72-123 | any item the rewrite changes renders as a group |
| AppSidebar.NavItems | components/app-sidebar.tsx:67-128 | away from a single report the default menu is unchanged; on one, every report-menu item is rewritten, with the same length and order |
| AppSidebar.DashaGroupOpenOnItsTab | components/app-sidebar.tsx:103-111 | on the page of a Dasha tab, the rewritten Dasha item is an open group in which that tab is active |
| PlaceAutocomplete.PlaceText | components/shared/place-autocomplete-input.tsx:53 | the formatted address, else the name, else empty |
| PlaceAutocomplete.Sign | components/shared/place-autocomplete-input.tsx:65 | `+` exactly when the offset is not negative |
| PlaceAutocomplete.Tenths | components/shared/place-autocomplete-input.tsx:71 | the minutes rounded half up to tenths of an hour: within three minutes of the value shown |
| PlaceAutocomplete.OffsetLabelAsWritten | components/shared/place-autocomplete-input.tsx:62-73 | `UTC<sign><hours>` when the minutes are whole hours, else with `.<tenths>` appended |
| PlaceAutocomplete.HalfHourOffsetAsWritten | components/shared/place-autocomplete-input.tsx:64-72 | 330 minutes read `UTC+5.5` |
| PlaceAutocomplete.NegativeOffsetAsWritten | components/shared/place-autocomplete-input.tsx:65-71 | -210 minutes read `UTC-3.5` |
| PlaceAutocomplete.ZeroOffsetAsWritten | components/shared/place-autocomplete-input.tsx:65-70 | 0 minutes read `UTC+0` |
| PlaceAutocomplete.AsWrittenShowsTenTenths | components/shared/place-autocomplete-input.tsx:71 | with 57 to 59 spare minutes the label shows ten tenths |
| PlaceAutocomplete.FiftyNineMinutesAsWritten | components/shared/place-autocomplete-input.tsx:71 | 59 minutes read `UTC+0.10` |
| PlaceAutocomplete.OffsetParts | components/shared/place-autocomplete-input.tsx:66-71 | at most one decimal digit, and the hours and tenths shown are within three minutes of the offset |
| PlaceAutocomplete.OffsetLabel | components/shared/place-autocomplete-input.tsx:62-73 | the label of the carried hours and tenths |
| PlaceAutocomplete.OffsetLabelAgreesBelowCarry | components/shared/place-autocomplete-input.tsx:69-71 | the carried label equals the computed one whenever fewer than 57 minutes are spare |
| PlaceAutocomplete.FiftyNineMinutes | components/shared/place-autocomplete-input.tsx:71 | with the carry, 59 minutes read `UTC+1` |
| PlaceAutocomplete.OffsetLabelIsNotDecimal | components/shared/place-autocomplete-input.tsx:62-73 | no carried label is a number that `parseFloat` accepts |
| PlaceAutocomplete.OffsetLabelAsWrittenIsNotDecimal | components/shared/place-autocomplete-input.tsx:62-73 | no label as written is a number that `parseFloat` accepts |
| PlaceAutocomplete.TimezoneText | components/shared/place-autocomplete-input.tsx:62-73 | a missing offset gives the empty text, a numeric one its label as written, without the carry |
| PlaceAutocomplete.TimezoneTextCorrected | components/shared/place-autocomplete-input.tsx:62-73 | a missing offset gives the empty text, a numeric one the carried label |
| PlaceAutocomplete.TimezoneTextsAgreeBelowCarry | components/shared/place-autocomplete-input.tsx:69-71 | both timezone texts agree whenever fewer than 57 minutes are spare |
| PlaceAutocomplete.OnPlaceChanged | components/shared/place-autocomplete-input.tsx:51-80 | one notification for a non-empty text plus one when someone listens, and no other: the text first, exactly when it is non-empty; then, exactly when someone listens, the details with the formatted latitude and longitude or the empty text when missing, and the timezone text as written |
| PlaceAutocomplete.OnPlaceChangedCorrected | components/shared/place-autocomplete-input.tsx:51-80 | the same notifications, with the details carrying the carried timezone label |
| PlaceAutocomplete.FiftyNineMinutePlace | components/shared/place-autocomplete-input.tsx:60-79 | a place 59 minutes ahead of UTC is reported with timezone `UTC+0.10` as written and `UTC+1` with the carry |
| PlaceAutocomplete.OnManualInput | components/shared/place-autocomplete-input.tsx:108-115 | typing reports the typed text, even an empty one, then, exactly when someone listens, one more notification with latitude, longitude and timezone all empty |
| PlaceAutocomplete.ManualInputClearsLikeEmptyPick | components/shared/place-autocomplete-input.tsx:108-115 | the reset sent on typing equals the details a pick of an empty place sends |

## Left out

- Floating point. Latitude, longitude and timezone offsets are kept as the accepted text, not the double that `parseFloat` yields. Integers are unbounded, so `parseInt` results above 2^53 keep every digit.
- BirthData.ParseDecimal: says only that a number is found; the value `parseFloat` reads is not modelled.
- `toBirthDateAtUtcMidnight`, `toLocaleDateString`, and `toFixed(6)` for latitude and longitude. These need Date objects, locales and float formatting. The long date is a function parameter of `AppSidebar.DetailLines`. The coordinates reach `PlaceAutocomplete.OnPlaceChanged` already formatted.
- AppSidebar.DetailLines: the report's coordinates are whole numbers here; a fractional coordinate would be rendered by JavaScript number formatting.
- PlaceAutocomplete.Tenths: integer half-up rounding of `minutes * 10 / 60`, not the float product `Math.round(minutes / 60 * 10)`; offsets that are not whole minutes, and NaN, are not modelled.
- NavMain.AvatarInitial: takes the plan's first character; `slice(0, 1)` takes the first UTF-16 code unit, which differs for characters outside the Basic Multilingual Plane.
- zod's `.email()` check is an abstract `emailPattern` parameter, because the library's regular expression is not in the modelled files.
- Schemas.RegisterIssues: states when the whole list is empty; beyond the terms issue proved in `Schemas.RegisterTermsIssue`, the membership of each message in the list is not stated.
- zod `required_error` and `invalid_type` paths for non-string values. Form fields are modelled as strings, so a request body is a map from keys to texts.
- The match-making finding rests on `lib/zod.ts` as it stands. `app/(dashboard)/ayu-milan/components/ayu-milan-form.tsx` fills the `…Deg` keys under the same schema, which suggests the schema file may lag behind the form; the model follows the schema file.
- The corrected match-making schema's messages (`PersonRequiredTexts`) are invented for the keys the builder reads; the schema as written has no such keys.
- The route handlers. This covers authentication, the token check, `request.json()`, `fetch` to the upstream API, the Prisma writes and HTTP statuses. Only the step from `safeParse` to `buildAyuMilanPayload` in `app/api/ayu-milan/route.ts` is modelled.
- `utils/db.ts`, `auth.ts`, `lib/mailer.ts`, `lib/compression.ts`, `temp-single-record-backfill.js` and the `components/auth/actions/*` files are not part of this model. They are database, hashing, mail, compression and migration I/O.
- `AstroFormSchemaType` is not defined in `lib/zod.ts`. The single-chart builder's input is therefore exactly the fields it reads.
- The JSON-to-table report builders (`buildChartRows` and the like) are not part of this model, because their source is not among the modelled files.
- JSX and CSS classes, icons, circle colours and the collapsed-sidebar padding are not modelled. Neither is the `useEffect` fetch of the report summary: the summary is a parameter of `AppSidebar.NavItems`.
- The place input sends `{latitude, longitude, timezone}` (components/shared/place-autocomplete-input.tsx:75-79), while the astro form reads `details.latitudeDeg`, `details.longitudeDeg`, `details.timezoneOffset` and their siblings (app/(dashboard)/astro-form/components/astro-form-form.tsx:137-143). Those reads are `undefined` in the source; the forms' handlers are not part of this model, so `PlaceAutocomplete.OnPlaceChanged` states only what the input sends.
- Google Maps script loading, listener registration and refs are not modelled. The place lookup's answer is a parameter.
- `components/shared/country-code-combobox.tsx` and `components/reports/delete-report-button.tsx`: UI over library data and locale-sensitive sorting.

## Findings

| source | as written | input that shows it | evidently intended | confidence | as-written member | corrected member |
|---|---|---|---|---|---|---|
| lib/zod.ts:59-62 | the refinement compares the password after the `.trim()` of line 11 with the confirmation as typed | password and confirmation both `Abcdef1! `, terms accepted: refused with `Password does not match` | identical entries are accepted; both sides are compared after the same trimming | medium; not executed | Schemas.CreatePasswordIssues, Schemas.CreatePasswordRejectsExample | Schemas.CreatePasswordIssuesCorrected |
| components/shared/place-autocomplete-input.tsx:71 | the rounded tenths are not carried into the hour | offset 59 minutes: `UTC+0.10`, which reads as 0.1 hours | `UTC+1`: ten tenths carry into the hour, so at most one decimal digit is shown | medium; not executed | PlaceAutocomplete.OffsetLabelAsWritten, PlaceAutocomplete.FiftyNineMinutesAsWritten, PlaceAutocomplete.OnPlaceChanged, PlaceAutocomplete.FiftyNineMinutePlace | PlaceAutocomplete.OffsetLabel, PlaceAutocomplete.OffsetParts, PlaceAutocomplete.OnPlaceChangedCorrected |
| app/api/ayu-milan/route.ts:34-47 | the schema (lib/zod.ts:89-104) declares `boyLatitude`, `boyLongitude` and `boyTimezone`, and zod strips every other key, but the builder (lib/ayu-milan.ts:115-121) reads `boyLatitudeDeg`, `boyLongitudeDeg`, `boyTimezoneOffset` and their siblings | any body with the fourteen declared texts, including one that also carries `boyLongitudeDeg`: refused with `Boy longitude degree must be a valid number.` once the boy's birth parts read | the schema declares the keys the builder reads, so a valid body is built from what was submitted | medium; not executed | AyuMilanRoute.HandleAyuMilanRequest, AyuMilanRoute.AsWrittenSchemaLosesLongitude | AyuMilanRoute.HandleAyuMilanRequestCorrected, AyuMilanRoute.ValidateAndBuildOfDeclared |
