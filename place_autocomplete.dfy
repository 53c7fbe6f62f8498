/**
 * The place-of-birth input: the text and details it reports when a place is
 * picked from the suggestions, the `UTC±h[.d]` label it derives from the
 * place's offset in minutes, and the reset when the user types by hand.
 */
module PlaceAutocomplete {
  import opened Wrappers
  import opened Text
  import opened JsNumber

  /** What the place lookup hands back; every part may be missing. */
  datatype Place = Place(formattedAddress: Option<string>, name: Option<string>, utcOffsetMinutes: Option<int>)

  /** The details reported to the form. */
  datatype PlaceDetails = PlaceDetails(latitude: string, longitude: string, timezone: string)

  /** A call the input makes to its owner. */
  datatype Notification =
    | ValueChanged(text: string)
    | DetailsChanged(details: PlaceDetails)

  /** `formatted_address || name || ""`. */
  function PlaceText(place: Option<Place>): (r: string)
    ensures place.Some? && Truthy(place.value.formattedAddress) ==> r == place.value.formattedAddress.value
    ensures place.Some? && !Truthy(place.value.formattedAddress) && Truthy(place.value.name) ==> r == place.value.name.value
    ensures r == "" <==> place.None? || (!Truthy(place.value.formattedAddress) && !Truthy(place.value.name))
  {
    if place.Some? && Truthy(place.value.formattedAddress) then place.value.formattedAddress.value
    else if place.Some? && Truthy(place.value.name) then place.value.name.value
    else ""
  }

  function Sign(offset: int): (r: string)
    ensures r == "+" <==> offset >= 0
    ensures r == "-" <==> offset < 0
  {
    if offset >= 0 then "+" else "-"
  }

  function Abs(x: int): nat
  {
    if x < 0 then -x else x
  }

  /**
   * `Math.round(minutes / 60 * 10)`: the minutes in tenths of an hour, rounded
   * half up. A tenth of an hour is six minutes.
   */
  function Tenths(minutes: nat): (r: nat)
    ensures 6 * r <= minutes + 3 < 6 * r + 6
  {
    (minutes * 10 + 30) / 60
  }

  /** `UTC<sign><hours>` with `.<tenths>` appended when there are tenths to show. */
  function Label(sign: string, hours: nat, tenths: Option<nat>): string
  {
    "UTC" + sign + NatToString(hours) + (if tenths.Some? then "." + NatToString(tenths.value) else "")
  }

  /** The label as the input computes it. */
  function OffsetLabelAsWritten(offset: int): (r: string)
    ensures Abs(offset) % 60 == 0 ==> r == Label(Sign(offset), Abs(offset) / 60, None)
    ensures Abs(offset) % 60 != 0 ==> r == Label(Sign(offset), Abs(offset) / 60, Some(Tenths(Abs(offset) % 60)))
  {
    var absMinutes := Abs(offset);
    var hours := absMinutes / 60;
    var minutes := absMinutes % 60;
    if minutes == 0 then "UTC" + Sign(offset) + NatToString(hours)
    else "UTC" + Sign(offset) + NatToString(hours) + "." + NatToString(Tenths(minutes))
  }

  /** From 57 to 59 spare minutes the rounded tenths reach ten rather than carrying into the hour. */
  lemma AsWrittenShowsTenTenths(offset: int)
    requires 57 <= Abs(offset) % 60
    ensures OffsetLabelAsWritten(offset) == Label(Sign(offset), Abs(offset) / 60, Some(10))
  {
  }

  /** Fifty-nine minutes ahead reads `UTC+0.10`, a tenth of an hour, not one hour. */
  lemma FiftyNineMinutesAsWritten()
    ensures OffsetLabelAsWritten(59) == "UTC+0.10"
  {
    assert NatToString(10) == "10";
  }

  /** Five and a half hours ahead reads `UTC+5.5`. */
  lemma HalfHourOffsetAsWritten()
    ensures OffsetLabelAsWritten(330) == "UTC+5.5"
  {
  }

  /** Three and a half hours behind reads `UTC-3.5`. */
  lemma NegativeOffsetAsWritten()
    ensures OffsetLabelAsWritten(-210) == "UTC-3.5"
  {
  }

  /** No offset reads `UTC+0`. */
  lemma ZeroOffsetAsWritten()
    ensures OffsetLabelAsWritten(0) == "UTC+0"
  {
  }

  /**
   * The hours and tenths a label should show: the offset rounded to the nearest
   * tenth of an hour, with ten tenths carried into the hour.
   */
  function OffsetParts(absMinutes: nat): (r: (nat, Option<nat>))
    ensures r.1.Some? ==> r.1.value < 10
    ensures var shown := 60 * r.0 + (if r.1.Some? then 6 * r.1.value else 0);
      shown - 3 <= absMinutes < shown + 3
  {
    var hours := absMinutes / 60;
    var minutes := absMinutes % 60;
    if minutes == 0 then (hours, None)
    else if Tenths(minutes) < 10 then (hours, Some(Tenths(minutes)))
    else (hours + 1, None)
  }

  /** The label with the carry: one decimal digit at most. */
  function OffsetLabel(offset: int): (r: string)
    ensures r == Label(Sign(offset), OffsetParts(Abs(offset)).0, OffsetParts(Abs(offset)).1)
  {
    var parts := OffsetParts(Abs(offset));
    Label(Sign(offset), parts.0, parts.1)
  }

  /** The corrected label differs from the one computed only where the tenths reach ten. */
  lemma OffsetLabelAgreesBelowCarry(offset: int)
    requires Abs(offset) % 60 < 57
    ensures OffsetLabel(offset) == OffsetLabelAsWritten(offset)
  {
  }

  /** Fifty-nine minutes ahead reads `UTC+1`. */
  lemma FiftyNineMinutes()
    ensures OffsetLabel(59) == "UTC+1"
  {
  }

  /** The label starts with `UTC`, so `parseFloat` finds no number in it. */
  lemma OffsetLabelIsNotDecimal(offset: int)
    ensures !HasDecimalPrefix(OffsetLabel(offset))
  {
    var r := OffsetLabel(offset);
    assert r[0] == 'U';
    assert !("Infinity" <= r) by {
      assert r[0] != "Infinity"[0];
    }
  }

  /** The label as written starts with `UTC` too, so `parseFloat` finds no number in it either. */
  lemma OffsetLabelAsWrittenIsNotDecimal(offset: int)
    ensures !HasDecimalPrefix(OffsetLabelAsWritten(offset))
  {
    var r := OffsetLabelAsWritten(offset);
    assert r[0] == 'U';
    assert !("Infinity" <= r) by {
      assert r[0] != "Infinity"[0];
    }
  }

  /** The timezone text the input sends: the label as computed, for a numeric offset; otherwise empty. */
  function TimezoneText(offset: Option<int>): (r: string)
    ensures offset.None? ==> r == ""
    ensures offset.Some? ==> r == OffsetLabelAsWritten(offset.value)
  {
    if offset.Some? then OffsetLabelAsWritten(offset.value) else ""
  }

  /** The timezone text with the tenths carried into the hour. */
  function TimezoneTextCorrected(offset: Option<int>): (r: string)
    ensures offset.None? ==> r == ""
    ensures offset.Some? ==> r == OffsetLabel(offset.value)
  {
    if offset.Some? then OffsetLabel(offset.value) else ""
  }

  /** The two timezone texts differ only where the tenths reach ten. */
  lemma TimezoneTextsAgreeBelowCarry(offset: int)
    requires Abs(offset) % 60 < 57
    ensures TimezoneText(Some(offset)) == TimezoneTextCorrected(Some(offset))
  {
    OffsetLabelAgreesBelowCarry(offset);
  }

  function OffsetOf(place: Option<Place>): Option<int>
  {
    if place.Some? then place.value.utcOffsetMinutes else None
  }

  /** A coordinate written with six decimals, or the empty text when the place has none. */
  function CoordinateOrEmpty(text: Option<string>): (r: string)
    ensures text.Some? ==> r == text.value
    ensures text.None? ==> r == ""
  {
    if text.Some? then text.value else ""
  }

  /** The text when there is one, then the details when someone listens for them. */
  function Notifications(text: string, details: PlaceDetails, detailsListener: bool): seq<Notification>
  {
    (if text != "" then [ValueChanged(text)] else [])
    + (if detailsListener then [DetailsChanged(details)] else [])
  }

  /**
   * A place picked from the suggestions: the text is reported when there is one,
   * then the details, when someone listens for them. Latitude and longitude
   * arrive already written with six decimals, or missing.
   */
  function OnPlaceChanged(place: Option<Place>, latText: Option<string>, lngText: Option<string>,
                          detailsListener: bool): (r: seq<Notification>)
    ensures |r| == (if PlaceText(place) != "" then 1 else 0) + (if detailsListener then 1 else 0)
    ensures PlaceText(place) != "" ==> |r| > 0 && r[0] == ValueChanged(PlaceText(place))
    ensures PlaceText(place) == "" ==> forall k :: 0 <= k < |r| ==> !r[k].ValueChanged?
    ensures detailsListener <==> |r| > 0 && r[|r| - 1].DetailsChanged?
    ensures detailsListener ==>
      r[|r| - 1].details == PlaceDetails(CoordinateOrEmpty(latText), CoordinateOrEmpty(lngText), TimezoneText(OffsetOf(place)))
  {
    Notifications(PlaceText(place),
      PlaceDetails(CoordinateOrEmpty(latText), CoordinateOrEmpty(lngText), TimezoneText(OffsetOf(place))),
      detailsListener)
  }

  /** The same handler with the carried timezone label. */
  function OnPlaceChangedCorrected(place: Option<Place>, latText: Option<string>, lngText: Option<string>,
                                   detailsListener: bool): (r: seq<Notification>)
    ensures |r| == (if PlaceText(place) != "" then 1 else 0) + (if detailsListener then 1 else 0)
    ensures PlaceText(place) != "" ==> |r| > 0 && r[0] == ValueChanged(PlaceText(place))
    ensures PlaceText(place) == "" ==> forall k :: 0 <= k < |r| ==> !r[k].ValueChanged?
    ensures detailsListener <==> |r| > 0 && r[|r| - 1].DetailsChanged?
    ensures detailsListener ==>
      r[|r| - 1].details == PlaceDetails(CoordinateOrEmpty(latText), CoordinateOrEmpty(lngText), TimezoneTextCorrected(OffsetOf(place)))
  {
    Notifications(PlaceText(place),
      PlaceDetails(CoordinateOrEmpty(latText), CoordinateOrEmpty(lngText), TimezoneTextCorrected(OffsetOf(place))),
      detailsListener)
  }

  /** A place fifty-nine minutes ahead is sent with `UTC+0.10`; with the carry it would be `UTC+1`. */
  lemma FiftyNineMinutePlace(latText: Option<string>, lngText: Option<string>)
    ensures var place := Some(Place(None, None, Some(59)));
      && OnPlaceChanged(place, latText, lngText, true)[0].details.timezone == "UTC+0.10"
      && OnPlaceChangedCorrected(place, latText, lngText, true)[0].details.timezone == "UTC+1"
  {
    FiftyNineMinutesAsWritten();
    FiftyNineMinutes();
  }

  /** Typing by hand reports the typed text, even an empty one, and clears every detail. */
  function OnManualInput(typed: string, detailsListener: bool): (r: seq<Notification>)
    ensures |r| >= 1 && r[0] == ValueChanged(typed)
    ensures forall k :: 0 <= k < |r| && r[k].DetailsChanged? ==> r[k].details == PlaceDetails("", "", "")
    ensures detailsListener ==> |r| == 2 && r[1] == DetailsChanged(PlaceDetails("", "", ""))
    ensures !detailsListener ==> |r| == 1
  {
    [ValueChanged(typed)] + (if detailsListener then [DetailsChanged(PlaceDetails("", "", ""))] else [])
  }

  /** The reset sent on typing is the same details a pick of an empty place sends. */
  lemma ManualInputClearsLikeEmptyPick(typed: string)
    ensures OnManualInput(typed, true)[1] == OnPlaceChanged(None, None, None, true)[0]
  {
  }
}
