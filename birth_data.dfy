/**
 * What the two birth-detail payload builders share: the parsed date and time,
 * the error raised when a field has no numeric reading, and an ordered table of
 * field checks that says which field's error a builder reports.
 */
module BirthData {
  import opened Wrappers
  import opened Text
  import opened JsNumber

  datatype BirthParts = BirthParts(day: int, month: int, year: int, hour: int, minute: int, second: int)

  /** The message of the `Error` thrown for a field without a numeric reading. */
  function InvalidNumber(fieldLabel: string): string
  {
    fieldLabel + " must be a valid number."
  }

  /** The `i`-th element of a destructured array; `None` is `undefined`. */
  function Segment(segs: seq<string>, i: nat): (r: Option<string>)
    ensures r.Some? <==> i < |segs|
    ensures r.Some? ==> r.value == segs[i]
  {
    if i < |segs| then Some(segs[i]) else None
  }

  /**
   * `parseInteger(value, fieldLabel)`: the `parseInt` value, or the error that
   * names the field. `undefined` reads as the text "undefined", which has no digits.
   */
  function ParseInteger(value: Option<string>, fieldLabel: string): (r: Result<int>)
    ensures r.Ok? <==> value.Some? && ParseInt(value.value).Some?
    ensures r.Ok? ==> r.value == ParseInt(value.value).value
    ensures r.Err? ==> r.error == InvalidNumber(fieldLabel)
  {
    if value.Some? && ParseInt(value.value).Some? then Ok(ParseInt(value.value).value)
    else Err(InvalidNumber(fieldLabel))
  }

  /**
   * `parseDecimal(value, fieldLabel)`. The double that `parseFloat` yields is not
   * modelled: the value kept is the accepted text itself.
   */
  function ParseDecimal(value: Option<string>, fieldLabel: string): (r: Result<string>)
    ensures r.Ok? <==> value.Some? && HasDecimalPrefix(value.value)
    ensures r.Ok? ==> r.value == value.value
    ensures r.Err? ==> r.error == InvalidNumber(fieldLabel)
  {
    if value.Some? && HasDecimalPrefix(value.value) then Ok(value.value)
    else Err(InvalidNumber(fieldLabel))
  }

  /** `secondRaw ? parseInteger(secondRaw, fieldLabel) : 0`. */
  function OptionalSecond(secondRaw: Option<string>, fieldLabel: string): (r: Result<int>)
    ensures !Truthy(secondRaw) ==> r == Ok(0)
    ensures Truthy(secondRaw) ==> r == ParseInteger(secondRaw, fieldLabel)
  {
    if Truthy(secondRaw) then ParseInteger(secondRaw, fieldLabel) else Ok(0)
  }

  /** One numeric field a builder reads, in the order the builder reads it. */
  datatype FieldCheck =
    | IntegerField(fieldLabel: string, text: Option<string>)
    | DecimalField(fieldLabel: string, text: Option<string>)

  predicate Accepts(f: FieldCheck)
  {
    match f
    case IntegerField(_, t) => t.Some? && ParseInt(t.value).Some?
    case DecimalField(_, t) => t.Some? && HasDecimalPrefix(t.value)
  }

  /** The position of the first check that fails, if any. */
  function FirstRejected(fs: seq<FieldCheck>): (r: Option<nat>)
    ensures r.None? <==> forall k :: 0 <= k < |fs| ==> Accepts(fs[k])
    ensures r.Some? ==> r.value < |fs| && !Accepts(fs[r.value])
    ensures r.Some? ==> forall k :: 0 <= k < r.value ==> Accepts(fs[k])
  {
    if |fs| == 0 then None
    else if !Accepts(fs[0]) then Some(0)
    else match FirstRejected(fs[1..])
      case None => None
      case Some(k) => Some(k + 1)
  }

  /** The error a builder reports when the fields are checked in the order `fs`. */
  function FirstError(fs: seq<FieldCheck>): (r: Option<string>)
    ensures r.None? <==> forall k :: 0 <= k < |fs| ==> Accepts(fs[k])
  {
    match FirstRejected(fs)
    case None => None
    case Some(k) => Some(InvalidNumber(fs[k].fieldLabel))
  }

  lemma FirstErrorOfAppend(fs: seq<FieldCheck>, gs: seq<FieldCheck>)
    ensures FirstError(fs + gs) == if FirstError(fs).Some? then FirstError(fs) else FirstError(gs)
  {
    if |fs| > 0 {
      if Accepts(fs[0]) {
        assert (fs + gs)[1..] == fs[1..] + gs;
        FirstErrorOfAppend(fs[1..], gs);
        FirstRejectedOfTail(fs + gs);
        FirstRejectedOfTail(fs);
      }
    } else {
      assert fs + gs == gs;
    }
  }

  lemma FirstRejectedOfTail(fs: seq<FieldCheck>)
    requires |fs| > 0 && Accepts(fs[0])
    ensures FirstError(fs) == FirstError(fs[1..])
  {
    match FirstRejected(fs[1..])
    case None =>
    case Some(k) => assert fs[k + 1] == fs[1..][k];
  }

  /** Checking one field ahead of the rest. */
  lemma FirstErrorOfCons(f: FieldCheck, fs: seq<FieldCheck>)
    ensures FirstError([f] + fs) == if Accepts(f) then FirstError(fs) else Some(InvalidNumber(f.fieldLabel))
  {
    if Accepts(f) {
      assert ([f] + fs)[1..] == fs;
      FirstRejectedOfTail([f] + fs);
    }
  }

  /** When every label starts with `p`, so does the reported error. */
  lemma FirstErrorLabelled(fs: seq<FieldCheck>, p: string)
    requires forall k :: 0 <= k < |fs| ==> p <= fs[k].fieldLabel
    ensures FirstError(fs).Some? ==> p <= FirstError(fs).value
  {
    if FirstError(fs).Some? {
      var k := FirstRejected(fs).value;
      assert p <= fs[k].fieldLabel;
      assert fs[k].fieldLabel <= InvalidNumber(fs[k].fieldLabel);
    }
  }

  /** The text is defined and `parseInt` reads it as `n`. */
  predicate ReadsAs(text: Option<string>, n: int)
  {
    text.Some? && ParseInt(text.value) == Some(n)
  }

  /** The `i`-th `-`-separated piece of the date, `undefined` past the end. */
  function DatePiece(birthDate: string, i: nat): Option<string>
  {
    Segment(Split(birthDate, '-'), i)
  }

  /** The `i`-th `:`-separated piece of the time, `undefined` past the end. */
  function TimePiece(birthTime: string, i: nat): Option<string>
  {
    Segment(Split(birthTime, ':'), i)
  }

  /** A date written as `year-month-day` in plain decimal digits. */
  function RenderDate(year: nat, month: nat, day: nat): string
  {
    NatToString(year) + "-" + NatToString(month) + "-" + NatToString(day)
  }

  /** A time written as `hour:minute`, or `hour:minute:second` when there is a second. */
  function RenderTime(hour: nat, minute: nat, second: Option<nat>): string
  {
    NatToString(hour) + ":" + NatToString(minute)
    + (if second.Some? then ":" + NatToString(second.value) else "")
  }

  /** The pieces of a rendered date. */
  lemma DatePiecesOfRendered(year: nat, month: nat, day: nat)
    ensures DatePiece(RenderDate(year, month, day), 0) == Some(NatToString(year))
    ensures DatePiece(RenderDate(year, month, day), 1) == Some(NatToString(month))
    ensures DatePiece(RenderDate(year, month, day), 2) == Some(NatToString(day))
  {
    NatToStringHasNo(year, '-');
    NatToStringHasNo(month, '-');
    NatToStringHasNo(day, '-');
    SplitOfThree(NatToString(year), NatToString(month), NatToString(day), '-');
  }

  /** The pieces of a rendered time; the third is `undefined` when there is no second. */
  lemma TimePiecesOfRendered(hour: nat, minute: nat, second: Option<nat>)
    ensures TimePiece(RenderTime(hour, minute, second), 0) == Some(NatToString(hour))
    ensures TimePiece(RenderTime(hour, minute, second), 1) == Some(NatToString(minute))
    ensures TimePiece(RenderTime(hour, minute, second), 2)
         == (if second.Some? then Some(NatToString(second.value)) else None)
  {
    NatToStringHasNo(hour, ':');
    NatToStringHasNo(minute, ':');
    var h, m := NatToString(hour), NatToString(minute);
    if second.Some? {
      var sec := NatToString(second.value);
      NatToStringHasNo(second.value, ':');
      assert RenderTime(hour, minute, second) == h + [':'] + m + [':'] + sec;
      SplitOfThree(h, m, sec, ':');
    } else {
      assert RenderTime(hour, minute, second) == h + [':'] + m;
      SplitOfTwo(h, m, ':');
    }
  }

  /** A piece holding a rendered number reads as that number. */
  lemma ReadsRendered(piece: Option<string>, n: nat)
    requires piece == Some(NatToString(n))
    ensures ReadsAs(piece, n) && Truthy(piece)
  {
    ParseIntOfNatToString(n);
  }
}
