/**
 * The application sidebar: recognising a single astrology report from the
 * path, reading the report id out of it, and rewriting the report menu with
 * the report's details, the profile card and the per-report links.
 */
module AppSidebar {
  import opened Wrappers
  import opened Text
  import opened NavMain

  const ReportsPrefix: string := "/astro-form/reports/"

  /** A non-empty path segment without `/`. */
  predicate IsSegment(s: string)
  {
    s != "" && forall k :: 0 <= k < |s| ==> s[k] != '/'
  }

  /** The `/`-separated segments after the reports prefix. */
  function TailSegments(pathname: string): (r: seq<string>)
    requires ReportsPrefix <= pathname
    ensures |r| >= 1
  {
    Split(pathname[|ReportsPrefix|..], '/')
  }

  /**
   * The path is `/astro-form/reports/` followed by one or two non-empty
   * segments separated by `/`, and nothing else. Every path accepted has one
   * of the two shapes, with segments free of `/`.
   */
  function IsAstroSingleReport(pathname: string): (r: bool)
    ensures r ==> ReportsPrefix <= pathname
    ensures r ==> var segs := TailSegments(pathname);
      && (forall k :: 0 <= k < |segs| ==> IsSegment(segs[k]))
      && (|segs| == 1 ==> pathname == ReportsPrefix + segs[0])
      && (|segs| == 2 ==> pathname == ReportsPrefix + segs[0] + "/" + segs[1])
  {
    if ReportsPrefix <= pathname then
      var rest := pathname[|ReportsPrefix|..];
      var segs := TailSegments(pathname);
      SplitSegmentsFree(rest, '/');
      JoinSplit(rest, '/');
      assert pathname == ReportsPrefix + rest;
      assert |segs| == 2 ==> segs[1..] == [segs[1]];
      && (|segs| == 1 || |segs| == 2)
      && forall k :: 0 <= k < |segs| ==> segs[k] != ""
    else
      false
  }

  /** `/astro-form/reports/<segment>` is a single report. */
  lemma SingleReportOfOne(a: string)
    requires IsSegment(a)
    ensures IsAstroSingleReport(ReportsPrefix + a)
  {
    assert (ReportsPrefix + a)[|ReportsPrefix|..] == a;
    SplitWithoutSeparator(a, '/');
  }

  /** `/astro-form/reports/<segment>/<segment>` is a single report. */
  lemma SingleReportOfTwo(a: string, b: string)
    requires IsSegment(a) && IsSegment(b)
    ensures IsAstroSingleReport(ReportsPrefix + a + "/" + b)
  {
    assert (ReportsPrefix + a + "/" + b)[|ReportsPrefix|..] == a + ['/'] + b;
    SplitOfTwo(a, b, '/');
  }

  /**
   * The report id: the digits right after the reports prefix, as many as there
   * are; none when no digit follows the prefix.
   */
  function ReportId(pathname: string): (r: Option<string>)
    ensures r.None? <==>
      !(ReportsPrefix <= pathname && |pathname| > |ReportsPrefix| && IsDigit(pathname[|ReportsPrefix|]))
    ensures r.Some? ==> r.value != "" && AllDigits(r.value) && ReportsPrefix + r.value <= pathname
    ensures r.Some? ==>
      |pathname| == |ReportsPrefix + r.value| || !IsDigit(pathname[|ReportsPrefix + r.value|])
  {
    if ReportsPrefix <= pathname && DigitPrefix(pathname[|ReportsPrefix|..]) != ""
    then Some(DigitPrefix(pathname[|ReportsPrefix|..]))
    else None
  }

  /** The id is read back from any path that continues the digits with a non-digit. */
  lemma ReportIdOf(id: string, rest: string)
    requires id != "" && AllDigits(id)
    requires rest == "" || !IsDigit(rest[0])
    ensures ReportId(ReportsPrefix + id + rest) == Some(id)
  {
    assert (ReportsPrefix + id + rest)[|ReportsPrefix|..] == id + rest;
    DigitPrefixOf(id, rest);
  }

  /** One entry of the Dasha menu. */
  datatype DashaTab = DashaTab(title: string, tabKey: string)

  const DashaTabItems: seq<DashaTab> := [
    DashaTab("Vimshottari Dasha", "vimshottari-dasha"),
    DashaTab("Yogini Dasha", "yogini-dasha"),
    DashaTab("Chara Dasha", "chara-dasha"),
    DashaTab("Sthira Dasha", "sthira-dasha"),
    DashaTab("Niryana Shoola Dasha", "niryana-shoola-dasha"),
    DashaTab("Thrikona Dasha", "thrikona-dasha"),
    DashaTab("Ashtottari Dasha", "ashtottari-dasha"),
    DashaTab("Mudda Dasha", "mudda-dasha")
  ]

  /** The page of one report's tab. */
  function ReportTabUrl(id: string, tabKey: string): string
  {
    ReportsPrefix + id + "/" + tabKey
  }

  /** The Dasha sub-items of report `id`, in menu order. */
  function DashaItems(id: string): (r: seq<SubItem>)
    ensures |r| == |DashaTabItems|
    ensures forall k :: 0 <= k < |r| ==>
      r[k].title == DashaTabItems[k].title && r[k].url == ReportTabUrl(id, DashaTabItems[k].tabKey)
  {
    seq(|DashaTabItems|, k requires 0 <= k < |DashaTabItems| =>
      SubItem(DashaTabItems[k].title, ReportTabUrl(id, DashaTabItems[k].tabKey)))
  }

  const EditChartKey: string := "edit-chart"

  /** The Edit sub-items of report `id`. */
  function EditItems(id: string): (r: seq<SubItem>)
    ensures |r| == 1 && r[0].title == "Edit Chart" && r[0].url == ReportTabUrl(id, EditChartKey)
  {
    [SubItem("Edit Chart", ReportTabUrl(id, EditChartKey))]
  }

  /** The page of a report's tab is itself a single report, with the same id. */
  lemma ReportTabUrlRecognized(id: string, tabKey: string)
    requires id != "" && AllDigits(id) && IsSegment(tabKey)
    ensures IsAstroSingleReport(ReportTabUrl(id, tabKey))
    ensures ReportId(ReportTabUrl(id, tabKey)) == Some(id)
  {
    SingleReportOfTwo(id, tabKey);
    assert ReportTabUrl(id, tabKey) == ReportsPrefix + id + ("/" + tabKey);
    ReportIdOf(id, "/" + tabKey);
  }

  // The tab keys are checked two at a time: all eight in one proof is too
  // costly for the solver.

  lemma TabKeysZeroOne()
    ensures IsSegment(DashaTabItems[0].tabKey) && IsSegment(DashaTabItems[1].tabKey)
  {
  }

  lemma TabKeysTwoThree()
    ensures IsSegment(DashaTabItems[2].tabKey) && IsSegment(DashaTabItems[3].tabKey)
  {
  }

  lemma TabKeysFourFive()
    ensures IsSegment(DashaTabItems[4].tabKey) && IsSegment(DashaTabItems[5].tabKey)
  {
  }

  lemma TabKeysSixSeven()
    ensures IsSegment(DashaTabItems[6].tabKey) && IsSegment(DashaTabItems[7].tabKey)
  {
  }

  /** No tab key is empty or holds a `/`. */
  lemma TabKeyIsSegment(k: nat)
    requires k < |DashaTabItems|
    ensures IsSegment(DashaTabItems[k].tabKey)
  {
    TabKeysZeroOne();
    TabKeysTwoThree();
    TabKeysFourFive();
    TabKeysSixSeven();
  }

  /** Every link the rewrite adds keeps the sidebar on the same report. */
  lemma AddedLinksStayOnReport(id: string)
    requires id != "" && AllDigits(id)
    ensures forall k :: 0 <= k < |DashaItems(id)| ==>
      IsAstroSingleReport(DashaItems(id)[k].url) && ReportId(DashaItems(id)[k].url) == Some(id)
    ensures IsAstroSingleReport(EditItems(id)[0].url) && ReportId(EditItems(id)[0].url) == Some(id)
  {
    forall k | 0 <= k < |DashaItems(id)|
      ensures IsAstroSingleReport(DashaItems(id)[k].url) && ReportId(DashaItems(id)[k].url) == Some(id)
    {
      TabKeyIsSegment(k);
      ReportTabUrlRecognized(id, DashaTabItems[k].tabKey);
    }
    assert IsSegment(EditChartKey);
    ReportTabUrlRecognized(id, EditChartKey);
  }

  /** The report summary the sidebar fetches. Coordinates are whole numbers here. */
  datatype AstroReportSummary = AstroReportSummary(
    name: string,
    birthDate: string,
    birthTime: string,
    placeOfBirth: string,
    latitudeDeg: int,
    latitudeMin: int,
    latitudeDir: string,
    longitudeDeg: int,
    longitudeMin: int,
    longitudeDir: string,
    plan: Option<string>,
    phone: Option<string>)

  /** The time with every `:` widened to ` : `. */
  function TimeText(birthTime: string): (r: string)
    ensures r == Join(Split(birthTime, ':'), " : ")
  {
    ReplaceAllIsSplitJoin(birthTime, ':', " : ");
    ReplaceAll(birthTime, ':', " : ")
  }

  /** An `hh:mm` time reads `hh : mm`. */
  lemma TimeTextOfPieces(h: string, m: string)
    requires ':' !in h && ':' !in m
    ensures TimeText(h + ":" + m) == h + " : " + m
  {
    assert h + ":" + m == h + [':'] + m;
    SplitOfTwo(h, m, ':');
    assert [h, m][1..] == [m];
    assert Join([h, m], " : ") == h + " : " + Join([m], " : ");
  }

  /** Degrees, direction and minutes written together, as `77E12`. */
  function CoordinateText(deg: int, dir: string, min: int): string
  {
    IntToString(deg) + dir + IntToString(min)
  }

  /** The three detail lines; `longDate` is the locale's long date rendering. */
  function DetailLines(report: AstroReportSummary, longDate: string -> string): (r: seq<string>)
    ensures |r| == 3
    ensures r[0] == "Date : " + longDate(report.birthDate)
    ensures r[1] == "Time : " + Join(Split(report.birthTime, ':'), " : ")
    ensures r[2] == "Place : " + report.placeOfBirth
      + " | " + CoordinateText(report.longitudeDeg, report.longitudeDir, report.longitudeMin)
      + " | " + CoordinateText(report.latitudeDeg, report.latitudeDir, report.latitudeMin)
  {
    [ "Date : " + longDate(report.birthDate),
      "Time : " + TimeText(report.birthTime),
      "Place : " + report.placeOfBirth
      + " | " + CoordinateText(report.longitudeDeg, report.longitudeDir, report.longitudeMin)
      + " | " + CoordinateText(report.latitudeDeg, report.latitudeDir, report.latitudeMin) ]
  }

  const DefaultPlan: string := "BASIC PLAN"
  const DefaultPhone: string := "-"
  const EditProfileUrl: string := "/view-profile?tab=editProfile"

  /** `value ?? fallback`: only a missing value falls back; an empty one is kept. */
  function OrDefault(value: Option<string>, fallback: string): (r: string)
    ensures value.Some? ==> r == value.value
    ensures value.None? ==> r == fallback
  {
    if value.Some? then value.value else fallback
  }

  function ProfileCardOf(report: AstroReportSummary): (r: ProfileCard)
    ensures r.plan == OrDefault(report.plan, DefaultPlan)
    ensures r.phone == OrDefault(report.phone, DefaultPhone)
    ensures r.editUrl == Some(EditProfileUrl)
  {
    ProfileCard(OrDefault(report.plan, DefaultPlan), OrDefault(report.phone, DefaultPhone), Some(EditProfileUrl))
  }

  /** A report without a plan shows the same avatar letter as an empty plan. */
  lemma DefaultPlanAvatar(report: AstroReportSummary)
    requires report.plan.None? || report.plan == Some("")
    ensures AvatarInitial(ProfileCardOf(report).plan) == "B"
  {
    if report.plan.None? {
      assert DefaultPlan[..1] == "B";
    }
  }

  /** The index-1 rewrite applies: the item has a title and the report is loaded. */
  predicate DetailsSlot(item: SidebarItem, index: nat, report: Option<AstroReportSummary>)
  {
    Truthy(item.title) && index == 1 && report.Some?
  }

  predicate ProfileSlot(item: SidebarItem, index: nat, report: Option<AstroReportSummary>)
  {
    Truthy(item.title) && index == 2 && report.Some?
  }

  /** One entry of the report menu, rewritten. */
  function RewriteItem(item: SidebarItem, index: nat, report: Option<AstroReportSummary>,
                       reportId: Option<string>, longDate: string -> string): (r: SidebarItem)
    ensures r.url == item.url && r.labelText == item.labelText
    ensures !Truthy(item.title) ==> r == item
    ensures DetailsSlot(item, index, report) ==>
      r == item.(title := Some(report.value.name + "'s Kundli"), details := Some(DetailLines(report.value, longDate)))
    ensures ProfileSlot(item, index, report) ==> r == item.(profileCard := Some(ProfileCardOf(report.value)))
    ensures !DetailsSlot(item, index, report) && !ProfileSlot(item, index, report) ==>
      r == if item.title == Some("Dasha") && Truthy(reportId) then item.(items := Some(DashaItems(reportId.value)))
           else if item.title == Some("Edit") && Truthy(reportId) then item.(items := Some(EditItems(reportId.value)))
           else item
  {
    if !Truthy(item.title) then item
    else if index == 1 && report.Some? then
      item.(title := Some(report.value.name + "'s Kundli"), details := Some(DetailLines(report.value, longDate)))
    else if index == 2 && report.Some? then
      item.(profileCard := Some(ProfileCardOf(report.value)))
    else if item.title == Some("Dasha") && Truthy(reportId) then
      item.(items := Some(DashaItems(reportId.value)))
    else if item.title == Some("Edit") && Truthy(reportId) then
      item.(items := Some(EditItems(reportId.value)))
    else item
  }

  /** Any item the rewrite changes renders as a group. */
  lemma RewrittenItemIsGroup(item: SidebarItem, index: nat, report: Option<AstroReportSummary>,
                             reportId: Option<string>, longDate: string -> string)
    requires RewriteItem(item, index, report, reportId, longDate) != item
    ensures HasContent(RewriteItem(item, index, report, reportId, longDate))
  {
  }

  /**
   * The menu for the path: the default menu away from a single report, else
   * the report menu with every item rewritten, same length and order.
   */
  function NavItems(pathname: string, defaultNav: seq<SidebarItem>, reportNav: seq<SidebarItem>,
                    report: Option<AstroReportSummary>, longDate: string -> string): (r: seq<SidebarItem>)
    ensures !IsAstroSingleReport(pathname) ==> r == defaultNav
    ensures IsAstroSingleReport(pathname) ==> |r| == |reportNav|
    ensures IsAstroSingleReport(pathname) ==> forall k :: 0 <= k < |reportNav| ==>
      r[k] == RewriteItem(reportNav[k], k, report, ReportId(pathname), longDate)
  {
    if !IsAstroSingleReport(pathname) then defaultNav
    else seq(|reportNav|, k requires 0 <= k < |reportNav| => RewriteItem(reportNav[k], k, report, ReportId(pathname), longDate))
  }

  /**
   * On the page of the `k`-th Dasha tab, the rewritten Dasha item renders as an
   * open group in which that tab is the active link.
   */
  lemma DashaGroupOpenOnItsTab(item: SidebarItem, index: nat, report: Option<AstroReportSummary>, id: string,
                               longDate: string -> string, openGroup: Option<string>, k: nat)
    requires item.title == Some("Dasha") && index != 1 && index != 2
    requires id != "" && k < |DashaTabItems|
    ensures var v := Render(openGroup, DashaItems(id)[k].url, RewriteItem(item, index, report, Some(id), longDate));
      v.GroupView? && v.open && v.subItems[k].active
  {
    var rewritten := RewriteItem(item, index, report, Some(id), longDate);
    assert rewritten.items == Some(DashaItems(id));
    ActiveSubItemOpensGroup(openGroup, DashaItems(id)[k].url, rewritten, k);
  }
}
