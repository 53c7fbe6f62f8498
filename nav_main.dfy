/**
 * The main sidebar menu: which links are active for the current path, which
 * groups are open, what each item renders as, and the menu's one piece of
 * state, the title of the group the user opened last.
 */
module NavMain {
  import opened Wrappers
  import opened Text

  datatype SubItem = SubItem(title: string, url: string)

  /** The profile card of an item; `editUrl` is carried along but not rendered. */
  datatype ProfileCard = ProfileCard(plan: string, phone: string, editUrl: Option<string>)

  /** A sidebar entry; every field is optional. `labelText` is the `label` field. Icons and colours are left out. */
  datatype SidebarItem = SidebarItem(
    title: Option<string>,
    url: Option<string>,
    details: Option<seq<string>>,
    profileCard: Option<ProfileCard>,
    items: Option<seq<SubItem>>,
    labelText: Option<string>)

  /** What one sub-item renders as. */
  datatype SubView = SubView(title: string, url: string, active: bool)

  /** What a profile card renders as: the avatar letter, the plan and the phone. */
  datatype CardView = CardView(initial: string, plan: string, phone: string)

  /** What one item renders as. */
  datatype View =
    | GroupView(title: Option<string>, open: bool, subItems: seq<SubView>, details: seq<string>, card: Option<CardView>)
    | LabelView(text: string)
    | LinkView(linkTitle: string, href: string, active: bool)
    | NoView

  /** A link is active when the path equals its url or starts with it. */
  function IsLinkActive(pathname: string, url: string): (r: bool)
    ensures r <==> url <= pathname
  {
    pathname == url || url <= pathname
  }

  /** `subItems.some(...)`: one of the links is active. */
  function AnyActive(pathname: string, subs: seq<SubItem>): (r: bool)
    ensures r <==> exists k :: 0 <= k < |subs| && subs[k].url <= pathname
  {
    if |subs| == 0 then false
    else IsLinkActive(pathname, subs[0].url) || AnyActive(pathname, subs[1..])
  }

  /** A group is active when it has sub-items and one of them is active. */
  function IsGroupActive(pathname: string, item: SidebarItem): (r: bool)
    ensures r <==> item.items.Some? && exists k :: 0 <= k < |item.items.value| && item.items.value[k].url <= pathname
  {
    item.items.Some? && AnyActive(pathname, item.items.value)
  }

  /** A group is open when the user opened it last or when it is active. */
  predicate IsOpen(openGroup: Option<string>, pathname: string, item: SidebarItem)
  {
    (openGroup.Some? && item.title == openGroup) || IsGroupActive(pathname, item)
  }

  /** An item is a group when it has sub-items, detail lines or a profile card. */
  predicate HasContent(item: SidebarItem)
  {
    || (item.items.Some? && |item.items.value| > 0)
    || (item.details.Some? && |item.details.value| > 0)
    || item.profileCard.Some?
  }

  /** The avatar letter: the first character of the plan, `B` for an empty plan. */
  function AvatarInitial(plan: string): (r: string)
    ensures |r| == 1
    ensures plan == "" ==> r == "B"
    ensures plan != "" ==> r[0] == plan[0]
  {
    if |plan| > 0 then plan[..1] else "B"
  }

  function RenderSubItems(pathname: string, subs: seq<SubItem>): (r: seq<SubView>)
    ensures |r| == |subs|
    ensures forall k :: 0 <= k < |subs| ==>
      r[k].title == subs[k].title && r[k].url == subs[k].url && (r[k].active <==> subs[k].url <= pathname)
  {
    seq(|subs|, k requires 0 <= k < |subs| => SubView(subs[k].title, subs[k].url, IsLinkActive(pathname, subs[k].url)))
  }

  /**
   * What an item renders as: a group takes precedence over a label, a label over
   * a link, and an item that is none of them renders nothing.
   */
  function Render(openGroup: Option<string>, pathname: string, item: SidebarItem): (r: View)
    ensures r.GroupView? <==> HasContent(item)
    ensures r.LabelView? <==> !HasContent(item) && Truthy(item.labelText)
    ensures r.LinkView? <==> !HasContent(item) && !Truthy(item.labelText) && Truthy(item.url) && Truthy(item.title)
    ensures r.GroupView? ==> r.title == item.title && (r.open <==> IsOpen(openGroup, pathname, item))
    ensures r.GroupView? ==> r.subItems == (if item.items.Some? then RenderSubItems(pathname, item.items.value) else [])
    ensures r.GroupView? ==> r.details == (if item.details.Some? then item.details.value else [])
    ensures r.GroupView? ==> (r.card.Some? <==> item.profileCard.Some?)
    ensures r.GroupView? && item.profileCard.Some? ==>
      && r.card.value.initial == AvatarInitial(item.profileCard.value.plan)
      && r.card.value.plan == item.profileCard.value.plan
      && r.card.value.phone == item.profileCard.value.phone
    ensures r.LabelView? ==> r.text == item.labelText.value
    ensures r.LinkView? ==> r.linkTitle == item.title.value && r.href == item.url.value && (r.active <==> r.href <= pathname)
  {
    if HasContent(item) then
      GroupView(
        item.title,
        IsOpen(openGroup, pathname, item),
        if item.items.Some? then RenderSubItems(pathname, item.items.value) else [],
        if item.details.Some? then item.details.value else [],
        if item.profileCard.Some?
        then Some(CardView(AvatarInitial(item.profileCard.value.plan), item.profileCard.value.plan, item.profileCard.value.phone))
        else None)
    else if Truthy(item.labelText) then LabelView(item.labelText.value)
    else if Truthy(item.url) && Truthy(item.title) then
      LinkView(item.title.value, item.url.value, IsLinkActive(pathname, item.url.value))
    else NoView
  }

  /** The whole menu: one view per item, in order. */
  function RenderMenu(openGroup: Option<string>, pathname: string, items: seq<SidebarItem>): (r: seq<View>)
    ensures |r| == |items|
    ensures forall k :: 0 <= k < |items| ==> r[k] == Render(openGroup, pathname, items[k])
  {
    seq(|items|, k requires 0 <= k < |items| => Render(openGroup, pathname, items[k]))
  }

  /**
   * The toggle: a missing or empty title changes nothing; the open group's
   * title closes it; any other title becomes the open group.
   */
  function ToggledGroup(prev: Option<string>, title: Option<string>): (r: Option<string>)
    ensures !Truthy(title) ==> r == prev
    ensures Truthy(title) ==> (r == title <==> prev != title)
    ensures Truthy(title) ==> (r.None? <==> prev == title)
  {
    if !Truthy(title) then prev
    else if prev == title then None
    else title
  }

  /** The menu's state: the title of the group the user opened, if any. */
  class NavMainState {
    var openGroup: Option<string>

    /**
     * Only a non-empty title is ever stored: a click on an item without a
     * title changes nothing, so no untitled item is ever marked open.
     */
    predicate Valid()
      reads this
    {
      openGroup != Some("")
    }

    constructor()
      ensures openGroup == None && Valid()
    {
      openGroup := None;
    }

    /** A click on a group's trigger. */
    method ToggleGroup(title: Option<string>)
      requires Valid()
      modifies this
      ensures Valid()
      ensures openGroup == ToggledGroup(old(openGroup), title)
    {
      if !Truthy(title) {
        return;
      }
      if openGroup == title {
        openGroup := None;
      } else {
        openGroup := title;
      }
    }
  }

  /** In a valid state an item without a title, or with an empty one, is open only when it is active. */
  lemma UntitledOpenOnlyWhenActive(st: NavMainState, pathname: string, item: SidebarItem)
    requires st.Valid() && !Truthy(item.title)
    ensures IsOpen(st.openGroup, pathname, item) <==> IsGroupActive(pathname, item)
  {
  }

  /** Two clicks on the same title restore the state if it was closed or open on that title, else close all. */
  lemma ToggleTwice(prev: Option<string>, title: Option<string>)
    requires Truthy(title)
    ensures ToggledGroup(ToggledGroup(prev, title), title) == if prev.None? || prev == title then prev else None
  {
  }

  /** A click on a group that is not active flips whether it is shown open. */
  lemma ClickFlipsInactiveGroup(openGroup: Option<string>, pathname: string, item: SidebarItem)
    requires Truthy(item.title) && !IsGroupActive(pathname, item)
    ensures IsOpen(ToggledGroup(openGroup, item.title), pathname, item) <==> !IsOpen(openGroup, pathname, item)
  {
  }

  /** An active group is open whatever the user clicked: such a group cannot be closed. */
  lemma ActiveGroupStaysOpen(openGroup: Option<string>, pathname: string, item: SidebarItem, title: Option<string>)
    requires IsGroupActive(pathname, item)
    ensures IsOpen(openGroup, pathname, item)
    ensures IsOpen(ToggledGroup(openGroup, title), pathname, item)
  {
  }

  /** Of two inactive groups with different titles, at most one is open. */
  lemma AtMostOneOpenByClick(openGroup: Option<string>, pathname: string, a: SidebarItem, b: SidebarItem)
    requires a.title != b.title
    requires !IsGroupActive(pathname, a) && !IsGroupActive(pathname, b)
    ensures !(IsOpen(openGroup, pathname, a) && IsOpen(openGroup, pathname, b))
  {
  }

  /** A sub-item whose url is a prefix of the path makes its group render open, with that sub-item active. */
  lemma ActiveSubItemOpensGroup(openGroup: Option<string>, pathname: string, item: SidebarItem, k: nat)
    requires item.items.Some? && k < |item.items.value| && item.items.value[k].url <= pathname
    ensures Render(openGroup, pathname, item).GroupView?
    ensures Render(openGroup, pathname, item).open
    ensures Render(openGroup, pathname, item).subItems[k].active
  {
  }
}
