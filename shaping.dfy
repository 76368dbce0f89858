/** The result shaper of the install hook: contributed records, gathered
    from every handler of the `frontend-main-menu-install` and
    `frontend-page-install` hooks, are validated and coerced into menu items
    and pages; malformed records are dropped silently. */
module Shaping {
  import opened Values
  import opened Sequences

  /** A client-generated `UUID`: 128 bits. */
  type Uuid = x: nat | x < 0x1_0000_0000_0000_0000_0000_0000_0000_0000

  /** `FrontendMenuItemModel` as the install code fills it. */
  datatype MenuItem = MenuItem(
    icon: Option<string>,
    caption: string,  // the `label` field (a reserved word in Dafny)
    url: string,
    priority: Int64,
    targetBlank: bool,
    menuId: Uuid)

  /** `FrontendPageModel` as the install code fills it. */
  datatype Page = Page(title: string, content: string)

  const DefaultPriority: Int64 := 100
  const DefaultTargetBlank := false

  /** The fields the menu-item shaper reads; no other field matters. */
  const MenuItemFields: set<string> := {"label", "url", "icon", "targetBlank", "priority"}
  /** The fields the page shaper reads. */
  const PageFields: set<string> := {"title", "content"}

  /** The closure given to `compactMap` for menu items: `label` and `url`
      must be non-empty strings, the other fields are optional with defaults,
      and the item is attached to the given menu. */
  function ShapeMenuItem(item: Record, menuId: Uuid): (r: Option<MenuItem>)
    ensures r.Some? <==> HasNonEmptyString(item, "label") && HasNonEmptyString(item, "url")
    ensures r.Some? ==>
      && r.value.caption == item["label"].str
      && r.value.url == item["url"].str
      && r.value.menuId == menuId
    ensures r.Some? ==>
      r.value.icon == (if "icon" in item && item["icon"].VStr? then Some(item["icon"].str) else None)
    ensures r.Some? ==> (r.value.targetBlank <==> "targetBlank" in item && item["targetBlank"] == VBool(true))
    ensures r.Some? ==>
      r.value.priority == (if "priority" in item && item["priority"].VInt? then item["priority"].num else 100)
  {
    match (NonEmptyStringField(item, "label"), NonEmptyStringField(item, "url"))
    case (Some(caption), Some(url)) =>
      var icon := StringField(item, "icon");
      var targetBlank := BoolField(item, "targetBlank").GetOr(DefaultTargetBlank);
      var priority := IntField(item, "priority").GetOr(DefaultPriority);
      Some(MenuItem(icon, caption, url, priority, targetBlank, menuId))
    case _ => None
  }

  /** The closure given to `compactMap` for pages: `title` and `content` must
      be non-empty strings. */
  function ShapePage(page: Record): (r: Option<Page>)
    ensures r.Some? <==> HasNonEmptyString(page, "title") && HasNonEmptyString(page, "content")
    ensures r.Some? ==> r.value.title == page["title"].str && r.value.content == page["content"].str
  {
    match (NonEmptyStringField(page, "title"), NonEmptyStringField(page, "content"))
    case (Some(title), Some(content)) => Some(Page(title, content))
    case _ => None
  }

  function MenuItemShaper(menuId: Uuid): Record -> Option<MenuItem>
  {
    item => ShapeMenuItem(item, menuId)
  }

  function PageShaper(): Record -> Option<Page>
  {
    page => ShapePage(page)
  }

  /** The contributed menu items: the hook results flattened, then shaped. */
  function ShapeMenuItems(contributions: seq<seq<Record>>, menuId: Uuid): (r: seq<MenuItem>)
    ensures |r| <= TotalLength(contributions)
    ensures forall m :: m in r ==> m.menuId == menuId && m.caption != "" && m.url != ""
  {
    CompactMapAll(Flatten(contributions), MenuItemShaper(menuId),
                  (m: MenuItem) => m.menuId == menuId && m.caption != "" && m.url != "");
    CompactMap(Flatten(contributions), MenuItemShaper(menuId))
  }

  /** The contributed pages: the hook results flattened, then shaped. */
  function ShapePages(contributions: seq<seq<Record>>): (r: seq<Page>)
    ensures |r| <= TotalLength(contributions)
    ensures forall p :: p in r ==> p.title != "" && p.content != ""
  {
    CompactMapAll(Flatten(contributions), PageShaper(), (p: Page) => p.title != "" && p.content != "");
    CompactMap(Flatten(contributions), PageShaper())
  }

  // ---------------------------------------------------------------------
  // Partners: the record a shaped value is read back from.

  /** The record a module would contribute for this menu item (without the
      menu id, which the installer assigns). */
  function MenuItemRecord(m: MenuItem): Record
  {
    var base := map["label" := VStr(m.caption), "url" := VStr(m.url),
                    "priority" := VInt(m.priority), "targetBlank" := VBool(m.targetBlank)];
    match m.icon
    case Some(icon) => base["icon" := VStr(icon)]
    case None => base
  }

  /** The record a module would contribute for this page. */
  function PageRecord(p: Page): Record
  {
    map["title" := VStr(p.title), "content" := VStr(p.content)]
  }

  /** Shaping reads back every field of a menu item written as a record,
      so the shaper loses nothing a well-formed contribution carries. */
  lemma MenuItemRoundTrip(m: MenuItem)
    requires m.caption != "" && m.url != ""
    ensures ShapeMenuItem(MenuItemRecord(m), m.menuId) == Some(m)
  {
  }

  lemma PageRoundTrip(p: Page)
    requires p.title != "" && p.content != ""
    ensures ShapePage(PageRecord(p)) == Some(p)
  {
  }

  /** Shaping depends only on the five menu-item fields: extra or unexpected
      fields never make a record fail, nor change what it becomes. */
  lemma MenuItemIgnoresOtherFields(a: Record, b: Record, menuId: Uuid)
    requires AgreeOn(a, b, MenuItemFields)
    ensures ShapeMenuItem(a, menuId) == ShapeMenuItem(b, menuId)
  {
  }

  lemma PageIgnoresOtherFields(a: Record, b: Record)
    requires AgreeOn(a, b, PageFields)
    ensures ShapePage(a) == ShapePage(b)
  {
  }

  // ---------------------------------------------------------------------
  // The shaped lists.

  /** The shaped menu items are exactly the accepted records of the flattened
      hook results, in their order: `ix` lists the positions of the accepted
      records, increasing, and item `j` is the shape of the record at `ix[j]`. */
  lemma ShapedMenuItemsAreAcceptedInOrder(contributions: seq<seq<Record>>, menuId: Uuid)
    ensures var flat := Flatten(contributions);
            var items := ShapeMenuItems(contributions, menuId);
            var ix := KeptIndices(flat, MenuItemShaper(menuId));
            && |items| == |ix|
            && (forall j :: 0 <= j < |ix| ==>
                  ix[j] < |flat| && IsMenuItemRecordAt(flat, ix[j]) && ShapeMenuItem(flat[ix[j]], menuId) == Some(items[j]))
            && (forall j, k :: 0 <= j < k < |ix| ==> ix[j] < ix[k])
            && (forall i :: 0 <= i < |flat| && IsMenuItemRecordAt(flat, i) ==> i in ix)
  {
    var flat := Flatten(contributions);
    var f := MenuItemShaper(menuId);
    CompactMapKeepsExactly(flat, f);
    forall i | 0 <= i < |flat|
      ensures f(flat[i]) == ShapeMenuItem(flat[i], menuId)
    {
    }
  }

  ghost predicate IsMenuItemRecordAt(flat: seq<Record>, i: nat)
    requires i < |flat|
  {
    HasNonEmptyString(flat[i], "label") && HasNonEmptyString(flat[i], "url")
  }

  ghost predicate IsPageRecordAt(flat: seq<Record>, i: nat)
    requires i < |flat|
  {
    HasNonEmptyString(flat[i], "title") && HasNonEmptyString(flat[i], "content")
  }

  /** The same characterisation for pages. */
  lemma ShapedPagesAreAcceptedInOrder(contributions: seq<seq<Record>>)
    ensures var flat := Flatten(contributions);
            var pages := ShapePages(contributions);
            var ix := KeptIndices(flat, PageShaper());
            && |pages| == |ix|
            && (forall j :: 0 <= j < |ix| ==>
                  ix[j] < |flat| && IsPageRecordAt(flat, ix[j]) && ShapePage(flat[ix[j]]) == Some(pages[j]))
            && (forall j, k :: 0 <= j < k < |ix| ==> ix[j] < ix[k])
            && (forall i :: 0 <= i < |flat| && IsPageRecordAt(flat, i) ==> i in ix)
  {
    var flat := Flatten(contributions);
    var f := PageShaper();
    CompactMapKeepsExactly(flat, f);
    forall i | 0 <= i < |flat|
      ensures f(flat[i]) == ShapePage(flat[i])
    {
    }
  }

  /** One handler's contribution is shaped on its own: the result for all
      handlers is the result for those before it, then its own records
      shaped, then the result for those after it. A malformed record from one
      module thus never removes or alters what another module contributed. */
  lemma MenuItemsShapedPerHandler(contributions: seq<seq<Record>>, k: nat, menuId: Uuid)
    requires k < |contributions|
    ensures ShapeMenuItems(contributions, menuId)
         == ShapeMenuItems(contributions[..k], menuId)
          + CompactMap(contributions[k], MenuItemShaper(menuId))
          + ShapeMenuItems(contributions[k + 1..], menuId)
  {
    var f := MenuItemShaper(menuId);
    assert contributions == contributions[..k] + ([contributions[k]] + contributions[k + 1..]);
    FlattenAppend(contributions[..k], [contributions[k]] + contributions[k + 1..]);
    FlattenAppend([contributions[k]], contributions[k + 1..]);
    assert Flatten([contributions[k]]) == contributions[k] by {
      assert [contributions[k]][1..] == [];
    }
    CompactMapAppend(Flatten(contributions[..k]), contributions[k] + Flatten(contributions[k + 1..]), f);
    CompactMapAppend(contributions[k], Flatten(contributions[k + 1..]), f);
  }

  lemma PagesShapedPerHandler(contributions: seq<seq<Record>>, k: nat)
    requires k < |contributions|
    ensures ShapePages(contributions)
         == ShapePages(contributions[..k])
          + CompactMap(contributions[k], PageShaper())
          + ShapePages(contributions[k + 1..])
  {
    var f := PageShaper();
    assert contributions == contributions[..k] + ([contributions[k]] + contributions[k + 1..]);
    FlattenAppend(contributions[..k], [contributions[k]] + contributions[k + 1..]);
    FlattenAppend([contributions[k]], contributions[k + 1..]);
    assert Flatten([contributions[k]]) == contributions[k] by {
      assert [contributions[k]][1..] == [];
    }
    CompactMapAppend(Flatten(contributions[..k]), contributions[k] + Flatten(contributions[k + 1..]), f);
    CompactMapAppend(contributions[k], Flatten(contributions[k + 1..]), f);
  }
}
