/** The content that `modelInstallHook` builds before persisting it: two
    menus, the main menu's items (an About item first, then the shaped
    contributions), the footer menu's two fixed items, the shaped pages with
    an About page last, and the home page. */
module Install {
  import opened Values
  import opened Sequences
  import opened Shaping

  /** `FrontendMenuModel`. */
  datatype Menu = Menu(id: Uuid, key: string, name: string)

  /** Everything the hook hands to the store, grouped as the three write
      groups create it. */
  datatype InstallContent = InstallContent(
    homePage: Page,
    pages: seq<Page>,
    mainMenu: Menu,
    footerMenu: Menu,
    mainItems: seq<MenuItem>,
    footerItems: seq<MenuItem>)
  {
    /** The menus created by the third write group, in order. */
    function Menus(): seq<Menu> {
      [mainMenu, footerMenu]
    }

    /** `mainMenuItemModels + footerItems`: the items created once the menus exist. */
    function MenuItems(): seq<MenuItem> {
      mainItems + footerItems
    }
  }

  /** The synthetic About item: a well-formed item (shaping its record gives
      it back) that ranks before every item left at the default priority. */
  function AboutMenuItem(mainId: Uuid): (m: MenuItem)
    ensures ShapeMenuItem(MenuItemRecord(m), mainId) == Some(m)
    ensures m.priority == 0 < DefaultPriority
  {
    MenuItem(None, "About", "/about/", 0, false, mainId)
  }

  /** The footer's fixed items: two well-formed items of the footer menu that
      open in a new tab, the sitemap ranked above the feed. */
  function FooterItems(footerId: Uuid): (r: seq<MenuItem>)
    ensures |r| == 2 && r[0].priority > r[1].priority
    ensures forall m :: m in r ==> ShapeMenuItem(MenuItemRecord(m), footerId) == Some(m) && m.targetBlank
  {
    [ MenuItem(None, "Sitemap", "/sitemap.xml", 1000, true, footerId),
      MenuItem(None, "RSS", "/rss.xml", 900, true, footerId) ]
  }

  /** The home page; its content is a placeholder that a hook replaces when
      the page is rendered. It is a well-formed page: shaping its record
      gives it back. */
  function HomePage(): (p: Page)
    ensures ShapePage(PageRecord(p)) == Some(p)
  {
    Page("Home", "[frontend-home-page]")
  }

  function AboutPage(aboutContent: string): Page
  {
    Page("About", aboutContent)
  }

  /** `modelInstallHook` up to the persistence step. The hook results of
      `frontend-main-menu-install` and `frontend-page-install`, the two
      generated menu ids and the About page's content are inputs. */
  function ModelInstallHook(
    menuItemHookResults: seq<seq<Record>>,
    pageHookResults: seq<seq<Record>>,
    mainId: Uuid,
    footerId: Uuid,
    aboutContent: string): (c: InstallContent)
    // the two menus and their keys
    ensures c.Menus() == [Menu(mainId, "main", "Main menu"), Menu(footerId, "footer", "Footer menu")]
    // About is the first main-menu item, even when nothing is contributed
    ensures |c.mainItems| == |ShapeMenuItems(menuItemHookResults, mainId)| + 1
    ensures c.mainItems[0] == MenuItem(None, "About", "/about/", 0, false, mainId)
    ensures c.mainItems[1..] == ShapeMenuItems(menuItemHookResults, mainId)
    ensures forall m :: m in c.mainItems ==> m.menuId == mainId
    // the footer holds exactly the two fixed items
    ensures c.footerItems == [ MenuItem(None, "Sitemap", "/sitemap.xml", 1000, true, footerId),
                               MenuItem(None, "RSS", "/rss.xml", 900, true, footerId) ]
    // the About page is appended after the contributed pages
    ensures |c.pages| == |ShapePages(pageHookResults)| + 1
    ensures c.pages[|c.pages| - 1] == Page("About", aboutContent)
    ensures c.pages[..|c.pages| - 1] == ShapePages(pageHookResults)
    ensures c.homePage == Page("Home", "[frontend-home-page]")
  {
    var mainMenu := Menu(mainId, "main", "Main menu");
    var contributedItems := ShapeMenuItems(menuItemHookResults, mainId);
    // mainMenuItemModels.insert(aboutMenuItem, at: 0)
    var mainMenuItemModels := [AboutMenuItem(mainId)] + contributedItems;
    var footerMenu := Menu(footerId, "footer", "Footer menu");
    // pageModels.append(aboutPage)
    var pageModels := ShapePages(pageHookResults) + [AboutPage(aboutContent)];
    InstallContent(HomePage(), pageModels, mainMenu, footerMenu, mainMenuItemModels, FooterItems(footerId))
  }

  /** Every menu item created refers to a menu created in the same batch,
      the About item heads the combined list, and the footer's two items
      close it. */
  lemma MenuItemsReferenceBatchMenus(
    menuItemHookResults: seq<seq<Record>>, pageHookResults: seq<seq<Record>>,
    mainId: Uuid, footerId: Uuid, aboutContent: string)
    ensures var c := ModelInstallHook(menuItemHookResults, pageHookResults, mainId, footerId, aboutContent);
            var items := c.MenuItems();
            && (forall m :: m in items ==> exists menu :: menu in c.Menus() && menu.id == m.menuId)
            && items[0] == AboutMenuItem(mainId)
            && items[|c.mainItems|..] == FooterItems(footerId)
  {
  }

  /** When the two generated ids differ, the items of the footer menu are
      exactly the last two: no contribution and no About item ever lands in
      the footer. */
  lemma FooterItemsStayInFooter(
    menuItemHookResults: seq<seq<Record>>, pageHookResults: seq<seq<Record>>,
    mainId: Uuid, footerId: Uuid, aboutContent: string)
    requires mainId != footerId
    ensures var c := ModelInstallHook(menuItemHookResults, pageHookResults, mainId, footerId, aboutContent);
            var items := c.MenuItems();
            forall i :: 0 <= i < |items| ==> (items[i].menuId == footerId <==> i >= |c.mainItems|)
  {
  }

  /** The main menu depends only on the menu-item hook results and the main
      id; the pages only on the page hook results and the About content. */
  lemma ContentsAreIndependent(
    menuA: seq<seq<Record>>, pagesA: seq<seq<Record>>,
    menuB: seq<seq<Record>>, pagesB: seq<seq<Record>>,
    mainIdA: Uuid, mainIdB: Uuid, footerIdA: Uuid, footerIdB: Uuid, aboutContent: string)
    ensures ModelInstallHook(menuA, pagesA, mainIdA, footerIdA, aboutContent).mainItems
         == ModelInstallHook(menuA, pagesB, mainIdA, footerIdB, aboutContent).mainItems
    ensures ModelInstallHook(menuA, pagesA, mainIdA, footerIdA, aboutContent).pages
         == ModelInstallHook(menuB, pagesA, mainIdB, footerIdB, aboutContent).pages
  {
  }

  /** Two handlers contribute `[{label: "A", url: "/a"}]` and
      `[{label: "", url: "/b"}]`: the second record is dropped and the first
      follows the About item with every default filled in. */
  lemma EmptyLabelIsDroppedExample(pageHookResults: seq<seq<Record>>, mainId: Uuid, footerId: Uuid, aboutContent: string)
    ensures var a: Record := map["label" := VStr("A"), "url" := VStr("/a")];
            var b: Record := map["label" := VStr(""), "url" := VStr("/b")];
            ModelInstallHook([[a], [b]], pageHookResults, mainId, footerId, aboutContent).mainItems
              == [AboutMenuItem(mainId), MenuItem(None, "A", "/a", 100, false, mainId)]
  {
    var a: Record := map["label" := VStr("A"), "url" := VStr("/a")];
    var b: Record := map["label" := VStr(""), "url" := VStr("/b")];
    assert [[a], [b]][1..] == [[b]];
    assert [[b]][1..] == [];
    assert Flatten([[b]]) == [b];
    assert Flatten([[a], [b]]) == [a, b];
    assert [a, b][1..] == [b];
    assert [b][1..] == [];
    assert ShapeMenuItem(b, mainId) == None;
    assert CompactMap([b], MenuItemShaper(mainId)) == [];
    assert ShapeMenuItems([[a], [b]], mainId) == [MenuItem(None, "A", "/a", 100, false, mainId)];
  }

  /** With no contribution at all the main menu is the About item alone and
      the pages are the About page alone. */
  lemma NoContributions(mainId: Uuid, footerId: Uuid, aboutContent: string)
    ensures var c := ModelInstallHook([], [], mainId, footerId, aboutContent);
            c.mainItems == [AboutMenuItem(mainId)] && c.pages == [AboutPage(aboutContent)]
  {
  }
}
