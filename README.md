# Frontend module install hooks, modelled in Dafny

This project models what the frontend module of the Feather CMS builds when it is installed.

`modelInstallHook` collects the menu items and pages that other modules contribute through the `frontend-main-menu-install` and `frontend-page-install` hooks. Each hook result is a list of untyped `[String: Any]` records per handler. The hook flattens them and shapes them into `FrontendMenuItemModel` and `FrontendPageModel` values:

- A record that lacks a required non-empty string field is dropped without notice.
- A surviving record gets defaults for its optional fields.
- The main menu always starts with a fixed About item.
- The page list always ends with a fixed About page.
- Beside these come the two menus, the footer's two fixed items and the home page.

The module also declares two static lists: its system variables and its user permissions.

Modules:

- `Values` (`values.dfy`): `Any` becomes a tagged union (`VStr`, `VInt`, `VBool`, `VOther`), and a record becomes a `map<string, Value>`. Each `as?` cast becomes a partial accessor. Swift's `Int` is the 64-bit `Int64` newtype.
- `Sequences` (`sequences.dfy`): `flatMap { $0 }` (`Flatten`) and `compactMap` (`CompactMap`). `KeptIndices` is a reference definition of which positions `compactMap` keeps.
- `Shaping` (`shaping.dfy`): the two shaping closures, the shaped lists, and the records that shaping reads back.
- `Install` (`install.dfy`): `ModelInstallHook`, the content that the hook hands to the store. The `insert(_, at: 0)` and `append` on the local arrays are modelled as sequence operations.
- `Catalog` (`catalog.dfy`): `systemVariablesInstallHook` and `userPermissionInstallHook`.

The hook's inputs are parameters of `ModelInstallHook`:

- the dispatcher's results, as `seq<seq<Record>>`;
- the two generated menu ids;
- the About page's content.

## Model

| member | source | states |
|---|---|---|
| `Sequences.FlattenAppend` | Sources/FrontendModule/FrontendModule+Install.swift:19 | flattening the hook results keeps handler order: flattening a concatenation of handler lists is the concatenation of the flattened parts |
| `Sequences.Flatten` | Sources/FrontendModule/FrontendModule+Install.swift:19 | `flatMap { $0 }` keeps every contributed record: the result length is the sum of the handlers' list lengths (the order is stated by `FlattenAppend`) |
| `Sequences.CompactMap` | Sources/FrontendModule/FrontendModule+Install.swift:19-31 | `compactMap` never yields more elements than it is given |
| `Sequences.CompactMapAppend` | Sources/FrontendModule/FrontendModule+Install.swift:19-31 | `compactMap` of a concatenation is the concatenation of the two `compactMap`s, so each part is filtered independently |
| `Sequences.CompactMapKeepsExactly` | Sources/FrontendModule/FrontendModule+Install.swift:19-31 | `compactMap` keeps exactly the positions where the closure gives a value, in increasing order; result element j is that value at the j-th kept position |
| `Sequences.CompactMapElement` | Sources/FrontendModule/FrontendModule+Install.swift:19-31 | every element of a `compactMap` result is the closure's value for some input element |
| `Sequences.CompactMapAll` | Sources/FrontendModule/FrontendModule+Install.swift:19-31 | a property that every value of the closure has holds of every element that `compactMap` returns |
| `Values.StringField` | Sources/FrontendModule/FrontendModule+Install.swift:21-26 | `as? String` gives `s` exactly when the field is present and holds the string `s`; any other kind, or absence, gives nothing |
| `Values.BoolField` | Sources/FrontendModule/FrontendModule+Install.swift:27 | `as? Bool` gives `b` exactly when the field is present and holds the Bool `b` |
| `Values.IntField` | Sources/FrontendModule/FrontendModule+Install.swift:28 | `as? Int` gives `n` exactly when the field is present and holds the Int `n` |
| `Shaping.ShapeMenuItem` | Sources/FrontendModule/FrontendModule+Install.swift:19-30 | a record is kept iff `label` and `url` are both present, both strings and both non-empty (a wrong type counts as missing); `icon` is kept only when it is a string; `targetBlank` is true only when the record holds Bool true; a missing or non-Int `priority` becomes 100; the item gets the given menu id |
| `Shaping.ShapePage` | Sources/FrontendModule/FrontendModule+Install.swift:47-55 | a record is kept iff `title` and `content` are non-empty strings, and the page carries exactly those two strings |
| `Shaping.MenuItemRoundTrip` | Sources/FrontendModule/FrontendModule+Install.swift:21-30 | writing any menu item with a non-empty label and url as a record and shaping it back gives the same item |
| `Shaping.PageRoundTrip` | Sources/FrontendModule/FrontendModule+Install.swift:49-54 | writing any page with a non-empty title and content as a record and shaping it back gives the same page |
| `Shaping.MenuItemIgnoresOtherFields` | Sources/FrontendModule/FrontendModule+Install.swift:20-28 | two records that agree on `label`, `url`, `icon`, `targetBlank` and `priority` shape identically, so extra fields never cause a failure |
| `Shaping.PageIgnoresOtherFields` | Sources/FrontendModule/FrontendModule+Install.swift:48-51 | two records that agree on `title` and `content` shape identically |
| `Shaping.ShapedMenuItemsAreAcceptedInOrder` | Sources/FrontendModule/FrontendModule+Install.swift:18-31 | the shaped main-menu contributions are a subsequence of the flattened hook results: the accepted records, each one shaped, with nothing reordered and no accepted record dropped |
| `Shaping.ShapedPagesAreAcceptedInOrder` | Sources/FrontendModule/FrontendModule+Install.swift:46-55 | the shaped pages are the accepted page records of the flattened hook results, in order, and no accepted record is dropped |
| `Shaping.ShapeMenuItems` | Sources/FrontendModule/FrontendModule+Install.swift:18-31 | the contributed items are at most as many as the contributed records, and every one has `menuId == mainId` and a non-empty label and url (their exact content and order: `ShapedMenuItemsAreAcceptedInOrder`) |
| `Shaping.ShapePages` | Sources/FrontendModule/FrontendModule+Install.swift:46-55 | the contributed pages are at most as many as the contributed records, and every one has a non-empty title and content (exact content and order: `ShapedPagesAreAcceptedInOrder`) |
| `Shaping.MenuItemsShapedPerHandler` | Sources/FrontendModule/FrontendModule+Install.swift:18-31 | one handler's records are shaped on their own: a malformed contribution from one module never changes what the others contribute |
| `Shaping.PagesShapedPerHandler` | Sources/FrontendModule/FrontendModule+Install.swift:46-55 | the same per-handler independence for pages |
| `Install.ModelInstallHook` | Sources/FrontendModule/FrontendModule+Install.swift:12-62 | the menus are `main` and `footer` with their ids; the main items are About ("/about/", priority 0, main id) followed by the shaped contributions, so the length is kept + 1 and every item has the main id; the footer items are exactly Sitemap "/sitemap.xml" 1000 and RSS "/rss.xml" 900, both `targetBlank` with the footer id; the pages are the shaped pages followed by the About page (length kept + 1); the home page is "Home" with content "[frontend-home-page]" |
| `Install.AboutMenuItem` | Sources/FrontendModule/FrontendModule+Install.swift:34 | the synthetic About item is a well-formed item of the main menu (shaping its record gives it back) with priority 0, below the default 100 |
| `Install.FooterItems` | Sources/FrontendModule/FrontendModule+Install.swift:40-43 | the footer holds two well-formed items of the footer menu, both opening in a new tab, the sitemap ranked above the feed |
| `Install.HomePage` | Sources/FrontendModule/FrontendModule+Install.swift:58 | the home page is a well-formed page: shaping its record gives it back |
| `Install.MenuItemsReferenceBatchMenus` | Sources/FrontendModule/FrontendModule+Install.swift:34-76 | for any ids, every item of `main + footer` refers to one of the two menus created in the same batch, About heads the list and the footer's two items close it |
| `Install.FooterItemsStayInFooter` | Sources/FrontendModule/FrontendModule+Install.swift:37-76 | when the two generated ids differ, exactly the last two items of `main + footer` belong to the footer menu |
| `Install.ContentsAreIndependent` | Sources/FrontendModule/FrontendModule+Install.swift:18-62 | the main-menu items do not depend on the page hook results or the footer id; the pages depend on neither the menu hook results nor either menu id |
| `Install.EmptyLabelIsDroppedExample` | Sources/FrontendModule/FrontendModule+Install.swift:18-35 | handlers contributing `[{label:"A",url:"/a"}]` and `[{label:"",url:"/b"}]` give exactly About followed by A with default icon, `targetBlank` and priority |
| `Install.NoContributions` | Sources/FrontendModule/FrontendModule+Install.swift:33-62 | with no contributions the main menu is About alone and the pages are the About page alone |
| `Catalog.VariableRecordFields` | Sources/FrontendModule/FrontendModule+Install.swift:98-203 | each system-variable dictionary is a catalog entry (string `key`, `name`, `note`, optional string `value`, nothing else) and carries `value` exactly when the entry has a default |
| `Catalog.SystemVariablesInstallHook` | Sources/FrontendModule/FrontendModule+Install.swift:97-204 | the list has 18 entries, each a well-formed catalog entry that is exactly the record of the corresponding entry (key, name, note and optional value) |
| `Catalog.SystemVariableKeysNamespaced` | Sources/FrontendModule/FrontendModule+Install.swift:97-204 | every key starts with `frontend.` |
| `Catalog.SystemVariableKeysDistinct` | Sources/FrontendModule/FrontendModule+Install.swift:97-204 | no two entries share a key |
| `Catalog.SystemVariableDefaults` | Sources/FrontendModule/FrontendModule+Install.swift:99-203 | of the returned records, exactly six carry no `value` (site noindex, logo, filters, CSS, JS, bottom footer), and the `frontend.site.title` record carries `value` "Feather" |
| `Catalog.SettingsUpdatePermission` | Sources/FrontendModule/FrontendModule+Install.swift:87-93 | the settings permission has exactly the fields module, context, action and name, all strings, for context "settings" and action "update" |
| `Catalog.UserPermissionInstallHook` | Sources/FrontendModule/FrontendModule+Install.swift:81-95 | the result is the module, metadata, menu, menu-item and page permission lists, in that order and each at its offset, followed by exactly the settings-update entry (module = the module's name, context "settings", action "update", name "Frontend settings update", no other field) |
| `Catalog.SettingsUpdateGrantedOnce` | Sources/FrontendModule/FrontendModule+Install.swift:87-94 | when no given list already holds the settings-update permission, the result holds it exactly once, as its last entry |

## Left out

- Persistence, which is asynchronous database I/O: `create`, `publishMetadata`, `publishMetadataAsHome` and `eventLoop.flatten` (FrontendModule+Install.swift:65-78). The three write groups and their create-before-update ordering are not modelled. `InstallContent` holds the values that each group passes to the store.
- `args["req"] as! Request` and `req.invokeAll`, which belong to the hook registry and dispatcher. That code is not part of this model. The dispatcher's results are an input `seq<seq<Record>>`, one list per handler.
- `UUID()`: the two menu ids are parameters. Only `Install.FooterItemsStayInFooter` assumes that they differ.
- `FrontendModule.sample(asset: "About.html")`, which reads a file. The About page's content is an opaque string parameter.
- `FrontendModule.name` and the five `.permissions` lists are defined in files that are not part of this model. They are parameters of `UserPermissionInstallHook`.
- The initialisers of `FrontendMenuItemModel`, `FrontendMenuModel` and `FrontendPageModel` are not part of this model. The About and footer items take no `icon`, and the model assumes it defaults to nil. The About item takes no `targetBlank`, and the model assumes it defaults to false. The ids and metadata that the store assigns to pages and items are not modelled.
- `frontend.home.page.icon`, `frontend.home.page.link.label`, `frontend.page.not.found.icon` and `frontend.page.not.found.link`: the model writes their icon and arrow characters as `?`, so these four values are not the program's exact strings.
- `Values.IntField` models Swift's `as? Int` without Foundation's `NSNumber` bridging, under which a Bool could also cast to Int. Hook results here are Swift literals, so no bridging applies.
- Detecting a system-variable key that two different modules both declare happens outside this module. Only uniqueness within this module's list is proved.
- Sources/Feather/main.swift only starts the application: it configures the environment, logging, drivers and the module list. It holds no logic to model.
