/** The two static lists the frontend module hands to other modules' install
    hooks: its system variables (configuration entries with an optional
    default value and a help note) and its user permissions. */
module Catalog {
  import opened Values

  /** One entry of the system-variable list. */
  datatype SystemVariable = SystemVariable(key: string, name: string, value: Option<string>, note: string)

  /** The dictionary literal of an entry: `key`, `name` and `note` always,
      `value` only when the entry has a default. */
  function VariableRecord(v: SystemVariable): Record
  {
    var entry := map["key" := VStr(v.key), "name" := VStr(v.name), "note" := VStr(v.note)];
    match v.value
    case Some(d) => entry["value" := VStr(d)]
    case None => entry
  }

  /** A catalog entry as the system module reads it: string `key`, `name` and
      `note`, an optional string `value`, and no other field. */
  ghost predicate IsCatalogEntry(e: Record)
  {
    && "key" in e && e["key"].VStr?
    && "name" in e && e["name"].VStr?
    && "note" in e && e["note"].VStr?
    && ("value" in e ==> e["value"].VStr?)
    && e.Keys <= {"key", "name", "value", "note"}
  }

  /** The record of an entry is a catalog entry that carries exactly the
      entry's fields, and a `value` exactly when the entry has a default. */
  lemma VariableRecordFields(v: SystemVariable)
    ensures var e := VariableRecord(v);
            && IsCatalogEntry(e)
            && e["key"] == VStr(v.key) && e["name"] == VStr(v.name) && e["note"] == VStr(v.note)
            && ("value" in e <==> v.value.Some?)
            && (v.value.Some? ==> e["value"] == VStr(v.value.value))
  {
  }

  const FooterTop :=
    "    <img class=\"size\" src=\"/images/icons/icon.png\" alt=\"Logo of Feather\" title=\"Feather\">\n"
    + "    <p>This site is powered by <a href=\"https://feathercms.com/\" target=\"_blank\">Feather CMS</a> &copy; 2020 - {year}</p>"

  /** The entries of `systemVariablesInstallHook`, in order. */
  const SystemVariables: seq<SystemVariable> := [
    SystemVariable("frontend.site.noindex", "Site noindex", None, "Disable site indexing by search engines"),
    SystemVariable("frontend.site.logo", "Site logo", None, "Logo of the website"),
    SystemVariable("frontend.site.title", "Site title", Some("Feather"), "Title of the website"),
    SystemVariable("frontend.site.excerpt", "Site excerpt",
                   Some("Feather is an open-source CMS written in Swift using Vapor 4."), "Excerpt for the website"),
    SystemVariable("frontend.site.filters", "Default content filters", None,
                   "Coma separated list of default content filters"),
    SystemVariable("frontend.site.css", "Site CSS", None, "Global CSS injection for the site"),
    SystemVariable("frontend.site.js", "Site JS", None, "Global JavaScript injection for the site"),
    SystemVariable("frontend.site.footer.top", "Site footer", Some(FooterTop),
                   "Top footer content placed above the footer menu"),
    SystemVariable("frontend.site.footer.bottom", "Site footer bottom", None,
                   "Bottom footer content placed under the footer menu"),
    SystemVariable("frontend.home.page.title", "Home page title", Some("Welcome"), "Title of the home page"),
    SystemVariable("frontend.home.page.excerpt", "Home page excerpt",
                   Some("This is your brand new Feather CMS powered website"), "Excerpt for the home page"),
    SystemVariable("frontend.home.page.icon", "Home page icon", Some("????"), "Icon of the home page"),
    SystemVariable("frontend.home.page.link.label", "Home page link label", Some("Start customizing ???"),
                   "Link label of the home page"),
    SystemVariable("frontend.home.page.link.url", "Home page link url", Some("/admin/"), "Link URL of the home page"),
    SystemVariable("frontend.page.not.found.icon", "Page not found icon", Some("????"), "Icon for the not found page"),
    SystemVariable("frontend.page.not.found.title", "Page not found title", Some("Page not found"),
                   "Title of the not found page"),
    SystemVariable("frontend.page.not.found.excerpt", "Page not found excerpt",
                   Some("Unfortunately the requested page is not available."), "Excerpt for the not found page"),
    SystemVariable("frontend.page.not.found.link", "Page not found link", Some("Go to the home page ???"),
                   "Retry link text for the not found page")
  ]

  /** `systemVariablesInstallHook`: the entries as records, in order, every
      one of them a well-formed catalog entry. */
  function SystemVariablesInstallHook(): (r: seq<Record>)
    ensures |r| == 18
    ensures forall i :: 0 <= i < |r| ==> IsCatalogEntry(r[i]) && r[i] == VariableRecord(SystemVariables[i])
  {
    var vs := SystemVariables;
    var r := seq(|vs|, i requires 0 <= i < |vs| => VariableRecord(vs[i]));
    assert forall i :: 0 <= i < |r| ==> r[i] == VariableRecord(vs[i]);
    forall i | 0 <= i < |r|
      ensures IsCatalogEntry(r[i])
    {
      VariableRecordFields(vs[i]);
    }
    r
  }

  /** The namespace every key of this module lives in. */
  const KeyPrefix := "frontend."

  /** Every key is namespaced by the module: it starts with `frontend.`. */
  lemma SystemVariableKeysNamespaced()
    ensures forall i :: 0 <= i < |SystemVariables| ==> KeyPrefix <= SystemVariables[i].key
  {
  }

  /** No two entries share a key. */
  lemma SystemVariableKeysDistinct()
    ensures forall i, j :: 0 <= i < j < |SystemVariables| ==> SystemVariables[i].key != SystemVariables[j].key
  {
  }

  /** The returned records that carry a default `value`: all but the site
      noindex, logo, filters, CSS, JS and bottom-footer entries; the site
      title defaults to "Feather". */
  lemma SystemVariableDefaults()
    ensures var r := SystemVariablesInstallHook();
            forall i :: 0 <= i < |r| ==> ("value" !in r[i] <==> i in {0, 1, 4, 5, 6, 8})
    ensures var r := SystemVariablesInstallHook();
            && r[2]["key"] == VStr("frontend.site.title")
            && "value" in r[2] && r[2]["value"] == VStr("Feather")
  {
  }

  /** The permission that lets a user change the module's settings, the one
      entry the module adds by hand after its models' permissions. */
  function SettingsUpdatePermission(moduleName: string): (r: Record)
    ensures r.Keys == {"module", "context", "action", "name"}
    ensures forall k :: k in r ==> r[k].VStr?
    ensures r["module"] == VStr(moduleName) && r["context"] == VStr("settings") && r["action"] == VStr("update")
  {
    map["module" := VStr(moduleName), "context" := VStr("settings"), "action" := VStr("update"),
        "name" := VStr("Frontend settings update")]
  }

  /** `userPermissionInstallHook`: the permissions of the module and of its
      metadata, menu, menu-item and page models, in that order, then the
      settings-update permission. The five lists and the module's name are
      defined outside this file and are inputs here. */
  function UserPermissionInstallHook(
    moduleName: string,
    modulePermissions: seq<Record>,
    metadataPermissions: seq<Record>,
    menuPermissions: seq<Record>,
    menuItemPermissions: seq<Record>,
    pagePermissions: seq<Record>): (r: seq<Record>)
    ensures var a := |modulePermissions|;
            var b := a + |metadataPermissions|;
            var c := b + |menuPermissions|;
            var d := c + |menuItemPermissions|;
            var e := d + |pagePermissions|;
            && |r| == e + 1
            && r[..a] == modulePermissions
            && r[a..b] == metadataPermissions
            && r[b..c] == menuPermissions
            && r[c..d] == menuItemPermissions
            && r[d..e] == pagePermissions
    ensures r[|r| - 1] == SettingsUpdatePermission(moduleName)
  {
    modulePermissions + metadataPermissions + menuPermissions + menuItemPermissions + pagePermissions
      + [SettingsUpdatePermission(moduleName)]
  }

  /** When none of the given lists already grants the settings update, the
      result grants it exactly once, as its last entry. */
  lemma SettingsUpdateGrantedOnce(
    moduleName: string,
    modulePermissions: seq<Record>,
    metadataPermissions: seq<Record>,
    menuPermissions: seq<Record>,
    menuItemPermissions: seq<Record>,
    pagePermissions: seq<Record>)
    requires var s := SettingsUpdatePermission(moduleName);
             s !in modulePermissions && s !in metadataPermissions && s !in menuPermissions
             && s !in menuItemPermissions && s !in pagePermissions
    ensures var r := UserPermissionInstallHook(moduleName, modulePermissions, metadataPermissions,
                                               menuPermissions, menuItemPermissions, pagePermissions);
            forall i :: 0 <= i < |r| ==> (r[i] == SettingsUpdatePermission(moduleName) <==> i == |r| - 1)
  {
  }
}
