/** Role-based navigation of apps/web/src/config/navigation.ts: the sidebar tree, the permissions
    each role holds, and `filterNavigationByRole`, which drops the sections and pages whose required
    permissions the role lacks. The filter is written once over a list of held permissions, so
    that apps/web/src/config/dashboard-navigation.ts can apply it to its own table. */
module Navigation {
  import opened Wrappers
  import opened Seqs

  datatype UserRole = Admin | Manager | Editor | Viewer

  /** `NavigationItem`, with `label` as `text`; absent optional fields are `None`. */
  datatype NavItem = NavItem(id: string, text: string, icon: Option<string>, href: Option<string>,
                             children: Option<seq<NavItem>>, requiredPermissions: Option<seq<string>>)

  function Page(id: string, text: string, href: string, icon: string): NavItem {
    NavItem(id, text, Some(icon), Some(href), None, None)
  }

  function Guarded(id: string, text: string, href: string, icon: string, perms: seq<string>): NavItem {
    NavItem(id, text, Some(icon), Some(href), None, Some(perms))
  }

  function Section(id: string, text: string, icon: string, children: seq<NavItem>): NavItem {
    NavItem(id, text, Some(icon), None, Some(children), None)
  }

  function GuardedSection(id: string, text: string, icon: string, perms: seq<string>, children: seq<NavItem>): NavItem {
    NavItem(id, text, Some(icon), None, Some(children), Some(perms))
  }

  // ---------------------------------------------------------------- the filter

  /** An item passes when it names no required permissions, or when one of them is held
      (`requiredPermissions.some(hasPermission)`); an empty list of requirements never passes. */
  predicate Allowed(item: NavItem, held: seq<string>) {
    item.requiredPermissions.None? || exists p :: p in item.requiredPermissions.value && p in held
  }

  /** The item with its children, when it has any, filtered by `Allowed`; deeper levels are not
      filtered. */
  function Pruned(item: NavItem, held: seq<string>): NavItem {
    if item.children.None? then item
    else item.(children := Some(Filter(item.children.value, child => Allowed(child, held))))
  }

  /** The test the filter applies to each item. */
  function AllowedBy(held: seq<string>): NavItem -> bool {
    item => Allowed(item, held)
  }

  /** The pruning the filter applies to each item it keeps. */
  function PruneWith(held: seq<string>): NavItem -> NavItem {
    item => Pruned(item, held)
  }

  /** `filterNavigationByRole` for the permissions `held`: each item that passes, pruned, in order. */
  function FilterByPermissions(navigation: seq<NavItem>, held: seq<string>): seq<NavItem>
    decreases |navigation|
  {
    if navigation == [] then [] else
      (if Allowed(navigation[0], held) then [Pruned(navigation[0], held)] else [])
      + FilterByPermissions(navigation[1..], held)
  }

  /** The filter is the map-then-filter the source writes: the passing items, in their order, each
      pruned. */
  lemma {:induction false} FilterByPermissionsIsMapFilter(navigation: seq<NavItem>, held: seq<string>)
    ensures FilterByPermissions(navigation, held) ==
      Map(Filter(navigation, AllowedBy(held)), PruneWith(held))
    decreases |navigation|
  {
    if navigation != [] {
      FilterByPermissionsIsMapFilter(navigation[1..], held);
    }
  }

  /** An item is in the result, pruned, exactly when it is in the input and passes; nothing else is. */
  lemma {:induction false} FilterByPermissionsMembers(navigation: seq<NavItem>, held: seq<string>)
    ensures forall item :: item in navigation && Allowed(item, held) ==> Pruned(item, held) in FilterByPermissions(navigation, held)
    ensures forall r :: r in FilterByPermissions(navigation, held) ==>
      exists item :: item in navigation && Allowed(item, held) && r == Pruned(item, held)
  {
    var p := AllowedBy(held);
    var kept := Filter(navigation, p);
    var out := FilterByPermissions(navigation, held);
    FilterByPermissionsIsMapFilter(navigation, held);
    assert out == Map(kept, PruneWith(held));
    forall item | item in navigation && Allowed(item, held)
      ensures Pruned(item, held) in out
    {
      FilterMembership(navigation, p, item);
      var i :| 0 <= i < |kept| && kept[i] == item;
      assert out[i] == Pruned(item, held);
    }
    forall r | r in out
      ensures exists item :: item in navigation && Allowed(item, held) && r == Pruned(item, held)
    {
      var i :| 0 <= i < |out| && out[i] == r;
      FilterMembership(navigation, p, kept[i]);
      assert kept[i] in navigation && Allowed(kept[i], held) && r == Pruned(kept[i], held);
    }
  }

  /** Pruning changes only the children: a child stays exactly when it passes, children without
      requirements always stay, the kept children keep their order, and a section whose children are
      all dropped stays with an empty list. */
  lemma {:induction false} PrunedShape(item: NavItem, held: seq<string>)
    ensures var r := Pruned(item, held);
      && r.(children := item.children) == item
      && (r.children.None? <==> item.children.None?)
      && (item.children.Some? ==>
            && IsSubsequence(r.children.value, item.children.value)
            && forall child :: child in r.children.value <==> child in item.children.value && Allowed(child, held))
  {
    if item.children.Some? {
      var p := (child: NavItem) => Allowed(child, held);
      FilterIsSubsequence(item.children.value, p);
      forall child ensures child in Filter(item.children.value, p) <==> child in item.children.value && Allowed(child, held) {
        FilterMembership(item.children.value, p, child);
      }
    }
  }

  /** Holding more permissions never hides an item or a child. */
  lemma {:induction false} AllowedMonotone(item: NavItem, held: seq<string>, more: seq<string>)
    requires forall p :: p in held ==> p in more
    requires Allowed(item, held)
    ensures Allowed(item, more)
  {
  }

  /** With more permissions, every item shown is still shown, with at least the same children in the
      same order. */
  lemma {:induction false} PrunedMonotone(item: NavItem, held: seq<string>, more: seq<string>)
    requires forall p :: p in held ==> p in more
    ensures Pruned(item, held).children.Some? ==>
      IsSubsequence(Pruned(item, held).children.value, Pruned(item, more).children.value)
  {
    if item.children.Some? {
      var few := (child: NavItem) => Allowed(child, held);
      var many := (child: NavItem) => Allowed(child, more);
      forall child ensures few(child) == (many(child) && few(child)) {
        if few(child) { AllowedMonotone(child, held, more); }
      }
      FilterFilter(item.children.value, many, few, few);
      FilterIsSubsequence(Filter(item.children.value, many), few);
    }
  }

  /** When every item and every child passes, the filter returns the navigation unchanged. */
  lemma {:induction false} FilterKeepsAllowed(navigation: seq<NavItem>, held: seq<string>)
    requires forall i :: 0 <= i < |navigation| ==> Allowed(navigation[i], held)
    requires forall i :: 0 <= i < |navigation| && navigation[i].children.Some? ==>
      forall j :: 0 <= j < |navigation[i].children.value| ==> Allowed(navigation[i].children.value[j], held)
    ensures FilterByPermissions(navigation, held) == navigation
    decreases |navigation|
  {
    if navigation != [] {
      var item := navigation[0];
      if item.children.Some? {
        FilterAll(item.children.value, child => Allowed(child, held));
      }
      FilterKeepsAllowed(navigation[1..], held);
      assert navigation == [navigation[0]] + navigation[1..];
    }
  }

  // ---------------------------------------------------------------- the tables

  /** `rolePermissions` */
  function RolePermissions(role: UserRole): seq<string> {
    match role
    case Admin => [
      "campaigns.read", "campaigns.write", "campaigns.delete", "clients.read", "clients.write",
      "clients.delete", "analytics.read", "analytics.export", "billing.read", "billing.write",
      "users.read", "users.write", "users.delete", "permissions.manage", "api.manage",
      "content.read", "content.write", "content.delete", "notifications.read", "notifications.write"]
    case Manager => [
      "campaigns.read", "campaigns.write", "clients.read", "clients.write", "analytics.read",
      "analytics.export", "users.read", "content.read", "content.write", "notifications.read"]
    case Editor => [
      "campaigns.read", "campaigns.write", "clients.read", "clients.write", "content.read",
      "content.write", "analytics.read", "notifications.read"]
    case Viewer => [
      "campaigns.read", "clients.read", "analytics.read", "content.read", "notifications.read"]
  }

  /** `hasPermission`; every role has a list, so the `?? false` fallback is never taken. */
  predicate HasPermission(role: UserRole, permission: string) {
    permission in RolePermissions(role)
  }

  /** Viewer, Editor, Manager, Admin, from fewest permissions to most. */
  function Rank(role: UserRole): nat {
    match role
    case Viewer => 0
    case Editor => 1
    case Manager => 2
    case Admin => 3
  }

  lemma {:induction false} NextRankNested(p: string)
    ensures HasPermission(Viewer, p) ==> HasPermission(Editor, p)
    ensures HasPermission(Editor, p) ==> HasPermission(Manager, p)
    ensures HasPermission(Manager, p) ==> HasPermission(Admin, p)
  {
  }

  /** The role lists are nested: a higher role holds every permission of a lower one. */
  lemma {:induction false} RolesNested(lower: UserRole, higher: UserRole, p: string)
    requires Rank(lower) <= Rank(higher)
    requires HasPermission(lower, p)
    ensures HasPermission(higher, p)
  {
    NextRankNested(p);
  }

  /** `filterNavigationByRole` */
  function FilterNavigationByRole(navigation: seq<NavItem>, role: UserRole): seq<NavItem> {
    FilterByPermissions(navigation, RolePermissions(role))
  }

  /** A higher role sees every item and child a lower role sees: each item kept for the lower role
      is kept for the higher one, with at least its children, in the same order. */
  lemma {:induction false} FilterMonotoneInRole(navigation: seq<NavItem>, lower: UserRole, higher: UserRole, item: NavItem)
    requires Rank(lower) <= Rank(higher)
    requires item in navigation && Allowed(item, RolePermissions(lower))
    ensures Pruned(item, RolePermissions(lower)) in FilterNavigationByRole(navigation, lower)
    ensures Pruned(item, RolePermissions(higher)) in FilterNavigationByRole(navigation, higher)
    ensures Pruned(item, RolePermissions(lower)).children.Some? ==>
      IsSubsequence(Pruned(item, RolePermissions(lower)).children.value, Pruned(item, RolePermissions(higher)).children.value)
  {
    var held, more := RolePermissions(lower), RolePermissions(higher);
    forall p | p in held ensures p in more {
      RolesNested(lower, higher, p);
    }
    AllowedMonotone(item, held, more);
    FilterByPermissionsMembers(navigation, held);
    FilterByPermissionsMembers(navigation, more);
    PrunedMonotone(item, held, more);
  }

  const DashboardSection: NavItem := Section("dashboard", "Accueil", "LayoutDashboard", [
    Page("overview", "Overview", "/dashboard", "Home"),
    Page("realtime", "Temps réel", "/dashboard/realtime", "Clock"),
    Page("notifications", "Notifications", "/dashboard/notifications", "BellRing")])

  const CampaignsSection: NavItem := Section("campaigns", "Campagnes", "Megaphone", [
    Page("all-campaigns", "Toutes les campagnes", "/campaigns", "Megaphone"),
    Page("create-campaign", "Créer une campagne", "/campaigns/create", "Plus"),
    Page("templates", "Templates", "/campaigns/templates", "FileTemplate"),
    Page("ab-tests", "A/B Tests", "/campaigns/ab-tests", "FlaskConical"),
    Page("drafts", "Brouillons", "/campaigns/drafts", "Edit")])

  const ClientsSection: NavItem := Section("clients", "Clients", "Users", [
    Page("directory", "Annuaire", "/clients", "Users"),
    Page("segments", "Segments", "/clients/segments", "UserCog"),
    Page("import-export", "Import / Export CSV", "/clients/import-export", "Upload"),
    Page("loyalty", "Programme de fidélité", "/clients/loyalty", "Gift")])

  const ContentSection: NavItem := Section("content", "Contenu", "FileText", [
    Page("publications", "Publications", "/content/publications", "FileText"),
    Page("ads", "Publicités", "/content/ads", "Zap"),
    Page("assets", "Bibliothèque d'assets", "/content/assets", "Image"),
    Page("scheduler", "Planificateur", "/content/scheduler", "Calendar")])

  const AnalyticsSection: NavItem := Section("analytics", "Analytics", "BarChart3", [
    Page("overview-analytics", "Vue générale", "/analytics", "BarChart3"),
    Page("funnels", "Funnels", "/analytics/funnels", "TrendingUp"),
    Page("cohorts", "Cohortes", "/analytics/cohorts", "GitBranch"),
    Page("ltv", "LTV", "/analytics/ltv", "DollarSign"),
    Page("custom-reports", "Rapports personnalisés", "/analytics/reports", "FileBarChart"),
    Page("exports", "Exports", "/analytics/exports", "Download")])

  const NotificationsAlertsSection: NavItem := Section("notifications-alerts", "Notifications & Alertes", "Bell", [
    Page("realtime-feed", "Flux en temps réel", "/notifications/feed", "Bell"),
    Page("alert-settings", "Paramètres alertes", "/notifications/settings", "Settings")])

  const BillingSection: NavItem := GuardedSection("billing", "Billing", "CreditCard", ["billing.read"], [
    Page("subscription", "Abonnement", "/billing/subscription", "CreditCard"),
    Page("invoices", "Factures", "/billing/invoices", "FileText"),
    Page("usage", "Utilisation", "/billing/usage", "BarChart3")])

  const SettingsSection: NavItem := Section("settings", "Paramètres", "Settings", [
    Guarded("team", "Équipe & rôles", "/settings/team", "Users2", ["users.read"]),
    Guarded("permissions", "Permissions", "/settings/permissions", "Shield", ["permissions.manage"]),
    Page("integrations", "Intégrations", "/settings/integrations", "Link"),
    Guarded("webhooks", "Webhooks & API keys", "/settings/webhooks", "Webhook", ["api.manage"])])

  const HelpSection: NavItem := Section("help", "Aide", "HelpCircle", [
    Page("documentation", "Documentation", "/help/docs", "Book"),
    Page("tutorials", "Tutoriels", "/help/tutorials", "Video"),
    Page("support", "Contacter le support", "/help/support", "MessageSquare")])

  /** `navigationItems`: the sections in sidebar order. */
  const NavigationItems: seq<NavItem> := [
    DashboardSection, CampaignsSection, ClientsSection, ContentSection, AnalyticsSection,
    NotificationsAlertsSection, BillingSection, SettingsSection, HelpSection]

  function Ids(items: seq<NavItem>): seq<string> {
    Map(items, (item: NavItem) => item.id)
  }

  /** An Admin sees the whole navigation. */
  lemma {:induction false} AdminSeesEverything()
    ensures FilterNavigationByRole(NavigationItems, Admin) == NavigationItems
  {
    var held := RolePermissions(Admin);
    assert "billing.read" in held && "users.read" in held && "permissions.manage" in held && "api.manage" in held;
    FilterKeepsAllowed(NavigationItems, held);
  }

  /** When every item passes, each is kept, pruned. */
  lemma {:induction false} FilterAllAllowed(navigation: seq<NavItem>, held: seq<string>)
    requires forall i :: 0 <= i < |navigation| ==> Allowed(navigation[i], held)
    ensures FilterByPermissions(navigation, held) == Map(navigation, PruneWith(held))
    decreases |navigation|
  {
    if navigation != [] {
      FilterAllAllowed(navigation[1..], held);
    }
  }

  /** When only the item at `k` fails, the result is every other item, pruned, in order. */
  lemma {:induction false} FilterDropsOnly(navigation: seq<NavItem>, held: seq<string>, k: nat)
    requires k < |navigation| && !Allowed(navigation[k], held)
    requires forall i :: 0 <= i < |navigation| && i != k ==> Allowed(navigation[i], held)
    ensures FilterByPermissions(navigation, held) == Map(navigation[..k] + navigation[k + 1..], PruneWith(held))
    decreases |navigation|
  {
    if k == 0 {
      FilterAllAllowed(navigation[1..], held);
    } else {
      var tail := navigation[1..];
      FilterDropsOnly(tail, held, k - 1);
      var kept := navigation[..k] + navigation[k + 1..];
      assert kept == [navigation[0]] + (tail[..k - 1] + tail[k..]);
    }
  }

  lemma {:induction false} IdsPruned(items: seq<NavItem>, held: seq<string>)
    ensures Ids(Map(items, PruneWith(held))) == Ids(items)
  {
  }

  /** The ids and the guards of the nine sections. */
  lemma {:induction false} SectionGuards()
    ensures |NavigationItems| == 9
    ensures Ids(NavigationItems) == ["dashboard", "campaigns", "clients", "content", "analytics",
                                     "notifications-alerts", "billing", "settings", "help"]
    ensures forall i :: 0 <= i < 9 && i != 6 ==> NavigationItems[i].requiredPermissions.None?
    ensures NavigationItems[6].requiredPermissions == Some(["billing.read"])
    ensures NavigationItems[7] == SettingsSection
  {
  }

  /** For a navigation shaped like the sidebar, where only the seventh section is guarded, by one
      permission that is not held: every other section is kept, in order. */
  lemma {:induction false} SeventhDropped(n: seq<NavItem>, held: seq<string>, guard: string)
    requires |n| == 9 && guard !in held
    requires forall i :: 0 <= i < 9 && i != 6 ==> n[i].requiredPermissions.None?
    requires n[6].requiredPermissions == Some([guard])
    ensures Ids(FilterByPermissions(n, held)) == Ids(n[..6] + n[7..])
    ensures FilterByPermissions(n, held)[6] == Pruned(n[7], held)
  {
    FilterDropsOnly(n, held, 6);
    IdsPruned(n[..6] + n[7..], held);
  }

  /** A Viewer loses the billing section, the seventh, and keeps the other eight, in order. */
  lemma {:induction false} ViewerSections()
    ensures NavigationItems[6].id == "billing"
    ensures Ids(FilterNavigationByRole(NavigationItems, Viewer)) == Ids(NavigationItems[..6] + NavigationItems[7..])
    ensures FilterNavigationByRole(NavigationItems, Viewer)[6] == Pruned(SettingsSection, RolePermissions(Viewer))
  {
    SectionGuards();
    ViewerLacks();
    SeventhDropped(NavigationItems, RolePermissions(Viewer), "billing.read");
  }

  /** Under the settings, a Viewer keeps only the integrations page: the team, permissions and
      webhooks pages each need a permission the Viewer lacks. */
  lemma {:induction false} ViewerSettings()
    ensures Ids(Pruned(SettingsSection, RolePermissions(Viewer)).children.value) == ["integrations"]
  {
    ViewerLacks();
  }

  lemma {:induction false} ViewerLacks()
    ensures !HasPermission(Viewer, "billing.read") && !HasPermission(Viewer, "users.read")
    ensures !HasPermission(Viewer, "permissions.manage") && !HasPermission(Viewer, "api.manage")
  {
  }
}
