/** The navigation of apps/web/src/config/dashboard-navigation.ts: the same sidebar with every link
    under `/dashboard`, its own copy of the role permissions, and the same role filter, applied
    with that copy. */
module DashboardNavigation {
  import opened Wrappers
  import N = Navigation

  type NavItem = N.NavItem
  type UserRole = N.UserRole

  /** `rolePermissions` */
  function RolePermissions(role: UserRole): seq<string> {
    match role
    case Admin => [
      "campaigns.read", "campaigns.write", "campaigns.delete", "clients.read", "clients.write",
      "clients.delete", "analytics.read", "analytics.export", "billing.read", "billing.write",
      "users.read", "users.write", "users.delete", "permissions.manage", "api.manage",
      "content.read", "content.write", "content.delete", "notifications.read", "notifications.write"]
    case Manager => [
      "campaigns.read", "campaigns.write", "clients.read", "clients.write", "analytics.read",
      "analytics.export", "users.read", "content.read", "content.write", "notifications.read"]
    case Editor => [
      "campaigns.read", "campaigns.write", "clients.read", "clients.write", "content.read",
      "content.write", "analytics.read", "notifications.read"]
    case Viewer => [
      "campaigns.read", "clients.read", "analytics.read", "content.read", "notifications.read"]
  }

  /** `hasPermission` */
  predicate HasPermission(role: UserRole, permission: string) {
    permission in RolePermissions(role)
  }

  /** This table grants every role the same permissions as the one of the main navigation, so it is
      nested in the same way: a higher role holds every permission of a lower one. */
  lemma {:induction false} TablesAgree(lower: UserRole, higher: UserRole, p: string)
    requires N.Rank(lower) <= N.Rank(higher)
    requires HasPermission(lower, p)
    ensures RolePermissions(lower) == N.RolePermissions(lower)
    ensures HasPermission(higher, p)
  {
    N.RolesNested(lower, higher, p);
  }

  /** `filterNavigationByRole` */
  function FilterNavigationByRole(navigation: seq<NavItem>, role: UserRole): seq<NavItem> {
    N.FilterByPermissions(navigation, RolePermissions(role))
  }

  const DashboardSection: NavItem := N.Section("dashboard", "Accueil", "LayoutDashboard", [
    N.Page("overview", "Overview", "/dashboard", "Home"),
    N.Page("realtime", "Temps réel", "/dashboard/realtime", "Clock"),
    N.Page("notifications", "Notifications", "/dashboard/notifications", "BellRing")])

  const CampaignsSection: NavItem := N.Section("campaigns", "Campagnes", "Megaphone", [
    N.Page("all-campaigns", "Toutes les campagnes", "/dashboard/campaigns", "Megaphone"),
    N.Page("create-campaign", "Créer une campagne", "/dashboard/campaigns/create", "Plus"),
    N.Page("templates", "Templates", "/dashboard/campaigns/templates", "FileTemplate"),
    N.Page("ab-tests", "A/B Tests", "/dashboard/campaigns/ab-tests", "FlaskConical"),
    N.Page("drafts", "Brouillons", "/dashboard/campaigns/drafts", "Edit")])

  const ClientsSection: NavItem := N.Section("clients", "Clients", "Users", [
    N.Page("directory", "Annuaire", "/clients", "Users"),
    N.Page("segments", "Segments", "/dashboard/clients/segments", "UserCog"),
    N.Page("import-export", "Import / Export CSV", "/dashboard/clients/import-export", "Upload"),
    N.Page("loyalty", "Programme de fidélité", "/clients/loyalty", "Gift")])

  const ContentSection: NavItem := N.Section("content", "Contenu", "FileText", [
    N.Page("publications", "Publications", "/dashboard/content/publications", "FileText"),
    N.Page("ads", "Publicités", "/dashboard/content/ads", "Zap"),
    N.Page("assets", "Bibliothèque d'assets", "/dashboard/content/assets", "Image"),
    N.Page("scheduler", "Planificateur", "/dashboard/content/scheduler", "Calendar")])

  const AnalyticsSection: NavItem := N.Section("analytics", "Analytics", "BarChart3", [
    N.Page("overview-analytics", "Vue générale", "/dashboard/analytics", "BarChart3"),
    N.Page("funnels", "Funnels", "/dashboard/analytics/funnels", "TrendingUp"),
    N.Page("cohorts", "Cohortes", "/dashboard/analytics/cohorts", "GitBranch"),
    N.Page("ltv", "LTV", "/dashboard/analytics/ltv", "DollarSign"),
    N.Page("custom-reports", "Rapports personnalisés", "/dashboard/analytics/reports", "FileBarChart"),
    N.Page("exports", "Exports", "/dashboard/analytics/exports", "Download")])

  const NotificationsAlertsSection: NavItem := N.Section("notifications-alerts", "Notifications & Alertes", "Bell", [
    N.Page("realtime-feed", "Flux en temps réel", "/dashboard/notifications/feed", "Bell"),
    N.Page("alert-settings", "Paramètres alertes", "/dashboard/notifications/settings", "Settings")])

  const BillingSection: NavItem := N.GuardedSection("billing", "Billing", "CreditCard", ["billing.read"], [
    N.Page("subscription", "Abonnement", "/dashboard/billing/subscription", "CreditCard"),
    N.Page("invoices", "Factures", "/dashboard/billing/invoices", "FileText"),
    N.Page("usage", "Utilisation", "/dashboard/billing/usage", "BarChart3")])

  const SettingsSection: NavItem := N.Section("settings", "Paramètres", "Settings", [
    N.Guarded("team", "Équipe & rôles", "/dashboard/settings/team", "Users2", ["users.read"]),
    N.Guarded("permissions", "Permissions", "/dashboard/settings/permissions", "Shield", ["permissions.manage"]),
    N.Page("integrations", "Intégrations", "/dashboard/settings/integrations", "Link"),
    N.Guarded("webhooks", "Webhooks & API keys", "/dashboard/settings/webhooks", "Webhook", ["api.manage"])])

  const HelpSection: NavItem := N.Section("help", "Aide", "HelpCircle", [
    N.Page("documentation", "Documentation", "/dashboard/help/docs", "Book"),
    N.Page("tutorials", "Tutoriels", "/dashboard/help/tutorials", "Video"),
    N.Page("support", "Contacter le support", "/dashboard/help/support", "MessageSquare")])

  /** `navigationItems`: the sections in sidebar order. */
  const NavigationItems: seq<NavItem> := [
    DashboardSection, CampaignsSection, ClientsSection, ContentSection, AnalyticsSection,
    NotificationsAlertsSection, BillingSection, SettingsSection, HelpSection]

  /** The ids and the guards of the nine sections. */
  lemma {:induction false} SectionGuards()
    ensures |NavigationItems| == 9
    ensures N.Ids(NavigationItems) == ["dashboard", "campaigns", "clients", "content", "analytics",
                                       "notifications-alerts", "billing", "settings", "help"]
    ensures forall i :: 0 <= i < 9 && i != 6 ==> NavigationItems[i].requiredPermissions.None?
    ensures NavigationItems[6].requiredPermissions == Some(["billing.read"])
  {
  }

  /** A Viewer loses the billing section, the seventh, and keeps the other eight, in order. */
  lemma {:induction false} ViewerSections()
    ensures NavigationItems[6].id == "billing"
    ensures N.Ids(FilterNavigationByRole(NavigationItems, N.Viewer)) == N.Ids(NavigationItems[..6] + NavigationItems[7..])
  {
    SectionGuards();
    assert "billing.read" !in RolePermissions(N.Viewer);
    N.SeventhDropped(NavigationItems, RolePermissions(N.Viewer), "billing.read");
  }

  /** Under the settings, an Editor loses the team page, which needs `users.read`, as well as the
      permissions and webhooks pages. */
  lemma {:induction false} EditorSettings()
    ensures N.Ids(N.Pruned(SettingsSection, RolePermissions(N.Editor)).children.value) == ["integrations"]
  {
    assert !HasPermission(N.Editor, "users.read") && !HasPermission(N.Editor, "permissions.manage");
    assert !HasPermission(N.Editor, "api.manage");
  }

  /** A Manager, who holds `users.read`, keeps the team page. */
  lemma {:induction false} ManagerSettings()
    ensures N.Ids(N.Pruned(SettingsSection, RolePermissions(N.Manager)).children.value) == ["team", "integrations"]
  {
    assert !HasPermission(N.Manager, "permissions.manage") && !HasPermission(N.Manager, "api.manage");
    assert HasPermission(N.Manager, "users.read");
  }

  /** An Admin sees the whole navigation. */
  lemma {:induction false} AdminSeesEverything()
    ensures FilterNavigationByRole(NavigationItems, N.Admin) == NavigationItems
  {
    var held := RolePermissions(N.Admin);
    assert "billing.read" in held && "users.read" in held && "permissions.manage" in held && "api.manage" in held;
    N.FilterKeepsAllowed(NavigationItems, held);
  }
}
