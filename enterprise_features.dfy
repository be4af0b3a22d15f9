/** Enterprise features (utils/enterprise_features.py): the client tier table, the client
    portal with its dashboard sections, standard reports and alerts, the pricing tiers with
    their fallback, and the potential-revenue arithmetic. The tables are fixed once built,
    so they are constants here; the report and alert builders extend local lists and are
    methods. */
module EnterpriseFeatures {
  import opened Common

  // ---------------------------------------------------------------------------
  // Client tiers
  // ---------------------------------------------------------------------------

  datatype TierInfo = TierInfo(features: seq<string>, dataRetention: string, supportLevel: string)

  /** `client_tiers`: government, corporate and research. */
  const ClientTiers: map<string, TierInfo> := map[
    "government" := TierInfo(["real-time_monitoring", "compliance_tracking", "enforcement_tools",
                              "historical_analysis", "multi_agency_access"], "7 years", "24/7 priority"),
    "corporate" := TierInfo(["risk_assessment", "compliance_alerts", "custom_thresholds",
                             "api_access", "sla_guarantee"], "3 years", "business hours"),
    "research" := TierInfo(["raw_data_access", "custom_analytics", "export_tools",
                            "api_access", "collaboration_tools"], "10 years", "email")]

  // ---------------------------------------------------------------------------
  // Title case
  // ---------------------------------------------------------------------------

  predicate IsAsciiLower(c: char) { 'a' <= c <= 'z' }

  predicate IsAsciiUpper(c: char) { 'A' <= c <= 'Z' }

  predicate IsAsciiLetter(c: char) { IsAsciiLower(c) || IsAsciiUpper(c) }

  function Upper(c: char): char
  {
    if IsAsciiLower(c) then (c as int - 32) as char else c
  }

  function Lower(c: char): char
  {
    if IsAsciiUpper(c) then (c as int + 32) as char else c
  }

  /** `str.title()` on ASCII text: a letter is upper-cased when the character before it is
      not a letter and lower-cased otherwise; every other character is kept. `afterLetter`
      says whether the text is preceded by a letter. */
  function TitleFrom(s: string, afterLetter: bool): (t: string)
    ensures |t| == |s|
    ensures forall i | 0 <= i < |s| :: !IsAsciiLetter(s[i]) ==> t[i] == s[i]
    ensures |s| > 0 && IsAsciiLetter(s[0]) ==> t[0] == if afterLetter then Lower(s[0]) else Upper(s[0])
    ensures forall i | 0 < i < |s| :: IsAsciiLetter(s[i]) && IsAsciiLetter(s[i - 1]) ==> t[i] == Lower(s[i])
    ensures forall i | 0 < i < |s| :: IsAsciiLetter(s[i]) && !IsAsciiLetter(s[i - 1]) ==> t[i] == Upper(s[i])
  {
    if |s| == 0 then ""
    else
      var c := if !IsAsciiLetter(s[0]) then s[0] else if afterLetter then Lower(s[0]) else Upper(s[0]);
      var rest := TitleFrom(s[1..], IsAsciiLetter(s[0]));
      assert forall i | 0 < i < |s| :: s[1..][i - 1] == s[i];
      [c] + rest
  }

  function Title(s: string): string
  {
    TitleFrom(s, false)
  }

  /** The tier names come out as the portal's welcome message shows them. */
  lemma TitleOfTierNames()
    ensures Title("government") == "Government"
    ensures Title("corporate") == "Corporate"
    ensures Title("research") == "Research"
  {
    TitleOfLowerWord("government");
    TitleOfLowerWord("corporate");
    TitleOfLowerWord("research");
  }

  /** A word of lower-case letters has only its first letter capitalised. */
  lemma TitleOfLowerWord(w: string)
    requires |w| > 0 && forall i | 0 <= i < |w| :: IsAsciiLower(w[i])
    ensures Title(w) == [Upper(w[0])] + w[1..]
  {
    var t := Title(w);
    forall i | 0 < i < |w| ensures t[i] == w[i] {
      assert IsAsciiLetter(w[i]) && IsAsciiLetter(w[i - 1]);
    }
    assert t == [Upper(w[0])] + w[1..];
  }

  // ---------------------------------------------------------------------------
  // Dashboard sections, reports and alerts
  // ---------------------------------------------------------------------------

  datatype Section = Section(title: string, kind: string, priority: string)

  const GovernmentSections: seq<Section> := [
    Section("National Water Security", "map", "high"),
    Section("Compliance Violations", "table", "high"),
    Section("Enforcement Actions", "workflow", "medium"),
    Section("Regional Analysis", "charts", "medium"),
    Section("Budget Impact", "metrics", "low")]

  const CorporateSections: seq<Section> := [
    Section("Risk Assessment", "heatmap", "high"),
    Section("Compliance Status", "status", "high"),
    Section("Operational Impact", "metrics", "medium"),
    Section("Regulatory Updates", "feed", "low")]

  /** `_get_dashboard_sections`: five sections for government, four for corporate, none
      for any other client type. */
  function DashboardSections(clientType: string): (sections: seq<Section>)
    ensures clientType == "government" <==> |sections| == 5
    ensures clientType == "corporate" <==> |sections| == 4
    ensures clientType != "government" && clientType != "corporate" <==> sections == []
  {
    if clientType == "government" then GovernmentSections
    else if clientType == "corporate" then CorporateSections
    else []
  }

  datatype Report = Report(name: string, frequency: string, format: string)

  const BaseReports: seq<Report> := [
    Report("Daily Monitoring Summary", "daily", "PDF/Excel"),
    Report("Weekly Compliance Report", "weekly", "PDF"),
    Report("Monthly Risk Assessment", "monthly", "PDF/PPT")]

  const GovernmentReports: seq<Report> := [
    Report("Quarterly EPA Submission", "quarterly", "Official"),
    Report("Annual Water Security Report", "annually", "Book")]

  /** `_generate_standard_reports`: the three base reports, extended by the two official
      reports for a government client. */
  method StandardReports(clientType: string) returns (reports: seq<Report>)
    ensures |reports| == if clientType == "government" then 5 else 3
    ensures reports[..3] == BaseReports
    ensures clientType == "government" ==> reports[3..] == GovernmentReports
  {
    reports := BaseReports;
    if clientType == "government" {
      reports := reports + GovernmentReports;
    }
  }

  const BaseAlerts: seq<string> := [
    "System Status: Operational",
    "Last Data Update: Today",
    "AI Model: 87% Accuracy"]

  /** `_get_client_alerts`: the three status alerts, and for a government client the
      deadline and enforcement alerts appended in that order. */
  method ClientAlerts(clientType: string) returns (alerts: seq<string>)
    ensures |alerts| == if clientType == "government" then 5 else 3
    ensures alerts[..3] == BaseAlerts
    ensures clientType == "government" ==>
      alerts[3] == "Compliance Deadline: End of Quarter" && alerts[4] == "Enforcement Actions: 3 pending"
  {
    alerts := BaseAlerts;
    if clientType == "government" {
      alerts := alerts + ["Compliance Deadline: End of Quarter"];
      alerts := alerts + ["Enforcement Actions: 3 pending"];
    }
  }

  // ---------------------------------------------------------------------------
  // Client portal
  // ---------------------------------------------------------------------------

  datatype Portal = Portal(welcomeMessage: string, features: seq<string>, sections: seq<Section>,
                           reports: seq<Report>, alerts: seq<string>)

  /** A portal, or the KeyError an unknown client type raises. */
  datatype PortalResult = PortalOk(portal: Portal) | KeyError(key: string)

  /** `generate_client_portal`: the tier's features exactly, its sections, reports and
      alerts; a client type missing from the tier table raises a KeyError. */
  method GenerateClientPortal(clientType: string) returns (r: PortalResult)
    ensures r.KeyError? <==> clientType !in ClientTiers
    ensures r.KeyError? ==> r.key == clientType
    ensures r.PortalOk? ==>
      && r.portal.welcomeMessage == "Welcome to Guardian Ghana " + Title(clientType) + " Portal"
      && r.portal.features == ClientTiers[clientType].features
      && r.portal.sections == DashboardSections(clientType)
      && |r.portal.reports| == (if clientType == "government" then 5 else 3)
      && r.portal.reports[..3] == BaseReports
      && |r.portal.alerts| == (if clientType == "government" then 5 else 3)
      && r.portal.alerts[..3] == BaseAlerts
    ensures r.PortalOk? && clientType == "government" ==>
      && r.portal.reports[3..] == GovernmentReports
      && r.portal.alerts[3] == "Compliance Deadline: End of Quarter"
      && r.portal.alerts[4] == "Enforcement Actions: 3 pending"
  {
    var welcome := "Welcome to Guardian Ghana " + Title(clientType) + " Portal";
    if clientType !in ClientTiers {
      return KeyError(clientType);
    }
    var features := ClientTiers[clientType].features;
    var sections := DashboardSections(clientType);
    var reports := StandardReports(clientType);
    var alerts := ClientAlerts(clientType);
    r := PortalOk(Portal(welcome, features, sections, reports, alerts));
  }

  /** The research tier has a portal, but no dashboard sections. */
  lemma ResearchPortalHasNoSections()
    ensures "research" in ClientTiers && DashboardSections("research") == []
  {
  }

  // ---------------------------------------------------------------------------
  // Pricing
  // ---------------------------------------------------------------------------

  /** The tier-specific list each tier carries besides its features. */
  datatype Extras = Limitations(items: seq<string>) | Addons(items: seq<string>) | Implementation(items: seq<string>)

  datatype PricingTier = PricingTier(price: string, features: seq<string>, extras: Extras, bestFor: string)

  const PricingTiers: map<string, PricingTier> := map[
    "basic" := PricingTier("₵62,500/month",
      ["5 rivers", "basic_alerts", "web_dashboard", "email_support"],
      Limitations(["no_api", "no_customization", "24h_data_delay"]),
      "Small mining companies"),
    "professional" := PricingTier("₵187,500/month",
      ["20 rivers", "ai_predictions", "api_access", "custom_alerts", "priority_support"],
      Addons(["mobile_app", "additional_users", "custom_reports"]),
      "Medium enterprises, Local governments"),
    "enterprise" := PricingTier("Custom (starts at ₵625,000/month)",
      ["unlimited_rivers", "full_ai_suite", "dedicated_server", "24/7_support",
       "custom_integration", "sla_99.9%"],
      Implementation(["6-8 weeks", "dedicated_team", "training_sessions"]),
      "National governments, Large corporations")]

  /** `generate_pricing_tier`: the named tier, or the professional tier for any name that is
      not in the table. */
  function GeneratePricingTier(tierName: string): (t: PricingTier)
    ensures tierName in PricingTiers ==> t == PricingTiers[tierName]
    ensures tierName !in PricingTiers ==> t == PricingTiers["professional"]
  {
    if tierName in PricingTiers then PricingTiers[tierName] else PricingTiers["professional"]
  }

  /** Every name other than "basic" and "enterprise" gets the professional tier, and the
      three named tiers are different. */
  lemma PricingFallback(tierName: string)
    ensures tierName != "basic" && tierName != "enterprise" ==>
      GeneratePricingTier(tierName) == PricingTiers["professional"]
    ensures GeneratePricingTier("basic") != GeneratePricingTier("professional")
    ensures GeneratePricingTier("enterprise") != GeneratePricingTier("professional")
    ensures GeneratePricingTier("basic") != GeneratePricingTier("enterprise")
  {
  }

  // ---------------------------------------------------------------------------
  // Revenue
  // ---------------------------------------------------------------------------

  /** `ghana_market_size`: the estimated number of potential clients. */
  const MarketSize: nat := 500

  const BasicPrice: real := 62500.0
  const ProfessionalPrice: real := 187500.0
  const EnterprisePrice: real := 625000.0

  const TierNames: set<string> := {"basic", "professional", "enterprise"}

  /** The default split: 60% basic, 30% professional, 10% enterprise. */
  const DefaultDistribution: map<string, real> := map["basic" := 0.6, "professional" := 0.3, "enterprise" := 0.1]

  datatype RevenueReport = RevenueReport(
    monthlyRevenue: real, annualRevenue: real,
    basicClients: int, professionalClients: int, enterpriseClients: int,
    marketSize: nat)

  /** The monthly revenue of a split: each tier's share of the market times its price. */
  function MonthlyRevenue(basic: real, professional: real, enterprise: real): real
  {
    MarketSize as real * basic * BasicPrice
    + MarketSize as real * professional * ProfessionalPrice
    + MarketSize as real * enterprise * EnterprisePrice
  }

  /** `calculate_potential_revenue`: the default split when none is given; a split missing
      a tier raises a KeyError (None). Annual revenue is twelve months, and each tier's
      client count is its share of the market truncated to a whole number. */
  function CalculatePotentialRevenue(clientDistribution: Option<map<string, real>>): (r: Option<RevenueReport>)
    ensures r.None? <==> clientDistribution.Some? && !(TierNames <= clientDistribution.value.Keys)
    ensures r.Some? ==> r.value.annualRevenue == 12.0 * r.value.monthlyRevenue
    ensures r.Some? ==> r.value.marketSize == MarketSize
  {
    var dist := if clientDistribution.None? then DefaultDistribution else clientDistribution.value;
    if "basic" in dist && "professional" in dist && "enterprise" in dist then
      var monthly := MonthlyRevenue(dist["basic"], dist["professional"], dist["enterprise"]);
      Some(RevenueReport(monthly, monthly * 12.0,
                         Trunc(MarketSize as real * dist["basic"]),
                         Trunc(MarketSize as real * dist["professional"]),
                         Trunc(MarketSize as real * dist["enterprise"]),
                         MarketSize))
    else None
  }

  /** The default split earns 78,125,000 a month and 937,500,000 a year from 300 basic, 150
      professional and 50 enterprise clients. */
  lemma DefaultRevenue()
    ensures CalculatePotentialRevenue(None) == Some(RevenueReport(78125000.0, 937500000.0, 300, 150, 50, 500))
  {
    assert MonthlyRevenue(0.6, 0.3, 0.1) == 78125000.0;
  }

  /** For shares that are non-negative and add up to one, the monthly revenue lies between
      the all-basic and the all-enterprise revenue, and the client counts add up to at most
      the market and lose less than one client per tier to truncation. */
  lemma RevenueBounds(basic: real, professional: real, enterprise: real)
    requires basic >= 0.0 && professional >= 0.0 && enterprise >= 0.0
    requires basic + professional + enterprise == 1.0
    ensures 31250000.0 <= MonthlyRevenue(basic, professional, enterprise) <= 312500000.0
    ensures var r := CalculatePotentialRevenue(Some(map["basic" := basic, "professional" := professional, "enterprise" := enterprise]));
      && r.Some?
      && MarketSize - 3 < r.value.basicClients + r.value.professionalClients + r.value.enterpriseClients <= MarketSize
  {
    var m := map["basic" := basic, "professional" := professional, "enterprise" := enterprise];
    assert TierNames <= m.Keys;
    var b := Trunc(500.0 * basic);
    var p := Trunc(500.0 * professional);
    var e := Trunc(500.0 * enterprise);
    assert b as real + p as real + e as real <= 500.0;
    assert b as real + p as real + e as real > 497.0;
  }
}
