/**
 * The campaign recommendations page (client/src/pages/recommendations.tsx): a list of
 * campaigns held in page state, from which accepting or dismissing a campaign removes it,
 * and three tabs that split the list by impact level.
 */
module Recommendations {
  import opened Seqs
  import opened CampaignSummary

  /** The six campaigns the page starts with. */
  const InitialCampaigns: seq<Campaign> := [
    Campaign("camp-1", "Impulso Colocaciones - Créditos Personales", 22.0, 198, "$4.2M", "Saldos Activos", "alto"),
    Campaign("camp-2", "Colocación de Cuenta Alto Rendimiento - Clientes Alto Potencial Ahorradores", 18.0, 167, "$6.8M", "Saldos Pasivos", "alto"),
    Campaign("camp-3", "Colocación Hipotecaria - Segmento Alto", 15.0, 142, "$8.5M", "Saldos Activos", "alto"),
    Campaign("camp-4", "Upselling Principalidad - Multi-producto", 12.0, 124, "$5.2M", "Alta Principalidad", "medio"),
    Campaign("camp-5", "Retención Pasivos - Inversiones Q2", 14.0, 135, "$7.4M", "Saldos Pasivos", "medio"),
    Campaign("camp-6", "Cross-sell Tarjetas Premium", 8.0, 89, "$2.1M", "Contribución Neta", "bajo")
  ]

  function HasId(id: string): Campaign -> bool
  {
    (c: Campaign) => c.id == id
  }

  function OtherId(id: string): Campaign -> bool
  {
    (c: Campaign) => c.id != id
  }

  /** `campaigns.filter((c) => c.id !== id)`. */
  function WithoutId(campaigns: seq<Campaign>, id: string): (r: seq<Campaign>)
    ensures forall k :: 0 <= k < |r| ==> r[k].id != id
  {
    Filter(campaigns, OtherId(id))
  }

  /**
   * The removal keeps exactly the campaigns whose id differs: each one kept was in the
   * list, and no campaign with another id is lost.
   */
  lemma WithoutIdKeepsOthers(campaigns: seq<Campaign>, id: string)
    ensures forall k :: 0 <= k < |WithoutId(campaigns, id)| ==> WithoutId(campaigns, id)[k] in campaigns
    ensures forall k :: 0 <= k < |campaigns| && campaigns[k].id != id ==> campaigns[k] in WithoutId(campaigns, id)
    ensures |WithoutId(campaigns, id)| + Count(campaigns, HasId(id)) == |campaigns|
  {
    FilterMembers(campaigns, OtherId(id));
    CountSplit(campaigns, OtherId(id), HasId(id));
  }

  /** The removal keeps the original order: it distributes over concatenation. */
  lemma WithoutIdKeepsOrder(a: seq<Campaign>, b: seq<Campaign>, id: string)
    ensures WithoutId(a + b, id) == WithoutId(a, id) + WithoutId(b, id)
  {
    FilterConcat(a, b, OtherId(id));
  }

  /** Removing an id that is absent changes nothing. */
  lemma WithoutAbsentId(campaigns: seq<Campaign>, id: string)
    requires forall k :: 0 <= k < |campaigns| ==> campaigns[k].id != id
    ensures WithoutId(campaigns, id) == campaigns
  {
    FilterAll(campaigns, OtherId(id));
  }

  /** Removing the same id twice is removing it once. */
  lemma WithoutIdIdempotent(campaigns: seq<Campaign>, id: string)
    ensures WithoutId(WithoutId(campaigns, id), id) == WithoutId(campaigns, id)
  {
    WithoutAbsentId(WithoutId(campaigns, id), id);
  }

  function HasImpact(level: string): Campaign -> bool
  {
    (c: Campaign) => c.portfolioImpact == level
  }

  /** `campaigns.filter((c) => c.portfolioImpact === level)`: one tab's campaigns. */
  function ImpactTab(campaigns: seq<Campaign>, level: string): (r: seq<Campaign>)
    ensures forall k :: 0 <= k < |r| ==> r[k].portfolioImpact == level
  {
    Filter(campaigns, HasImpact(level))
  }

  predicate ThreeValuedImpact(campaigns: seq<Campaign>)
  {
    forall k :: 0 <= k < |campaigns| ==> campaigns[k].portfolioImpact in {"alto", "medio", "bajo"}
  }

  /**
   * `highImpact`, `mediumImpact` and `lowImpact`: no campaign is in two of them, and when
   * every impact is one of the three levels, every campaign is in one of them.
   */
  lemma ImpactTabsPartition(campaigns: seq<Campaign>)
    requires ThreeValuedImpact(campaigns)
    ensures var high, medium, low := ImpactTab(campaigns, "alto"), ImpactTab(campaigns, "medio"), ImpactTab(campaigns, "bajo");
      (forall k :: 0 <= k < |campaigns| ==> campaigns[k] in high || campaigns[k] in medium || campaigns[k] in low)
      && (forall k :: 0 <= k < |high| ==> high[k] !in medium && high[k] !in low)
      && (forall k :: 0 <= k < |medium| ==> medium[k] !in low)
  {
    FilterMembers(campaigns, HasImpact("alto"));
    FilterMembers(campaigns, HasImpact("medio"));
    FilterMembers(campaigns, HasImpact("bajo"));
  }

  /** The numbers on the four tabs: all, alto, medio and bajo. */
  datatype TabCounts = TabCounts(all: nat, high: nat, medium: nat, low: nat)

  function CountTabs(campaigns: seq<Campaign>): (t: TabCounts)
    ensures t.all == |campaigns|
    ensures t.high == |ImpactTab(campaigns, "alto")| && t.medium == |ImpactTab(campaigns, "medio")|
      && t.low == |ImpactTab(campaigns, "bajo")|
  {
    TabCounts(|campaigns|, |ImpactTab(campaigns, "alto")|, |ImpactTab(campaigns, "medio")|, |ImpactTab(campaigns, "bajo")|)
  }

  /** With three-valued impacts the three impact tabs add up to the "all" tab. */
  lemma TabCountsAddUp(campaigns: seq<Campaign>)
    requires ThreeValuedImpact(campaigns)
    ensures var t := CountTabs(campaigns); t.high + t.medium + t.low == t.all
  {
    CountSplit3(campaigns, HasImpact("alto"), HasImpact("medio"), HasImpact("bajo"));
  }

  /** The initial tabs read 6, 3, 2 and 1. */
  lemma InitialTabCounts()
    ensures CountTabs(InitialCampaigns) == TabCounts(6, 3, 2, 1)
  {
    TabCountsOfPattern(InitialCampaigns);
  }

  predicate ImpactPattern(s: seq<Campaign>)
  {
    |s| == 6
    && s[0].portfolioImpact == "alto" && s[1].portfolioImpact == "alto" && s[2].portfolioImpact == "alto"
    && s[3].portfolioImpact == "medio" && s[4].portfolioImpact == "medio" && s[5].portfolioImpact == "bajo"
  }

  /** Six campaigns, three 'alto' then two 'medio' then one 'bajo': tabs of 6, 3, 2 and 1. */
  lemma TabCountsOfPattern(s: seq<Campaign>)
    requires ImpactPattern(s)
    ensures CountTabs(s) == TabCounts(6, 3, 2, 1)
  {
    var a, b, c := s[..3], s[3..5], s[5..];
    assert s == a + b + c;
    BlockTab(a, b, c, HasImpact("alto"), 0);
    BlockTab(a, b, c, HasImpact("medio"), 1);
    BlockTab(a, b, c, HasImpact("bajo"), 2);
  }

  /**
   * Three blocks of which exactly one, number `kept`, satisfies `p` throughout and the
   * other two nowhere: the filter keeps that block.
   */
  lemma BlockTab(a: seq<Campaign>, b: seq<Campaign>, c: seq<Campaign>, p: Campaign -> bool, kept: nat)
    requires kept < 3
    requires forall k :: 0 <= k < |a| ==> p(a[k]) == (kept == 0)
    requires forall k :: 0 <= k < |b| ==> p(b[k]) == (kept == 1)
    requires forall k :: 0 <= k < |c| ==> p(c[k]) == (kept == 2)
    ensures Filter(a + b + c, p) == [a, b, c][kept]
  {
    FilterConcat(a + b, c, p);
    FilterConcat(a, b, p);
    if kept == 0 {
      FilterAll(a, p); FilterNone(b, p); FilterNone(c, p);
    } else if kept == 1 {
      FilterNone(a, p); FilterAll(b, p); FilterNone(c, p);
    } else {
      FilterNone(a, p); FilterNone(b, p); FilterAll(c, p);
    }
  }

  /** The page's state: the campaigns not yet accepted or dismissed. */
  class RecommendationsPage {
    var campaigns: seq<Campaign>

    constructor()
      ensures campaigns == InitialCampaigns
    {
      campaigns := InitialCampaigns;
    }

    /** `handleAccept`: removes the campaign and reports that it started. */
    method HandleAccept(id: string) returns (toastTitle: string)
      modifies this
      ensures campaigns == WithoutId(old(campaigns), id)
      ensures toastTitle == "Campaña Iniciada"
    {
      campaigns := WithoutId(campaigns, id);
      toastTitle := "Campaña Iniciada";
    }

    /** `handleDismiss`: the same removal, reported as dismissed. */
    method HandleDismiss(id: string) returns (toastTitle: string)
      modifies this
      ensures campaigns == WithoutId(old(campaigns), id)
      ensures toastTitle == "Campaña Descartada"
    {
      campaigns := WithoutId(campaigns, id);
      toastTitle := "Campaña Descartada";
    }
  }

  /**
   * Accepting and dismissing the same id leave the same list, and a second removal of
   * that id (either way) changes nothing.
   */
  method AcceptThenDismiss(page: RecommendationsPage, id: string) returns (accepted: string, dismissed: string)
    modifies page
    ensures page.campaigns == WithoutId(old(page.campaigns), id)
    ensures accepted != dismissed
  {
    accepted := page.HandleAccept(id);
    dismissed := page.HandleDismiss(id);
    WithoutIdIdempotent(old(page.campaigns), id);
  }
}
