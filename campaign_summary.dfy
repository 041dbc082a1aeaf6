/**
 * The campaign summary card (client/src/components/campaign-summary-widget.tsx): the three
 * campaigns with the largest share of the portfolio, two totals over every campaign, and
 * the colour and label of an impact level.
 */
module CampaignSummary {
  import opened Seqs

  /** A campaign as the card receives it. */
  datatype Campaign = Campaign(
    id: string,
    title: string,
    portfolioPercentage: real,
    clientsAffected: int,
    totalValue: string,
    category: string,
    portfolioImpact: string)

  /** Non-increasing in `portfolioPercentage`. */
  predicate Descending(s: seq<Campaign>)
  {
    forall i, j :: 0 <= i < j < |s| ==> s[j].portfolioPercentage <= s[i].portfolioPercentage
  }

  /**
   * Places `x` in front of the first campaign whose percentage is not larger: after every
   * larger one and before every equal one that follows.
   */
  function Insert(x: Campaign, t: seq<Campaign>): (r: seq<Campaign>)
    ensures |r| == |t| + 1
  {
    if t == [] || t[0].portfolioPercentage <= x.portfolioPercentage then [x] + t
    else [t[0]] + Insert(x, t[1..])
  }

  /** The insertion adds `x` and loses nothing. */
  lemma {:induction false} InsertPermutes(x: Campaign, t: seq<Campaign>)
    ensures multiset(Insert(x, t)) == multiset(t) + multiset{x}
  {
    if t != [] && x.portfolioPercentage < t[0].portfolioPercentage {
      InsertPermutes(x, t[1..]);
      assert t == [t[0]] + t[1..];
    }
  }

  /** Inserting into a descending list keeps it descending. */
  lemma {:induction false} InsertDescending(x: Campaign, t: seq<Campaign>)
    requires Descending(t)
    ensures Descending(Insert(x, t))
  {
    if t == [] || t[0].portfolioPercentage <= x.portfolioPercentage {
      assert Insert(x, t) == [x] + t;
      DescendingCons(x, t);
    } else {
      var rest := Insert(x, t[1..]);
      InsertDescending(x, t[1..]);
      InsertPermutes(x, t[1..]);
      forall k | 0 <= k < |rest|
        ensures rest[k].portfolioPercentage <= t[0].portfolioPercentage
      {
        assert rest[k] in multiset(t[1..]) + multiset{x};
      }
      assert Insert(x, t) == [t[0]] + rest;
      DescendingCons(t[0], rest);
    }
  }

  /** A head no smaller than anything in a descending list keeps it descending. */
  lemma DescendingCons(h: Campaign, t: seq<Campaign>)
    requires Descending(t)
    requires forall k :: 0 <= k < |t| ==> t[k].portfolioPercentage <= h.portfolioPercentage
    ensures Descending([h] + t)
  {
    var s := [h] + t;
    forall i, j | 0 <= i < j < |s|
      ensures s[j].portfolioPercentage <= s[i].portfolioPercentage
    {
      assert s[j] == t[j - 1];
      if i > 0 {
        assert s[i] == t[i - 1];
      }
    }
  }

  /**
   * `[...campaigns].sort((a, b) => b.portfolioPercentage - a.portfolioPercentage)`: the
   * comparator orders by descending percentage, and `Array.prototype.sort` is stable.
   */
  function SortByPercentage(s: seq<Campaign>): (r: seq<Campaign>)
    ensures |r| == |s|
    ensures multiset(r) == multiset(s)
    ensures Descending(r)
  {
    if s == [] then []
    else
      assert s == [s[0]] + s[1..];
      InsertDescending(s[0], SortByPercentage(s[1..]));
      InsertPermutes(s[0], SortByPercentage(s[1..]));
      Insert(s[0], SortByPercentage(s[1..]))
  }

  /** Whether a campaign has percentage `v`. */
  function WithPercentage(v: real): Campaign -> bool
  {
    (c: Campaign) => c.portfolioPercentage == v
  }

  lemma {:induction false} InsertKeepsTies(x: Campaign, t: seq<Campaign>, v: real)
    ensures Filter(Insert(x, t), WithPercentage(v))
      == (if x.portfolioPercentage == v then [x] else []) + Filter(t, WithPercentage(v))
  {
    var p := WithPercentage(v);
    if t == [] || t[0].portfolioPercentage <= x.portfolioPercentage {
      FilterCons(x, t, p);
    } else {
      var rest := Insert(x, t[1..]);
      InsertKeepsTies(x, t[1..], v);
      FilterCons(t[0], rest, p);
      assert t == [t[0]] + t[1..];
      FilterCons(t[0], t[1..], p);
      // `t[0]` is strictly larger than `x`, so at most one of the two has percentage `v`.
      assert !(p(x) && p(t[0]));
    }
  }

  /**
   * Stability: the campaigns sharing any one percentage appear in the sorted copy in the
   * order they have in the input.
   */
  lemma {:induction false} SortIsStable(s: seq<Campaign>, v: real)
    ensures Filter(SortByPercentage(s), WithPercentage(v)) == Filter(s, WithPercentage(v))
  {
    if s != [] {
      var p := WithPercentage(v);
      var tail := SortByPercentage(s[1..]);
      assert SortByPercentage(s) == Insert(s[0], tail);
      SortIsStable(s[1..], v);
      InsertKeepsTies(s[0], tail, v);
      assert Filter(s, p) == (if p(s[0]) then [s[0]] else []) + Filter(s[1..], p);
    }
  }

  /** `topCampaigns`: the first three of the sorted copy, or all of them when there are fewer. */
  function TopCampaigns(campaigns: seq<Campaign>): (top: seq<Campaign>)
    ensures |top| == Min(3, |campaigns|)
    ensures Descending(top)
    ensures top == SortByPercentage(campaigns)[..|top|]
  {
    Take(SortByPercentage(campaigns), 3)
  }

  /**
   * The top list and the campaigns left out of it together are exactly the input, and no
   * campaign left out has a larger percentage than any campaign in the list.
   */
  lemma TopIsMaximal(campaigns: seq<Campaign>)
    ensures var sorted := SortByPercentage(campaigns);
      var top := TopCampaigns(campaigns);
      multiset(top) + multiset(sorted[|top|..]) == multiset(campaigns)
      && (forall i, j :: 0 <= i < |top| <= j < |sorted| ==>
            sorted[j].portfolioPercentage <= top[i].portfolioPercentage)
  {
    var sorted := SortByPercentage(campaigns);
    var top := TopCampaigns(campaigns);
    assert sorted == top + sorted[|top|..];
  }

  /** `campaigns.reduce((sum, c) => sum + c.clientsAffected, 0)`. */
  function TotalClientsImpacted(campaigns: seq<Campaign>): int
  {
    if campaigns == [] then 0 else campaigns[0].clientsAffected + TotalClientsImpacted(campaigns[1..])
  }

  /** `campaigns.reduce((sum, c) => sum + c.portfolioPercentage, 0)`. */
  function TotalPortfolioImpact(campaigns: seq<Campaign>): real
  {
    if campaigns == [] then 0.0 else campaigns[0].portfolioPercentage + TotalPortfolioImpact(campaigns[1..])
  }

  lemma {:induction false} TotalsConcat(a: seq<Campaign>, b: seq<Campaign>)
    ensures TotalClientsImpacted(a + b) == TotalClientsImpacted(a) + TotalClientsImpacted(b)
    ensures TotalPortfolioImpact(a + b) == TotalPortfolioImpact(a) + TotalPortfolioImpact(b)
  {
    if a == [] {
      assert a + b == b;
    } else {
      assert (a + b)[1..] == a[1..] + b;
      TotalsConcat(a[1..], b);
    }
  }

  lemma {:induction false} InsertKeepsTotals(x: Campaign, t: seq<Campaign>)
    ensures TotalClientsImpacted(Insert(x, t)) == x.clientsAffected + TotalClientsImpacted(t)
    ensures TotalPortfolioImpact(Insert(x, t)) == x.portfolioPercentage + TotalPortfolioImpact(t)
  {
    if t != [] && x.portfolioPercentage < t[0].portfolioPercentage {
      InsertKeepsTotals(x, t[1..]);
      assert Insert(x, t)[1..] == Insert(x, t[1..]);
    }
  }

  lemma {:induction false} SortKeepsTotals(s: seq<Campaign>)
    ensures TotalClientsImpacted(SortByPercentage(s)) == TotalClientsImpacted(s)
    ensures TotalPortfolioImpact(SortByPercentage(s)) == TotalPortfolioImpact(s)
  {
    if s != [] {
      SortKeepsTotals(s[1..]);
      InsertKeepsTotals(s[0], SortByPercentage(s[1..]));
    }
  }

  /**
   * Both totals are taken over every campaign: they are the top list's totals plus those
   * of the campaigns left out of it.
   */
  lemma TotalsCoverEveryCampaign(campaigns: seq<Campaign>)
    ensures var sorted := SortByPercentage(campaigns);
      var top := TopCampaigns(campaigns);
      TotalClientsImpacted(campaigns) == TotalClientsImpacted(top) + TotalClientsImpacted(sorted[|top|..])
      && TotalPortfolioImpact(campaigns) == TotalPortfolioImpact(top) + TotalPortfolioImpact(sorted[|top|..])
  {
    var sorted := SortByPercentage(campaigns);
    var top := TopCampaigns(campaigns);
    assert sorted == top + sorted[|top|..];
    TotalsConcat(top, sorted[|top|..]);
    SortKeepsTotals(campaigns);
  }

  /** `getImpactColor`: 'alto' green, 'medio' yellow, anything else blue. */
  function ImpactColor(impact: string): string
  {
    if impact == "alto" then "text-green-600 bg-green-600/10"
    else if impact == "medio" then "text-yellow-600 bg-yellow-600/10"
    else "text-blue-600 bg-blue-600/10"
  }

  /** The badge text: 'alto' is Alto, 'medio' is Medio, anything else Bajo. */
  function ImpactLabel(impact: string): (text: string)
    ensures text in {"Alto", "Medio", "Bajo"}
    ensures text == "Alto" <==> impact == "alto"
    ensures text == "Medio" <==> impact == "medio"
  {
    if impact == "alto" then "Alto" else if impact == "medio" then "Medio" else "Bajo"
  }

  /** The badge colour and its text fall on the same three cases. */
  lemma ImpactColorMatchesLabel(impact: string)
    ensures ImpactLabel(impact) == "Alto" <==> ImpactColor(impact) == "text-green-600 bg-green-600/10"
    ensures ImpactLabel(impact) == "Medio" <==> ImpactColor(impact) == "text-yellow-600 bg-yellow-600/10"
    ensures ImpactLabel(impact) == "Bajo" <==> ImpactColor(impact) == "text-blue-600 bg-blue-600/10"
  {
  }
}
