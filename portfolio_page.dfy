/**
 * The portfolio page (client/src/pages/portfolio.tsx): a fixed list of clients narrowed
 * by a name search and a segment filter, with a count in the heading and initials in
 * place of a missing avatar.
 */
module PortfolioPage {
  import opened Seqs
  import opened Strings
  import ClientProfileCard

  /** A row of the list; the avatar picture is left out. */
  datatype PortfolioClient = PortfolioClient(
    id: string, name: string, segment: string, aum: string, industry: string,
    riskLevel: string, kycStatus: string, lastContact: string)

  /** The five clients the page lists. */
  const Clients: seq<PortfolioClient> := [
    PortfolioClient("1", "Roberto Fernández", "Ultra Premium", "$3.2M", "Tecnología", "bajo", "compliant", "Hace 2 días"),
    PortfolioClient("2", "Ana Chen", "Premium", "$1.8M", "Manufactura", "bajo", "compliant", "Hace 1 semana"),
    PortfolioClient("3", "Michael Johnson", "Ultra Premium", "$5.1M", "Inmobiliario", "medio", "pending", "Hace 3 días"),
    PortfolioClient("4", "Layla Hassan", "Premium", "$2.3M", "Retail", "bajo", "compliant", "Hace 5 días"),
    PortfolioClient("5", "David Okonkwo", "Premium", "$1.5M", "Consultoría", "alto", "warning", "Hace 2 semanas")
  ]

  /** `matchesSearch && matchesSegment`. */
  predicate Keeps(c: PortfolioClient, searchTerm: string, filterSegment: string)
  {
    Contains(ToLower(c.name), ToLower(searchTerm)) && (filterSegment == "all" || c.segment == filterSegment)
  }

  function KeepsFor(searchTerm: string, filterSegment: string): PortfolioClient -> bool
  {
    (c: PortfolioClient) => Keeps(c, searchTerm, filterSegment)
  }

  /** `filteredClients`. */
  function FilteredClients(clients: seq<PortfolioClient>, searchTerm: string, filterSegment: string): (r: seq<PortfolioClient>)
    ensures forall k :: 0 <= k < |r| ==> Contains(ToLower(r[k].name), ToLower(searchTerm))
    ensures filterSegment != "all" ==> forall k :: 0 <= k < |r| ==> r[k].segment == filterSegment
  {
    Filter(clients, KeepsFor(searchTerm, filterSegment))
  }

  /**
   * A client is listed exactly when its lower-cased name contains the lower-cased term
   * and the segment filter is 'all' or its segment.
   */
  lemma FilteredExactly(clients: seq<PortfolioClient>, searchTerm: string, filterSegment: string)
    ensures var r := FilteredClients(clients, searchTerm, filterSegment);
      (forall k :: 0 <= k < |r| ==> r[k] in clients)
      && (forall k :: 0 <= k < |clients| && Keeps(clients[k], searchTerm, filterSegment) ==> clients[k] in r)
  {
    FilterMembers(clients, KeepsFor(searchTerm, filterSegment));
  }

  /** With an empty term and 'all', every client is listed, in order. */
  lemma NoFilterKeepsAll(clients: seq<PortfolioClient>)
    ensures FilteredClients(clients, "", "all") == clients
  {
    forall k | 0 <= k < |clients|
      ensures Keeps(clients[k], "", "all")
    {
      ContainsEmpty(ToLower(clients[k].name));
    }
    FilterAll(clients, KeepsFor("", "all"));
  }

  /** The heading `Clientes (n)`: the listed clients and the hidden ones make up the whole list. */
  lemma HeadingCount(clients: seq<PortfolioClient>, searchTerm: string, filterSegment: string)
    ensures |FilteredClients(clients, searchTerm, filterSegment)|
      + Count(clients, (c: PortfolioClient) => !Keeps(c, searchTerm, filterSegment)) == |clients|
  {
    CountSplit(clients, KeepsFor(searchTerm, filterSegment), (c: PortfolioClient) => !Keeps(c, searchTerm, filterSegment));
  }

  /**
   * The avatar fallback is `ClientProfileCard.Initials` of the name, neither upper-cased
   * nor cut: a three-word name shows three letters here and two on the profile card.
   */
  lemma FallbackKeepsEveryInitial(a: string, b: string, d: string)
    requires a != [] && b != [] && d != []
    requires ' ' !in a && ' ' !in b && ' ' !in d
    ensures |ClientProfileCard.Initials(a + " " + b + " " + d)| == 3
    ensures |ClientProfileCard.GetInitials(a + " " + b + " " + d)| == 2
  {
    var words := [a, b, d];
    assert Strings.Join(words, " ") == a + " " + b + " " + d by {
      assert Strings.Join(words[1..], " ") == b + " " + d by {
        assert words[1..][1..] == [d];
      }
    }
    ClientProfileCard.InitialsOfWords(words);
  }
}
