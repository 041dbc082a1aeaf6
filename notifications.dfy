/**
 * The notifications page (client/src/pages/notifications.tsx): a constant list of alerts,
 * tabs that filter it by type, a count per type, and the colours and label a card takes
 * from its type and priority.
 */
module Notifications {
  import opened Wrappers
  import opened Seqs

  /** An alert; its title, description, timestamp and icon are display text only. */
  datatype Notification = Notification(id: string, kind: string, priority: string, actionLabel: Option<string>)

  const Kinds: set<string> := {"opportunity", "risk", "goal", "action"}
  const Priorities: set<string> := {"high", "medium", "low"}

  /** The fifteen alerts, in page order. */
  const AllNotifications: seq<Notification> := [
    Notification("opp-1", "opportunity", "high", Some("Ver cliente")),
    Notification("opp-2", "opportunity", "high", Some("Ver campaña")),
    Notification("opp-3", "opportunity", "medium", None),
    Notification("opp-4", "opportunity", "medium", Some("Ver perfil")),
    Notification("risk-1", "risk", "high", Some("Contactar ahora")),
    Notification("risk-2", "risk", "high", Some("Ver lista")),
    Notification("risk-3", "risk", "medium", Some("Ver detalles")),
    Notification("risk-4", "risk", "medium", Some("Investigar")),
    Notification("goal-1", "goal", "high", Some("Ver campaña")),
    Notification("goal-2", "goal", "low", None),
    Notification("goal-3", "goal", "low", None),
    Notification("action-1", "action", "high", Some("Revisar casos")),
    Notification("action-2", "action", "high", Some("Ver agenda")),
    Notification("action-3", "action", "medium", Some("Generar reporte")),
    Notification("action-4", "action", "low", Some("Reasignar"))
  ]

  function OfKind(kind: string): Notification -> bool
  {
    (n: Notification) => n.kind == kind
  }

  /**
   * `filterByType`: 'all' is the whole list; any other value keeps the notifications of
   * that type, in order.
   */
  function FilterByType(notifications: seq<Notification>, kind: string): (r: seq<Notification>)
    ensures kind == "all" ==> r == notifications
    ensures kind != "all" ==> forall k :: 0 <= k < |r| ==> r[k].kind == kind
  {
    if kind == "all" then notifications else Filter(notifications, OfKind(kind))
  }

  /**
   * For a type other than 'all' the filter keeps exactly the notifications of that type:
   * each one kept is in the list, and none of that type is lost.
   */
  lemma FilterByTypeExact(notifications: seq<Notification>, kind: string)
    requires kind != "all"
    ensures forall k :: 0 <= k < |FilterByType(notifications, kind)| ==> FilterByType(notifications, kind)[k] in notifications
    ensures forall k :: 0 <= k < |notifications| && notifications[k].kind == kind ==> notifications[k] in FilterByType(notifications, kind)
  {
    FilterMembers(notifications, OfKind(kind));
  }

  /** The filter keeps the list's order: it distributes over concatenation. */
  lemma FilterByTypeKeepsOrder(a: seq<Notification>, b: seq<Notification>, kind: string)
    ensures FilterByType(a + b, kind) == FilterByType(a, kind) + FilterByType(b, kind)
  {
    if kind != "all" {
      FilterConcat(a, b, OfKind(kind));
    }
  }

  /** `opportunityCount`, `riskCount`, `goalCount` and `actionCount`. */
  datatype TypeCounts = TypeCounts(opportunity: nat, risk: nat, goal: nat, action: nat)

  function CountTypes(notifications: seq<Notification>): (c: TypeCounts)
    ensures c.opportunity == |FilterByType(notifications, "opportunity")|
    ensures c.risk == |FilterByType(notifications, "risk")|
    ensures c.goal == |FilterByType(notifications, "goal")|
    ensures c.action == |FilterByType(notifications, "action")|
  {
    TypeCounts(Count(notifications, OfKind("opportunity")), Count(notifications, OfKind("risk")),
      Count(notifications, OfKind("goal")), Count(notifications, OfKind("action")))
  }

  predicate FourValuedKinds(notifications: seq<Notification>)
  {
    forall k :: 0 <= k < |notifications| ==> notifications[k].kind in Kinds
  }

  /** With every type one of the four, the four tab counts add up to the "all" tab. */
  lemma {:induction false} TypeCountsSum(notifications: seq<Notification>)
    requires FourValuedKinds(notifications)
    ensures var c := CountTypes(notifications);
      c.opportunity + c.risk + c.goal + c.action == |notifications|
  {
    if notifications != [] {
      var rest := notifications[1..];
      assert FourValuedKinds(rest) by {
        forall k | 0 <= k < |rest| ensures rest[k].kind in Kinds {
          assert rest[k] == notifications[k + 1];
        }
      }
      TypeCountsSum(rest);
      CountFirst(notifications, OfKind("opportunity"));
      CountFirst(notifications, OfKind("risk"));
      CountFirst(notifications, OfKind("goal"));
      CountFirst(notifications, OfKind("action"));
      assert notifications[0].kind in Kinds;
    }
  }

  /** Every alert on the page has one of the four types. */
  lemma PageKindsFourValued()
    ensures FourValuedKinds(AllNotifications)
  {
  }

  /** `getPriorityColor`: red, yellow and blue for the three priorities, and '' for anything else. */
  function PriorityColor(priority: string): (color: string)
    ensures color == "" <==> priority !in Priorities
  {
    match priority
    case "high" => "bg-red-600/10 text-red-600 border-red-600/20"
    case "medium" => "bg-yellow-600/10 text-yellow-600 border-yellow-600/20"
    case "low" => "bg-blue-600/10 text-blue-600 border-blue-600/20"
    case _ => ""
  }

  /** `getTypeColor`: one left-border colour per type, and '' for anything else. */
  function TypeColor(kind: string): (color: string)
    ensures color == "" <==> kind !in Kinds
  {
    match kind
    case "opportunity" => "border-l-green-500"
    case "risk" => "border-l-red-500"
    case "goal" => "border-l-blue-500"
    case "action" => "border-l-yellow-500"
    case _ => ""
  }

  /** The four types have four different border colours. */
  lemma TypeColorsDistinct(a: string, b: string)
    requires a in Kinds && b in Kinds && a != b
    ensures TypeColor(a) != TypeColor(b)
  {
  }

  /** The priority badge text: 'high' Alta, 'medium' Media, anything else Baja. */
  function PriorityLabel(priority: string): (text: string)
    ensures text in {"Alta", "Media", "Baja"}
    ensures text == "Alta" <==> priority == "high"
    ensures text == "Media" <==> priority == "medium"
  {
    if priority == "high" then "Alta" else if priority == "medium" then "Media" else "Baja"
  }

  /**
   * Badge text and colour agree on the three priorities; an unrecognised priority reads
   * Baja but has no colour, unlike 'low'.
   */
  lemma PriorityLabelMatchesColor(priority: string)
    ensures priority in Priorities ==>
      (PriorityLabel(priority) == "Alta" <==> PriorityColor(priority) == "bg-red-600/10 text-red-600 border-red-600/20")
      && (PriorityLabel(priority) == "Baja" <==> PriorityColor(priority) == "bg-blue-600/10 text-blue-600 border-blue-600/20")
    ensures priority !in Priorities ==> PriorityLabel(priority) == "Baja" && PriorityColor(priority) == ""
  {
  }
}
