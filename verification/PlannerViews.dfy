/** What the planner knows of simulation views: for each, the view it was opened over and the
    pods it has filed itself.  Views are kept in the order in which they were opened. */
module PlannerViews {
  import opened ApiObjects

  type Pod = Key

  /** Of the pods a view holds itself, `bound` have a node (or are gone) and `kept` have none. */
  datatype ViewRecord = ViewRecord(over: nat, bound: set<Pod>, kept: set<Pod>)

  ghost predicate Ordered(views: seq<ViewRecord>) {
    views != [] && forall i :: 0 < i < |views| ==> views[i].over < i
  }

  /** Of `pods`, those a view still shows as unscheduled: what it holds itself decides, and for
      the rest the view it was opened over. */
  function Unscheduled(views: seq<ViewRecord>, pods: set<Pod>, i: nat): (left: set<Pod>)
    requires Ordered(views) && i < |views|
    ensures left <= pods
  {
    ((if i == 0 then {} else Unscheduled(views, pods, views[i].over)) - views[i].bound) + views[i].kept * pods
  }

  function Open(views: seq<ViewRecord>, over: nat): seq<ViewRecord> {
    views + [ViewRecord(over, {}, {})]
  }

  /** What writes through a view do to it: pods it showed as unscheduled are bound, and others
      are copied into it as they are. */
  function Write(views: seq<ViewRecord>, i: nat, left: set<Pod>, binds: set<Pod>, copies: set<Pod>): seq<ViewRecord>
    requires i < |views|
  {
    var r := views[i];
    views[i := ViewRecord(r.over, r.bound + binds + (copies - left), r.kept + copies * left - binds)]
  }

  /** Opening a view changes no other; the new one shows what its delegate shows. */
  lemma {:induction false} OpenKeepsUnscheduled(views: seq<ViewRecord>, pods: set<Pod>, over: nat, i: nat)
    requires Ordered(views) && over < |views| && i <= |views|
    ensures Ordered(Open(views, over))
    ensures Unscheduled(Open(views, over), pods, i) == Unscheduled(views, pods, if i == |views| then over else i)
    decreases i
  {
    if i == |views| {
      OpenKeepsUnscheduled(views, pods, over, over);
    } else if i > 0 {
      OpenKeepsUnscheduled(views, pods, over, views[i].over);
    }
  }

  /** Writes through a view take exactly the bound pods away from it, and no view gains any; views
      over it lose bound pods at most, and none that they hold themselves. */
  lemma {:induction false} WriteLowersUnscheduled(
    views: seq<ViewRecord>, pods: set<Pod>, v: nat, binds: set<Pod>, copies: set<Pod>, i: nat)
    requires Ordered(views) && v < |views| && i < |views|
    requires binds <= Unscheduled(views, pods, v)
    ensures var views' := Write(views, v, Unscheduled(views, pods, v), binds, copies);
      Ordered(views') &&
      Unscheduled(views, pods, i) - binds <= Unscheduled(views', pods, i) <= Unscheduled(views, pods, i) &&
      (i < v ==> Unscheduled(views', pods, i) == Unscheduled(views, pods, i)) &&
      (i == v ==> Unscheduled(views', pods, i) == Unscheduled(views, pods, i) - binds) &&
      (i != v ==> views[i].kept * pods <= Unscheduled(views', pods, i))
    decreases i
  {
    if i > 0 {
      WriteLowersUnscheduled(views, pods, v, binds, copies, views[i].over);
    }
  }
}
