/**
 * The simulated deployment history tool (tools/deployments.py): the deployments
 * of one service (or of all), newest first, at most `limit` of them.
 */
module Deployments {
  import opened Wrappers
  import opened Text
  import opened Lists
  import Sorting
  import Json

  /** A deployment record; fields other than these travel along in `details`. */
  datatype Deployment = Deployment(
    timestamp: string,
    service: string,
    commitHash: string,
    commitMessage: string,
    details: map<string, Json.Value>)

  /** The sort key `lambda x: x["timestamp"]`. */
  function Timestamp(d: Deployment): string {
    d.timestamp
  }

  /** The default of the `limit` parameter. */
  const DefaultLimit: int := 5

  /** `if service:` filter: the deployments of `service`, or all of them when it is absent or empty. */
  function Selected(deployments: seq<Deployment>, service: Option<string>): (r: seq<Deployment>)
    ensures forall d :: d in r <==> d in deployments && (Truthy(service) ==> d.service == service.value)
    ensures !Truthy(service) ==> r == deployments
  {
    if Truthy(service) then
      var r := Keep(deployments, (d: Deployment) => d.service == service.value);
      KeepMembers(deployments, (d: Deployment) => d.service == service.value);
      assert forall d :: d in deployments ==> exists i :: 0 <= i < |deployments| && deployments[i] == d;
      r
    else deployments
  }

  /**
   * `get_recent_deployments(service, limit)` over the deployment list: the
   * selected deployments sorted newest first, cut to `deployments[:limit]`
   * (a negative `limit` counts from the end, as in Python); an omitted `limit`
   * is `DefaultLimit`.
   */
  method GetRecentDeployments(deployments: seq<Deployment>, service: Option<string>, limit: Option<int>)
    returns (r: seq<Deployment>)
    ensures |r| == SliceIndex(limit.GetOr(DefaultLimit), |Selected(deployments, service)|)
    ensures limit.GetOr(DefaultLimit) >= 0 ==> |r| <= limit.GetOr(DefaultLimit)
    ensures limit.None? ==> |r| <= DefaultLimit
    ensures multiset(r) <= multiset(Selected(deployments, service))
    ensures forall d :: d in r ==> d in deployments && (Truthy(service) ==> d.service == service.value)
    ensures Sorting.SortedBy(r, Timestamp, true)
    ensures forall d, i :: d in multiset(Selected(deployments, service)) - multiset(r) && 0 <= i < |r| ==>
              StrLe(d.timestamp, r[i].timestamp)
  {
    var selected := Selected(deployments, service);
    var a := new Deployment[|selected|](i requires 0 <= i < |selected| => selected[i]);
    assert a[..] == selected;
    Sorting.Sort(a, Timestamp, true);
    var sorted := a[..];
    r := PySlice(sorted, 0, limit.GetOr(DefaultLimit));
    assert r == sorted[..|r|];
    NewestFirstPrefix(sorted, |r|);
    assert multiset(selected) - multiset(r) == multiset(sorted[|r|..]);
    assert forall d :: d in r ==> d in multiset(selected);
  }

  /**
   * A prefix of a newest-first list: it is itself newest first, and nothing
   * left out is newer than anything kept.
   */
  lemma NewestFirstPrefix(sorted: seq<Deployment>, k: nat)
    requires k <= |sorted| && Sorting.SortedBy(sorted, Timestamp, true)
    ensures Sorting.SortedBy(sorted[..k], Timestamp, true)
    ensures multiset(sorted) - multiset(sorted[..k]) == multiset(sorted[k..])
    ensures multiset(sorted[..k]) <= multiset(sorted)
    ensures forall d, i :: d in multiset(sorted[k..]) && 0 <= i < k ==> StrLe(d.timestamp, sorted[..k][i].timestamp)
  {
    assert sorted == sorted[..k] + sorted[k..];
    forall d, i | d in multiset(sorted[k..]) && 0 <= i < k
      ensures StrLe(d.timestamp, sorted[i].timestamp)
    {
      var m :| 0 <= m < |sorted[k..]| && sorted[k..][m] == d;
      assert sorted[k + m] == d && sorted[..k][i] == sorted[i];
    }
  }
}
