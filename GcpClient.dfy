/**
 * `src/gcp_client.py`: the billing-account lookup and the GKE cluster status
 * tally. The Cloud Billing and Cluster Manager clients are replaced by the
 * responses they give.
 */
module GcpClient {
  import opened Wrappers
  import opened Dicts

  // ---------------------------------------------------------------------
  // get_billing_account_for_project
  // ---------------------------------------------------------------------

  /** What `get_project_billing_info` answers, or which exception it raises. */
  datatype BillingResponse =
    | BillingInfo(billingEnabled: bool, billingAccountName: string)
    | BillingNotFound
    | BillingPermissionDenied
    | BillingCredentialError
    | BillingOtherError(message: string)

  /**
   * The account name when billing is enabled; `None` when it is disabled and
   * for not-found, permission-denied and any other error; only a credential
   * error is raised again.
   */
  function GetBillingAccountForProject(response: BillingResponse): (r: Outcome<Option<string>>)
    ensures !r.RaisedOther?
    ensures r.RaisedCredential? <==> response.BillingCredentialError?
    ensures r.Returned? && r.value.Some? <==> response.BillingInfo? && response.billingEnabled
    ensures r.Returned? && r.value.Some? ==> r.value.value == response.billingAccountName
  {
    match response
    case BillingInfo(enabled, name) => if enabled then Returned(Some(name)) else Returned(None)
    case BillingNotFound => Returned(None)
    case BillingPermissionDenied => Returned(None)
    case BillingCredentialError => RaisedCredential
    case BillingOtherError(_) => Returned(None)
  }

  // ---------------------------------------------------------------------
  // get_gke_summary
  // ---------------------------------------------------------------------

  /** Constructing `ClusterManagerClient()`. */
  datatype ClientResponse = ClientReady | ClientCredentialError | ClientOtherError(message: string)

  /** `list_clusters` at one location: the status names of its clusters, or an exception. */
  datatype ClustersResponse =
    | Clusters(statuses: seq<string>)
    | LocationNotFound
    | LocationPermissionDenied
    | LocationOtherError(message: string)

  /** The Cluster Manager API as seen by the tally: one response per location. */
  type ClusterApi = string -> ClustersResponse

  /** The location that asks for every location in one call. */
  const Wildcard: string := "-"
  const Running: string := "RUNNING"
  const Stopped: string := "STOPPED"
  const PermissionDeniedStatus: string := "PERMISSION_DENIED"
  const ErrorStatus: string := "ERROR"

  /** `locations if locations else ["-"]`. */
  function LocationsToCheck(locations: Option<seq<string>>): (r: seq<string>)
    ensures r != []
    ensures locations == None || locations == Some([]) ==> r == [Wildcard]
    ensures locations.Some? && locations.value != [] ==> r == locations.value
  {
    if locations.Some? && locations.value != [] then locations.value else [Wildcard]
  }

  /** Counting the clusters of one response: one increment per cluster, in order. */
  function AddStatuses(d: Dict, statuses: seq<string>): Dict
  {
    if statuses == [] then d
    else Inc(AddStatuses(d, statuses[..|statuses| - 1]), statuses[|statuses| - 1])
  }

  /**
   * The loop over `locations_to_check`, from tally `d`: not-found and a
   * permission error at a named location move on, a permission error at the
   * wildcard counts once and ends the loop, any other error counts once.
   */
  function ScanLocations(d: Dict, locations: seq<string>, api: ClusterApi): Dict
    decreases |locations|
  {
    if locations == [] then d
    else
      var loc := locations[0];
      match api(loc)
      case Clusters(statuses) => ScanLocations(AddStatuses(d, statuses), locations[1..], api)
      case LocationNotFound => ScanLocations(d, locations[1..], api)
      case LocationPermissionDenied =>
        if loc == Wildcard then Inc(d, PermissionDeniedStatus) else ScanLocations(d, locations[1..], api)
      case LocationOtherError(_) => ScanLocations(Inc(d, ErrorStatus), locations[1..], api)
  }

  /** `if k not in d: d[k] = 0`. */
  function AddMissing(d: Dict, k: string): (r: Dict)
    ensures Has(r, k)
    ensures forall j :: Get(r, j) == Get(d, j)
    ensures |r| >= |d| && r[..|d|] == d
    ensures forall j :: Has(r, j) <==> Has(d, j) || j == k
    ensures DistinctKeys(d) ==> DistinctKeys(r)
    ensures NonNegative(d) ==> NonNegative(r)
  {
    if Has(d, k) then d
    else
      SetGet(d, k, 0);
      SetKeys(d, k, 0);
      var r := Set(d, k, 0);
      assert r[..|d|] == d;
      assert DistinctKeys(d) ==> DistinctKeys(r) by {
        if DistinctKeys(d) { SetDistinct(d, k, 0); }
      }
      assert NonNegative(d) ==> NonNegative(r) by {
        if NonNegative(d) { SetNonNegative(d, k, 0); }
      }
      r
  }

  /**
   * The two insertions after the loop: RUNNING and STOPPED are added with
   * count 0 when missing, and nothing already present changes.
   */
  function Normalize(d: Dict): (r: Dict)
    ensures Has(r, Running) && Has(r, Stopped)
    ensures forall k :: Get(r, k) == Get(d, k)
    ensures |r| >= |d| && r[..|d|] == d
    ensures forall k :: Has(r, k) <==> Has(d, k) || k == Running || k == Stopped
    ensures DistinctKeys(d) ==> DistinctKeys(r)
    ensures NonNegative(d) ==> NonNegative(r)
  {
    var withRunning := AddMissing(d, Running);
    var r := AddMissing(withRunning, Stopped);
    assert r[..|d|] == withRunning[..|withRunning|][..|d|];
    r
  }

  /** What `get_gke_summary` returns or raises. */
  function GkeSummary(locations: Option<seq<string>>, client: ClientResponse, api: ClusterApi): Outcome<Dict>
  {
    match client
    case ClientCredentialError => RaisedCredential
    case ClientOtherError(_) => Returned(Normalize(Inc([], ErrorStatus)))
    case ClientReady => Returned(Normalize(ScanLocations([], LocationsToCheck(locations), api)))
  }

  /** The inner loop of `get_gke_summary`: `cluster_summary[status] += 1` per cluster. */
  method CountClusters(summary: Dict, statuses: seq<string>) returns (r: Dict)
    ensures r == AddStatuses(summary, statuses)
  {
    r := summary;
    var j := 0;
    while j < |statuses|
      invariant 0 <= j <= |statuses|
      invariant r == AddStatuses(summary, statuses[..j])
    {
      assert statuses[..j + 1][..j] == statuses[..j];
      r := Inc(r, statuses[j]);
      j := j + 1;
    }
    assert statuses[..|statuses|] == statuses;
  }

  /** `get_gke_summary`: nested loops that update the tally in place. */
  method GetGkeSummary(locations: Option<seq<string>>, client: ClientResponse, api: ClusterApi)
    returns (r: Outcome<Dict>)
    ensures r == GkeSummary(locations, client, api)
  {
    var summary: Dict := [];
    match client {
      case ClientCredentialError =>
        return RaisedCredential;
      case ClientOtherError(_) =>
        summary := Inc(summary, ErrorStatus);
      case ClientReady =>
        var toCheck := LocationsToCheck(locations);
        var i := 0;
        while i < |toCheck|
          invariant 0 <= i <= |toCheck|
          invariant ScanLocations(summary, toCheck[i..], api) == ScanLocations([], toCheck, api)
        {
          var loc := toCheck[i];
          assert toCheck[i..][1..] == toCheck[i + 1..];
          match api(loc) {
            case Clusters(statuses) =>
              summary := CountClusters(summary, statuses);
            case LocationNotFound =>
            case LocationPermissionDenied =>
              if loc == Wildcard {
                summary := Inc(summary, PermissionDeniedStatus);
                break;
              }
            case LocationOtherError(_) =>
              summary := Inc(summary, ErrorStatus);
          }
          i := i + 1;
        }
    }
    if !Has(summary, Running) {
      summary := Set(summary, Running, 0);
    }
    if !Has(summary, Stopped) {
      summary := Set(summary, Stopped, 0);
    }
    return Returned(summary);
  }

  // ---------------------------------------------------------------------
  // Properties of the tally
  // ---------------------------------------------------------------------

  /** Each listed cluster adds exactly one to its own status and nothing else. */
  lemma {:induction false} AddStatusesCount(d: Dict, statuses: seq<string>, k: string)
    ensures Get(AddStatuses(d, statuses), k) == Get(d, k) + multiset(statuses)[k]
    decreases |statuses|
  {
    if statuses != [] {
      var n := |statuses|;
      AddStatusesCount(d, statuses[..n - 1], k);
      assert statuses == statuses[..n - 1] + [statuses[n - 1]];
    }
  }

  /** The locations the loop looks at: all of them, or up to and including a wildcard that was denied. */
  function Examined(locations: seq<string>, api: ClusterApi): (e: seq<string>)
    ensures |e| <= |locations| && e == locations[..|e|]
  {
    if locations == [] then []
    else if locations[0] == Wildcard && api(locations[0]).LocationPermissionDenied? then [locations[0]]
    else [locations[0]] + Examined(locations[1..], api)
  }

  /** How much one location's response adds to the count of status `k`. */
  function Contribution(loc: string, response: ClustersResponse, k: string): nat
  {
    match response
    case Clusters(statuses) => multiset(statuses)[k]
    case LocationNotFound => 0
    case LocationPermissionDenied => if loc == Wildcard && k == PermissionDeniedStatus then 1 else 0
    case LocationOtherError(_) => if k == ErrorStatus then 1 else 0
  }

  function TotalContribution(locations: seq<string>, api: ClusterApi, k: string): nat
  {
    if locations == [] then 0
    else Contribution(locations[0], api(locations[0]), k) + TotalContribution(locations[1..], api, k)
  }

  /**
   * The count of every status is what it was plus the sum of what the
   * examined locations contribute.
   */
  lemma {:induction false} ScanCounts(d: Dict, locations: seq<string>, api: ClusterApi, k: string)
    ensures Get(ScanLocations(d, locations, api), k) == Get(d, k) + TotalContribution(Examined(locations, api), api, k)
    decreases |locations|
  {
    if locations != [] {
      var loc := locations[0];
      var rest := locations[1..];
      match api(loc)
      case Clusters(statuses) =>
        AddStatusesCount(d, statuses, k);
        ScanCounts(AddStatuses(d, statuses), rest, api, k);
      case LocationNotFound =>
        ScanCounts(d, rest, api, k);
      case LocationPermissionDenied =>
        if loc != Wildcard { ScanCounts(d, rest, api, k); }
      case LocationOtherError(_) =>
        ScanCounts(Inc(d, ErrorStatus), rest, api, k);
    }
  }

  /** Only a denied wildcard cuts the scan short; without one every location is examined. */
  lemma {:induction false} ExaminedAll(locations: seq<string>, api: ClusterApi)
    requires forall i :: 0 <= i < |locations| ==> !(locations[i] == Wildcard && api(locations[i]).LocationPermissionDenied?)
    ensures Examined(locations, api) == locations
    decreases |locations|
  {
    if locations != [] {
      assert !(locations[0] == Wildcard && api(locations[0]).LocationPermissionDenied?);
      ExaminedAll(locations[1..], api);
    }
  }

  /** Once the wildcard is denied, no later location is looked at: whatever follows changes nothing. */
  lemma {:induction false} WildcardDenialStops(d: Dict, before: seq<string>, after: seq<string>, api: ClusterApi)
    requires api(Wildcard).LocationPermissionDenied?
    ensures ScanLocations(d, before + [Wildcard] + after, api) == ScanLocations(d, before + [Wildcard], api)
    decreases |before|
  {
    var all := before + [Wildcard] + after;
    var cut := before + [Wildcard];
    if before == [] {
      assert all[0] == Wildcard && cut[0] == Wildcard;
    } else {
      assert all[0] == before[0] && cut[0] == before[0];
      assert all[1..] == before[1..] + [Wildcard] + after;
      assert cut[1..] == before[1..] + [Wildcard];
      match api(before[0])
      case Clusters(statuses) =>
        WildcardDenialStops(AddStatuses(d, statuses), before[1..], after, api);
      case LocationNotFound =>
        WildcardDenialStops(d, before[1..], after, api);
      case LocationPermissionDenied =>
        if before[0] != Wildcard { WildcardDenialStops(d, before[1..], after, api); }
      case LocationOtherError(_) =>
        WildcardDenialStops(Inc(d, ErrorStatus), before[1..], after, api);
    }
  }

  lemma {:induction false} AddStatusesInvariant(d: Dict, statuses: seq<string>)
    requires DistinctKeys(d) && NonNegative(d)
    ensures DistinctKeys(AddStatuses(d, statuses)) && NonNegative(AddStatuses(d, statuses))
    decreases |statuses|
  {
    if statuses != [] {
      var prefix := statuses[..|statuses| - 1];
      AddStatusesInvariant(d, prefix);
      IncDistinct(AddStatuses(d, prefix), statuses[|statuses| - 1]);
      IncNonNegative(AddStatuses(d, prefix), statuses[|statuses| - 1]);
    }
  }

  lemma {:induction false} ScanInvariant(d: Dict, locations: seq<string>, api: ClusterApi)
    requires DistinctKeys(d) && NonNegative(d)
    ensures DistinctKeys(ScanLocations(d, locations, api)) && NonNegative(ScanLocations(d, locations, api))
    decreases |locations|
  {
    if locations != [] {
      match api(locations[0])
      case Clusters(statuses) =>
        AddStatusesInvariant(d, statuses);
        ScanInvariant(AddStatuses(d, statuses), locations[1..], api);
      case LocationNotFound =>
        ScanInvariant(d, locations[1..], api);
      case LocationPermissionDenied =>
        if locations[0] != Wildcard {
          ScanInvariant(d, locations[1..], api);
        } else {
          IncDistinct(d, PermissionDeniedStatus);
          IncNonNegative(d, PermissionDeniedStatus);
        }
      case LocationOtherError(_) =>
        IncDistinct(d, ErrorStatus);
        IncNonNegative(d, ErrorStatus);
        ScanInvariant(Inc(d, ErrorStatus), locations[1..], api);
    }
  }

  /**
   * What `get_gke_summary` promises: a credential error at client construction
   * propagates; otherwise the result is a dict (distinct keys) of non-negative
   * counts holding RUNNING and STOPPED; any other construction failure gives
   * ERROR = 1 and nothing else positive; with a client, every status count is
   * the sum of the examined locations' contributions.
   */
  lemma GkeSummaryProperties(locations: Option<seq<string>>, client: ClientResponse, api: ClusterApi)
    ensures GkeSummary(locations, client, api).RaisedCredential? <==> client.ClientCredentialError?
    ensures !GkeSummary(locations, client, api).RaisedOther?
    ensures GkeSummary(locations, client, api).Returned? ==>
      var t := GkeSummary(locations, client, api).value;
      Has(t, Running) && Has(t, Stopped) && DistinctKeys(t) && NonNegative(t)
    ensures client.ClientOtherError? ==>
      var t := GkeSummary(locations, client, api).value;
      Get(t, ErrorStatus) == 1 && forall k :: k != ErrorStatus ==> Get(t, k) == 0
    ensures client.ClientReady? ==>
      var t := GkeSummary(locations, client, api).value;
      forall k :: Get(t, k) == TotalContribution(Examined(LocationsToCheck(locations), api), api, k)
  {
    match client
    case ClientCredentialError =>
    case ClientOtherError(_) =>
      IncDistinct([], ErrorStatus);
      IncNonNegative([], ErrorStatus);
    case ClientReady =>
      var toCheck := LocationsToCheck(locations);
      ScanInvariant([], toCheck, api);
      forall k ensures Get(ScanLocations([], toCheck, api), k) == TotalContribution(Examined(toCheck, api), api, k) {
        ScanCounts([], toCheck, api, k);
      }
  }
}
