/**
 * The applications dashboard: the status badge each application shows, the
 * per-tab counts, and the list the page fetches for the selected tab.
 */
module Applications {
  import opened Wrappers
  import opened Text
  import opened Http
  import opened Seqs
  import opened Jobs
  import opened Browser
  import opened Api

  /** A badge's colours and caption. */
  datatype Badge = Badge(bg: string, text: string, caption: string)

  const AppliedBadge := Badge("bg-blue-100", "text-blue-700", "Applied")
  const InterviewingBadge := Badge("bg-yellow-100", "text-yellow-700", "Interviewing")
  const AcceptedBadge := Badge("bg-green-100", "text-green-700", "Accepted")
  const RejectedBadge := Badge("bg-red-100", "text-red-700", "Rejected")

  const AllFilter := "all"
  /** The keys of the status table, which are also the filter tabs besides "all". */
  const StatusKeys: seq<string> := ["applied", "interviewing", "accepted", "rejected"]

  /** `status?.toLowerCase() || "applied"` */
  function NormalizedStatus(status: Option<string>): (r: string)
    ensures r != ""
    ensures status.Some? && status.value != "" ==> r == Lower(status.value)
    ensures status.None? || status.value == "" ==> r == "applied"
  {
    if status.Some? && status.value != "" then Lower(status.value) else "applied"
  }

  /** The own entries of the status table. */
  function StatusConfig(key: string): Option<Badge> {
    if key == "applied" then Some(AppliedBadge)
    else if key == "interviewing" then Some(InterviewingBadge)
    else if key == "accepted" then Some(AcceptedBadge)
    else if key == "rejected" then Some(RejectedBadge)
    else None
  }

  /**
   * The badge for a status, looking up only the table's own entries: the
   * lower-cased status's badge when it is one of the four keys, otherwise
   * the Applied badge (a missing or empty status included).
   */
  function StatusBadge(status: Option<string>): (b: Badge)
    ensures b in [AppliedBadge, InterviewingBadge, AcceptedBadge, RejectedBadge]
    ensures NormalizedStatus(status) in StatusKeys ==> Lower(b.caption) == NormalizedStatus(status)
    ensures NormalizedStatus(status) !in StatusKeys ==> b == AppliedBadge
  {
    match StatusConfig(NormalizedStatus(status))
    case Some(b) => b
    case None => AppliedBadge
  }

  /** The status table as a JavaScript object sees it: its own keys, then what it inherits. */
  datatype Lookup = Own(badge: Badge) | Inherited | Absent

  /**
   * `statusConfig[key]` on a plain object literal: the lower-case names it
   * inherits from `Object.prototype` ("constructor" and "__proto__") find a
   * truthy value that is not a badge.
   */
  function StatusConfigAsWritten(key: string): Lookup {
    match StatusConfig(key)
    case Some(b) => Own(b)
    case None => if key == "constructor" || key == "__proto__" then Inherited else Absent
  }

  /**
   * `getStatusBadge` as written: `statusConfig[normalized] || statusConfig.applied`.
   * `None` stands for the badge rendered from an inherited value, whose
   * colours and caption are all undefined.
   */
  function StatusBadgeAsWritten(status: Option<string>): Option<Badge> {
    match StatusConfigAsWritten(NormalizedStatus(status))
    case Own(b) => Some(b)
    case Inherited => None
    case Absent => Some(AppliedBadge)
  }

  /** The status "constructor" renders a blank badge as written, where the Applied badge was intended. */
  lemma StatusBadgeConstructorBlank()
    ensures StatusBadgeAsWritten(Some("constructor")) == None
    ensures StatusBadge(Some("constructor")) == AppliedBadge
  {
    assert Lower("constructor") == "constructor";
  }

  /** Apart from the two inherited names, the code as written shows the intended badge. */
  lemma StatusBadgeAsWrittenAgrees(status: Option<string>)
    requires NormalizedStatus(status) != "constructor" && NormalizedStatus(status) != "__proto__"
    ensures StatusBadgeAsWritten(status) == Some(StatusBadge(status))
  {
  }

  /** `app.status?.toLowerCase() === filterType` */
  predicate HasStatus(app: Application, filterType: string) {
    app.status.Some? && Lower(app.status.value) == filterType
  }

  /** `getFilterCount`: every application for "all", else those whose lower-cased status is the tab's key. */
  function FilterCount(apps: seq<Application>, filterType: string): (n: nat)
    ensures n <= |apps|
    ensures filterType == AllFilter ==> n == |apps|
    ensures filterType != AllFilter ==> n == |Filter(apps, (a: Application) => HasStatus(a, filterType))|
  {
    if filterType == AllFilter then |apps|
    else |Filter(apps, (a: Application) => HasStatus(a, filterType))|
  }

  /** How many applications carry a given lower-cased status, counted one by one. */
  function CountStatus(apps: seq<Application>, key: string): nat {
    if apps == [] then 0 else (if HasStatus(apps[0], key) then 1 else 0) + CountStatus(apps[1..], key)
  }

  /** A tab's count is the number of applications with that status. */
  lemma {:induction false} FilterCountIsCount(apps: seq<Application>, key: string)
    requires key != AllFilter
    ensures FilterCount(apps, key) == CountStatus(apps, key)
  {
    if apps != [] {
      FilterCountIsCount(apps[1..], key);
      assert apps == [apps[0]] + apps[1..];
      FilterAppend([apps[0]], apps[1..], (a: Application) => HasStatus(a, key));
    }
  }

  /** The four status tabs together count no more than "all": no application is counted twice. */
  lemma {:induction false} StatusTabsWithinAll(apps: seq<Application>)
    ensures CountStatus(apps, "applied") + CountStatus(apps, "interviewing")
          + CountStatus(apps, "accepted") + CountStatus(apps, "rejected") <= FilterCount(apps, AllFilter)
  {
    if apps != [] {
      StatusTabsWithinAll(apps[1..]);
    }
  }

  /**
   * An application without a status shows the Applied badge but is not
   * counted under the Applied tab.
   */
  lemma MissingStatusNotCounted(app: Application)
    requires app.status.None?
    ensures StatusBadge(app.status) == AppliedBadge
    ensures FilterCount([app], "applied") == 0
  {
    assert Filter([app], (a: Application) => HasStatus(a, "applied")) == [];
  }

  /** The query parameters of the fetch: a `status` parameter for every tab but "all". */
  function StatusParams(filter: string): (p: map<string, string>)
    ensures filter == AllFilter ==> p == map[]
    ensures filter != AllFilter ==> p.Keys == {"status"} && p["status"] == filter
  {
    if filter != AllFilter then map["status" := filter] else map[]
  }

  /**
   * A change request sent for one application: `PUT /applications/<id>`
   * with the new status, or `DELETE /applications/<id>`.
   */
  datatype Change = StatusChange(id: string, status: string) | Removal(id: string)

  class ApplicationsPage {
    const window: Window
    var applications: seq<Application>
    var loading: bool
    var filter: string
    /** The query parameters of every fetch sent, oldest first. */
    var fetches: seq<map<string, string>>
    /** Every change request sent, oldest first. */
    var changes: seq<Change>

    constructor(w: Window)
      ensures window == w
      ensures applications == [] && loading && filter == AllFilter && fetches == [] && changes == []
    {
      window := w;
      applications := [];
      loading := true;
      filter := AllFilter;
      fetches := [];
      changes := [];
    }

    /**
     * `fetchApplications`, with `response` the outcome of the request for
     * the current tab: success replaces the list, failure passes the
     * response interceptor and keeps the list, and `loading` ends false.
     */
    method Fetch(response: Outcome<seq<Application>>)
      modifies this, window
      ensures fetches == old(fetches) + [StatusParams(filter)]
      ensures response.Success? ==> applications == response.data
      ensures response.Failure? ==> applications == old(applications)
      ensures !loading && filter == old(filter) && changes == old(changes)
      ensures window.storedToken == TokenAfter(old(window.storedToken), response)
      ensures window.hrefAssignments == old(window.hrefAssignments) + RedirectAfter(response, old(window.pathname))
      ensures window.pathname == old(window.pathname)
    {
      loading := true;
      fetches := fetches + [StatusParams(filter)];
      Settle(window, response);
      if response.Success? {
        applications := response.data;
      }
      loading := false;
    }

    /**
     * A tab click sets the filter; the effect keyed on the filter fetches
     * the list only when the key differs from the current one, so clicking
     * the active tab sends nothing and changes nothing.
     */
    method SelectTab(key: string, response: Outcome<seq<Application>>)
      modifies this, window
      ensures filter == key && changes == old(changes)
      ensures key == old(filter) ==>
        && applications == old(applications) && fetches == old(fetches) && loading == old(loading)
        && unchanged(window)
      ensures key != old(filter) ==>
        && fetches == old(fetches) + [StatusParams(key)] && !loading
        && (response.Success? ==> applications == response.data)
        && (response.Failure? ==> applications == old(applications))
        && window.storedToken == TokenAfter(old(window.storedToken), response)
        && window.hrefAssignments == old(window.hrefAssignments) + RedirectAfter(response, old(window.pathname))
        && window.pathname == old(window.pathname)
    {
      if key != filter {
        filter := key;
        Fetch(response);
      }
    }

    /**
     * `handleStatusUpdate`, which sends the new status for the application,
     * with `updated` the outcome of the update and
     * `refetched` that of the fetch that follows a success; a failed update
     * passes the response interceptor and changes nothing else.
     */
    method UpdateStatus(applicationId: string, newStatus: string, updated: Outcome<()>,
                        refetched: Outcome<seq<Application>>)
      modifies this, window
      ensures changes == old(changes) + [StatusChange(applicationId, newStatus)]
      ensures updated.Failure? ==>
        applications == old(applications) && fetches == old(fetches) && loading == old(loading)
      ensures updated.Success? ==> fetches == old(fetches) + [StatusParams(filter)] && !loading
      ensures updated.Success? && refetched.Success? ==> applications == refetched.data
      ensures updated.Success? && refetched.Failure? ==> applications == old(applications)
      ensures filter == old(filter)
      ensures updated.Failure? ==>
        && window.storedToken == TokenAfter(old(window.storedToken), updated)
        && window.hrefAssignments == old(window.hrefAssignments) + RedirectAfter(updated, old(window.pathname))
      ensures updated.Success? ==>
        && window.storedToken == TokenAfter(old(window.storedToken), refetched)
        && window.hrefAssignments == old(window.hrefAssignments) + RedirectAfter(refetched, old(window.pathname))
      ensures window.pathname == old(window.pathname)
    {
      changes := changes + [StatusChange(applicationId, newStatus)];
      Settle(window, updated);
      if updated.Success? {
        Fetch(refetched);
      }
    }

    /**
     * `handleDelete`: nothing unless the user confirms; then the delete is
     * sent for the application and, with
     * `deleted` the outcome of the delete, a success refetches the list and
     * a failure passes the response interceptor and changes nothing else.
     */
    method Delete(applicationId: string, confirmed: bool, deleted: Outcome<()>,
                  refetched: Outcome<seq<Application>>)
      modifies this, window
      ensures changes == old(changes) + (if confirmed then [Removal(applicationId)] else [])
      ensures !(confirmed && deleted.Success?) ==>
        applications == old(applications) && fetches == old(fetches) && loading == old(loading)
      ensures confirmed && deleted.Success? ==> fetches == old(fetches) + [StatusParams(filter)] && !loading
      ensures confirmed && deleted.Success? && refetched.Success? ==> applications == refetched.data
      ensures confirmed && deleted.Success? && refetched.Failure? ==> applications == old(applications)
      ensures filter == old(filter)
      ensures !confirmed ==> unchanged(window)
      ensures confirmed && deleted.Failure? ==>
        && window.storedToken == TokenAfter(old(window.storedToken), deleted)
        && window.hrefAssignments == old(window.hrefAssignments) + RedirectAfter(deleted, old(window.pathname))
      ensures confirmed && deleted.Success? ==>
        && window.storedToken == TokenAfter(old(window.storedToken), refetched)
        && window.hrefAssignments == old(window.hrefAssignments) + RedirectAfter(refetched, old(window.pathname))
      ensures window.pathname == old(window.pathname)
    {
      if !confirmed {
        return;
      }
      changes := changes + [Removal(applicationId)];
      Settle(window, deleted);
      if deleted.Success? {
        Fetch(refetched);
      }
    }
  }
}
