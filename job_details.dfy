/**
 * The job details page: the similar jobs it lists, whether the job is saved
 * or applied to, and the save, apply and external-apply handlers.
 */
module JobDetails {
  import opened Wrappers
  import opened Http
  import opened Seqs
  import opened Jobs
  import opened Browser
  import opened Api

  /** At most this many similar jobs are listed. */
  const SimilarLimit := 3

  /**
   * `results.filter(j => j.id !== id).slice(0, 3)`: the first three results
   * other than the job shown, in the service's order.
   */
  function SimilarJobs(results: seq<Job>, id: string): (r: seq<Job>)
    ensures |r| <= SimilarLimit
    ensures forall k :: 0 <= k < |r| ==> r[k].id != id && r[k] in results
    ensures |r| == if |RemoveById(results, id)| < SimilarLimit then |RemoveById(results, id)| else SimilarLimit
    ensures forall k :: 0 <= k < |r| ==> r[k] == RemoveById(results, id)[k]
  {
    Take(RemoveById(results, id), SimilarLimit)
  }

  /** When the shown job is not among the results, the similar jobs are simply the first three results. */
  lemma SimilarJobsWithoutSelf(results: seq<Job>, id: string)
    requires forall k :: 0 <= k < |results| ==> results[k].id != id
    ensures SimilarJobs(results, id) == Take(results, SimilarLimit)
  {
    RemoveByIdAbsent(results, id);
  }

  /** The fallback location sent with an application. */
  const RemoteLocation := "Remote"
  const AppliedStatus := "Applied"

  /**
   * The body of the application `handleApply` posts: the job's id, name
   * and company, the first location's name or "Remote", and the status
   * "Applied".
   */
  function ApplicationFor(id: string, job: Job): (r: ApplicationRequest)
    ensures r.jobId == id && r.jobTitle == job.name && r.company == job.companyName
    ensures r.status == AppliedStatus
    ensures r.location != ""
    ensures Truthy(FirstLocationName(job)) ==> r.location == FirstLocationName(job).value
    ensures !Truthy(FirstLocationName(job)) ==> r.location == RemoteLocation
  {
    var first := FirstLocationName(job);
    ApplicationRequest(id, job.name, job.companyName, if Truthy(first) then first.value else RemoteLocation, AppliedStatus)
  }

  /** The save request `handleSaveJob` sends. */
  datatype SaveCall = DeleteSave | PostSave(job: Option<Job>)

  class JobDetailsPage {
    /** The route's job id. */
    const id: string
    const window: Window
    var job: Option<Job>
    var loading: bool
    var isSaved: bool
    var hasApplied: bool
    var applying: bool
    var similarJobs: seq<Job>
    /** The save and unsave requests sent, oldest first. */
    var saveCalls: seq<SaveCall>
    /** The application bodies posted, oldest first. */
    var applicationsPosted: seq<ApplicationRequest>
    /** Every URL opened in a new tab, oldest first. */
    var openedTabs: seq<string>

    constructor(routeId: string, w: Window)
      ensures id == routeId && window == w && job == None && loading
      ensures !isSaved && !hasApplied && !applying && similarJobs == []
      ensures saveCalls == [] && applicationsPosted == [] && openedTabs == []
    {
      id := routeId;
      window := w;
      job := None;
      loading := true;
      isSaved := false;
      hasApplied := false;
      applying := false;
      similarJobs := [];
      saveCalls := [];
      applicationsPosted := [];
      openedTabs := [];
    }

    /**
     * `fetchJobDetails`: a success shows the job, a failure keeps what was
     * there; loading ends. The request goes to the job search service, not
     * the shared client, so no interceptor is involved.
     */
    method FetchJobDetails(response: Outcome<Job>)
      modifies this
      ensures response.Success? ==> job == Some(response.data)
      ensures response.Failure? ==> job == old(job)
      ensures !loading
      ensures isSaved == old(isSaved) && hasApplied == old(hasApplied) && applying == old(applying)
      ensures similarJobs == old(similarJobs) && saveCalls == old(saveCalls)
      ensures applicationsPosted == old(applicationsPosted) && openedTabs == old(openedTabs)
    {
      loading := true;
      if response.Success? {
        job := Some(response.data);
      }
      loading := false;
    }

    /**
     * The similar-jobs effect, which runs once the job has a name, with
     * `response` the outcome of searching for that name: a success lists
     * the similar jobs, anything else changes nothing.
     */
    method FetchSimilarJobs(response: Outcome<seq<Job>>)
      modifies this
      ensures job.Some? && Truthy(job.value.name) && response.Success? ==> similarJobs == SimilarJobs(response.data, id)
      ensures !(job.Some? && Truthy(job.value.name) && response.Success?) ==> similarJobs == old(similarJobs)
      ensures job == old(job) && loading == old(loading)
      ensures isSaved == old(isSaved) && hasApplied == old(hasApplied) && applying == old(applying)
      ensures saveCalls == old(saveCalls) && applicationsPosted == old(applicationsPosted) && openedTabs == old(openedTabs)
    {
      if job.Some? && Truthy(job.value.name) && response.Success? {
        similarJobs := SimilarJobs(response.data, id);
      }
    }

    /**
     * `checkJobStatus`, with the outcomes of the saved-flag request and of
     * the applications query for this job: only when both succeed are the
     * flags set, `hasApplied` exactly when some application came back.
     * Both requests are sent together and each passes the response
     * interceptor, whatever became of the other.
     */
    method CheckJobStatus(saved: Outcome<bool>, applied: Outcome<seq<Application>>)
      modifies this, window
      ensures window.storedToken == TokenAfter(TokenAfter(old(window.storedToken), saved), applied)
      ensures window.hrefAssignments == old(window.hrefAssignments)
        + RedirectAfter(saved, old(window.pathname)) + RedirectAfter(applied, old(window.pathname))
      ensures window.pathname == old(window.pathname)
      ensures saved.Success? && applied.Success? ==> isSaved == saved.data && (hasApplied <==> |applied.data| > 0)
      ensures !(saved.Success? && applied.Success?) ==> isSaved == old(isSaved) && hasApplied == old(hasApplied)
      ensures job == old(job) && loading == old(loading) && applying == old(applying)
      ensures similarJobs == old(similarJobs) && saveCalls == old(saveCalls)
      ensures applicationsPosted == old(applicationsPosted) && openedTabs == old(openedTabs)
    {
      Settle(window, saved);
      Settle(window, applied);
      if saved.Success? && applied.Success? {
        isSaved := saved.data;
        hasApplied := |applied.data| > 0;
      }
    }

    /**
     * `handleSaveJob`, with `response` the outcome of the request it sends:
     * a saved job is unsaved with a delete, another one saved with a post of
     * the job; the flag flips only when the request succeeds, and a failure
     * passes the response interceptor.
     */
    method SaveJob(response: Outcome<()>)
      modifies this, window
      ensures window.storedToken == TokenAfter(old(window.storedToken), response)
      ensures window.hrefAssignments == old(window.hrefAssignments) + RedirectAfter(response, old(window.pathname))
      ensures window.pathname == old(window.pathname)
      ensures saveCalls == old(saveCalls) + [if old(isSaved) then DeleteSave else PostSave(job)]
      ensures response.Success? ==> isSaved == !old(isSaved)
      ensures response.Failure? ==> isSaved == old(isSaved)
      ensures job == old(job) && loading == old(loading) && hasApplied == old(hasApplied) && applying == old(applying)
      ensures similarJobs == old(similarJobs) && applicationsPosted == old(applicationsPosted) && openedTabs == old(openedTabs)
    {
      Settle(window, response);
      if isSaved {
        saveCalls := saveCalls + [DeleteSave];
        if response.Success? {
          isSaved := false;
        }
      } else {
        saveCalls := saveCalls + [PostSave(job)];
        if response.Success? {
          isSaved := true;
        }
      }
    }

    /**
     * `handleApply`, with `response` the outcome of the post: with a job
     * loaded the application is posted and a success marks the job as
     * applied to; without one, reading its name throws before any request.
     * `applying` always ends false. The request passes the response
     * interceptor.
     */
    method Apply(response: Outcome<()>)
      modifies this, window
      ensures job.Some? ==>
        && window.storedToken == TokenAfter(old(window.storedToken), response)
        && window.hrefAssignments == old(window.hrefAssignments) + RedirectAfter(response, old(window.pathname))
      ensures job.None? ==> unchanged(window)
      ensures window.pathname == old(window.pathname)
      ensures job.Some? ==> applicationsPosted == old(applicationsPosted) + [ApplicationFor(id, job.value)]
      ensures job.None? ==> applicationsPosted == old(applicationsPosted)
      ensures job.Some? && response.Success? ==> hasApplied
      ensures !(job.Some? && response.Success?) ==> hasApplied == old(hasApplied)
      ensures !applying
      ensures job == old(job) && loading == old(loading) && isSaved == old(isSaved)
      ensures similarJobs == old(similarJobs) && saveCalls == old(saveCalls) && openedTabs == old(openedTabs)
    {
      applying := true;
      if job.Some? {
        applicationsPosted := applicationsPosted + [ApplicationFor(id, job.value)];
        Settle(window, response);
        if response.Success? {
          hasApplied := true;
        }
      }
      applying := false;
    }

    /**
     * `handleExternalApply`: with a landing page it is opened and the
     * application made as by `Apply`; without one nothing happens.
     */
    method ExternalApply(response: Outcome<()>)
      modifies this, window
      ensures var landing := if job.Some? then job.value.landingPage else None;
        && (Truthy(landing) ==> openedTabs == old(openedTabs) + [landing.value]
                                && window.storedToken == TokenAfter(old(window.storedToken), response)
                                && window.hrefAssignments == old(window.hrefAssignments) + RedirectAfter(response, old(window.pathname))
                                && applicationsPosted == old(applicationsPosted) + [ApplicationFor(id, job.value)]
                                && (response.Success? ==> hasApplied)
                                && (response.Failure? ==> hasApplied == old(hasApplied)))
        && (!Truthy(landing) ==> openedTabs == old(openedTabs) && applicationsPosted == old(applicationsPosted)
                                 && hasApplied == old(hasApplied) && applying == old(applying)
                                 && unchanged(window))
      ensures window.pathname == old(window.pathname)
      ensures job == old(job) && loading == old(loading) && isSaved == old(isSaved)
      ensures similarJobs == old(similarJobs) && saveCalls == old(saveCalls)
    {
      if job.Some? && Truthy(job.value.landingPage) {
        openedTabs := openedTabs + [job.value.landingPage.value];
        Apply(response);
      }
    }
  }
}
