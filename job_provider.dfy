/**
 * The job context: the signed-in user's saved jobs and applications, and
 * the operations that change them after the server has accepted the change.
 */
module JobProvider {
  import opened Wrappers
  import opened Http
  import opened Jobs
  import opened Api
  import AuthProvider

  class JobStore {
    const auth: AuthProvider.Session
    var savedJobs: seq<Job>
    var applications: seq<Application>
    /** Every body posted to `/applications`, oldest first. */
    var applicationRequests: seq<ApplicationRequest>

    constructor(session: AuthProvider.Session)
      ensures auth == session && savedJobs == [] && applications == [] && applicationRequests == []
    {
      auth := session;
      savedJobs := [];
      applications := [];
      applicationRequests := [];
    }

    /** The context's `savedJobs`: the stored list while signed in, empty otherwise. */
    function ExposedSavedJobs(): (r: seq<Job>)
      reads this, auth
      ensures !auth.isAuthenticated ==> r == []
      ensures auth.isAuthenticated ==> r == savedJobs
    {
      if auth.isAuthenticated then savedJobs else []
    }

    /** The context's `applications`: the stored list while signed in, empty otherwise. */
    function ExposedApplications(): (r: seq<Application>)
      reads this, auth
      ensures !auth.isAuthenticated ==> r == []
      ensures auth.isAuthenticated ==> r == applications
    {
      if auth.isAuthenticated then applications else []
    }

    /**
     * The effect run when `isAuthenticated` changes: while signed in, the
     * saved jobs and then the applications are fetched, each replacing its
     * list on success and left alone on failure; signed out, nothing is
     * requested. Both requests pass the response interceptor in turn.
     */
    method Refresh(saved: Outcome<seq<Job>>, applied: Outcome<seq<Application>>)
      modifies this, auth.window
      ensures auth.window.pathname == old(auth.window.pathname)
      ensures auth.isAuthenticated ==>
        && auth.window.storedToken == TokenAfter(TokenAfter(old(auth.window.storedToken), saved), applied)
        && auth.window.hrefAssignments == old(auth.window.hrefAssignments)
          + RedirectAfter(saved, old(auth.window.pathname)) + RedirectAfter(applied, old(auth.window.pathname))
      ensures !auth.isAuthenticated ==> unchanged(auth.window)
      ensures auth.isAuthenticated && saved.Success? ==> savedJobs == saved.data
      ensures !(auth.isAuthenticated && saved.Success?) ==> savedJobs == old(savedJobs)
      ensures auth.isAuthenticated && applied.Success? ==> applications == applied.data
      ensures !(auth.isAuthenticated && applied.Success?) ==> applications == old(applications)
      ensures applicationRequests == old(applicationRequests)
    {
      if auth.isAuthenticated {
        Settle(auth.window, saved);
        Settle(auth.window, applied);
        if saved.Success? {
          savedJobs := saved.data;
        }
        if applied.Success? {
          applications := applied.data;
        }
      }
    }

    /**
     * `saveJob`, with `posted` the outcome of `POST /jobs/<id>/save`: the job
     * is appended only once the server accepted it; a failure passes the
     * response interceptor and is re-thrown.
     */
    method SaveJob(job: Job, posted: Outcome<()>) returns (thrown: Option<HttpError>)
      modifies this, auth.window
      ensures auth.window.storedToken == TokenAfter(old(auth.window.storedToken), posted)
      ensures auth.window.hrefAssignments == old(auth.window.hrefAssignments) + RedirectAfter(posted, old(auth.window.pathname))
      ensures auth.window.pathname == old(auth.window.pathname)
      ensures posted.Success? ==> thrown == None && savedJobs == old(savedJobs) + [job]
      ensures posted.Failure? ==> thrown == Some(posted.error) && savedJobs == old(savedJobs)
      ensures applications == old(applications) && applicationRequests == old(applicationRequests)
    {
      Settle(auth.window, posted);
      match posted
      case Success(_) =>
        savedJobs := savedJobs + [job];
        thrown := None;
      case Failure(e) =>
        thrown := Some(e);
    }

    /**
     * `unsaveJob`, with `deleted` the outcome of `DELETE /jobs/<id>/save`:
     * every job with that id is dropped, the others kept in order; a failure
     * passes the response interceptor and is re-thrown.
     */
    method UnsaveJob(jobId: string, deleted: Outcome<()>) returns (thrown: Option<HttpError>)
      modifies this, auth.window
      ensures auth.window.storedToken == TokenAfter(old(auth.window.storedToken), deleted)
      ensures auth.window.hrefAssignments == old(auth.window.hrefAssignments) + RedirectAfter(deleted, old(auth.window.pathname))
      ensures auth.window.pathname == old(auth.window.pathname)
      ensures deleted.Success? ==> thrown == None && savedJobs == RemoveById(old(savedJobs), jobId)
      ensures deleted.Failure? ==> thrown == Some(deleted.error) && savedJobs == old(savedJobs)
      ensures applications == old(applications) && applicationRequests == old(applicationRequests)
    {
      Settle(auth.window, deleted);
      match deleted
      case Success(_) =>
        savedJobs := RemoveById(savedJobs, jobId);
        thrown := None;
      case Failure(e) =>
        thrown := Some(e);
    }

    /**
     * `applyToJob`, with `created` the outcome of posting `request` to
     * `/applications`: the request is recorded, the server's record is appended and returned; a
     * failure passes the response interceptor and is re-thrown with the list
     * unchanged.
     */
    method ApplyToJob(request: ApplicationRequest, created: Outcome<Application>)
      returns (r: Outcome<Application>)
      modifies this, auth.window
      ensures auth.window.storedToken == TokenAfter(old(auth.window.storedToken), created)
      ensures auth.window.hrefAssignments == old(auth.window.hrefAssignments) + RedirectAfter(created, old(auth.window.pathname))
      ensures auth.window.pathname == old(auth.window.pathname)
      ensures r == created
      ensures created.Success? ==> applications == old(applications) + [created.data]
      ensures created.Failure? ==> applications == old(applications)
      ensures savedJobs == old(savedJobs)
      ensures applicationRequests == old(applicationRequests) + [request]
    {
      applicationRequests := applicationRequests + [request];
      Settle(auth.window, created);
      r := created;
      if created.Success? {
        applications := applications + [created.data];
      }
    }
  }
}
