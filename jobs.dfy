/**
 * The job and application records the client receives from the job search
 * service and from its own server, and the list operations shared by the
 * pages that hold them.
 */
module Jobs {
  import opened Wrappers
  import opened Seqs

  /** One entry of `job.locations`. */
  datatype JobLocation = JobLocation(name: Option<string>)

  /**
   * A job posting. Every attribute but the id may be missing:
   * `name`/`title`, `company.name`, `locations`, `location`, `description`,
   * `contents` (HTML), `tags` and `refs.landing_page`.
   */
  datatype Job = Job(
    id: string,
    name: Option<string>,
    title: Option<string>,
    companyName: Option<string>,
    locations: seq<JobLocation>,
    location: Option<string>,
    description: Option<string>,
    contents: Option<string>,
    tags: seq<string>,
    landingPage: Option<string>)

  /** An application record as the server returns it. */
  datatype Application = Application(id: string, jobId: string, status: Option<string>)

  /** The body of `POST /applications`. */
  datatype ApplicationRequest = ApplicationRequest(
    jobId: string,
    jobTitle: Option<string>,
    company: Option<string>,
    location: string,
    status: string)

  /** `job.locations?.[0]?.name` */
  function FirstLocationName(job: Job): (r: Option<string>)
    ensures r.Some? ==> |job.locations| > 0 && job.locations[0].name == r
    ensures |job.locations| > 0 ==> r == job.locations[0].name
  {
    if |job.locations| > 0 then job.locations[0].name else None
  }

  /** `jobs.filter(job => job.id !== id)` */
  function RemoveById(jobs: seq<Job>, id: string): (r: seq<Job>)
    ensures |r| <= |jobs|
    ensures forall k :: 0 <= k < |r| ==> r[k].id != id
    ensures forall j :: j in r <==> j in jobs && j.id != id
  {
    Filter(jobs, (j: Job) => j.id != id)
  }

  /** Removal keeps the order: removing from a concatenation removes from each half. */
  lemma RemoveByIdAppend(a: seq<Job>, b: seq<Job>, id: string)
    ensures RemoveById(a + b, id) == RemoveById(a, id) + RemoveById(b, id)
  {
    FilterAppend(a, b, (j: Job) => j.id != id);
  }

  /** Removing an id no job carries changes nothing. */
  lemma RemoveByIdAbsent(jobs: seq<Job>, id: string)
    requires forall k :: 0 <= k < |jobs| ==> jobs[k].id != id
    ensures RemoveById(jobs, id) == jobs
  {
    FilterAllKept(jobs, (j: Job) => j.id != id);
  }

  /** Saving a job and then unsaving its id leaves what unsaving alone would leave. */
  lemma SaveThenUnsave(saved: seq<Job>, job: Job)
    ensures RemoveById(saved + [job], job.id) == RemoveById(saved, job.id)
  {
    RemoveByIdAppend(saved, [job], job.id);
    assert Filter([job], (j: Job) => j.id != job.id) == [];
  }
}
