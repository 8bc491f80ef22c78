/**
 * The job search page: the five filters and the query, the page counter,
 * and how each search response replaces or extends the job list.
 */
module JobSearch {
  import opened Wrappers
  import opened Http
  import opened Jobs

  /** The filter names `handleFilterChange` is called with. */
  datatype FilterName = Location | JobType | ExperienceLevel | SalaryMin | SalaryMax

  datatype Filters = Filters(
    location: string,
    jobType: string,
    experienceLevel: string,
    salaryMin: string,
    salaryMax: string)

  const EmptyFilters := Filters("", "", "", "", "")

  function Get(f: Filters, name: FilterName): string {
    match name
    case Location => f.location
    case JobType => f.jobType
    case ExperienceLevel => f.experienceLevel
    case SalaryMin => f.salaryMin
    case SalaryMax => f.salaryMax
  }

  /** `{ ...filters, [filterName]: value }`: the named filter takes the value, every other filter keeps its own. */
  function With(f: Filters, name: FilterName, value: string): (r: Filters)
    ensures Get(r, name) == value
    ensures forall other :: other != name ==> Get(r, other) == Get(f, other)
  {
    match name
    case Location => f.(location := value)
    case JobType => f.(jobType := value)
    case ExperienceLevel => f.(experienceLevel := value)
    case SalaryMin => f.(salaryMin := value)
    case SalaryMax => f.(salaryMax := value)
  }

  /** `hasActiveFilters`: some filter value is not empty, that is, the filters are not the cleared ones. */
  predicate HasActiveFilters(f: Filters) {
    f.location != "" || f.jobType != "" || f.experienceLevel != ""
    || f.salaryMin != "" || f.salaryMax != ""
  }

  /** The filters are active exactly when some named filter is non-empty, and exactly when they differ from the cleared filters. */
  lemma HasActiveFiltersMeans(f: Filters)
    ensures HasActiveFilters(f) <==> exists name :: Get(f, name) != ""
    ensures HasActiveFilters(f) <==> f != EmptyFilters
  {
    if HasActiveFilters(f) {
      if f.location != "" { assert Get(f, Location) != ""; }
      else if f.jobType != "" { assert Get(f, JobType) != ""; }
      else if f.experienceLevel != "" { assert Get(f, ExperienceLevel) != ""; }
      else if f.salaryMin != "" { assert Get(f, SalaryMin) != ""; }
      else { assert Get(f, SalaryMax) != ""; }
    }
  }

  /** Setting a filter to a non-empty value makes the filters active; clearing every filter makes them inactive. */
  lemma FilterChangeActivates(f: Filters, name: FilterName, value: string)
    requires value != ""
    ensures HasActiveFilters(With(f, name, value))
    ensures !HasActiveFilters(EmptyFilters)
  {
    HasActiveFiltersMeans(With(f, name, value));
  }

  /**
   * The parameters of `searchJobs`: the debounced query, the location, the
   * experience level as `level`, the page, and every filter spread over
   * them.
   */
  datatype SearchRequest = SearchRequest(
    query: string,
    location: string,
    level: string,
    page: int,
    jobType: string,
    experienceLevel: string,
    salaryMin: string,
    salaryMax: string)

  function RequestFor(query: string, f: Filters, page: int): (r: SearchRequest)
    ensures r.query == query && r.page == page
    ensures r.location == Get(f, Location) && r.jobType == Get(f, JobType)
    ensures r.level == Get(f, ExperienceLevel) && r.experienceLevel == Get(f, ExperienceLevel)
    ensures r.salaryMin == Get(f, SalaryMin) && r.salaryMax == Get(f, SalaryMax)
  {
    SearchRequest(query, f.location, f.experienceLevel, page, f.jobType, f.experienceLevel, f.salaryMin, f.salaryMax)
  }

  /** A page of search results with the service's page number and page count. */
  datatype SearchResponse = SearchResponse(results: seq<Job>, page: int, pageCount: int)

  class JobSearchPage {
    var searchQuery: string
    var filters: Filters
    var jobs: seq<Job>
    var loading: bool
    var page: int
    var hasMore: bool
    /** Every search sent, oldest first. */
    var requests: seq<SearchRequest>

    /** The page counter never drops below the first page. */
    predicate Valid()
      reads this
    {
      page >= 1
    }

    /** The initial state, from the URL's `search` and `location` parameters (`None` when absent). */
    constructor(search: Option<string>, location: Option<string>)
      ensures Valid()
      ensures searchQuery == OrEmpty(search)
      ensures filters == EmptyFilters.(location := OrEmpty(location))
      ensures jobs == [] && !loading && page == 1 && hasMore && requests == []
    {
      searchQuery := OrEmpty(search);
      filters := EmptyFilters.(location := OrEmpty(location));
      jobs := [];
      loading := false;
      page := 1;
      hasMore := true;
      requests := [];
    }

    /** The URL parameters changed: the query and the location follow them and the page resets to 1. */
    method SyncFromUrl(search: Option<string>, location: Option<string>)
      modifies this
      ensures Valid()
      ensures searchQuery == OrEmpty(search)
      ensures filters == old(filters).(location := OrEmpty(location))
      ensures page == 1
      ensures jobs == old(jobs) && hasMore == old(hasMore) && loading == old(loading) && requests == old(requests)
    {
      searchQuery := OrEmpty(search);
      filters := filters.(location := OrEmpty(location));
      page := 1;
    }

    /** `handleFilterChange`: one filter changes, the others stay, and the page resets to 1. */
    method FilterChange(name: FilterName, value: string)
      modifies this
      ensures Valid()
      ensures filters == With(old(filters), name, value)
      ensures page == 1
      ensures searchQuery == old(searchQuery)
      ensures jobs == old(jobs) && hasMore == old(hasMore) && loading == old(loading) && requests == old(requests)
    {
      filters := With(filters, name, value);
      page := 1;
    }

    /** `handleClearFilters`: every filter and the query become empty and the page resets to 1. */
    method ClearFilters()
      modifies this
      ensures Valid()
      ensures filters == EmptyFilters && !HasActiveFilters(filters)
      ensures searchQuery == "" && page == 1
      ensures jobs == old(jobs) && hasMore == old(hasMore) && loading == old(loading) && requests == old(requests)
    {
      filters := EmptyFilters;
      searchQuery := "";
      page := 1;
    }

    /** `handleLoadMore`: the next page. */
    method LoadMore()
      requires Valid()
      modifies this
      ensures Valid()
      ensures page == old(page) + 1
      ensures filters == old(filters) && searchQuery == old(searchQuery)
      ensures jobs == old(jobs) && hasMore == old(hasMore) && loading == old(loading) && requests == old(requests)
    {
      page := page + 1;
    }

    /**
     * `fetchJobs`, with `query` the debounced search text and `response`
     * the outcome of the search: the first page replaces the list, a later
     * page is appended after it, and `hasMore` says whether the service has
     * pages beyond this one; a failure changes neither.
     */
    method FetchJobs(query: string, response: Outcome<SearchResponse>)
      modifies this
      ensures requests == old(requests) + [RequestFor(query, filters, page)]
      ensures response.Success? && page == 1 ==> jobs == response.data.results
      ensures response.Success? && page != 1 ==> jobs == old(jobs) + response.data.results
      ensures response.Success? ==> hasMore == (response.data.page < response.data.pageCount)
      ensures response.Failure? ==> jobs == old(jobs) && hasMore == old(hasMore)
      ensures !loading
      ensures filters == old(filters) && searchQuery == old(searchQuery) && page == old(page)
    {
      loading := true;
      requests := requests + [RequestFor(query, filters, page)];
      if response.Success? {
        var r := response.data;
        if page == 1 {
          jobs := r.results;
        } else {
          jobs := jobs + r.results;
        }
        hasMore := r.page < r.pageCount;
      }
      loading := false;
    }
  }
}
