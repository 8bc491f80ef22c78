/**
 * The saved-jobs page: the list, the unsave handler, and what each card
 * shows (count label, location, description excerpt and tag chips).
 */
module SavedJobs {
  import opened Wrappers
  import opened Text
  import opened Http
  import opened Seqs
  import opened Jobs
  import opened Browser
  import opened Api

  /** "Job" for exactly one saved job, "Jobs" for any other count. */
  function CountNoun(n: nat): (r: string)
    ensures r == "Job" <==> n == 1
    ensures r == "Jobs" <==> n != 1
  {
    if n == 1 then "Job" else "Jobs"
  }

  /** Tags shown on a card before the "+n more" chip. */
  const VisibleTagLimit := 4

  /** `tags.slice(0, 4)`: the first four tags, in order. */
  function VisibleTags(tags: seq<string>): (r: seq<string>)
    ensures |r| == if |tags| < VisibleTagLimit then |tags| else VisibleTagLimit
    ensures r == tags[..|r|]
  {
    Take(tags, VisibleTagLimit)
  }

  /** The number on the "+n more" chip, present only when there are more than four tags. */
  function MoreChip(tags: seq<string>): (r: Option<nat>)
    ensures r.Some? <==> |tags| > VisibleTagLimit
    ensures r.Some? ==> r.value >= 1
  {
    if |tags| > VisibleTagLimit then Some(|tags| - VisibleTagLimit) else None
  }

  /** Every tag is either shown or counted on the chip, never both. */
  lemma {:induction false} TagsAccounted(tags: seq<string>)
    ensures |VisibleTags(tags)| + MoreChip(tags).GetOr(0) == |tags|
    ensures VisibleTags(tags) + tags[|VisibleTags(tags)|..] == tags
  {
    var shown := VisibleTags(tags);
    assert shown == tags[..|shown|];
  }

  /** `locations[0].name || location || "Remote"`: never empty. */
  function LocationText(job: Job): (r: string)
    ensures r != ""
    ensures Truthy(FirstLocationName(job)) ==> r == FirstLocationName(job).value
    ensures !Truthy(FirstLocationName(job)) && Truthy(job.location) ==> r == job.location.value
    ensures !Truthy(FirstLocationName(job)) && !Truthy(job.location) ==> r == "Remote"
  {
    var first := FirstLocationName(job);
    if Truthy(first) then first.value
    else if Truthy(job.location) then job.location.value
    else "Remote"
  }

  /** `s` has no `<` followed, anywhere later, by a `>`: no complete tag. */
  predicate NoTag(s: string) {
    forall i, j :: 0 <= i < j < |s| && s[i] == '<' ==> s[j] != '>'
  }

  /**
   * `s.replace(/<[^>]*>/g, "")`: each `<` up to the first `>` after it is
   * removed; a `<` with no `>` after it stays. What remains holds no
   * complete tag and no character that was not in `s`.
   */
  function StripTags(s: string): (r: string)
    ensures |r| <= |s|
    ensures NoTag(r)
    ensures forall k :: 0 <= k < |r| ==> r[k] in s
    ensures '<' !in s ==> r == s
    decreases |s|
  {
    if s == [] then []
    else if s[0] == '<' && '>' in s then
      var j := IndexOf(s, '>').value;
      var rest := StripTags(s[j + 1..]);
      assert forall k :: 0 <= k < |rest| ==> rest[k] in s by {
        forall k | 0 <= k < |rest| ensures rest[k] in s {
          var c := rest[k];
          assert c in s[j + 1..];
        }
      }
      rest
    else
      var rest := StripTags(s[1..]);
      var r := [s[0]] + rest;
      assert forall k :: 1 <= k < |r| ==> r[k] == rest[k - 1];
      assert forall k :: 0 <= k < |rest| ==> rest[k] in s by {
        forall k | 0 <= k < |rest| ensures rest[k] in s {
          var c := rest[k];
          assert c in s[1..];
        }
      }
      assert s[0] == '<' ==> '>' !in rest;
      r
  }

  /** Text without a complete tag is left as it is, so stripping twice is stripping once. */
  lemma {:induction false} StripTagsNoTag(s: string)
    requires NoTag(s)
    ensures StripTags(s) == s
    decreases |s|
  {
    if s != [] {
      assert NoTag(s[1..]) by {
        forall i, j | 0 <= i < j < |s[1..]| && s[1..][i] == '<'
          ensures s[1..][j] != '>'
        {
          assert s[i + 1] == '<';
        }
      }
      if s[0] == '<' {
        assert '>' !in s by {
          forall j | 0 <= j < |s| ensures s[j] != '>' {
            if j > 0 {
              assert s[0] == '<';
            }
          }
        }
      }
      StripTagsNoTag(s[1..]);
    }
  }

  /** A complete tag at the front is removed whole, and stripping goes on after it. */
  lemma StripTagsDropsTag(t: string, b: string)
    requires '>' !in t
    ensures StripTags("<" + t + ">" + b) == StripTags(b)
  {
    var s := "<" + t + ">" + b;
    assert s[|t| + 1] == '>';
    assert s[..|t| + 1] == "<" + t;
    assert IndexOf(s, '>') == Some(|t| + 1);
    assert s[|t| + 2..] == b;
  }

  /** A character that does not open a tag is kept, in front of the stripped rest. */
  lemma StripTagsKeepsChar(c: char, b: string)
    requires c != '<'
    ensures StripTags([c] + b) == [c] + StripTags(b)
  {
    assert ([c] + b)[1..] == b;
  }

  /** The length of the excerpt taken from the stripped contents. */
  const ExcerptLength := 150

  /**
   * The card's description: `description` when present, else the first 150
   * characters of the tag-stripped `contents` followed by "...", else
   * "No description available".
   */
  function DescriptionText(job: Job): (r: string)
    ensures Truthy(job.description) ==> r == job.description.value
    ensures !Truthy(job.description) && Truthy(job.contents) ==>
      var stripped := StripTags(job.contents.value);
      && 3 <= |r|
      && |r| - 3 == (if |stripped| < ExcerptLength then |stripped| else ExcerptLength)
      && r[..|r| - 3] == stripped[..|r| - 3]
      && r[|r| - 3..] == "..."
      && NoTag(r[..|r| - 3])
    ensures !Truthy(job.description) && !Truthy(job.contents) ==> r == "No description available"
  {
    if Truthy(job.description) then job.description.value
    else if Truthy(job.contents) then
      var excerpt := Take(StripTags(job.contents.value), ExcerptLength);
      assert NoTag(excerpt);
      excerpt + "..."
    else "No description available"
  }

  class SavedJobsPage {
    const window: Window
    var savedJobs: seq<Job>
    var loading: bool
    /** The ids of every unsave request sent, oldest first. */
    var deleteRequests: seq<string>

    constructor(w: Window)
      ensures window == w
      ensures savedJobs == [] && loading && deleteRequests == []
    {
      window := w;
      savedJobs := [];
      loading := true;
      deleteRequests := [];
    }

    /**
     * `fetchSavedJobs`: a success replaces the list, a failure passes the
     * response interceptor and keeps it; loading ends.
     */
    method Fetch(response: Outcome<seq<Job>>)
      modifies this, window
      ensures window.storedToken == TokenAfter(old(window.storedToken), response)
      ensures window.hrefAssignments == old(window.hrefAssignments) + RedirectAfter(response, old(window.pathname))
      ensures window.pathname == old(window.pathname)
      ensures response.Success? ==> savedJobs == response.data
      ensures response.Failure? ==> savedJobs == old(savedJobs)
      ensures !loading && deleteRequests == old(deleteRequests)
    {
      loading := true;
      Settle(window, response);
      if response.Success? {
        savedJobs := response.data;
      }
      loading := false;
    }

    /**
     * `handleUnsave`, with `deleted` the outcome of the delete request:
     * only after a success is every job with that id dropped, the others
     * kept in order; a failure passes the response interceptor.
     */
    method Unsave(jobId: string, deleted: Outcome<()>)
      modifies this, window
      ensures window.storedToken == TokenAfter(old(window.storedToken), deleted)
      ensures window.hrefAssignments == old(window.hrefAssignments) + RedirectAfter(deleted, old(window.pathname))
      ensures window.pathname == old(window.pathname)
      ensures deleteRequests == old(deleteRequests) + [jobId]
      ensures deleted.Success? ==> savedJobs == RemoveById(old(savedJobs), jobId)
      ensures deleted.Failure? ==> savedJobs == old(savedJobs)
      ensures loading == old(loading)
    {
      deleteRequests := deleteRequests + [jobId];
      Settle(window, deleted);
      if deleted.Success? {
        savedJobs := RemoveById(savedJobs, jobId);
      }
    }

    /** The header's count label: the number of saved jobs and the matching noun. */
    function CountLabel(): (r: (nat, string))
      reads this
      ensures r.0 == |savedJobs| && r.1 == CountNoun(|savedJobs|)
    {
      (|savedJobs|, CountNoun(|savedJobs|))
    }
  }
}
