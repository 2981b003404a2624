/**
 * The admin dashboard of the admission portal: the list of applications
 * with a search box over parent and student names, and counts by status.
 * The fetch result is an input; the admin session is `AdminAuth`'s provider.
 */
module PortalDashboard {
  import opened Base
  import Backend
  import AdminAuth

  // ---------------------------------------------------------------------------
  // Search

  /** `app.father_name?.toLowerCase() || ""`. */
  function FatherText(app: Backend.AdmissionRow): string {
    ToLower(Backend.Col(app, Backend.FatherName).GetOr(""))
  }

  /** `` `${first || ""} ${last || ""}`.toLowerCase() ``. */
  function StudentText(app: Backend.AdmissionRow): string {
    ToLower(Backend.Col(app, Backend.StudentFirstName).GetOr("") + " " + Backend.Col(app, Backend.StudentLastName).GetOr(""))
  }

  /** The lower-cased query (not trimmed) occurs in the parent's name or in the student's full name. */
  predicate Matches(app: Backend.AdmissionRow, query: string) {
    Contains(FatherText(app), ToLower(query)) || Contains(StudentText(app), ToLower(query))
  }

  // ---------------------------------------------------------------------------
  // Statistics

  predicate IsPassed(app: Backend.AdmissionRow) { Backend.Col(app, Backend.Status) == Some("Passed") }
  predicate IsFailed(app: Backend.AdmissionRow) { Backend.Col(app, Backend.Status) == Some("Failed") }

  /** `app.status?.includes('Pending') || app.status?.includes('Awaiting')`; a null status counts in neither. */
  predicate IsPending(app: Backend.AdmissionRow) {
    var s := Backend.Col(app, Backend.Status);
    s.Some? && (Contains(s.value, "Pending") || Contains(s.value, "Awaiting"))
  }

  datatype StatusCounts = StatusCounts(total: nat, passed: nat, failed: nat, pending: nat)

  /** The four figures above the list. */
  function Stats(apps: seq<Backend.AdmissionRow>): (s: StatusCounts)
    ensures s.total == |apps|
    ensures s.passed + s.failed + s.pending <= s.total
  {
    BucketsDisjoint(apps);
    StatusCounts(|apps|, Count(apps, IsPassed), Count(apps, IsFailed), Count(apps, IsPending))
  }

  /** No status is in two buckets: "Passed" and "Failed" are too short to contain "Pending" or "Awaiting". */
  lemma BucketsDisjoint(apps: seq<Backend.AdmissionRow>)
    ensures Count(apps, IsPassed) + Count(apps, IsFailed) + Count(apps, IsPending) <= |apps|
  {
    forall a | a in apps ensures !(IsPassed(a) && IsFailed(a)) && !(IsPassed(a) && IsPending(a)) && !(IsFailed(a) && IsPending(a)) {
    }
    CountExclusive3(apps, IsPassed, IsFailed, IsPending);
  }

  /** The counts are taken over the whole list: a search result never has more in a bucket. */
  lemma StatsIgnoreSearch(apps: seq<Backend.AdmissionRow>, query: string)
    ensures Count(SearchFilter(apps, query, Matches), IsPassed) <= Stats(apps).passed
    ensures Count(SearchFilter(apps, query, Matches), IsFailed) <= Stats(apps).failed
    ensures Count(SearchFilter(apps, query, Matches), IsPending) <= Stats(apps).pending
  {
    CountSubsequence(SearchFilter(apps, query, Matches), apps, IsPassed);
    CountSubsequence(SearchFilter(apps, query, Matches), apps, IsFailed);
    CountSubsequence(SearchFilter(apps, query, Matches), apps, IsPending);
  }

  /** A subsequence has no more elements satisfying a predicate than the sequence. */
  lemma {:induction false} CountSubsequence<T>(t: seq<T>, s: seq<T>, p: T -> bool)
    requires IsSubsequence(t, s)
    ensures Count(t, p) <= Count(s, p)
    decreases |s|
  {
    if t != [] && s != [] {
      if t[0] == s[0] {
        CountSubsequence(t[1..], s[1..], p);
      } else {
        CountSubsequence(t, s[1..], p);
      }
    }
  }

  // ---------------------------------------------------------------------------
  // The page

  class Dashboard {
    const auth: AdminAuth.AdminAuthProvider
    var applications: seq<Backend.AdmissionRow>
    var filtered: seq<Backend.AdmissionRow>
    var loading: bool
    var searchQuery: string
    var navigations: seq<string>

    constructor (auth: AdminAuth.AdminAuthProvider)
      ensures this.auth == auth
      ensures applications == [] && filtered == [] && loading && searchQuery == "" && navigations == []
    {
      this.auth := auth;
      applications := [];
      filtered := [];
      loading := true;
      searchQuery := "";
      navigations := [];
    }

    /** Once the admin session has loaded without an admin, the page moves to "/admin/login". */
    method RedirectEffect()
      modifies this
      ensures navigations == old(navigations) + (if !auth.loading && auth.admin.None? then ["/admin/login"] else [])
      ensures applications == old(applications) && filtered == old(filtered) && loading == old(loading)
    {
      if !auth.loading && auth.admin.None? {
        navigations := navigations + ["/admin/login"];
      }
    }

    /**
     * `fetchApplications`: the returned rows (none for null data) replace the
     * list; an error leaves it as it was. Loading is off afterwards.
     */
    method FetchApplications(result: Backend.FetchResult)
      modifies this
      ensures !loading
      ensures result.FetchFailed? ==> applications == old(applications)
      ensures result.Fetched? ==> applications == result.data.GetOr([])
      ensures filtered == old(filtered) && searchQuery == old(searchQuery) && navigations == old(navigations)
    {
      loading := true;
      if result.Fetched? {
        applications := result.data.GetOr([]);
      }
      loading := false;
    }

    /** The fetch effect: only with an admin signed in. */
    method FetchEffect(result: Backend.FetchResult)
      modifies this
      ensures auth.admin.None? ==> applications == old(applications) && loading == old(loading)
      ensures auth.admin.Some? ==>
                && !loading
                && applications == if result.Fetched? then result.data.GetOr([]) else old(applications)
      ensures filtered == old(filtered) && searchQuery == old(searchQuery) && navigations == old(navigations)
    {
      if auth.admin.Some? {
        FetchApplications(result);
      }
    }

    /** Typing in the search box, after which the filter effect runs. */
    method Search(query: string)
      modifies this
      ensures searchQuery == query && filtered == SearchFilter(applications, query, Matches)
      ensures IsSubsequence(filtered, applications)
      ensures applications == old(applications) && loading == old(loading) && navigations == old(navigations)
    {
      searchQuery := query;
      FilterEffect();
    }

    /** The filter effect. */
    method FilterEffect()
      modifies this
      ensures filtered == SearchFilter(applications, searchQuery, Matches)
      ensures applications == old(applications) && searchQuery == old(searchQuery)
      ensures loading == old(loading) && navigations == old(navigations)
    {
      var shown := SearchFilter(applications, searchQuery, Matches);
      filtered := shown;
    }

    /** The statistics panel, over the full list. */
    function Statistics(): (s: StatusCounts)
      reads this
      ensures s.total == |applications|
      ensures s.passed + s.failed + s.pending <= s.total
      ensures s.passed == Count(applications, IsPassed) && s.failed == Count(applications, IsFailed)
      ensures s.pending == Count(applications, IsPending)
    {
      Stats(applications)
    }

    /** `handleSignOut`: the admin session is cleared, then the page moves to "/admin/login". */
    method HandleSignOut()
      modifies this, auth, auth.storage
      ensures auth.admin == None
      ensures auth.storage.entries == old(auth.storage.entries) - {AdminAuth.AdminKey}
      ensures navigations == old(navigations) + ["/admin/login"]
      ensures applications == old(applications) && filtered == old(filtered)
    {
      auth.SignOut();
      navigations := navigations + ["/admin/login"];
    }
  }
}
