/**
 * The second admin dashboard, under src/pages: the fetched rows have their
 * nullable columns replaced by "" before display, and the list is searched
 * by parent and student names. Its admin session is `AdminAuth`'s provider.
 */
module RootDashboard {
  import opened Base
  import Backend
  import AdminAuth

  // ---------------------------------------------------------------------------
  // Null-to-empty normalisation

  /**
   * The columns the fetch rewrites with `|| ""`: every data column except
   * the student's first and last names.
   */
  predicate Normalised(c: Backend.Column) {
    c != Backend.StudentFirstName && c != Backend.StudentLastName
  }

  /** One row as displayed: each listed column that is null becomes "", every other field is kept. */
  function Normalize(app: Backend.AdmissionRow): (n: Backend.AdmissionRow)
    ensures n.id == app.id && n.userId == app.userId && n.createdAt == app.createdAt
    ensures forall c :: Normalised(c) ==> Backend.Col(n, c) == Some(Backend.Col(app, c).GetOr(""))
    ensures forall c :: !Normalised(c) ==> Backend.Col(n, c) == Backend.Col(app, c)
  {
    var listed := set c: Backend.Column | Normalised(c) && c !in app.values;
    app.(values := app.values + map c | c in listed :: "")
  }

  /** `data.map(...)`: the same rows in the same order, each normalised. */
  function NormalizeAll(apps: seq<Backend.AdmissionRow>): (r: seq<Backend.AdmissionRow>)
    ensures |r| == |apps|
    ensures forall i :: 0 <= i < |apps| ==> r[i] == Normalize(apps[i])
  {
    seq(|apps|, i requires 0 <= i < |apps| => Normalize(apps[i]))
  }

  /** Normalising twice changes nothing more, and a normalised row has no null among the listed columns. */
  lemma NormalizeIdempotent(app: Backend.AdmissionRow)
    ensures Normalize(Normalize(app)) == Normalize(app)
    ensures forall c :: Normalised(c) ==> Backend.Col(Normalize(app), c).Some?
  {
    var n := Normalize(app);
    var m := Normalize(n);
    assert m.values == n.values by {
      forall c ensures (c in m.values <==> c in n.values) && (c in m.values ==> m.values[c] == n.values[c]) {
        assert Backend.Col(m, c) == Backend.Col(n, c);
      }
    }
  }

  /** Every listed column of every row holds a value: what the fetch leaves behind. */
  predicate AllNormalised(apps: seq<Backend.AdmissionRow>) {
    forall i, c :: 0 <= i < |apps| && Normalised(c) ==> Backend.Col(apps[i], c).Some?
  }

  /** The rows a fetch displays have no null among the listed columns. */
  lemma NormalizeAllNormalised(apps: seq<Backend.AdmissionRow>)
    ensures AllNormalised(NormalizeAll(apps))
  {
    forall i | 0 <= i < |apps| ensures forall c :: Normalised(c) ==> Backend.Col(NormalizeAll(apps)[i], c).Some? {
      NormalizeIdempotent(apps[i]);
    }
  }

  // ---------------------------------------------------------------------------
  // Search

  /** A nullable string placed in a template literal: `null` is written as "null". */
  function TemplateText(v: Option<string>): string {
    match v
    case Some(s) => s
    case None => "null"
  }

  /** `` `${app.student_first_name} ${app.student_last_name}`.toLowerCase() ``. */
  function StudentText(app: Backend.AdmissionRow): string {
    ToLower(TemplateText(Backend.Col(app, Backend.StudentFirstName)) + " "
            + TemplateText(Backend.Col(app, Backend.StudentLastName)))
  }

  /**
   * `app.father_name.toLowerCase()`. The list starts empty and every fetch
   * keeps `AllNormalised`, so the name is never null here; the "" stands
   * for a case the code never reaches.
   */
  function FatherText(app: Backend.AdmissionRow): string {
    ToLower(Backend.Col(app, Backend.FatherName).GetOr(""))
  }

  /** The lower-cased term occurs in the parent's name or in the student's full name. */
  predicate Matches(app: Backend.AdmissionRow, term: string) {
    Contains(FatherText(app), ToLower(term)) || Contains(StudentText(app), ToLower(term))
  }

  /**
   * The student names are not normalised, so a row without a first name is
   * found by searching for "null".
   */
  lemma NullFirstNameMatchesNull(app: Backend.AdmissionRow)
    requires Backend.Col(app, Backend.StudentFirstName).None?
    ensures Matches(app, "null")
  {
    var t := TemplateText(Backend.Col(app, Backend.StudentFirstName)) + " "
             + TemplateText(Backend.Col(app, Backend.StudentLastName));
    assert t[..4] == "null";
    assert StudentText(app)[0..4] == ToLower("null");
    assert OccursAt(StudentText(app), ToLower("null"), 0);
  }

  // ---------------------------------------------------------------------------
  // The page

  class Dashboard {
    const auth: AdminAuth.AdminAuthProvider
    var applications: seq<Backend.AdmissionRow>
    var filtered: seq<Backend.AdmissionRow>
    var searchTerm: string
    var navigations: seq<string>

    constructor (auth: AdminAuth.AdminAuthProvider)
      ensures this.auth == auth
      ensures applications == [] && filtered == [] && searchTerm == "" && navigations == []
    {
      this.auth := auth;
      applications := [];
      filtered := [];
      searchTerm := "";
      navigations := [];
    }

    /** Once the admin session has loaded without an admin, the page moves to "/admin-login". */
    method RedirectEffect()
      modifies this
      ensures navigations == old(navigations) + (if !auth.loading && auth.admin.None? then ["/admin-login"] else [])
      ensures applications == old(applications) && filtered == old(filtered)
    {
      if !auth.loading && auth.admin.None? {
        navigations := navigations + ["/admin-login"];
      }
    }

    /**
     * `fetchApplications`: returned rows are normalised and become both the
     * list and the shown list; an error (or null data, on which the mapping
     * throws) leaves both as they were.
     */
    method FetchApplications(result: Backend.FetchResult)
      modifies this
      ensures result.Fetched? && result.data.Some? ==>
        applications == NormalizeAll(result.data.value) && filtered == applications
      ensures !(result.Fetched? && result.data.Some?) ==>
        applications == old(applications) && filtered == old(filtered)
      ensures AllNormalised(old(applications)) ==> AllNormalised(applications)
      ensures searchTerm == old(searchTerm) && navigations == old(navigations)
    {
      if result.Fetched? && result.data.Some? {
        NormalizeAllNormalised(result.data.value);
        var formattedData := NormalizeAll(result.data.value);
        applications := formattedData;
        filtered := formattedData;
      }
    }

    /** The fetch effect: only with an admin signed in. */
    method FetchEffect(result: Backend.FetchResult)
      modifies this
      ensures auth.admin.None? ==> applications == old(applications) && filtered == old(filtered)
      ensures auth.admin.Some? && result.Fetched? && result.data.Some? ==>
        applications == NormalizeAll(result.data.value) && filtered == applications
      ensures auth.admin.Some? && !(result.Fetched? && result.data.Some?) ==>
        applications == old(applications) && filtered == old(filtered)
      ensures AllNormalised(old(applications)) ==> AllNormalised(applications)
      ensures searchTerm == old(searchTerm) && navigations == old(navigations)
    {
      if auth.admin.Some? {
        FetchApplications(result);
      }
    }

    /** Typing in the search box, after which the filter effect runs. */
    method Search(term: string)
      modifies this
      ensures searchTerm == term && filtered == SearchFilter(applications, term, Matches)
      ensures IsSubsequence(filtered, applications)
      ensures applications == old(applications) && navigations == old(navigations)
    {
      searchTerm := term;
      FilterEffect();
    }

    /** The filter effect. */
    method FilterEffect()
      modifies this
      ensures filtered == SearchFilter(applications, searchTerm, Matches)
      ensures applications == old(applications) && searchTerm == old(searchTerm) && navigations == old(navigations)
    {
      var shown := SearchFilter(applications, searchTerm, Matches);
      filtered := shown;
    }

    /** `handleLogout`: only a move to "/admin-login"; the admin session and its stored key stay. */
    method HandleLogout()
      modifies this
      ensures navigations == old(navigations) + ["/admin-login"]
      ensures auth.admin == old(auth.admin) && auth.storage.entries == old(auth.storage.entries)
      ensures applications == old(applications) && filtered == old(filtered)
    {
      navigations := navigations + ["/admin-login"];
    }
  }
}
