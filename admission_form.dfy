/**
 * The admission form component: the 27 text fields the parent fills in,
 * and the submission that checks for an existing row of the signed-in user
 * and otherwise inserts one. The table requests are modelled on
 * `Backend.Table`; whether each request fails is an input.
 */
module AdmissionFormPage {
  import opened Base
  import Backend

  /** The form's fields, by the names the inputs carry. */
  datatype FormField =
    | StudentFirstName | StudentLastName | StudentNameAr | Dob | Religion | Citizenship | SecondLang
    | Address | Gender | School | Grade | PrevSchool | ScholarNotes
    | FatherName | FatherDob | FatherPhone | FatherEmail | FatherDegree | FatherWork | FatherBusiness
    | MotherName | MotherDob | MotherPhone | MotherEmail | MotherDegree | MotherWork | MotherBusiness

  /** The field's name in the form state. */
  function FieldName(f: FormField): string {
    match f
    case StudentFirstName => "studentFirstName"
    case StudentLastName => "studentLastName"
    case StudentNameAr => "studentNameAr"
    case Dob => "dob"
    case Religion => "religion"
    case Citizenship => "citizenship"
    case SecondLang => "secondLang"
    case Address => "address"
    case Gender => "gender"
    case School => "school"
    case Grade => "grade"
    case PrevSchool => "prevSchool"
    case ScholarNotes => "scholarNotes"
    case FatherName => "fatherName"
    case FatherDob => "fatherDob"
    case FatherPhone => "fatherPhone"
    case FatherEmail => "fatherEmail"
    case FatherDegree => "fatherDegree"
    case FatherWork => "fatherWork"
    case FatherBusiness => "fatherBusiness"
    case MotherName => "motherName"
    case MotherDob => "motherDob"
    case MotherPhone => "motherPhone"
    case MotherEmail => "motherEmail"
    case MotherDegree => "motherDegree"
    case MotherWork => "motherWork"
    case MotherBusiness => "motherBusiness"
  }

  /** The column the insert writes each field to. */
  function ColumnOf(f: FormField): Backend.Column {
    match f
    case StudentFirstName => Backend.StudentFirstName
    case StudentLastName => Backend.StudentLastName
    case StudentNameAr => Backend.StudentNameAr
    case Dob => Backend.Dob
    case Religion => Backend.Religion
    case Citizenship => Backend.Citizenship
    case SecondLang => Backend.SecondLang
    case Address => Backend.Address
    case Gender => Backend.Gender
    case School => Backend.School
    case Grade => Backend.Grade
    case PrevSchool => Backend.PrevSchool
    case ScholarNotes => Backend.ScholarNotes
    case FatherName => Backend.FatherName
    case FatherDob => Backend.FatherDob
    case FatherPhone => Backend.FatherPhone
    case FatherEmail => Backend.FatherEmail
    case FatherDegree => Backend.FatherDegree
    case FatherWork => Backend.FatherWork
    case FatherBusiness => Backend.FatherBusiness
    case MotherName => Backend.MotherName
    case MotherDob => Backend.MotherDob
    case MotherPhone => Backend.MotherPhone
    case MotherEmail => Backend.MotherEmail
    case MotherDegree => Backend.MotherDegree
    case MotherWork => Backend.MotherWork
    case MotherBusiness => Backend.MotherBusiness
  }

  /** The field a column is filled from, if the form fills it. */
  function FieldOf(c: Backend.Column): Option<FormField> {
    if c == Backend.StudentFirstName then Some(StudentFirstName)
    else if c == Backend.StudentLastName then Some(StudentLastName)
    else if c == Backend.StudentNameAr then Some(StudentNameAr)
    else if c == Backend.Dob then Some(Dob)
    else if c == Backend.Religion then Some(Religion)
    else if c == Backend.Citizenship then Some(Citizenship)
    else if c == Backend.SecondLang then Some(SecondLang)
    else if c == Backend.Address then Some(Address)
    else if c == Backend.Gender then Some(Gender)
    else if c == Backend.School then Some(School)
    else if c == Backend.Grade then Some(Grade)
    else if c == Backend.PrevSchool then Some(PrevSchool)
    else if c == Backend.ScholarNotes then Some(ScholarNotes)
    else if c == Backend.FatherName then Some(FatherName)
    else if c == Backend.FatherDob then Some(FatherDob)
    else if c == Backend.FatherPhone then Some(FatherPhone)
    else if c == Backend.FatherEmail then Some(FatherEmail)
    else if c == Backend.FatherDegree then Some(FatherDegree)
    else if c == Backend.FatherWork then Some(FatherWork)
    else if c == Backend.FatherBusiness then Some(FatherBusiness)
    else if c == Backend.MotherName then Some(MotherName)
    else if c == Backend.MotherDob then Some(MotherDob)
    else if c == Backend.MotherPhone then Some(MotherPhone)
    else if c == Backend.MotherEmail then Some(MotherEmail)
    else if c == Backend.MotherDegree then Some(MotherDegree)
    else if c == Backend.MotherWork then Some(MotherWork)
    else if c == Backend.MotherBusiness then Some(MotherBusiness)
    else None
  }

  /** Reading the table backwards gives back the field. */
  lemma FieldOfColumnOf(f: FormField)
    ensures FieldOf(ColumnOf(f)) == Some(f)
  {
  }

  /** Different fields go to different columns, and none to the columns the insert leaves null. */
  lemma ColumnOfInjective(f: FormField, g: FormField)
    ensures ColumnOf(f) == ColumnOf(g) ==> f == g
    ensures ColumnOf(f) !in {Backend.TestDate, Backend.TestTime, Backend.TestResult, Backend.Status, Backend.AdminNotes}
  {
    FieldOfColumnOf(f);
    FieldOfColumnOf(g);
  }

  const AllFields: set<FormField> := {
    StudentFirstName, StudentLastName, StudentNameAr, Dob, Religion, Citizenship, SecondLang,
    Address, Gender, School, Grade, PrevSchool, ScholarNotes,
    FatherName, FatherDob, FatherPhone, FatherEmail, FatherDegree, FatherWork, FatherBusiness,
    MotherName, MotherDob, MotherPhone, MotherEmail, MotherDegree, MotherWork, MotherBusiness}

  /** Every field is one of the 27. */
  lemma FieldListed(f: FormField)
    ensures f in AllFields
  {
  }

  /** The form state starts with all 27 fields, each the empty string. */
  function InitialForm(): (form: map<FormField, string>)
    ensures forall f :: f in form && form[f] == ""
  {
    forall f: FormField ensures f in AllFields {
      FieldListed(f);
    }
    map f | f in AllFields :: ""
  }

  /**
   * The row the insert sends for user `userId`: owned by that user, with
   * each field's text in the field's column and every other data column
   * null. Its key and creation time are assigned by the database.
   */
  function RowFor(id: string, userId: string, createdAt: Option<string>, form: map<FormField, string>)
    : (r: Backend.AdmissionRow)
    ensures r.id == id && r.userId == userId && r.createdAt == createdAt
    ensures forall f :: f in form ==> Backend.Col(r, ColumnOf(f)) == Some(form[f])
    ensures forall c :: c in r.values ==> exists f :: f in form && ColumnOf(f) == c
  {
    forall f, g | ColumnOf(f) == ColumnOf(g) ensures f == g {
      ColumnOfInjective(f, g);
    }
    Backend.AdmissionRow(id, userId, createdAt, map f | f in form :: ColumnOf(f) := form[f])
  }

  const UserNotFound: string := "User not found."
  const AlreadyFilled: string := "You have already filled the admission form."
  const CouldNotSubmit: string := "Could not submit form. Please try again."

  /** One press of the submit button: the form as it stands and how the two requests go. */
  datatype Attempt = Attempt(
    form: map<FormField, string>, lookupFailed: bool, insertFails: bool, newId: string, createdAt: Option<string>)

  /**
   * The table after one submission by `user`: unchanged without a user,
   * when the lookup returns an existing row, or when the insert fails;
   * otherwise one row is appended.
   */
  function Submitted(rows: seq<Backend.AdmissionRow>, user: Option<Backend.User>, a: Attempt): seq<Backend.AdmissionRow> {
    if user.None? then rows
    else if Backend.MaybeSingle(rows, Some(user.value.id), a.lookupFailed).Some? then rows
    else if a.insertFails then rows
    else rows + [RowFor(a.newId, user.value.id, a.createdAt, a.form)]
  }

  /** A submission whose lookup reaches the server keeps one row per user. */
  lemma SubmitKeepsOnePerUser(rows: seq<Backend.AdmissionRow>, user: Option<Backend.User>, a: Attempt)
    requires Backend.OnePerUser(rows) && !a.lookupFailed
    ensures Backend.OnePerUser(Submitted(rows, user, a))
    ensures user.Some? ==>
      (|Submitted(rows, user, a)| == |rows| + 1 <==> !Backend.HasRowFor(rows, user.value.id) && !a.insertFails)
  {
    if user.Some? {
      Backend.FoundIffOwned(rows, user.value.id);
      if !Backend.HasRowFor(rows, user.value.id) && !a.insertFails {
        Backend.InsertKeepsOnePerUser(rows, RowFor(a.newId, user.value.id, a.createdAt, a.form));
      }
    }
  }

  /** The table after a run of submissions by the same user. */
  function SubmittedAll(rows: seq<Backend.AdmissionRow>, user: Option<Backend.User>, attempts: seq<Attempt>)
    : seq<Backend.AdmissionRow>
    decreases |attempts|
  {
    if attempts == [] then rows
    else SubmittedAll(Submitted(rows, user, attempts[0]), user, attempts[1..])
  }

  /**
   * However many times the same user submits, one after the other, the table
   * never holds a second row for that user, provided each lookup reaches
   * the server.
   */
  lemma {:induction false} RepeatedSubmitsKeepOneRow(
    rows: seq<Backend.AdmissionRow>, user: Backend.User, attempts: seq<Attempt>)
    requires Backend.OnePerUser(rows)
    requires forall k :: 0 <= k < |attempts| ==> !attempts[k].lookupFailed
    ensures Backend.OnePerUser(SubmittedAll(rows, Some(user), attempts))
    ensures |Backend.RowsOf(SubmittedAll(rows, Some(user), attempts), Some(user.id))| <= 1
    decreases |attempts|
  {
    if attempts == [] {
      Backend.AtMostOneRow(rows, user.id);
    } else {
      SubmitKeepsOnePerUser(rows, Some(user), attempts[0]);
      RepeatedSubmitsKeepOneRow(Submitted(rows, Some(user), attempts[0]), user, attempts[1..]);
    }
  }

  /**
   * The lookup's error is not looked at: when it fails for a user who
   * already has a row and the insert goes through, a second row appears.
   */
  lemma FailedLookupAllowsSecondRow(rows: seq<Backend.AdmissionRow>, user: Backend.User, a: Attempt)
    requires Backend.HasRowFor(rows, user.id) && a.lookupFailed && !a.insertFails
    ensures !Backend.OnePerUser(Submitted(rows, Some(user), a))
  {
    var i :| 0 <= i < |rows| && rows[i].userId == user.id;
    var s := Submitted(rows, Some(user), a);
    assert s[i] == rows[i] && s[|rows|].userId == user.id;
  }

  class AdmissionForm {
    const table: Backend.Table
    const afterSubmitRedirect: string
    var form: map<FormField, string>
    var submitting: bool
    var error: Option<string>
    /** The routes navigated to, in order. */
    var navigations: seq<string>

    /** The component as first rendered; the redirect after submission defaults to "/enter-outlook". */
    constructor (table: Backend.Table, afterSubmitRedirect: string := "/enter-outlook")
      ensures this.table == table && this.afterSubmitRedirect == afterSubmitRedirect
      ensures form == InitialForm() && !submitting && error == None && navigations == []
    {
      this.table := table;
      this.afterSubmitRedirect := afterSubmitRedirect;
      form := InitialForm();
      submitting := false;
      error := None;
      navigations := [];
    }

    /** `handleChange`: the named field takes the new value; every other field keeps its own. */
    method HandleChange(name: FormField, value: string)
      modifies this
      ensures form == old(form)[name := value]
      ensures forall g :: g != name && g in old(form) ==> g in form && form[g] == old(form)[g]
      ensures submitting == old(submitting) && error == old(error) && navigations == old(navigations)
    {
      form := form[name := value];
    }

    /**
     * `handleSubmit`. Without a user: "User not found.". With a row
     * already returned for the user: "You have already filled the
     * admission form.". Otherwise the row is inserted; a failed insert
     * gives "Could not submit form. Please try again.". Each error ends the
     * submission; after a successful insert submitting stays on and the
     * page moves to `afterSubmitRedirect`. The table follows `Submitted`.
     */
    method HandleSubmit(user: Option<Backend.User>, lookupFailed: bool, insertFails: bool,
                        newId: string, createdAt: Option<string>)
      modifies this, table
      ensures table.rows ==
        Submitted(old(table.rows), user, Attempt(old(form), lookupFailed, insertFails, newId, createdAt))
      ensures form == old(form)
      ensures user.None? ==>
        error == Some(UserNotFound) && !submitting && navigations == old(navigations)
      ensures user.Some? && Backend.MaybeSingle(old(table.rows), Some(user.value.id), lookupFailed).Some? ==>
        error == Some(AlreadyFilled) && !submitting && navigations == old(navigations)
      ensures user.Some? && Backend.MaybeSingle(old(table.rows), Some(user.value.id), lookupFailed).None? ==>
        && (insertFails ==> error == Some(CouldNotSubmit) && !submitting && navigations == old(navigations))
        && (!insertFails ==> error == None && submitting && navigations == old(navigations) + [afterSubmitRedirect])
    {
      submitting := true;
      error := None;
      if user.None? {
        error := Some(UserNotFound);
        submitting := false;
        return;
      }
      var existingForm := table.Lookup(Some(user.value.id), lookupFailed);
      if existingForm.Some? {
        error := Some(AlreadyFilled);
        submitting := false;
        return;
      }
      var ok := table.Insert(RowFor(newId, user.value.id, createdAt, form), insertFails);
      if !ok {
        error := Some(CouldNotSubmit);
        submitting := false;
        return;
      }
      navigations := navigations + [afterSubmitRedirect];
    }
  }
}
