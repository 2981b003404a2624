/**
 * The admission-form schema: per-field rules on the student, scholar and
 * guardian sections, and `validateForm`, which either returns the data or
 * one "path: message" string per broken rule.
 *
 * The schema library reports, for each key in declaration order, every
 * failed check of that key in declaration order; a refinement (the age
 * rule) is still evaluated after an earlier length check of the same key
 * failed. Two facts from outside are parameters: the year of the date a
 * string denotes (`new Date(s).getFullYear()`, None for an invalid date),
 * together with the current year, and the library's own e-mail check.
 */
module Validation {
  import opened Base
  import opened Patterns

  /** The facts the rules take from the environment. */
  datatype Context = Context(
    currentYear: int,
    birthYearOf: string -> Option<int>,
    isLibraryEmail: string -> bool)

  /** The seven fields each guardian (father, mother) fills in. */
  datatype Guardian = Guardian(
    name: string, dob: string, phone: string, email: string,
    degree: string, work: string, business: string)

  /** The candidate submission: the student and scholar fields, then both guardians. */
  datatype FormData = FormData(
    studentFirstName: string, studentLastName: string, studentNameAr: string,
    dob: string, religion: string, citizenship: string, secondLang: string,
    address: string, gender: string,
    school: string, grade: string, prevSchool: Option<string>, scholarNotes: Option<string>,
    father: Guardian, mother: Guardian)

  datatype Parent = Father | Mother

  /** The guardian keys, without their "father"/"mother" prefix. */
  datatype GuardianField = Name | Dob | Phone | Email | Degree | Work | Business

  /** The keys of the complete schema, in declaration order. */
  datatype Key =
    | StudentFirstName | StudentLastName | StudentNameAr | StudentDob
    | Religion | Citizenship | SecondLang | Address | Gender
    | School | Grade | PrevSchool | ScholarNotes
    | GuardianKey(parent: Parent, field: GuardianField)

  /** The kinds of check the schema applies. */
  datatype Rule = MinLength | MaxLength | Pattern | Required | AgeRange | Choice | LibraryEmail

  /** One failed check: the key it belongs to and the check that failed. */
  datatype Issue = Issue(key: Key, rule: Rule)

  datatype ValidationResult = Valid(data: FormData) | Invalid(errors: seq<string>)

  /** The error path of a key. */
  function KeyName(k: Key): string {
    match k
    case StudentFirstName => "studentFirstName"
    case StudentLastName => "studentLastName"
    case StudentNameAr => "studentNameAr"
    case StudentDob => "dob"
    case Religion => "religion"
    case Citizenship => "citizenship"
    case SecondLang => "secondLang"
    case Address => "address"
    case Gender => "gender"
    case School => "school"
    case Grade => "grade"
    case PrevSchool => "prevSchool"
    case ScholarNotes => "scholarNotes"
    case GuardianKey(p, f) =>
      (if p == Father then "father" else "mother") +
      match f
      case Name => "Name"
      case Dob => "Dob"
      case Phone => "Phone"
      case Email => "Email"
      case Degree => "Degree"
      case Work => "Work"
      case Business => "Business"
  }

  /** "X must be at least N characters" / "X must be less than M characters" for a length-bounded key. */
  function LengthMessage(k: Key, r: Rule): string {
    var (subject, lo, hi) := match k
      case StudentFirstName => ("First name", "2", "50")
      case StudentLastName => ("Last name", "2", "50")
      case StudentNameAr => ("Arabic name", "2", "100")
      case Religion => ("Religion", "2", "50")
      case Citizenship => ("Citizenship", "2", "50")
      case SecondLang => ("Second language", "2", "50")
      case Address => ("Address", "10", "200")
      case School => ("School name", "2", "100")
      case Grade => ("Grade", "2", "50")
      case PrevSchool => ("Previous school", "0", "100")
      case ScholarNotes => ("Notes", "0", "500")
      case GuardianKey(_, Name) => ("Name", "2", "100")
      case GuardianKey(_, Degree) => ("Degree", "2", "100")
      case GuardianKey(_, Work) => ("Occupation", "2", "100")
      case GuardianKey(_, Business) => ("Business address", "5", "200")
      case _ => ("", "", "");
    if r == MinLength then subject + " must be at least " + lo + " characters"
    else subject + " must be less than " + hi + " characters"
  }

  /** The message the schema attaches to a check of a key. */
  function Message(k: Key, r: Rule): string {
    match r
    case MinLength => LengthMessage(k, r)
    case MaxLength => LengthMessage(k, r)
    case Pattern =>
      (match k
       case StudentFirstName => "First name must contain only English letters"
       case StudentLastName => "Last name must contain only English letters"
       case StudentNameAr => "Arabic name must contain only Arabic letters"
       case GuardianKey(_, Phone) => "Please enter a valid Egyptian phone number"
       case _ => "Please enter a valid email address")
    case LibraryEmail => "Please enter a valid email address"
    case Required =>
      (match k
       case GuardianKey(_, Phone) => "Phone number is required"
       case GuardianKey(_, Email) => "Email is required"
       case _ => "Date of birth is required")
    case AgeRange =>
      if k == StudentDob then "Student must be between 3 and 18 years old"
      else "Parent must be between 18 and 100 years old"
    case Choice => "Please select Male or Female"
  }

  // ---------------------------------------------------------------------------
  // Checks

  function Check(k: Key, ok: bool, r: Rule): seq<Issue> {
    if ok then [] else [Issue(k, r)]
  }

  /** `.min(lo).max(hi)`. */
  function LengthIssues(k: Key, v: string, lo: int, hi: int): seq<Issue> {
    Check(k, |v| >= lo, MinLength) + Check(k, |v| <= hi, MaxLength)
  }

  /** The year difference `currentYear - birthYear` lies in [lo, hi]; false for an invalid date. */
  predicate AgeBetween(ctx: Context, v: string, lo: int, hi: int) {
    match ctx.birthYearOf(v)
    case None => false
    case Some(y) => lo <= ctx.currentYear - y <= hi
  }

  /** A student name in Latin letters. */
  function EnglishNameIssues(k: Key, v: string): seq<Issue> {
    LengthIssues(k, v, 2, 50) + Check(k, MatchesEnglishName(v), Pattern)
  }

  function ArabicNameIssues(v: string): seq<Issue> {
    LengthIssues(StudentNameAr, v, 2, 100) + Check(StudentNameAr, MatchesArabicName(v), Pattern)
  }

  function StudentDobIssues(ctx: Context, v: string): seq<Issue> {
    Check(StudentDob, |v| >= 1, Required) + Check(StudentDob, AgeBetween(ctx, v, 3, 18), AgeRange)
  }

  /** `z.enum(["Male", "Female"])`. */
  function GenderIssues(v: string): seq<Issue> {
    Check(Gender, v == "Male" || v == "Female", Choice)
  }

  /** `.max(hi).optional()`: an absent value passes. */
  function OptionalIssues(k: Key, v: Option<string>, hi: int): seq<Issue> {
    match v
    case None => []
    case Some(s) => Check(k, |s| <= hi, MaxLength)
  }

  function StudentIssues(ctx: Context, d: FormData): seq<Issue> {
    EnglishNameIssues(StudentFirstName, d.studentFirstName)
    + EnglishNameIssues(StudentLastName, d.studentLastName)
    + ArabicNameIssues(d.studentNameAr)
    + StudentDobIssues(ctx, d.dob)
    + LengthIssues(Religion, d.religion, 2, 50)
    + LengthIssues(Citizenship, d.citizenship, 2, 50)
    + LengthIssues(SecondLang, d.secondLang, 2, 50)
    + LengthIssues(Address, d.address, 10, 200)
    + GenderIssues(d.gender)
  }

  function ScholarIssues(d: FormData): seq<Issue> {
    LengthIssues(School, d.school, 2, 100)
    + LengthIssues(Grade, d.grade, 2, 50)
    + OptionalIssues(PrevSchool, d.prevSchool, 100)
    + OptionalIssues(ScholarNotes, d.scholarNotes, 500)
  }

  function GuardianDobIssues(ctx: Context, p: Parent, v: string): seq<Issue> {
    Check(GuardianKey(p, Dob), |v| >= 1, Required) + Check(GuardianKey(p, Dob), AgeBetween(ctx, v, 18, 100), AgeRange)
  }

  function PhoneIssues(p: Parent, v: string): seq<Issue> {
    Check(GuardianKey(p, Phone), |v| >= 1, Required) + Check(GuardianKey(p, Phone), MatchesPhone(v), Pattern)
  }

  /** `.min(1).email().regex(emailRegex)`. */
  function EmailIssues(ctx: Context, p: Parent, v: string): seq<Issue> {
    Check(GuardianKey(p, Email), |v| >= 1, Required)
    + Check(GuardianKey(p, Email), ctx.isLibraryEmail(v), LibraryEmail)
    + Check(GuardianKey(p, Email), MatchesEmail(v), Pattern)
  }

  /** The guardian rules, applied to the father's or to the mother's keys. */
  function GuardianIssues(ctx: Context, p: Parent, g: Guardian): seq<Issue> {
    LengthIssues(GuardianKey(p, Name), g.name, 2, 100)
    + GuardianDobIssues(ctx, p, g.dob)
    + PhoneIssues(p, g.phone)
    + EmailIssues(ctx, p, g.email)
    + LengthIssues(GuardianKey(p, Degree), g.degree, 2, 100)
    + LengthIssues(GuardianKey(p, Work), g.work, 2, 100)
    + LengthIssues(GuardianKey(p, Business), g.business, 5, 200)
  }

  function FormIssues(ctx: Context, d: FormData): seq<Issue> {
    StudentIssues(ctx, d) + ScholarIssues(d) + GuardianIssues(ctx, Father, d.father) + GuardianIssues(ctx, Mother, d.mother)
  }

  /** `${err.path.join('.')}: ${err.message}`. */
  function FormatIssue(i: Issue): string {
    KeyName(i.key) + ": " + Message(i.key, i.rule)
  }

  /** `validateForm`. */
  function ValidateForm(ctx: Context, d: FormData): (r: ValidationResult)
    ensures r.Valid? ==> r.data == d
    ensures r.Invalid? ==> |r.errors| > 0
  {
    var issues := FormIssues(ctx, d);
    if issues == [] then Valid(d)
    else Invalid(seq(|issues|, k requires 0 <= k < |issues| => FormatIssue(issues[k])))
  }

  // ---------------------------------------------------------------------------
  // The rules, stated field by field without the schema

  /** 2..50 characters, each an ASCII letter or white space. */
  predicate EnglishNameOk(v: string) {
    2 <= |v| <= 50 && forall i :: 0 <= i < |v| ==> IsAsciiLetter(v[i]) || IsJsWhitespace(v[i])
  }

  /** 2..100 characters, each in U+0600..U+06FF or white space. */
  predicate ArabicNameOk(v: string) {
    2 <= |v| <= 100 && forall i :: 0 <= i < |v| ==> ('\U{0600}' <= v[i] <= '\U{06FF}') || IsJsWhitespace(v[i])
  }

  /** Non-empty, a valid date, and a year difference from 3 to 18; month and day play no part. */
  predicate StudentDobOk(ctx: Context, v: string) {
    |v| > 0 && ctx.birthYearOf(v).Some? && 3 <= ctx.currentYear - ctx.birthYearOf(v).value <= 18
  }

  predicate GuardianDobOk(ctx: Context, v: string) {
    |v| > 0 && ctx.birthYearOf(v).Some? && 18 <= ctx.currentYear - ctx.birthYearOf(v).value <= 100
  }

  predicate LengthOk(v: string, lo: int, hi: int) {
    lo <= |v| <= hi
  }

  predicate OptionalOk(v: Option<string>, hi: int) {
    v.None? || |v.value| <= hi
  }

  predicate GuardianOk(ctx: Context, g: Guardian) {
    && LengthOk(g.name, 2, 100)
    && GuardianDobOk(ctx, g.dob)
    && MatchesPhone(g.phone)
    && ctx.isLibraryEmail(g.email) && MatchesEmail(g.email)
    && LengthOk(g.degree, 2, 100)
    && LengthOk(g.work, 2, 100)
    && LengthOk(g.business, 5, 200)
  }

  /** The student's rules hold. */
  predicate StudentOk(ctx: Context, d: FormData) {
    && EnglishNameOk(d.studentFirstName)
    && EnglishNameOk(d.studentLastName)
    && ArabicNameOk(d.studentNameAr)
    && StudentDobOk(ctx, d.dob)
    && LengthOk(d.religion, 2, 50)
    && LengthOk(d.citizenship, 2, 50)
    && LengthOk(d.secondLang, 2, 50)
    && LengthOk(d.address, 10, 200)
    && (d.gender == "Male" || d.gender == "Female")
  }

  /** The school rules hold. */
  predicate ScholarOk(d: FormData) {
    && LengthOk(d.school, 2, 100)
    && LengthOk(d.grade, 2, 50)
    && OptionalOk(d.prevSchool, 100)
    && OptionalOk(d.scholarNotes, 500)
  }

  /** Every rule of the schema holds. */
  predicate FormOk(ctx: Context, d: FormData) {
    StudentOk(ctx, d) && ScholarOk(d) && GuardianOk(ctx, d.father) && GuardianOk(ctx, d.mother)
  }

  // ---------------------------------------------------------------------------
  // Field lemmas

  /** A student name passes iff it has 2..50 characters, each an ASCII letter or white space. */
  lemma EnglishNameAccepted(k: Key, v: string)
    ensures EnglishNameIssues(k, v) == [] <==> EnglishNameOk(v)
  {
  }

  /** The Arabic name passes iff it has 2..100 characters, each in U+0600..U+06FF or white space. */
  lemma ArabicNameAccepted(v: string)
    ensures ArabicNameIssues(v) == [] <==> ArabicNameOk(v)
  {
  }

  /** The student's date of birth passes iff it is non-empty and the year difference lies in [3, 18]. */
  lemma StudentDobAccepted(ctx: Context, v: string)
    ensures StudentDobIssues(ctx, v) == [] <==> StudentDobOk(ctx, v)
  {
  }

  /** A guardian's date of birth passes iff it is non-empty and the year difference lies in [18, 100]. */
  lemma GuardianDobAccepted(ctx: Context, p: Parent, v: string)
    ensures GuardianDobIssues(ctx, p, v) == [] <==> GuardianDobOk(ctx, v)
  {
  }

  /** The empty date of birth breaks two rules: it is missing, and it denotes no valid year. */
  lemma EmptyDobTwoIssues(ctx: Context)
    requires ctx.birthYearOf("") == None
    ensures |StudentDobIssues(ctx, "")| == 2
  {
  }

  /** An accepted e-mail address has the two-part shape with one '@' and no white space. */
  lemma AcceptedEmailShaped(ctx: Context, p: Parent, v: string)
    requires EmailIssues(ctx, p, v) == []
    ensures EmailShaped(v)
  {
    EmailAcceptedIffShaped(v);
  }

  /** The student's fields pass iff the student's rules hold. */
  lemma StudentAccepted(ctx: Context, d: FormData)
    ensures StudentIssues(ctx, d) == [] <==> StudentOk(ctx, d)
  {
    EnglishNameAccepted(StudentFirstName, d.studentFirstName);
    EnglishNameAccepted(StudentLastName, d.studentLastName);
    ArabicNameAccepted(d.studentNameAr);
    StudentDobAccepted(ctx, d.dob);
  }

  /** The school fields pass iff the school rules hold. */
  lemma ScholarAccepted(d: FormData)
    ensures ScholarIssues(d) == [] <==> ScholarOk(d)
  {
  }

  /** A guardian passes iff every guardian rule holds, for the father's keys and the mother's alike. */
  lemma GuardianAccepted(ctx: Context, p: Parent, g: Guardian)
    ensures GuardianIssues(ctx, p, g) == [] <==> GuardianOk(ctx, g)
  {
    PhoneNonEmpty(g.phone);
    EmailNonEmpty(g.email);
  }

  lemma PhoneNonEmpty(v: string)
    ensures MatchesPhone(v) ==> |v| >= 1
  {
  }

  lemma EmailNonEmpty(v: string)
    ensures MatchesEmail(v) ==> |v| >= 1
  {
  }

  /** `validateForm` returns the data iff every rule holds, and otherwise one "path: message" string per broken rule. */
  lemma ValidateFormAcceptsIffRulesHold(ctx: Context, d: FormData)
    ensures ValidateForm(ctx, d).Valid? <==> FormOk(ctx, d)
    ensures ValidateForm(ctx, d).Invalid? ==>
      var issues := FormIssues(ctx, d);
      |ValidateForm(ctx, d).errors| == |issues| &&
      forall k :: 0 <= k < |issues| ==>
        ValidateForm(ctx, d).errors[k] == KeyName(issues[k].key) + ": " + Message(issues[k].key, issues[k].rule)
  {
    FormAccepted(ctx, d);
  }

  /** No rule is broken iff every rule holds. */
  lemma FormAccepted(ctx: Context, d: FormData)
    ensures FormIssues(ctx, d) == [] <==> FormOk(ctx, d)
  {
    StudentAccepted(ctx, d);
    ScholarAccepted(d);
    GuardianAccepted(ctx, Father, d.father);
    GuardianAccepted(ctx, Mother, d.mother);
  }

  /** The father's and the mother's fields are judged by the same rules. */
  lemma GuardiansJudgedAlike(ctx: Context, g: Guardian)
    ensures GuardianIssues(ctx, Father, g) == [] <==> GuardianIssues(ctx, Mother, g) == []
  {
    GuardianAccepted(ctx, Father, g);
    GuardianAccepted(ctx, Mother, g);
  }
}
