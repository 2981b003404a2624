/**
 * The hosted backend as the portal sees it: the `admission_forms` table,
 * the signed-in user and remote session, and the two table queries the
 * pages issue (`maybeSingle` on a `user_id` filter, and an update filtered
 * by `user_id`). Whether a request reaches the server is an input.
 */
module Backend {
  import opened Base

  /** The data columns of an `admission_forms` row (all nullable). */
  datatype Column =
    | StudentFirstName | StudentLastName | StudentNameAr | Dob | Religion | Citizenship | SecondLang
    | Address | Gender | School | Grade | PrevSchool | ScholarNotes
    | FatherName | FatherDob | FatherPhone | FatherEmail | FatherDegree | FatherWork | FatherBusiness
    | MotherName | MotherDob | MotherPhone | MotherEmail | MotherDegree | MotherWork | MotherBusiness
    | TestDate | TestTime | TestResult | Status | AdminNotes

  /** The column's name in the database. */
  function ColumnName(c: Column): string {
    match c
    case StudentFirstName => "student_first_name"
    case StudentLastName => "student_last_name"
    case StudentNameAr => "student_name_ar"
    case Dob => "dob"
    case Religion => "religion"
    case Citizenship => "citizenship"
    case SecondLang => "second_lang"
    case Address => "address"
    case Gender => "gender"
    case School => "school"
    case Grade => "grade"
    case PrevSchool => "prev_school"
    case ScholarNotes => "scholar_notes"
    case FatherName => "father_name"
    case FatherDob => "father_dob"
    case FatherPhone => "father_phone"
    case FatherEmail => "father_email"
    case FatherDegree => "father_degree"
    case FatherWork => "father_work"
    case FatherBusiness => "father_business"
    case MotherName => "mother_name"
    case MotherDob => "mother_dob"
    case MotherPhone => "mother_phone"
    case MotherEmail => "mother_email"
    case MotherDegree => "mother_degree"
    case MotherWork => "mother_work"
    case MotherBusiness => "mother_business"
    case TestDate => "test_date"
    case TestTime => "test_time"
    case TestResult => "test_result"
    case Status => "status"
    case AdminNotes => "admin_notes"
  }

  /**
   * A row: its key, its owner, its creation time (nullable) and the data
   * columns that are not null; a column missing from `values` is null.
   */
  datatype AdmissionRow = AdmissionRow(
    id: string, userId: string, createdAt: Option<string>, values: map<Column, string>)

  /** The value of a column, `null` being `None`. */
  function Col(r: AdmissionRow, c: Column): (v: Option<string>)
    ensures v.Some? <==> c in r.values
    ensures v.Some? ==> v.value == r.values[c]
  {
    if c in r.values then Some(r.values[c]) else None
  }

  /** The signed-in account, and the remote auth session that carries it. */
  datatype User = User(id: string, email: string)
  datatype Session = Session(user: User, accessToken: string)

  /** `user?.id`. */
  function IdOf(u: Option<User>): (id: Option<string>)
    ensures id.Some? <==> u.Some?
    ensures id.Some? ==> id.value == u.value.id
  {
    if u.Some? then Some(u.value.id) else None
  }

  // ---------------------------------------------------------------------------
  // Queries on the table's rows

  /**
   * `.eq("user_id", id)`: the rows owned by `userId`, in table order. An
   * absent id (the page passed `undefined`) matches no row.
   */
  function RowsOf(rows: seq<AdmissionRow>, userId: Option<string>): (r: seq<AdmissionRow>)
    ensures |r| <= |rows|
    ensures forall x :: x in r <==> x in rows && Some(x.userId) == userId
  {
    if rows == [] then []
    else (if Some(rows[0].userId) == userId then [rows[0]] else []) + RowsOf(rows[1..], userId)
  }

  /** No row of a user who owns none is selected. */
  lemma {:induction false} NoRowsOf(rows: seq<AdmissionRow>, userId: string)
    requires forall k :: 0 <= k < |rows| ==> rows[k].userId != userId
    ensures RowsOf(rows, Some(userId)) == []
  {
    if rows != [] {
      NoRowsOf(rows[1..], userId);
    }
  }

  /** Some row of `rows` is owned by `userId`. */
  predicate HasRowFor(rows: seq<AdmissionRow>, userId: string) {
    exists i | 0 <= i < |rows| :: rows[i].userId == userId
  }

  /**
   * `.maybeSingle()` on the rows of `userId`, keeping only `data` as the
   * pages do: the single matching row, and null when there is none, when
   * there are several (an error the pages do not look at), or when the
   * request fails.
   */
  function MaybeSingle(rows: seq<AdmissionRow>, userId: Option<string>, failed: bool): (r: Option<AdmissionRow>)
    ensures r.Some? <==> !failed && |RowsOf(rows, userId)| == 1
    ensures r.Some? ==> r.value in rows && Some(r.value.userId) == userId
  {
    var m := RowsOf(rows, userId);
    if !failed && |m| == 1 then
      assert m[0] in m;
      Some(m[0])
    else None
  }

  /** The table keeps at most one row per user. */
  predicate OnePerUser(rows: seq<AdmissionRow>) {
    forall i, j :: 0 <= i < j < |rows| ==> rows[i].userId != rows[j].userId
  }

  /** With one row per user, at most one row matches a user id. */
  lemma {:induction false} AtMostOneRow(rows: seq<AdmissionRow>, userId: string)
    requires OnePerUser(rows)
    ensures |RowsOf(rows, Some(userId))| <= 1
  {
    if rows != [] {
      var tail := rows[1..];
      assert OnePerUser(tail) by {
        forall i, j | 0 <= i < j < |tail| ensures tail[i].userId != tail[j].userId {
          assert tail[i] == rows[i + 1] && tail[j] == rows[j + 1];
        }
      }
      AtMostOneRow(tail, userId);
      if rows[0].userId == userId {
        forall k | 0 <= k < |tail| ensures tail[k].userId != userId {
          assert tail[k] == rows[k + 1];
        }
        NoRowsOf(tail, userId);
      }
    }
  }

  /**
   * With one row per user and a request that reaches the server, the lookup
   * finds a row exactly when the user owns one.
   */
  lemma FoundIffOwned(rows: seq<AdmissionRow>, userId: string)
    requires OnePerUser(rows)
    ensures MaybeSingle(rows, Some(userId), false).Some? <==> HasRowFor(rows, userId)
  {
    AtMostOneRow(rows, userId);
    var m := RowsOf(rows, Some(userId));
    if HasRowFor(rows, userId) {
      var i :| 0 <= i < |rows| && rows[i].userId == userId;
      assert rows[i] in m;
    } else {
      NoRowsOf(rows, userId);
    }
  }

  /** Adding a row for a user who owns none keeps one row per user. */
  lemma InsertKeepsOnePerUser(rows: seq<AdmissionRow>, row: AdmissionRow)
    requires OnePerUser(rows) && !HasRowFor(rows, row.userId)
    ensures OnePerUser(rows + [row])
  {
  }

  /**
   * `.update(changes).eq("user_id", userId)` applied to the rows: every row
   * of that user has the given columns overwritten, all other rows and
   * columns being kept.
   */
  function Updated(rows: seq<AdmissionRow>, userId: Option<string>, changes: map<Column, string>): (r: seq<AdmissionRow>)
    ensures |r| == |rows|
    ensures forall i :: 0 <= i < |rows| && Some(rows[i].userId) != userId ==> r[i] == rows[i]
    ensures forall i :: 0 <= i < |rows| && Some(rows[i].userId) == userId ==>
      r[i] == rows[i].(values := rows[i].values + changes)
  {
    seq(|rows|, i requires 0 <= i < |rows| =>
      if Some(rows[i].userId) == userId then rows[i].(values := rows[i].values + changes) else rows[i])
  }

  /** An update never changes who owns a row, nor how many rows there are. */
  lemma UpdatedKeepsOwners(rows: seq<AdmissionRow>, userId: Option<string>, changes: map<Column, string>)
    ensures forall i :: 0 <= i < |rows| ==>
      Updated(rows, userId, changes)[i].userId == rows[i].userId && Updated(rows, userId, changes)[i].id == rows[i].id
    ensures OnePerUser(rows) ==> OnePerUser(Updated(rows, userId, changes))
  {
  }

  /** What a `select` of the whole table returned: rows in the requested order, possibly null, or an error. */
  datatype FetchResult = Fetched(data: Option<seq<AdmissionRow>>) | FetchFailed

  /** The `admission_forms` table, updated in place by the pages' requests. */
  class Table {
    var rows: seq<AdmissionRow>

    constructor (rows: seq<AdmissionRow>)
      ensures this.rows == rows
    {
      this.rows := rows;
    }

    /** A `maybeSingle` lookup on this table's rows. */
    function Lookup(userId: Option<string>, failed: bool): (r: Option<AdmissionRow>)
      reads this
      ensures r.Some? ==> r.value in rows && Some(r.value.userId) == userId
    {
      MaybeSingle(rows, userId, failed)
    }

    /** `.insert([row])`: on success the row is appended; on failure nothing changes. */
    method Insert(row: AdmissionRow, fails: bool) returns (ok: bool)
      modifies this
      ensures ok == !fails
      ensures rows == if ok then old(rows) + [row] else old(rows)
    {
      ok := !fails;
      if ok {
        rows := rows + [row];
      }
    }

    /** `.update(changes).eq("user_id", userId)`: on failure nothing changes. */
    method Update(userId: Option<string>, changes: map<Column, string>, fails: bool) returns (ok: bool)
      modifies this
      ensures ok == !fails
      ensures rows == if ok then Updated(old(rows), userId, changes) else old(rows)
    {
      ok := !fails;
      if ok {
        rows := Updated(rows, userId, changes);
      }
    }
  }
}
