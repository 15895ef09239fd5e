/**
 * recruitment.php: a job application with an optional CV. Every missing or invalid field
 * is reported, a CV must be a PDF or Word file, and it is stored under a cleaned name
 * built from the applicant's name. The row is inserted only when nothing was reported.
 */
module Recruitment {
  import opened Php
  import Csrf
  import Db

  const CvDir := "wp-content/uploads/cv_uploads/"
  const AllowedCvTypes: seq<string> := ["pdf", "doc", "docx"]
  /** The base name used when nothing of the name or the file's stem survives cleaning. */
  const DefaultBase := "applicant"

  const InvalidForm := "Invalid form submission. Please refresh and try again."
  const NameRequired := "Full name is required."
  const EmailRequired := "A valid email is required."
  const PositionRequired := "Please select the position you are applying for."
  const BadCvType := "CV must be a PDF or Word document (.pdf, .doc, .docx)."
  const CvNotStored := "Unable to upload CV. Please try again."
  const DatabaseError := "Database error. Please try again later."
  const NotSaved := "Unable to save your application. Please try again."
  const Unexpected := "Unexpected error. Please try again later."

  /** A row of wp_job_applications. */
  datatype Application = Application(fullName: string, email: string, phone: string, position: string,
                                     coverLetter: string, cvPath: Option<string>)

  /** The three field checks, each reported on its own, in this order. */
  function FieldErrors(fullName: string, email: string, position: string, isEmail: EmailCheck): (r: seq<string>)
    ensures (NameRequired in r) <==> fullName == ""
    ensures (EmailRequired in r) <==> !isEmail(email)
    ensures (PositionRequired in r) <==> position == ""
    ensures |r| <= 3 && (r == [] <==> fullName != "" && isEmail(email) && position != "")
  {
    (if fullName == "" then [NameRequired] else [])
    + (if !isEmail(email) then [EmailRequired] else [])
    + (if position == "" then [PositionRequired] else [])
  }

  // ---------------------------------------------------------------- the CV file name

  predicate IsCleanChar(c: char)
  {
    'a' <= c <= 'z' || '0' <= c <= '9' || c == '_'
  }

  /** No two underscores side by side. */
  predicate NoDoubleUnderscore(s: string)
  {
    forall i :: 0 <= i < |s| - 1 ==> !(s[i] == '_' && s[i + 1] == '_')
  }

  predicate AlnumOrUnderscore(s: string)
  {
    forall i :: 0 <= i < |s| ==> IsAsciiAlnum(s[i]) || s[i] == '_'
  }

  /** A run of characters other than ASCII letters and digits, dropped from the front. */
  function DropNonAlnum(s: string): (r: string)
    ensures |r| <= |s|
    ensures r == [] || IsAsciiAlnum(r[0])
  {
    if s != [] && !IsAsciiAlnum(s[0]) then DropNonAlnum(s[1..]) else s
  }

  /** `preg_replace('/[^a-z0-9]+/i', '_', $s)`: each run of other characters becomes one '_'. */
  function UnderscoreRuns(s: string): (r: string)
    ensures |r| <= |s|
    ensures AlnumOrUnderscore(r) && NoDoubleUnderscore(r)
    ensures r == [] || (r[0] == '_' <==> !IsAsciiAlnum(s[0]))
    decreases |s|
  {
    if s == [] then []
    else if !IsAsciiAlnum(s[0]) then ['_'] + UnderscoreRuns(DropNonAlnum(s[1..]))
    else [s[0]] + UnderscoreRuns(s[1..])
  }

  lemma {:induction false} LTrimCharIsSuffix(s: string, c: char)
    ensures LTrimChar(s, c) == s[|s| - |LTrimChar(s, c)|..]
  {
    if |s| > 0 && s[0] == c {
      LTrimCharIsSuffix(s[1..], c);
    }
  }

  /** Trimming '_' from both ends keeps a run-free string run-free and cuts only from the ends. */
  lemma TrimUnderscoresKeepsShape(s: string)
    requires AlnumOrUnderscore(s) && NoDoubleUnderscore(s)
    ensures AlnumOrUnderscore(TrimChar(s, '_')) && NoDoubleUnderscore(TrimChar(s, '_'))
  {
    var left := LTrimChar(s, '_');
    LTrimCharIsSuffix(s, '_');
    assert forall i :: 0 <= i < |left| ==> left[i] == s[|s| - |left| + i];
    var r := RTrimChar(left, '_');
    assert forall i :: 0 <= i < |r| ==> r[i] == left[i];
  }

  /** The cleaned base name of the CV: the name, or else the file's stem, reduced to [a-z0-9_]. */
  function CleanBase(fullName: string, originalName: string): string
  {
    var baseName := if fullName != "" then fullName else FileStem(originalName);
    var lowered := Lower(TrimChar(UnderscoreRuns(Trim(baseName)), '_'));
    if lowered == "" then DefaultBase else lowered
  }

  /** Lower-casing keeps letters, digits and underscores where they are and adds no '_'. */
  lemma LowerKeepsShape(s: string)
    requires AlnumOrUnderscore(s) && NoDoubleUnderscore(s)
    ensures forall i :: 0 <= i < |s| ==> IsCleanChar(Lower(s)[i]) && (Lower(s)[i] == '_' <==> s[i] == '_')
    ensures NoDoubleUnderscore(Lower(s))
  {
    var lowered := Lower(s);
    assert forall i :: 0 <= i < |lowered| ==> (lowered[i] == '_' <==> s[i] == '_');
  }

  /** A cleaned name: non-empty, only [a-z0-9_], no '_' at either end, no two '_' side by side. */
  predicate IsCleanName(r: string)
  {
    && r != "" && r[0] != '_' && r[|r| - 1] != '_'
    && (forall i :: 0 <= i < |r| ==> IsCleanChar(r[i]))
    && NoDoubleUnderscore(r)
  }

  lemma DefaultBaseIsClean()
    ensures IsCleanName(DefaultBase)
  {
    forall i | 0 <= i < |DefaultBase|
      ensures IsCleanChar(DefaultBase[i]) && DefaultBase[i] != '_'
    {
    }
  }

  /** Every name the page can build for a CV is a cleaned name. */
  lemma CleanBaseIsClean(fullName: string, originalName: string)
    ensures IsCleanName(CleanBase(fullName, originalName))
  {
    var baseName := if fullName != "" then fullName else FileStem(originalName);
    var runs := UnderscoreRuns(Trim(baseName));
    var lowered := Lower(TrimChar(runs, '_'));
    if lowered == "" {
      DefaultBaseIsClean();
    } else {
      TrimmedLoweredIsClean(runs);
    }
  }

  /** Trimming '_' from a run-free name and lower-casing it gives a cleaned name or nothing. */
  lemma TrimmedLoweredIsClean(runs: string)
    requires AlnumOrUnderscore(runs) && NoDoubleUnderscore(runs)
    ensures var lowered := Lower(TrimChar(runs, '_'));
      lowered == "" || IsCleanName(lowered)
  {
    var trimmed := TrimChar(runs, '_');
    TrimUnderscoresKeepsShape(runs);
    LowerKeepsShape(trimmed);
  }

  /** The same name, built by the page's successive reassignments. */
  method CleanBaseSteps(fullName: string, originalName: string) returns (baseClean: string)
    ensures baseClean == CleanBase(fullName, originalName)
  {
    var baseName := if fullName != "" then fullName else FileStem(originalName);
    baseClean := UnderscoreRuns(Trim(baseName));
    baseClean := Lower(TrimChar(baseClean, '_'));
    if baseClean == "" {
      baseClean := DefaultBase;
    }
  }

  /** The stored CV name: base, `_cv_`, the upload time, '.', the extension. */
  function CvFileName(baseClean: string, now: nat, ext: string): string
  {
    baseClean + "_cv_" + NatToString(now) + "." + ext
  }

  /** The stored CV keeps the uploaded file's extension, and its stem is the cleaned name, `_cv_` and the time. */
  lemma CvFileNameKeepsExtension(baseClean: string, now: nat, ext: string)
    requires IsCleanName(baseClean) && ext in AllowedCvTypes
    ensures Extension(CvFileName(baseClean, now, ext)) == ext
    ensures FileStem(CvFileName(baseClean, now, ext)) == baseClean + "_cv_" + NatToString(now)
  {
    var stem := baseClean + "_cv_" + NatToString(now);
    assert CvFileName(baseClean, now, ext) == stem + "." + ext;
    NatToStringDigits(now);
    assert '/' !in stem by {
      forall i | 0 <= i < |stem|
        ensures stem[i] != '/'
      {
        if i < |baseClean| {
          assert IsCleanChar(baseClean[i]);
        } else if i >= |baseClean| + 4 {
          assert stem[i] == NatToString(now)[i - |baseClean| - 4];
        }
      }
    }
    assert '/' !in ext && '.' !in ext;
    PathinfoOfJoined(stem, ext);
  }

  /** What happened to the CV: none sent, refused, or stored at a web path. */
  datatype CvResult = NoCv | CvRefused(message: string) | CvStored(path: string)

  /** The CV branch: the type check, then the cleaned name and the move. */
  function HandleCv(fullName: string, originalName: string, now: nat, moved: bool): (r: CvResult)
    ensures r.CvRefused? <==> Lower(Extension(originalName)) !in AllowedCvTypes || !moved
    ensures Lower(Extension(originalName)) !in AllowedCvTypes ==> r == CvRefused(BadCvType)
    ensures r.CvStored? ==> StartsWith(r.path, CvDir)
  {
    var ext := Lower(Extension(originalName));
    if ext !in AllowedCvTypes then CvRefused(BadCvType)
    else if !moved then CvRefused(CvNotStored)
    else
      var path := CvDir + CvFileName(CleanBase(fullName, originalName), now, ext);
      assert path[..|CvDir|] == CvDir;
      CvStored(path)
  }

  /** How the database steps fare: the table creation, the statement, its execution. */
  datatype RecruitmentIo = RecruitmentIo(tableCreated: bool, prepared: bool, executes: bool)

  /** The form as posted; absent fields are null. */
  datatype ApplicationForm = ApplicationForm(fullName: Option<string>, email: Option<string>, phone: Option<string>,
                                             position: Option<string>, message: Option<string>)

  function Field(s: Option<string>): string
  {
    Sanitize(if s.Some? then s.value else "")
  }

  /** The checks before the insert: the field errors, then the CV's, and the stored CV's path. */
  function Checked(form: ApplicationForm, cvName: Option<string>, now: nat, moved: bool,
                   isEmail: EmailCheck): (r: (seq<string>, Option<string>))
    ensures FieldErrors(Field(form.fullName), Field(form.email), Field(form.position), isEmail) <= r.0
    ensures |r.0| <= |FieldErrors(Field(form.fullName), Field(form.email), Field(form.position), isEmail)| + 1
    ensures Falsy(cvName) ==> r == (FieldErrors(Field(form.fullName), Field(form.email), Field(form.position), isEmail), None)
    ensures !Falsy(cvName) && Lower(Extension(cvName.value)) !in AllowedCvTypes ==> BadCvType in r.0
    ensures r.1.Some? ==> !Falsy(cvName) && moved && StartsWith(r.1.value, CvDir)
  {
    var fieldErrors := FieldErrors(Field(form.fullName), Field(form.email), Field(form.position), isEmail);
    if Falsy(cvName) then (fieldErrors, None)
    else
      match HandleCv(Field(form.fullName), cvName.value, now, moved)
      case CvRefused(message) => (fieldErrors + [message], None)
      case CvStored(path) => (fieldErrors, Some(path))
      case NoCv => (fieldErrors, None)
  }

  /** The row an accepted application inserts. */
  function Row(form: ApplicationForm, cvPath: Option<string>): Application
  {
    Application(Field(form.fullName), Field(form.email), Field(form.phone), Field(form.position),
                Field(form.message), cvPath)
  }

  /** The message the database steps leave: none only when the table exists and the insert runs. */
  function StoreErrors(io: RecruitmentIo): (r: seq<string>)
    ensures |r| <= 1
    ensures r == [] <==> io.tableCreated && io.prepared && io.executes
  {
    if !io.tableCreated then [DatabaseError]
    else if !io.prepared then [Unexpected]
    else if !io.executes then [NotSaved]
    else []
  }

  /**
   * The POST branch of recruitment.php; `cvName` is the CV field's name when a file
   * was sent, `moved` whether it could be stored.
   */
  method Submit(csrf: Csrf.TokenStore, table: Db.Table<Application>, token: Option<string>,
                form: ApplicationForm, cvName: Option<string>, now: nat, moved: bool,
                isEmail: EmailCheck, io: RecruitmentIo)
    returns (errors: seq<string>, success: bool)
    modifies csrf, table
    ensures csrf.tokens == if Csrf.Accepts(old(csrf.tokens), "recruitment_form", token)
                           then Csrf.Consume(old(csrf.tokens), "recruitment_form", token.value) else old(csrf.tokens)
    ensures !Csrf.Accepts(old(csrf.tokens), "recruitment_form", token) ==>
              errors == [InvalidForm] && !success && table.rows == old(table.rows)
    ensures Csrf.Accepts(old(csrf.tokens), "recruitment_form", token) ==>
              var checked := Checked(form, cvName, now, moved, isEmail);
              && (checked.0 != [] ==> errors == checked.0 && !success && table.rows == old(table.rows))
              && (checked.0 == [] ==>
                    errors == StoreErrors(io)
                    && table.rows == old(table.rows) + (if success then [Row(form, checked.1)] else []))
    ensures success <==> errors == [] && Csrf.Accepts(old(csrf.tokens), "recruitment_form", token)
  {
    errors := [];
    success := false;
    var valid := csrf.Validate("recruitment_form", token);
    if !valid {
      errors := errors + [InvalidForm];
      return;
    }
    var checked := Checked(form, cvName, now, moved, isEmail);
    errors := checked.0;
    if errors == [] {
      errors, success := Save(table, Row(form, checked.1), io);
    }
  }

  /** The insert of an accepted application: the table is created, the statement prepared, then run. */
  method Save(table: Db.Table<Application>, row: Application, io: RecruitmentIo)
    returns (errors: seq<string>, success: bool)
    modifies table
    ensures errors == StoreErrors(io) && (success <==> errors == [])
    ensures table.rows == old(table.rows) + (if success then [row] else [])
  {
    errors := [];
    success := false;
    if !io.tableCreated {
      errors := errors + [DatabaseError];
    } else if io.prepared {
      success := table.Insert(row, io.executes);
      if !success {
        errors := errors + [NotSaved];
      }
    } else {
      errors := errors + [Unexpected];
    }
  }
}
