/**
 * The three pieces of logic the modal dialogs hold: the CSV row parser of the
 * bulk candidate upload, the guard that decides whether the signing pad is
 * offered on a contract, and the amount check before a payment is initiated.
 */
module Modals {
  import opened Wrappers
  import opened Text
  import opened Seqs
  import opened Domain

  // ---------------------------------------------------------------------------
  // CSV upload
  // ---------------------------------------------------------------------------

  /** `parts.map(s => s.trim())`. */
  function TrimAll(parts: seq<string>): (r: seq<string>)
    ensures |r| == |parts|
    ensures forall i :: 0 <= i < |parts| ==> r[i] == Trim(parts[i])
  {
    seq(|parts|, i requires 0 <= i < |parts| => Trim(parts[i]))
  }

  /** The destructured field at position `i`: `undefined` past the end of the row. */
  function Field(fields: seq<string>, i: nat): Option<string> {
    if i < |fields| then Some(fields[i]) else None
  }

  /** `row.split(',').map(s => s.trim())`. */
  function RowFields(row: string): seq<string> {
    TrimAll(Split(row, ','))
  }

  /** `skills ? skills.split(';').map(s => s.trim()) : []`: an absent or empty field gives no skills. */
  function ParseSkills(skills: Option<string>): seq<string> {
    match skills
    case Some(s) => if s != "" then TrimAll(Split(s, ';')) else []
    case None => []
  }

  /** One data row: a draft when both the trimmed name and the trimmed email are non-empty. */
  function ParseRow(row: string): Option<CandidateDraft> {
    var f := RowFields(row);
    var name := Field(f, 0);
    var email := Field(f, 1);
    if name.Some? && name.value != "" && email.Some? && email.value != "" then
      Some(CandidateDraft(name.value, email.value, ParseSkills(Field(f, 2)),
                          Field(f, 3).GetOr(""), Field(f, 4).GetOr("")))
    else
      None
  }

  /**
   * What one row yields: a draft exactly when its first two trimmed fields
   * are non-empty; missing skills give no skills, and missing experience and
   * rate give empty strings.
   */
  lemma ParseRowFields(row: string)
    ensures var f := RowFields(row);
      ParseRow(row).Some? <==> |f| >= 2 && f[0] != "" && f[1] != ""
    ensures ParseRow(row).Some? ==>
      var parts := Split(row, ',');
      var d := ParseRow(row).value;
      && d.name == Trim(parts[0]) && d.email == Trim(parts[1])
      && (|parts| < 3 ==> d.skills == [])
      && (|parts| < 4 ==> d.experience == "")
      && (|parts| < 5 ==> d.expectedRate == "")
      && (|parts| >= 3 ==> d.skills == ParseSkills(Some(Trim(parts[2]))))
      && (|parts| >= 4 ==> d.experience == Trim(parts[3]))
      && (|parts| >= 5 ==> d.expectedRate == Trim(parts[4]))
  {
  }

  /** The drafts the rows yield, in row order (rows that yield nothing are dropped). */
  function ParseRows(rows: seq<string>): seq<CandidateDraft> {
    FilterMap(rows, ParseRow)
  }

  /** `text.split('\n').slice(1)`: the lines after the header line. */
  function DataRows(text: string): (rows: seq<string>)
    ensures |rows| == Occurrences(text, '\n')
  {
    Split(text, '\n')[1..]
  }

  /** The upload dialog's parser: every data row is split, trimmed and kept when it names a candidate. */
  method ParseCsv(text: string) returns (candidates: seq<CandidateDraft>)
    ensures candidates == ParseRows(DataRows(text))
  {
    var rows := DataRows(text);
    candidates := [];
    var i := 0;
    while i < |rows|
      invariant 0 <= i <= |rows|
      invariant candidates == ParseRows(rows[..i])
    {
      assert rows[..i + 1][..i] == rows[..i];
      var parsed := ParseRow(rows[i]);
      if parsed.Some? {
        candidates := candidates + [parsed.value];
      }
      i := i + 1;
    }
    assert rows[..|rows|] == rows;
  }

  /** Each row yields at most one draft, so the upload has at most (lines - 1) drafts. */
  lemma ParseBound(text: string)
    ensures |ParseRows(DataRows(text))| <= Occurrences(text, '\n')
  {
    FilterMapBound(DataRows(text), ParseRow);
  }

  /** Parsing distributes over concatenation of rows: the drafts keep the row order. */
  lemma ParseRowsAppend(a: seq<string>, b: seq<string>)
    ensures ParseRows(a + b) == ParseRows(a) + ParseRows(b)
  {
    FilterMapAppend(a, b, ParseRow);
  }

  /** A draft comes out of the parse exactly when some row yields it. */
  lemma ParseRowsMembership(rows: seq<string>, d: CandidateDraft)
    ensures d in ParseRows(rows) <==> exists i :: 0 <= i < |rows| && ParseRow(rows[i]) == Some(d)
  {
    FilterMapMembership(rows, ParseRow, d);
  }

  /** The trimmed parts of a string split on `sep` are trimmed, hold no `sep`, and only characters of the string. */
  lemma TrimmedParts(s: string, sep: char)
    ensures forall i :: 0 <= i < |Split(s, sep)| ==>
      var t := TrimAll(Split(s, sep))[i];
      IsTrimmed(t) && sep !in t && forall c :: c in t ==> c in s
  {
    var parts := Split(s, sep);
    forall i, c | 0 <= i < |parts| && c in TrimAll(parts)[i] ensures c in s {
      assert c in parts[i];
      var k :| 0 <= k < |parts[i]| && parts[i][k] == c;
    }
  }

  /** A well-formed draft: name and email present, every field trimmed and free of field separators. */
  predicate CleanDraft(d: CandidateDraft) {
    && d.name != "" && d.email != ""
    && IsTrimmed(d.name) && IsTrimmed(d.email) && IsTrimmed(d.experience) && IsTrimmed(d.expectedRate)
    && ',' !in d.name && ',' !in d.email && ',' !in d.experience && ',' !in d.expectedRate
    && forall k :: 0 <= k < |d.skills| ==> IsTrimmed(d.skills[k]) && ',' !in d.skills[k] && ';' !in d.skills[k]
  }

  /** Every draft a row yields is clean. */
  lemma ParsedRowIsClean(row: string)
    ensures ParseRow(row).Some? ==> CleanDraft(ParseRow(row).value)
  {
    var parts := Split(row, ',');
    TrimmedParts(row, ',');
    if ParseRow(row).Some? && |parts| >= 3 {
      var f := RowFields(row);
      if f[2] != "" {
        assert ',' !in f[2];
        TrimmedParts(f[2], ';');
      }
    }
  }

  /** Every draft the parser returns is clean. */
  lemma ParsedUploadIsClean(text: string)
    ensures forall k :: 0 <= k < |ParseRows(DataRows(text))| ==> CleanDraft(ParseRows(DataRows(text))[k])
  {
    var rows := DataRows(text);
    forall k | 0 <= k < |ParseRows(rows)| ensures CleanDraft(ParseRows(rows)[k]) {
      var d := ParseRows(rows)[k];
      ParseRowsMembership(rows, d);
      var i :| 0 <= i < |rows| && ParseRow(rows[i]) == Some(d);
      ParsedRowIsClean(rows[i]);
    }
  }

  // ---------------------------------------------------------------------------
  // Contract signing guard
  // ---------------------------------------------------------------------------

  /** The signing pad is offered to a client user while the client has to sign, and to a candidate while the candidate has to sign. */
  predicate CanSign(role: Role, status: ContractStatus) {
    || (IsClientRole(role) && status == PendingClientSignature)
    || (role == Role.Candidate && status == PendingCandidateSignature)
  }

  /** Spelled out per role: admins never sign; each party signs only in its own turn. */
  lemma CanSignByRole(role: Role, status: ContractStatus)
    ensures CanSign(role, status) <==>
      || ((role == ClientAdmin || role == ClientMember) && status == PendingClientSignature)
      || (role == Role.Candidate && status == PendingCandidateSignature)
  {
    ClientRoles(role);
  }

  // ---------------------------------------------------------------------------
  // Payment amount check
  // ---------------------------------------------------------------------------

  datatype AmountCheck = Accepted(amount: real) | Invalid(message: string)

  /**
   * The check on `parseFloat(amount)` before a payment is initiated; `None`
   * stands for NaN (input that does not parse as a number).
   */
  function CheckPaymentAmount(parsed: Option<real>): (r: AmountCheck)
    ensures r.Accepted? <==> parsed.Some? && parsed.value > 0.0
    ensures r.Accepted? ==> r.amount == parsed.value
    ensures r.Invalid? ==> r.message == "Please enter a valid positive amount."
  {
    match parsed
    case None => Invalid("Please enter a valid positive amount.")
    case Some(v) => if v <= 0.0 then Invalid("Please enter a valid positive amount.") else Accepted(v)
  }
}
