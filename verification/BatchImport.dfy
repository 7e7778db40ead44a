/**
 Batch import (backend/src/domain/batch_import.py), from rows the csv library has split and
 the caller has stripped. Every problem is reported with its line; which characters are
 letters is a parameter.
 */
module BatchImport {
  import opened Domain
  import opened Decimal
  import opened Keys
  import opened Injection

  const CSV_COLUMNS := ["beneficiary_id", "display_name", "amount_paise", "installment"]
  const MAX_ROWS := 500
  const MAX_DISPLAY_NAME_LENGTH := 60
  const MAX_INSTALLMENT := 99
  const MAX_AMOUNT_PAISE := 1_000_000_000

  datatype Row = Row(line: nat, cells: seq<string>)

  datatype Problem =
    | FileEmpty | BadHeader | NoDataRows | TooManyRows
    | WrongCellCount | BadBeneficiary | NameMissing | NameTooLong | BadName | BadAmount | BadInstallmentText
    | DuplicateOfLine(first: nat)

  datatype FieldError = FieldError(problem: Problem, line: nat)

  datatype Preview = Preview(row: Row, problems: seq<Problem>)

  datatype Report = Report(entitlements: seq<Entitlement>, errors: seq<FieldError>, rows: seq<Preview>)

  predicate IsValid(r: Report) {
    r.errors == [] && r.entitlements != []
  }

  predicate AllEmpty(cells: seq<string>) {
    cells == [] || (cells[0] == "" && AllEmpty(cells[1..]))
  }

  predicate Blank(row: Row) {
    AllEmpty(row.cells)
  }

  function NonBlank(rows: seq<Row>): seq<Row> {
    if rows == [] then []
    else
      var n := |rows| - 1;
      NonBlank(rows[..n]) + (if Blank(rows[n]) then [] else [rows[n]])
  }

  // --- One row -----------------------------------------------------------------------------------

  /** `[A-Z0-9-]{1,32}`. */
  predicate BusinessId(s: string) {
    1 <= |s| <= 32 && forall i | 0 <= i < |s| :: IsDigit(s[i]) || 'A' <= s[i] <= 'Z' || s[i] == '-'
  }

  predicate DisplayName(letter: char -> bool, s: string) {
    s != "" && letter(s[0]) && forall i | 1 <= i < |s| :: letter(s[i]) || s[i] in " .'-"
  }

  /** `[0-9]{1,15}`. */
  predicate DigitText(s: string) {
    1 <= |s| <= 15 && Digits(s)
  }

  function AmountOf(text: string): Option<nat> {
    if DigitText(text) && 1 <= NumberOf(text) <= MAX_AMOUNT_PAISE then Some(NumberOf(text)) else None
  }

  function InstallmentOf(text: string): Option<nat> {
    if DigitText(text) && 1 <= NumberOf(text) <= MAX_INSTALLMENT then Some(NumberOf(text)) else None
  }

  function NameProblems(letter: char -> bool, name: string): seq<Problem> {
    if name == "" then [NameMissing]
    else if |name| > MAX_DISPLAY_NAME_LENGTH then [NameTooLong]
    else if !DisplayName(letter, name) then [BadName]
    else []
  }

  /** The cell under a column of a well-formed header. */
  function Cell(header: seq<string>, row: Row, column: string): string
    requires |row.cells| == |header|
  {
    if header == [] then ""
    else
      var n := |header| - 1;
      if header[n] == column then row.cells[n] else Cell(header[..n], Row(row.line, row.cells[..n]), column)
  }

  lemma {:induction false} CellAt(header: seq<string>, row: Row, i: nat)
    requires |row.cells| == |header| && i < |header|
    requires forall j, k :: 0 <= j < k < |header| ==> header[j] != header[k]
    ensures Cell(header, row, header[i]) == row.cells[i]
  {
    var n := |header| - 1;
    if i < n {
      CellAt(header[..n], Row(row.line, row.cells[..n]), i);
    }
  }

  /** The problems of four cells. */
  function CellProblems(letter: char -> bool, id: string, name: string, amount: string, installment: string)
    : seq<Problem>
  {
    (if !BusinessId(id) then [BadBeneficiary] else []) + NameProblems(letter, name)
    + (if AmountOf(amount).None? then [BadAmount] else [])
    + (if InstallmentOf(installment).None? then [BadInstallmentText] else [])
  }

  /** `_parse_row`: an entitlement, or every problem of the row. */
  function ParseRow(letter: char -> bool, header: seq<string>, row: Row): Result<Entitlement, seq<Problem>>
    requires |row.cells| == |header|
  {
    var id, name := Cell(header, row, "beneficiary_id"), Cell(header, row, "display_name");
    var amount, installment := AmountOf(Cell(header, row, "amount_paise")),
      InstallmentOf(Cell(header, row, "installment"));
    var problems := CellProblems(letter, id, name, Cell(header, row, "amount_paise"), Cell(header, row, "installment"));
    if problems != [] || amount.None? || installment.None? then Err(problems)
    else Ok(Entitlement(id, name, amount.value, installment.value))
  }

  function ReadRow(letter: char -> bool, header: seq<string>, row: Row): Result<Entitlement, seq<Problem>> {
    if |row.cells| != |header| then Err([WrongCellCount]) else ParseRow(letter, header, row)
  }

  // --- All rows ----------------------------------------------------------------------------------

  predicate SameIdentity(a: Entitlement, b: Entitlement) {
    a.beneficiaryId == b.beneficiaryId && a.installment == b.installment
  }

  /** The line of the first row that names the same payment. */
  function FirstLine(letter: char -> bool, header: seq<string>, rows: seq<Row>, x: Entitlement): Option<nat> {
    if rows == [] then None
    else
      var n := |rows| - 1;
      var earlier := FirstLine(letter, header, rows[..n], x);
      var read := ReadRow(letter, header, rows[n]);
      if earlier.None? && read.Ok? && SameIdentity(read.value, x) then Some(rows[n].line) else earlier
  }

  /** The problems of one row, given the rows before it. */
  function ProblemsOf(letter: char -> bool, header: seq<string>, earlier: seq<Row>, row: Row): seq<Problem> {
    match ReadRow(letter, header, row)
    case Err(problems) => problems
    case Ok(x) =>
      match FirstLine(letter, header, earlier, x)
      case Some(line) => [DuplicateOfLine(line)]
      case None => []
  }

  function AtLine(problems: seq<Problem>, line: nat): seq<FieldError> {
    seq(|problems|, i requires 0 <= i < |problems| => FieldError(problems[i], line))
  }

  /** The report on the rows read so far. */
  function Read(letter: char -> bool, header: seq<string>, rows: seq<Row>): Report {
    if rows == [] then Report([], [], [])
    else
      var n := |rows| - 1;
      var so, problems := Read(letter, header, rows[..n]), ProblemsOf(letter, header, rows[..n], rows[n]);
      Report(so.entitlements + (if problems == [] then [ReadRow(letter, header, rows[n]).value] else []),
             so.errors + AtLine(problems, rows[n].line),
             so.rows + [Preview(rows[n], problems)])
  }

  /** The report on the data rows of a file: none at all, or more than allowed, is a problem too. */
  function Imported(letter: char -> bool, header: seq<string>, data: seq<Row>): Report {
    if data == [] then Report([], [FieldError(NoDataRows, 0)], [])
    else if |data| <= MAX_ROWS then Read(letter, header, data)
    else
      var so := Read(letter, header, data[..MAX_ROWS]);
      so.(errors := so.errors + [FieldError(TooManyRows, data[MAX_ROWS].line)])
  }

  predicate WellFormedHeader(header: seq<string>) {
    && (forall c | c in CSV_COLUMNS :: c in header)
    && (forall c | c in header :: c in CSV_COLUMNS)
    && (forall i, j | 0 <= i < j < |header| :: header[i] != header[j])
  }

  /** What is true of every accepted row. */
  ghost predicate WellFormed(letter: char -> bool, batch: seq<Entitlement>) {
    forall i :: 0 <= i < |batch| ==>
      && BusinessId(batch[i].beneficiaryId) && NameProblems(letter, batch[i].displayName) == []
      && 1 <= batch[i].amount <= MAX_AMOUNT_PAISE && 1 <= batch[i].installment <= MAX_INSTALLMENT
  }

  /** One row: its problems, or its entitlement when no earlier row names the same payment. */
  method ReadOne(
      letter: char -> bool, header: seq<string>, row: Row, firstLineOf: map<(string, int), nat>,
      ghost before: seq<Row>)
    returns (problems: seq<Problem>, accepted: Option<Entitlement>)
    requires firstLineOf == LinesOf(letter, header, before)
    ensures problems == ProblemsOf(letter, header, before, row)
    ensures accepted == if problems == [] then Some(ReadRow(letter, header, row).value) else None
  {
    ReadRowRefuses(letter, header, row);
    match ReadRow(letter, header, row)
    case Err(found) => return found, None;
    case Ok(x) =>
      LinesExact(letter, header, before, x);
      var identity := (x.beneficiaryId, x.installment);
      if identity in firstLineOf {
        return [DuplicateOfLine(firstLineOf[identity])], None;
      }
      return [], Some(x);
  }

  /** What one more row adds to the report and to the lines. */
  lemma RowAdded(letter: char -> bool, header: seq<string>, before: seq<Row>, row: Row)
    ensures var so, now, problems := Read(letter, header, before), Read(letter, header, before + [row]),
            ProblemsOf(letter, header, before, row);
            var lines, lines' := LinesOf(letter, header, before), LinesOf(letter, header, before + [row]);
            && now.errors == so.errors + AtLine(problems, row.line) && now.rows == so.rows + [Preview(row, problems)]
            && (problems != [] ==> now.entitlements == so.entitlements && lines' == lines)
            && (problems == [] ==>
                  var x := ReadRow(letter, header, row).value;
                  now.entitlements == so.entitlements + [x]
                    && lines' == lines[(x.beneficiaryId, x.installment) := row.line])
  {
    ReadGrows(letter, header, before, row);
    LinesGrow(letter, header, before, row);
    ReadRowRefuses(letter, header, row);
    if ReadRow(letter, header, row).Ok? {
      LinesExact(letter, header, before, ReadRow(letter, header, row).value);
    }
  }

  /** The loop over the data rows: skips blank ones, stops at the row after the five-hundredth. */
  method ReadRows(letter: char -> bool, header: seq<string>, rows: seq<Row>) returns (report: Report)
    ensures report == Imported(letter, header, NonBlank(rows))
  {
    var entitlements: seq<Entitlement> := [];
    var errors: seq<FieldError> := [];
    var previews: seq<Preview> := [];
    var firstLineOf: map<(string, int), nat> := map[];
    var dataRows := 0;
    for n := 0 to |rows|
      invariant dataRows == |NonBlank(rows[..n])| <= MAX_ROWS
      invariant Report(entitlements, errors, previews) == Read(letter, header, NonBlank(rows[..n]))
      invariant firstLineOf == LinesOf(letter, header, NonBlank(rows[..n]))
    {
      var row := rows[n];
      ghost var before := NonBlank(rows[..n]);
      NonBlankGrows(rows, n);
      if Blank(row) {
        continue;
      }
      dataRows := dataRows + 1;
      if dataRows > MAX_ROWS {
        TooMany(rows, n);
        errors := errors + [FieldError(TooManyRows, row.line)];
        return Report(entitlements, errors, previews);
      }
      var problems, accepted := ReadOne(letter, header, row, firstLineOf, before);
      RowAdded(letter, header, before, row);
      if accepted.Some? {
        firstLineOf := firstLineOf[(accepted.value.beneficiaryId, accepted.value.installment) := row.line];
        entitlements := entitlements + [accepted.value];
      }
      errors := errors + AtLine(problems, row.line);
      previews := previews + [Preview(row, problems)];
    }
    assert rows[..|rows|] == rows;
    if dataRows == 0 {
      errors := errors + [FieldError(NoDataRows, 0)];
    }
    report := Report(entitlements, errors, previews);
  }

  /** `first_line_of`: the line of every payment accepted so far. */
  function LinesOf(letter: char -> bool, header: seq<string>, rows: seq<Row>): map<(string, int), nat> {
    if rows == [] then map[]
    else
      var n := |rows| - 1;
      LinesWith(LinesOf(letter, header, rows[..n]), ReadRow(letter, header, rows[n]), rows[n].line)
  }

  function LinesWith(lines: map<(string, int), nat>, read: Result<Entitlement, seq<Problem>>, line: nat)
    : map<(string, int), nat>
  {
    match read
    case Err(_) => lines
    case Ok(x) => if (x.beneficiaryId, x.installment) in lines then lines
      else lines[(x.beneficiaryId, x.installment) := line]
  }

  lemma {:induction false} LinesExact(letter: char -> bool, header: seq<string>, rows: seq<Row>, x: Entitlement)
    ensures var lines, identity := LinesOf(letter, header, rows), (x.beneficiaryId, x.installment);
            FirstLine(letter, header, rows, x) == if identity in lines then Some(lines[identity]) else None
  {
    if rows != [] {
      LinesExact(letter, header, rows[..|rows| - 1], x);
    }
  }

  lemma NonBlankGrows(rows: seq<Row>, n: nat)
    requires n < |rows|
    ensures NonBlank(rows[..n + 1]) == if Blank(rows[n]) then NonBlank(rows[..n]) else NonBlank(rows[..n]) + [rows[n]]
  {
    assert rows[..n + 1][..n] == rows[..n];
  }

  /** Where the row after the last allowed one is met. */
  lemma TooMany(rows: seq<Row>, n: nat)
    requires n < |rows| && !Blank(rows[n]) && |NonBlank(rows[..n])| == MAX_ROWS
    ensures |NonBlank(rows)| > MAX_ROWS
    ensures NonBlank(rows)[..MAX_ROWS] == NonBlank(rows[..n]) && NonBlank(rows)[MAX_ROWS] == rows[n]
  {
    PrefixOfAll(rows, n + 1);
    NonBlankGrows(rows, n);
    var shown := NonBlank(rows)[..MAX_ROWS + 1];
    assert shown == NonBlank(rows[..n]) + [rows[n]];
    assert shown[..MAX_ROWS] == NonBlank(rows)[..MAX_ROWS] && shown[MAX_ROWS] == NonBlank(rows)[MAX_ROWS];
  }

  lemma {:induction false} PrefixOfAll(rows: seq<Row>, n: nat)
    requires n <= |rows|
    ensures |NonBlank(rows[..n])| <= |NonBlank(rows)|
    ensures NonBlank(rows[..n]) == NonBlank(rows)[..|NonBlank(rows[..n])|]
    decreases |rows|
  {
    if n == |rows| {
      assert rows[..n] == rows;
    } else {
      var m := |rows| - 1;
      PrefixOfAll(rows[..m], n);
      assert rows[..m][..n] == rows[..n];
    }
  }

  lemma LinesGrow(letter: char -> bool, header: seq<string>, rows: seq<Row>, row: Row)
    ensures LinesOf(letter, header, rows + [row])
            == LinesWith(LinesOf(letter, header, rows), ReadRow(letter, header, row), row.line)
  {
    assert (rows + [row])[..|rows|] == rows;
  }

  lemma ReadGrows(letter: char -> bool, header: seq<string>, rows: seq<Row>, row: Row)
    ensures var so, problems := Read(letter, header, rows), ProblemsOf(letter, header, rows, row);
            Read(letter, header, rows + [row])
            == Report(so.entitlements + (if problems == [] then [ReadRow(letter, header, row).value] else []),
                      so.errors + AtLine(problems, row.line),
                      so.rows + [Preview(row, problems)])
  {
    assert (rows + [row])[..|rows|] == rows;
  }

  lemma {:induction false} ReadRowRefuses(letter: char -> bool, header: seq<string>, row: Row)
    ensures ReadRow(letter, header, row).Err? ==> ReadRow(letter, header, row).error != []
  {
  }

  /** The place of the first line that is not blank. */
  method HeaderAt(lines: seq<Row>) returns (h: nat)
    ensures h <= |lines| && NonBlank(lines[..h]) == [] && (h < |lines| ==> !Blank(lines[h]))
  {
    for n := 0 to |lines|
      invariant NonBlank(lines[..n]) == []
    {
      if !Blank(lines[n]) {
        return n;
      }
      NonBlankGrows(lines, n);
    }
    return |lines|;
  }

  /** The header is the first line that is not blank; a bad one ends the import. */
  method ParseEntitlements(letter: char -> bool, lines: seq<Row>) returns (report: Report)
    ensures IsValid(report) <==> CleanFile(letter, lines)
    ensures IsValid(report) ==> RowsOf(letter, lines, report.entitlements)
    ensures IsValid(report) ==> DistinctRows(report.entitlements) && WellFormed(letter, report.entitlements)
    ensures var all := NonBlank(lines);
            if all == [] then report == Report([], [FieldError(FileEmpty, 0)], [])
            else if !WellFormedHeader(all[0].cells) then report == Report([], [FieldError(BadHeader, all[0].line)], [])
            else ReportsRows(letter, all[0].cells, all[1..], report)
  {
    var h := HeaderAt(lines);
    if h == |lines| {
      assert lines[..h] == lines;
      return Report([], [FieldError(FileEmpty, 0)], []);
    }
    SplitAt(lines, h);
    HeaderSplits(lines[..h], lines[h], lines[h + 1..]);
    var header := lines[h].cells;
    if !WellFormedHeader(header) {
      return Report([], [FieldError(BadHeader, lines[h].line)], []);
    }
    report := ReadRows(letter, header, lines[h + 1..]);
    ImportedReports(letter, header, NonBlank(lines[h + 1..]));
    ImportedIsClean(letter, header, NonBlank(lines[h + 1..]));
  }

  /** The report on the data rows is valid exactly when they are clean and neither none nor too many. */
  lemma ImportedIsClean(letter: char -> bool, header: seq<string>, data: seq<Row>)
    ensures var report := Imported(letter, header, data);
            && (IsValid(report) <==> 1 <= |data| <= MAX_ROWS && CleanRows(letter, header, data))
            && (IsValid(report) ==>
                  && RowByRow(letter, header, data, report.entitlements)
                  && DistinctRows(report.entitlements) && WellFormed(letter, report.entitlements))
  {
    if 1 <= |data| <= MAX_ROWS {
      CleanIffNoErrors(letter, header, data);
      if CleanRows(letter, header, data) {
        CleanIsDistinct(letter, header, data, Read(letter, header, data).entitlements);
      }
    }
  }

  // --- What a report says -----------------------------------------------------------------------

  /** `[A-Z0-9-]{1,32}` in ASCII codes. */
  ghost predicate IdShape(s: string) {
    && 1 <= |s| <= 32
    && forall i :: 0 <= i < |s| ==> 48 <= s[i] as int <= 57 || 65 <= s[i] as int <= 90 || s[i] as int == 45
  }

  /** A letter first, then letters, spaces, full stops, apostrophes and hyphens. */
  ghost predicate NameShape(letter: char -> bool, s: string) {
    && s != "" && letter(s[0])
    && forall i :: 1 <= i < |s| ==>
         letter(s[i]) || s[i] as int == 32 || s[i] as int == 46 || s[i] as int == 39 || s[i] as int == 45
  }

  ghost predicate InRange(s: string, most: nat) {
    1 <= |s| <= 15 && Digits(s) && 1 <= NumberOf(s) <= most
  }

  /** The problems of these four cells, each reported exactly when it is there. */
  ghost predicate ProblemsAre(
      letter: char -> bool, id: string, name: string, amount: string, installment: string, problems: seq<Problem>)
  {
    && (BadBeneficiary in problems <==> !IdShape(id))
    && (NameMissing in problems <==> name == "")
    && (NameTooLong in problems <==> |name| > 60)
    && (BadName in problems <==> 1 <= |name| <= 60 && !NameShape(letter, name))
    && (BadAmount in problems <==> !InRange(amount, 1_000_000_000))
    && (BadInstallmentText in problems <==> !InRange(installment, 99))
    && (forall p :: p in problems ==>
          p.BadBeneficiary? || p.NameMissing? || p.NameTooLong? || p.BadName? || p.BadAmount? || p.BadInstallmentText?)
    && InColumnOrder(problems)
  }

  ghost predicate InColumnOrder(problems: seq<Problem>) {
    forall i, j :: 0 <= i < j < |problems| ==> Column(problems[i]) < Column(problems[j])
  }

  /** Problems come in the order of the columns in the documentation. */
  function Column(p: Problem): nat {
    match p
    case BadBeneficiary => 0
    case BadAmount => 2
    case BadInstallmentText => 3
    case _ => 1
  }

  lemma ShapesAgree(letter: char -> bool, s: string)
    ensures BusinessId(s) <==> IdShape(s)
    ensures DisplayName(letter, s) <==> NameShape(letter, s)
  {
    forall c: char ensures c in " .'-" <==> c as int == 32 || c as int == 46 || c as int == 39 || c as int == 45 {
      assert " .'-"[0] == ' ' && " .'-"[1] == '.' && " .'-"[2] == '\'' && " .'-"[3] == '-';
    }
  }

  /** At most one problem of each of four columns, in their order. */
  lemma ColumnsInOrder(p: seq<Problem>, q: seq<Problem>, r: seq<Problem>, t: seq<Problem>)
    requires |p| <= 1 && |q| <= 1 && |r| <= 1 && |t| <= 1
    requires (p != [] ==> Column(p[0]) == 0) && (q != [] ==> Column(q[0]) == 1)
    requires (r != [] ==> Column(r[0]) == 2) && (t != [] ==> Column(t[0]) == 3)
    ensures InColumnOrder(p + q + r + t)
    ensures forall x :: x in p + q + r + t <==> x in p || x in q || x in r || x in t
  {
  }

  lemma NameReported(letter: char -> bool, name: string)
    ensures var q := NameProblems(letter, name);
            && |q| <= 1 && (q != [] ==> Column(q[0]) == 1)
            && (forall p :: p in q ==> p.NameMissing? || p.NameTooLong? || p.BadName?)
            && (NameMissing in q <==> name == "") && (NameTooLong in q <==> |name| > 60)
            && (BadName in q <==> 1 <= |name| <= 60 && !NameShape(letter, name))
  {
    ShapesAgree(letter, name);
  }

  lemma NumbersReported(text: string)
    ensures InRange(text, 1_000_000_000) <==> AmountOf(text).Some?
    ensures InRange(text, 99) <==> InstallmentOf(text).Some?
  {
  }

  lemma OneOf(bad: bool, p: Problem, part: seq<Problem>)
    requires part == if bad then [p] else []
    ensures |part| <= 1 && (forall x :: x in part <==> bad && x == p) && (part != [] ==> part[0] == p)
  {
  }

  lemma PartsReported(
      badId: bool, badAmount: bool, badInstallment: bool,
      p: seq<Problem>, q: seq<Problem>, r: seq<Problem>, t: seq<Problem>)
    requires p == if badId then [BadBeneficiary] else []
    requires |q| <= 1 && (forall x :: x in q ==> Column(x) == 1)
    requires r == if badAmount then [BadAmount] else []
    requires t == if badInstallment then [BadInstallmentText] else []
    ensures InColumnOrder(p + q + r + t)
    ensures forall x :: x in p + q + r + t <==>
              x in q || (badId && x == BadBeneficiary) || (badAmount && x == BadAmount)
              || (badInstallment && x == BadInstallmentText)
  {
    OneOf(badId, BadBeneficiary, p);
    OneOf(badAmount, BadAmount, r);
    OneOf(badInstallment, BadInstallmentText, t);
    ColumnsInOrder(p, q, r, t);
  }

  lemma CellsReported(letter: char -> bool, id: string, name: string, amount: string, installment: string)
    ensures ProblemsAre(letter, id, name, amount, installment, CellProblems(letter, id, name, amount, installment))
  {
    ShapesAgree(letter, id);
    NumbersReported(amount);
    NumbersReported(installment);
    NameReported(letter, name);
    PartsReported(!BusinessId(id), AmountOf(amount).None?, InstallmentOf(installment).None?,
      if !BusinessId(id) then [BadBeneficiary] else [], NameProblems(letter, name),
      if AmountOf(amount).None? then [BadAmount] else [],
      if InstallmentOf(installment).None? then [BadInstallmentText] else []);
  }

  /** One row of a well-formed file: every problem of its cells, or else the entitlement in them. */
  lemma RowReads(letter: char -> bool, header: seq<string>, row: Row, b: nat, n: nat, a: nat, t: nat)
    requires WellFormedHeader(header) && |row.cells| == |header|
    requires b < |header| && header[b] == "beneficiary_id" && n < |header| && header[n] == "display_name"
    requires a < |header| && header[a] == "amount_paise" && t < |header| && header[t] == "installment"
    ensures var id, name, amount, installment := row.cells[b], row.cells[n], row.cells[a], row.cells[t];
            match ReadRow(letter, header, row)
            case Err(problems) => problems != [] && ProblemsAre(letter, id, name, amount, installment, problems)
            case Ok(x) =>
              && ProblemsAre(letter, id, name, amount, installment, [])
              && x == Entitlement(id, name, NumberOf(amount), NumberOf(installment))
  {
    CellAt(header, row, b);
    CellAt(header, row, n);
    CellAt(header, row, a);
    CellAt(header, row, t);
    CellsReported(letter, row.cells[b], row.cells[n], row.cells[a], row.cells[t]);
    assert Cell(header, row, "beneficiary_id") == row.cells[b] && Cell(header, row, "display_name") == row.cells[n];
    assert Cell(header, row, "amount_paise") == row.cells[a] && Cell(header, row, "installment") == row.cells[t];
  }

  /** Two readable rows name the same payment. */
  ghost predicate Clash(letter: char -> bool, header: seq<string>, row: Row, other: Row) {
    var x, y := ReadRow(letter, header, row), ReadRow(letter, header, other);
    && x.Ok? && y.Ok? && x.value.beneficiaryId == y.value.beneficiaryId && x.value.installment == y.value.installment
  }

  /** The i-th row's problems: its own, or that an earlier row names the same payment, by the first such line. */
  ghost predicate ReportedAt(letter: char -> bool, header: seq<string>, data: seq<Row>, i: nat, problems: seq<Problem>)
    requires i < |data|
  {
    if |data[i].cells| != |header| then problems == [WrongCellCount]
    else
      match ReadRow(letter, header, data[i])
      case Err(own) => problems == own
      case Ok(_) =>
        || (problems == [] && forall j :: 0 <= j < i ==> !Clash(letter, header, data[j], data[i]))
        || (exists j ::
              && 0 <= j < i && Clash(letter, header, data[j], data[i]) && problems == [DuplicateOfLine(data[j].line)]
              && forall k :: 0 <= k < j ==> !Clash(letter, header, data[k], data[i]))
  }

  ghost predicate FirstClash(letter: char -> bool, header: seq<string>, rows: seq<Row>, row: Row, j: nat) {
    && j < |rows| && Clash(letter, header, rows[j], row)
    && forall k :: 0 <= k < j ==> !Clash(letter, header, rows[k], row)
  }

  lemma {:induction false} FirstLineExact(letter: char -> bool, header: seq<string>, rows: seq<Row>, row: Row)
    returns (j: nat)
    requires ReadRow(letter, header, row).Ok?
    ensures match FirstLine(letter, header, rows, ReadRow(letter, header, row).value)
            case None => forall k :: 0 <= k < |rows| ==> !Clash(letter, header, rows[k], row)
            case Some(line) => FirstClash(letter, header, rows, row, j) && line == rows[j].line
  {
    j := 0;
    if rows != [] {
      var n, x := |rows| - 1, ReadRow(letter, header, row).value;
      j := FirstLineExact(letter, header, rows[..n], row);
      assert forall k :: 0 <= k < n ==> rows[..n][k] == rows[k];
      if FirstLine(letter, header, rows[..n], x).None? {
        j := n;
      }
    }
  }

  lemma ProblemsReported(letter: char -> bool, header: seq<string>, data: seq<Row>, i: nat)
    requires i < |data|
    ensures ReportedAt(letter, header, data, i, ProblemsOf(letter, header, data[..i], data[i]))
  {
    if ReadRow(letter, header, data[i]).Ok? {
      var j := FirstLineExact(letter, header, data[..i], data[i]);
      assert forall k :: 0 <= k < i ==> data[..i][k] == data[k];
    }
  }

  /** A problem is listed among the errors exactly when it is in the preview of a row, with that row's line. */
  ghost predicate ErrorsListed(previews: seq<Preview>, errors: seq<FieldError>) {
    forall p, line :: FieldError(p, line) in errors <==> OnRow(previews, p, line)
  }

  ghost predicate OnRow(previews: seq<Preview>, p: Problem, line: nat) {
    exists i :: 0 <= i < |previews| && p in previews[i].problems && line == previews[i].row.line
  }

  lemma OnRowGrows(previews: seq<Preview>, last: Preview, p: Problem, line: nat)
    ensures OnRow(previews + [last], p, line)
            <==> OnRow(previews, p, line) || (p in last.problems && line == last.row.line)
  {
    var all := previews + [last];
    if OnRow(previews, p, line) {
      var i :| 0 <= i < |previews| && p in previews[i].problems && line == previews[i].row.line;
      assert all[i] == previews[i];
    }
    if p in last.problems && line == last.row.line {
      assert all[|previews|] == last;
    }
  }

  lemma InAtLine(problems: seq<Problem>, at: nat, p: Problem, line: nat)
    ensures FieldError(p, line) in AtLine(problems, at) <==> p in problems && line == at
  {
    if p in problems && line == at {
      var i :| 0 <= i < |problems| && problems[i] == p;
      assert AtLine(problems, at)[i] == FieldError(p, line);
    }
  }

  lemma {:induction false} ReadReports(letter: char -> bool, header: seq<string>, rows: seq<Row>)
    ensures var report := Read(letter, header, rows);
            && |report.rows| == |rows| && ErrorsListed(report.rows, report.errors)
            && forall i :: 0 <= i < |rows| ==>
                 && report.rows[i].row == rows[i]
                 && report.rows[i].problems == ProblemsOf(letter, header, rows[..i], rows[i])
  {
    if rows != [] {
      var n := |rows| - 1;
      ReadReports(letter, header, rows[..n]);
      var so, problems := Read(letter, header, rows[..n]), ProblemsOf(letter, header, rows[..n], rows[n]);
      forall p, line
        ensures FieldError(p, line) in so.errors + AtLine(problems, rows[n].line)
                <==> OnRow(so.rows + [Preview(rows[n], problems)], p, line)
      {
        InAtLine(problems, rows[n].line, p, line);
        OnRowGrows(so.rows, Preview(rows[n], problems), p, line);
      }
      forall i | 0 <= i < n ensures so.rows[i].problems == ProblemsOf(letter, header, rows[..i], rows[i]) {
        assert rows[..n][..i] == rows[..i] && rows[..n][i] == rows[i];
      }
    }
  }

  /** How many data rows are read. */
  function RowsRead(data: seq<Row>): nat {
    if |data| <= 500 then |data| else 500
  }

  /** The report of the data rows: a preview for each of the first five hundred, and every problem there is. */
  ghost predicate ReportsRows(letter: char -> bool, header: seq<string>, data: seq<Row>, report: Report) {
    && |report.rows| == RowsRead(data)
    && (forall i :: 0 <= i < |report.rows| ==>
          report.rows[i].row == data[i] && ReportedAt(letter, header, data, i, report.rows[i].problems))
    && forall p, line :: FieldError(p, line) in report.errors <==>
         || OnRow(report.rows, p, line)
         || (p == NoDataRows && line == 0 && data == [])
         || (p == TooManyRows && |data| > 500 && line == data[500].line)
  }

  lemma ImportedReports(letter: char -> bool, header: seq<string>, data: seq<Row>)
    ensures ReportsRows(letter, header, data, Imported(letter, header, data))
  {
    if data != [] {
      var read := data[..RowsRead(data)];
      assert |data| <= 500 ==> read == data;
      PreviewsReported(letter, header, data, read);
    }
  }

  lemma PreviewsReported(letter: char -> bool, header: seq<string>, data: seq<Row>, read: seq<Row>)
    requires read <= data
    ensures var report := Read(letter, header, read);
            && |report.rows| == |read| && ErrorsListed(report.rows, report.errors)
            && forall i :: 0 <= i < |read| ==>
                 report.rows[i].row == data[i] && ReportedAt(letter, header, data, i, report.rows[i].problems)
  {
    ReadReports(letter, header, read);
    var report := Read(letter, header, read);
    forall i | 0 <= i < |read| ensures ReportedAt(letter, header, data, i, report.rows[i].problems) {
      assert read[..i] == data[..i] && read[i] == data[i];
      ProblemsReported(letter, header, data, i);
    }
  }

  /** A line counts exactly when one of its cells is not empty. */
  lemma {:induction false} BlankSays(cells: seq<string>)
    ensures AllEmpty(cells) <==> forall i :: 0 <= i < |cells| ==> cells[i] == ""
  {
    if cells != [] {
      BlankSays(cells[1..]);
      assert cells == [cells[0]] + cells[1..];
    }
  }

  // --- What a valid file is ---------------------------------------------------------------------

  /** Every row reads, and no two rows name the same payment. */
  ghost predicate CleanRows(letter: char -> bool, header: seq<string>, rows: seq<Row>) {
    && (forall i :: 0 <= i < |rows| ==> ReadRow(letter, header, rows[i]).Ok?)
    && (forall i, j :: 0 <= i < j < |rows| ==>
          !SameIdentity(ReadRow(letter, header, rows[i]).value, ReadRow(letter, header, rows[j]).value))
  }

  ghost predicate CleanFile(letter: char -> bool, lines: seq<Row>) {
    var all := NonBlank(lines);
    && 2 <= |all| <= MAX_ROWS + 1
    && WellFormedHeader(all[0].cells)
    && CleanRows(letter, all[0].cells, all[1..])
  }

  /** The entitlements of a file, row by row. */
  ghost predicate RowsOf(letter: char -> bool, lines: seq<Row>, batch: seq<Entitlement>) {
    var all := NonBlank(lines);
    all != [] && RowByRow(letter, all[0].cells, all[1..], batch)
  }

  lemma {:induction false} NonBlankConcat(xs: seq<Row>, ys: seq<Row>)
    ensures NonBlank(xs + ys) == NonBlank(xs) + NonBlank(ys)
    decreases |ys|
  {
    if ys == [] {
      assert xs + ys == xs;
    } else {
      var n := |ys| - 1;
      assert (xs + ys)[..|xs| + n] == xs + ys[..n];
      NonBlankConcat(xs, ys[..n]);
    }
  }

  lemma SplitAt(rows: seq<Row>, h: nat)
    requires h < |rows|
    ensures rows[..h] + [rows[h]] + rows[h + 1..] == rows
  {
  }

  lemma HeaderSplits(front: seq<Row>, header: Row, rest: seq<Row>)
    requires NonBlank(front) == [] && !Blank(header)
    ensures NonBlank(front + [header] + rest) == [header] + NonBlank(rest)
  {
    assert (front + [header])[..|front|] == front;
    NonBlankConcat(front + [header], rest);
  }

  lemma {:induction false} FirstLineNone(letter: char -> bool, header: seq<string>, rows: seq<Row>, x: Entitlement)
    ensures FirstLine(letter, header, rows, x).None? <==>
              forall i :: 0 <= i < |rows| && ReadRow(letter, header, rows[i]).Ok? ==>
                !SameIdentity(ReadRow(letter, header, rows[i]).value, x)
  {
    if rows != [] {
      FirstLineNone(letter, header, rows[..|rows| - 1], x);
    }
  }

  lemma CleanGrows(letter: char -> bool, header: seq<string>, rows: seq<Row>, n: nat)
    requires n + 1 == |rows|
    ensures CleanRows(letter, header, rows) <==>
              CleanRows(letter, header, rows[..n]) && ProblemsOf(letter, header, rows[..n], rows[n]) == []
  {
    var last := ReadRow(letter, header, rows[n]);
    ReadRowRefuses(letter, header, rows[n]);
    if last.Ok? {
      FirstLineNone(letter, header, rows[..n], last.value);
    }
    if CleanRows(letter, header, rows) {
      forall i | 0 <= i < n ensures !SameIdentity(ReadRow(letter, header, rows[..n][i]).value, last.value) {
        assert rows[..n][i] == rows[i];
      }
    }
    if CleanRows(letter, header, rows[..n]) && ProblemsOf(letter, header, rows[..n], rows[n]) == [] {
      CleanPrefix(letter, header, rows, n);
    }
  }

  lemma CleanPrefix(letter: char -> bool, header: seq<string>, rows: seq<Row>, n: nat)
    requires n + 1 == |rows| && CleanRows(letter, header, rows[..n]) && ReadRow(letter, header, rows[n]).Ok?
    requires FirstLine(letter, header, rows[..n], ReadRow(letter, header, rows[n]).value).None?
    ensures CleanRows(letter, header, rows)
  {
    var front, last := rows[..n], ReadRow(letter, header, rows[n]).value;
    FirstLineNone(letter, header, front, last);
    forall i | 0 <= i <= n ensures ReadRow(letter, header, rows[i]).Ok? {
      assert i < n ==> front[i] == rows[i];
    }
    forall i, j | 0 <= i < j <= n
      ensures !SameIdentity(ReadRow(letter, header, rows[i]).value, ReadRow(letter, header, rows[j]).value)
    {
      assert front[i] == rows[i] && (j < n ==> front[j] == rows[j]);
    }
  }

  lemma ReadLast(letter: char -> bool, header: seq<string>, rows: seq<Row>)
    requires rows != []
    ensures var n := |rows| - 1;
            var so, now, problems := Read(letter, header, rows[..n]), Read(letter, header, rows),
              ProblemsOf(letter, header, rows[..n], rows[n]);
            && (now.errors == [] <==> so.errors == [] && problems == [])
            && (problems == [] ==> now.entitlements == so.entitlements + [ReadRow(letter, header, rows[n]).value])
  {
    var n := |rows| - 1;
    assert |AtLine(ProblemsOf(letter, header, rows[..n], rows[n]), rows[n].line)|
           == |ProblemsOf(letter, header, rows[..n], rows[n])|;
  }

  /** A report has no errors exactly for clean rows, and then lists every row's entitlement. */
  lemma {:induction false} CleanIffNoErrors(letter: char -> bool, header: seq<string>, rows: seq<Row>)
    ensures Read(letter, header, rows).errors == [] <==> CleanRows(letter, header, rows)
    ensures CleanRows(letter, header, rows) ==> RowByRow(letter, header, rows, Read(letter, header, rows).entitlements)
  {
    if rows != [] {
      var n := |rows| - 1;
      CleanIffNoErrors(letter, header, rows[..n]);
      CleanGrows(letter, header, rows, n);
      ReadLast(letter, header, rows);
      if CleanRows(letter, header, rows) {
        RowByRowGrows(letter, header, rows, Read(letter, header, rows[..n]).entitlements);
      }
    }
  }

  lemma RowByRowGrows(letter: char -> bool, header: seq<string>, rows: seq<Row>, batch: seq<Entitlement>)
    requires rows != [] && RowByRow(letter, header, rows[..|rows| - 1], batch)
    requires ReadRow(letter, header, rows[|rows| - 1]).Ok?
    ensures RowByRow(letter, header, rows, batch + [ReadRow(letter, header, rows[|rows| - 1]).value])
  {
    forall i | 0 <= i < |batch| ensures ReadRow(letter, header, rows[i]) == Ok(batch[i]) {
      assert rows[..|rows| - 1][i] == rows[i];
    }
  }

  ghost predicate RowByRow(letter: char -> bool, header: seq<string>, rows: seq<Row>, batch: seq<Entitlement>) {
    |batch| == |rows| && forall i :: 0 <= i < |rows| ==> ReadRow(letter, header, rows[i]) == Ok(batch[i])
  }

  lemma CleanIsDistinct(letter: char -> bool, header: seq<string>, rows: seq<Row>, batch: seq<Entitlement>)
    requires CleanRows(letter, header, rows) && RowByRow(letter, header, rows, batch)
    ensures DistinctRows(batch) && WellFormed(letter, batch)
  {
    forall i, j | 0 <= i < j < |batch|
      ensures batch[i].beneficiaryId != batch[j].beneficiaryId || batch[i].installment != batch[j].installment
    {
      assert !SameIdentity(ReadRow(letter, header, rows[i]).value, ReadRow(letter, header, rows[j]).value);
    }
    forall i | 0 <= i < |batch|
      ensures && BusinessId(batch[i].beneficiaryId) && NameProblems(letter, batch[i].displayName) == []
              && 1 <= batch[i].amount <= MAX_AMOUNT_PAISE && 1 <= batch[i].installment <= MAX_INSTALLMENT
    {
      assert ReadRow(letter, header, rows[i]) == Ok(batch[i]);
    }
  }

  lemma BusinessIdIsComponent(s: string)
    requires BusinessId(s)
    ensures ValidComponent(s)
  {
  }

  /** What the API demands of a batch's scheme and year and gives to a run (backend/src/domain/requests.py). */
  predicate ValidOrigin(from: Origin) {
    && BusinessId(from.scheme)
    && |from.year| == 7 && from.year[4] == '-'
    && (forall i | 0 <= i < 7 && i != 4 :: IsDigit(from.year[i]))
    && |from.runId| == 30 && from.runId[..4] == "run_"
    && (forall i | 4 <= i < 30 :: IsDigit(from.runId[i]) || 'A' <= from.runId[i] <= 'Z')
  }

  lemma OriginIsKeyable(from: Origin)
    requires ValidOrigin(from)
    ensures ValidComponent(from.scheme) && ValidComponent(from.year) && ValidComponent(from.runId)
  {
    BusinessIdIsComponent(from.scheme);
    forall i | 0 <= i < 30 ensures from.runId[i] != KEY_SEPARATOR {
      if i < 4 {
        assert from.runId[i] == from.runId[..4][i];
      }
    }
  }

  /** An accepted batch satisfies everything the key, experiment and injection code relies on. */
  lemma AcceptedBatchIsGood(letter: char -> bool, from: Origin, batch: seq<Entitlement>)
    requires DistinctRows(batch) && WellFormed(letter, batch)
    requires ValidComponent(from.scheme) && ValidComponent(from.year)
    ensures GoodBatch(from, batch)
  {
    forall i | 0 <= i < |batch| ensures KeyOf(from.scheme, from.year, batch[i]).Ok? {
      BusinessIdIsComponent(batch[i].beneficiaryId);
    }
  }
}
