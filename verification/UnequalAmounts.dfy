/**
 "A vulnerable processor then always pays 2D times in Phase A" (backend/src/domain/experiment.py) and
 "UNPAID is only shown when it is certain" (backend/src/domain/student_state.py) need equal amounts:
 for every seed and every hash there is a file of two rows, owed 5 and 1, that the import accepts and on
 which both fail.
 */
module UnequalAmounts {
  import opened Domain
  import opened Accounts
  import opened Sorting
  import opened Decimal
  import opened Keys
  import opened BatchImport
  import opened Experiment
  import opened Injection
  import opened Invariants
  import opened Protocol
  import opened Workload
  import opened EarlyUnpaid
  import opened PassingRun
  import V = VulnerableRun
  import C = VulnerableCounts
  import W = VulnerableVerdict

  /** The row that is duplicated is owed 5, the other one 1. */
  ghost predicate DearIsChosen(d: Definition, batch: seq<Entitlement>, i: nat) {
    && |batch| == 2 && |Canonical(batch)| == 2 && i < 2 && d.phases.a == [LogicalIds(2)[i]]
    && Canonical(batch)[i].amount == 5 && Canonical(batch)[1 - i].amount == 1
  }

  lemma TwoEntries(eligible: seq<Entry>, payments: multiset<Key>, i: nat)
    requires |eligible| == 2 && i < 2 && eligible[i].owed.amount == 5 && eligible[1 - i].owed.amount == 1
    requires payments[eligible[i].key] == 2 && payments[eligible[1 - i].key] == 0
    ensures Owed(eligible) == 6 && Misallocated(eligible, payments) == 5
  {
    var one := eligible[..1];
    assert one[..0] == [] && |one| == 1 && one[0] == eligible[0];
    assert Owed(one) == one[0].owed.amount;
    assert Misallocated(one, payments) == if i == 0 then 5 * (2 - 1) else 0;
    assert eligible[..2 - 1] == one;
  }

  /** Phase A delivers the chosen row twice and the other one not at all. */
  lemma ChosenTwice(
      cfg: Setup, from: Origin, batch: seq<Entitlement>, d: Definition, sha: seq<Entitlement> -> string, i: nat)
    requires GoodBatch(from, batch) && PhasesOf(d, batch) && d.batchSha == sha(Canonical(batch))
    requires RunsExperiment(cfg, from, d, batch, sha) && DearIsChosen(d, batch, i)
    ensures |cfg.eligible| == 2
    ensures cfg.eligible[i].owed == Canonical(batch)[i] && cfg.eligible[1 - i].owed == Canonical(batch)[1 - i]
    ensures KeyCount(cfg.planA, cfg.eligible[i].key) == 2 && KeyCount(cfg.planA, cfg.eligible[1 - i].key) == 0
  {
    KeyMapOfBatch(from.scheme, from.year, batch);
    PhasePlanned(from, PhaseA, d, batch, sha);
    CopiesKnown(d, batch, PhaseA);
    LogicalIdsDistinct(2);
    assert LogicalIds(2)[0] != LogicalIds(2)[1];
  }

  /** So the retry wave does not fit, and the duplicated amount is larger than all of Phase B. */
  lemma DearSetup(
      cfg: Setup, from: Origin, batch: seq<Entitlement>, d: Definition,
      seed: string, rank: string -> string, sha: seq<Entitlement> -> string, i: nat)
    requires GoodBatch(from, batch) && IsExperiment(d, batch, seed, rank, 1, sha)
    requires RunsExperiment(cfg, from, d, batch, sha) && DearIsChosen(d, batch, i)
    ensures ValidSetup(cfg) && FullBudget(cfg) && !V.RetryWaveFits(cfg) && W.AllDear(cfg)
  {
    WorkloadIsValid(cfg, from, batch, d, seed, rank, 1, sha);
    ExperimentPhases(d, batch, seed, rank, 1, sha);
    ChosenTwice(cfg, from, batch, d, sha, i);
    DearEntries(cfg, i);
  }

  lemma DearEntries(cfg: Setup, i: nat)
    requires FullBudget(cfg) && |cfg.eligible| == 2 && i < 2
    requires cfg.eligible[i].owed.amount == 5 && cfg.eligible[1 - i].owed.amount == 1
    requires KeyCount(cfg.planA, cfg.eligible[i].key) == 2 && KeyCount(cfg.planA, cfg.eligible[1 - i].key) == 0
    ensures !V.RetryWaveFits(cfg) && W.AllDear(cfg)
  {
    TwoEntries(cfg.eligible, multiset(EventKeys(cfg.planA)), i);
    forall j | 0 <= j < |cfg.eligible| && KeyCount(cfg.planA, cfg.eligible[j].key) == 2
      ensures cfg.eligible[j].owed.amount > Owed(cfg.eligible) - V.DuplicatedOwed(cfg)
    {
      assert j == i;
    }
  }

  function TwoRows(first: nat, second: nat): seq<Entitlement> {
    [Entitlement("A", "A", first, 1), Entitlement("B", "A", second, 1)]
  }

  /** The file that is uploaded. */
  function TwoLines(first: nat, second: nat): seq<Row> {
    [Row(1, CSV_COLUMNS), Row(2, ["A", "A", DecimalOf(first), "1"]), Row(3, ["B", "A", DecimalOf(second), "1"])]
  }

  lemma SmallNumber(n: nat)
    requires 1 <= n < 10
    ensures AmountOf(DecimalOf(n)) == Some(n) && InstallmentOf(DecimalOf(n)) == Some(n)
  {
    DecimalRoundTrip(n);
    assert DecimalOf(n) == [Digit(n)];
  }

  lemma LineReads(letter: char -> bool, line: nat, id: string, amount: nat)
    requires letter('A') && BusinessId(id) && 1 <= amount < 10
    ensures ReadRow(letter, CSV_COLUMNS, Row(line, [id, "A", DecimalOf(amount), "1"]))
            == Ok(Entitlement(id, "A", amount, 1))
  {
    var row := Row(line, [id, "A", DecimalOf(amount), "1"]);
    forall i | 0 <= i < 4 ensures Cell(CSV_COLUMNS, row, CSV_COLUMNS[i]) == row.cells[i] {
      CellAt(CSV_COLUMNS, row, i);
    }
    assert CSV_COLUMNS[0] == "beneficiary_id" && CSV_COLUMNS[1] == "display_name";
    assert CSV_COLUMNS[2] == "amount_paise" && CSV_COLUMNS[3] == "installment";
    SmallNumber(amount);
    SmallNumber(1);
    assert DecimalOf(1) == "1";
    assert DisplayName(letter, "A");
  }

  lemma NothingBlank(first: nat, second: nat)
    ensures NonBlank(TwoLines(first, second)) == TwoLines(first, second)
  {
    var lines := TwoLines(first, second);
    assert lines[..0] == [] && lines[..1][..0] == [] && lines[..2][..1] == lines[..1];
    assert NonBlank(lines[..1]) == [lines[0]];
    assert NonBlank(lines[..2]) == [lines[0], lines[1]];
  }

  /** The import accepts it, and reads these two rows. */
  lemma FileIsAccepted(letter: char -> bool, first: nat, second: nat)
    requires letter('A') && 1 <= first < 10 && 1 <= second < 10
    ensures CleanFile(letter, TwoLines(first, second))
    ensures RowsOf(letter, TwoLines(first, second), TwoRows(first, second))
    ensures DistinctRows(TwoRows(first, second)) && WellFormed(letter, TwoRows(first, second))
  {
    NothingBlank(first, second);
    LinesRead(letter, first, second);
    CleanIsDistinct(letter, CSV_COLUMNS, TwoLines(first, second)[1..], TwoRows(first, second));
  }

  lemma LinesRead(letter: char -> bool, first: nat, second: nat)
    requires letter('A') && 1 <= first < 10 && 1 <= second < 10
    ensures RowByRow(letter, CSV_COLUMNS, TwoLines(first, second)[1..], TwoRows(first, second))
    ensures CleanRows(letter, CSV_COLUMNS, TwoLines(first, second)[1..])
  {
    var rows := TwoRows(first, second);
    assert BusinessId("A") && BusinessId("B");
    LineReads(letter, 2, "A", first);
    LineReads(letter, 3, "B", second);
    assert rows[0].beneficiaryId != rows[1].beneficiaryId;
  }

  lemma RowsStayInOrder(first: nat, second: nat)
    ensures Canonical(TwoRows(first, second)) == TwoRows(first, second)
  {
    var rows := TwoRows(first, second);
    var a, b := rows[0], rows[1];
    assert rows[..1] == [a] && [a][..0] == [];
    assert TextLess(a.beneficiaryId, b.beneficiaryId);
    assert Sort([a], OrderLessEq) == [a];
    assert Insert(b, [a], OrderLessEq) == [a, b];
  }

  /** The choice depends on the seed and the hash alone; the dear row is put where it falls. */
  lemma ChosenRow(batchSha: string, seed: string, rank: string -> string) returns (d: Definition, i: nat)
    requires ValidSeed(seed)
    ensures BuildDefinition(batchSha, 2, seed, rank, 1) == Ok(d) && d.batchSha == batchSha
    ensures i < 2 && d.phases.a == [LogicalIds(2)[i]]
    ensures forall sha :: BuildDefinition(sha, 2, seed, rank, 1) == Ok(d.(batchSha := sha))
  {
    DefinitionSplits(batchSha, 2, seed, rank, 1);
    d := BuildDefinition(batchSha, 2, seed, rank, 1).value;
    assert d.phases.a[0] in multiset(d.phases.a);
    assert d.phases.a[0] in multiset(LogicalIds(2));
    i :| 0 <= i < 2 && LogicalIds(2)[i] == d.phases.a[0];
    assert d.phases.a == [d.phases.a[0]];
  }

  lemma AcceptedBatch(
      letter: char -> bool, from: Origin, seed: string, rank: string -> string, sha: seq<Entitlement> -> string)
    returns (lines: seq<Row>, batch: seq<Entitlement>, d: Definition, i: nat)
    requires letter('A') && ValidOrigin(from) && ValidSeed(seed)
    ensures CleanFile(letter, lines) && RowsOf(letter, lines, batch) && GoodBatch(from, batch)
    ensures IsExperiment(d, batch, seed, rank, 1, sha) && DearIsChosen(d, batch, i)
  {
    var d0;
    d0, i := ChosenRow("", seed, rank);
    var first, second := if i == 0 then 5 else 1, if i == 0 then 1 else 5;
    lines, batch := TwoLines(first, second), TwoRows(first, second);
    FileIsAccepted(letter, first, second);
    OriginIsKeyable(from);
    AcceptedBatchIsGood(letter, from, batch);
    RowsStayInOrder(first, second);
    d := d0.(batchSha := sha(Canonical(batch)));
  }

  /** The run of an experiment that the code builds. */
  lemma BuiltRun(
      from: Origin, batch: seq<Entitlement>, d: Definition, seed: string, rank: string -> string,
      sha: seq<Entitlement> -> string, attempts: nat, maxDrain: nat, complete: bool)
    returns (cfg: Setup)
    requires GoodBatch(from, batch) && IsExperiment(d, batch, seed, rank, 1, sha) && attempts >= 1
    ensures RunsExperiment(cfg, from, d, batch, sha) && cfg.processor == Vulnerable
    ensures cfg.maxAttempts == attempts && cfg.maxDrain == maxDrain && cfg.complete == complete
  {
    ExperimentPhases(d, batch, seed, rank, 1, sha);
    KeyMapOfBatch(from.scheme, from.year, batch);
    PhasePlanned(from, PhaseA, d, batch, sha);
    PhasePlanned(from, PhaseB, d, batch, sha);
    cfg := Setup(Vulnerable, KeyEntitlements(from.scheme, from.year, batch).value,
                 Planned(from, PhaseA, d, batch, sha).value, Planned(from, PhaseB, d, batch, sha).value,
                 TotalBudget(batch), attempts, maxDrain, complete);
  }

  /**
   For every scheme, year and run id the API accepts, every seed and every hash, with any retry
   settings, some file the import accepts has an experiment whose careful runs of the vulnerable
   processor can show a student as UNPAID and pay them later, and can end with PASS; and none of
   its careful runs pays the duplicated student twice.
   */
  lemma UnequalBatch(
      letter: char -> bool, from: Origin, seed: string, rank: string -> string, sha: seq<Entitlement> -> string,
      attempts: nat, maxDrain: nat, complete: bool)
    returns (cfg: Setup, lines: seq<Row>, batch: seq<Entitlement>, d: Definition)
    requires letter('A') && ValidOrigin(from) && ValidSeed(seed) && attempts >= 1
    ensures CleanFile(letter, lines) && RowsOf(letter, lines, batch)
    ensures IsExperiment(d, batch, seed, rank, 1, sha)
    ensures RunsExperiment(cfg, from, d, batch, sha) && cfg.processor == Vulnerable
    ensures cfg.maxAttempts == attempts && cfg.maxDrain == maxDrain && cfg.complete == complete
    ensures exists states: seq<State>, labels: seq<Label>, m: nat, n: nat, k: Key ::
              V.IsCarefulRun(cfg, states, labels) && UnpaidThenPaid(states, m, n, k)
    ensures exists states: seq<State>, labels: seq<Label>, n: nat ::
              V.IsCarefulRun(cfg, states, labels) && n < |states| && ReceiptPasses(states[n].run)
    ensures forall states: seq<State>, labels: seq<Label>, n: nat ::
              V.IsCarefulRun(cfg, states, labels) && n < |states| && AllRecorded(states[n].store, Plan(cfg)) ==>
                !C.AllDuplicatesPaidTwice(cfg, states[n])
  {
    var i;
    lines, batch, d, i := AcceptedBatch(letter, from, seed, rank, sha);
    cfg := BuiltRun(from, batch, d, seed, rank, sha, attempts, maxDrain, complete);
    DearSetup(cfg, from, batch, d, seed, rank, sha, i);
    EarlyUnpaidIff(cfg);
    PassIffDear(cfg);
    NeverTwice(cfg);
  }

  lemma NeverTwice(cfg: Setup)
    requires ValidSetup(cfg) && FullBudget(cfg) && cfg.processor == Vulnerable && !V.RetryWaveFits(cfg)
    ensures forall states: seq<State>, labels: seq<Label>, n: nat ::
              V.IsCarefulRun(cfg, states, labels) && n < |states| && AllRecorded(states[n].store, Plan(cfg)) ==>
                !C.AllDuplicatesPaidTwice(cfg, states[n])
  {
    forall states: seq<State>, labels: seq<Label>, n: nat
      | V.IsCarefulRun(cfg, states, labels) && n < |states| && AllRecorded(states[n].store, Plan(cfg))
      ensures !C.AllDuplicatesPaidTwice(cfg, states[n])
    {
      C.TwiceIffFits(cfg, states, labels, n);
    }
  }
}
