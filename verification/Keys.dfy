/**
 Entitlement keys, idempotency keys and the key map of a batch
 (backend/src/domain/idempotency.py).
 */
module Keys {
  import opened Domain
  import opened Accounts
  import opened Sorting
  import opened Decimal
  import opened Evaluator

  datatype KeyError = BadInstallment | BadComponent(name: string)

  const KEY_SEPARATOR := '#'

  predicate ValidComponent(value: string) {
    value != "" && KEY_SEPARATOR !in value
  }

  function Component(name: string, value: string): Result<string, KeyError> {
    if ValidComponent(value) then Ok(value) else Err(BadComponent(name))
  }

  function Join(parts: seq<string>): string {
    if parts == [] then ""
    else if |parts| == 1 then parts[0]
    else parts[0] + [KEY_SEPARATOR] + Join(parts[1..])
  }

  function InstallmentPart(installment: nat): string {
    "INST-" + DecimalOf(installment)
  }

  /** `<scheme_id>#<beneficiary_id>#<academic_year>#INST-<installment>`, the installment checked first. */
  function BuildEntitlementKey(scheme: string, beneficiary: string, year: string, installment: int)
    : Result<Key, KeyError>
  {
    if installment < 1 then Err(BadInstallment)
    else
      match Component("scheme_id", scheme)
      case Err(e) => Err(e)
      case Ok(_) =>
        match Component("beneficiary_id", beneficiary)
        case Err(e) => Err(e)
        case Ok(_) =>
          match Component("academic_year", year)
          case Err(e) => Err(e)
          case Ok(_) => Ok(Key(Join([scheme, beneficiary, year, InstallmentPart(installment)])))
  }

  /** The claim of one key in one run. */
  function IdempotencyKeyFor(runId: string, key: Key): Result<string, KeyError> {
    match Component("run_id", runId)
    case Err(e) => Err(e)
    case Ok(_) => Ok(runId + [KEY_SEPARATOR] + key.text)
  }

  /** `ensure_consistent_entitlement_key`: a message must carry the key its own fields give. */
  predicate ConsistentKey(e: Event) {
    BuildEntitlementKey(e.schemeId, e.beneficiaryId, e.academicYear, e.installment) == Ok(e.key)
  }

  // --- Round trip --------------------------------------------------------------------------------

  /** Where the first separator is, or the length of the text. */
  function FirstSeparator(text: string): (i: nat)
    ensures i <= |text|
  {
    if text == "" || text[0] == KEY_SEPARATOR then 0 else 1 + FirstSeparator(text[1..])
  }

  function Split(text: string): seq<string>
    decreases |text|
  {
    var i := FirstSeparator(text);
    if i == |text| then [text] else [text[..i]] + Split(text[i + 1..])
  }

  lemma {:induction false} SeparatorAfter(part: string, rest: string)
    requires KEY_SEPARATOR !in part
    ensures FirstSeparator(part + [KEY_SEPARATOR] + rest) == |part|
    ensures FirstSeparator(part) == |part|
  {
    var text := part + [KEY_SEPARATOR] + rest;
    if part != "" {
      assert text[1..] == part[1..] + [KEY_SEPARATOR] + rest;
      assert part[0] != KEY_SEPARATOR;
      assert forall c :: c in part[1..] ==> c in part;
      SeparatorAfter(part[1..], rest);
    }
  }

  /** Splitting a joined text gives the parts back, when none of them contains the separator. */
  lemma {:induction false} SplitJoin(parts: seq<string>)
    requires parts != [] && forall i :: 0 <= i < |parts| ==> KEY_SEPARATOR !in parts[i]
    ensures Split(Join(parts)) == parts
  {
    if |parts| == 1 {
      SeparatorAfter(parts[0], "");
    } else {
      var rest := Join(parts[1..]);
      SeparatorAfter(parts[0], rest);
      SplitJoin(parts[1..]);
      var text := parts[0] + [KEY_SEPARATOR] + rest;
      assert text[..|parts[0]|] == parts[0] && text[|parts[0]| + 1..] == rest;
      assert parts == [parts[0]] + parts[1..];
    }
  }

  lemma InstallmentHasNoSeparator(installment: nat)
    ensures KEY_SEPARATOR !in InstallmentPart(installment)
  {
    var part, digits := InstallmentPart(installment), DecimalOf(installment);
    forall i | 0 <= i < |part| ensures part[i] != KEY_SEPARATOR {
      if i >= 5 {
        assert part[i] == digits[i - 5];
        assert IsDigit(digits[i - 5]);
      }
    }
  }

  /** A key is built exactly for valid fields, and splitting it gives all four of them back. */
  lemma KeyRoundTrip(scheme: string, beneficiary: string, year: string, installment: int)
    ensures var built := BuildEntitlementKey(scheme, beneficiary, year, installment);
            && (built.Ok? <==>
                  installment >= 1 && ValidComponent(scheme) && ValidComponent(beneficiary) && ValidComponent(year))
            && (built.Ok? ==>
                  var parts := Split(built.value.text);
                  && |parts| == 4 && parts[0] == scheme && parts[1] == beneficiary && parts[2] == year
                  && |parts[3]| > 5 && parts[3][..5] == "INST-"
                  && Digits(parts[3][5..]) && NumberOf(parts[3][5..]) == installment)
            && (built.Err? ==>
                  match built.error
                  case BadInstallment => installment < 1
                  case BadComponent(name) =>
                    || (name == "scheme_id" && !ValidComponent(scheme))
                    || (name == "beneficiary_id" && !ValidComponent(beneficiary))
                    || (name == "academic_year" && !ValidComponent(year)))
  {
    if BuildEntitlementKey(scheme, beneficiary, year, installment).Ok? {
      InstallmentHasNoSeparator(installment);
      SplitJoin([scheme, beneficiary, year, InstallmentPart(installment)]);
      DecimalRoundTrip(installment);
      assert InstallmentPart(installment)[..5] == "INST-";
      assert InstallmentPart(installment)[5..] == DecimalOf(installment);
    }
  }

  /** Two payments share a key only when they are the same payment. */
  lemma KeyInjective(s: string, b: string, y: string, n: int, s': string, b': string, y': string, n': int)
    requires BuildEntitlementKey(s, b, y, n).Ok?
    requires BuildEntitlementKey(s, b, y, n) == BuildEntitlementKey(s', b', y', n')
    ensures s == s' && b == b' && y == y' && n == n'
  {
    KeyRoundTrip(s, b, y, n);
    KeyRoundTrip(s', b', y', n');
  }

  /** Claims of different runs never meet: a run-scoped key gives back its run and its key. */
  lemma RunScopedInjective(run: string, key: Key, run': string, key': Key)
    requires IdempotencyKeyFor(run, key).Ok?
    requires IdempotencyKeyFor(run, key) == IdempotencyKeyFor(run', key')
    ensures run == run' && key == key'
  {
    var text := run + [KEY_SEPARATOR] + key.text;
    SeparatorAfter(run, key.text);
    SeparatorAfter(run', key'.text);
    assert text[..|run|] == run && text[..|run'|] == run';
    assert text[|run| + 1..] == key.text && text[|run'| + 1..] == key'.text;
  }

  // --- The key map of a batch ----------------------------------------------------------------------

  predicate OrderLessEq(a: Entitlement, b: Entitlement) {
    TextLess(a.beneficiaryId, b.beneficiaryId) || (a.beneficiaryId == b.beneficiaryId && a.installment <= b.installment)
  }

  function Canonical(batch: seq<Entitlement>): seq<Entitlement> {
    Sort(batch, OrderLessEq)
  }

  function KeyOf(scheme: string, year: string, x: Entitlement): Result<Key, KeyError> {
    BuildEntitlementKey(scheme, x.beneficiaryId, year, x.installment)
  }

  /** Assignment in a dictionary: a new key goes last, an existing one keeps its place. */
  function Assign(entries: seq<Entry>, entry: Entry): seq<Entry> {
    if entries == [] then [entry]
    else if entries[0].key == entry.key then [entry] + entries[1..]
    else [entries[0]] + Assign(entries[1..], entry)
  }

  /** The dictionary of a list of entitlements; the first bad row raises. */
  function KeyMap(scheme: string, year: string, ordered: seq<Entitlement>): Result<seq<Entry>, KeyError> {
    if ordered == [] then Ok([])
    else
      var n := |ordered| - 1;
      match KeyMap(scheme, year, ordered[..n])
      case Err(e) => Err(e)
      case Ok(entries) =>
        match KeyOf(scheme, year, ordered[n])
        case Err(e) => Err(e)
        case Ok(key) => Ok(Assign(entries, Entry(key, ordered[n])))
  }

  function KeyEntitlements(scheme: string, year: string, batch: seq<Entitlement>): Result<seq<Entry>, KeyError> {
    KeyMap(scheme, year, Canonical(batch))
  }

  /** One row per beneficiary and installment. */
  ghost predicate DistinctRows(batch: seq<Entitlement>) {
    forall i, j :: 0 <= i < j < |batch| ==>
      batch[i].beneficiaryId != batch[j].beneficiaryId || batch[i].installment != batch[j].installment
  }

  /** Every row can be keyed. */
  ghost predicate Keyable(scheme: string, year: string, batch: seq<Entitlement>) {
    forall i :: 0 <= i < |batch| ==> KeyOf(scheme, year, batch[i]).Ok?
  }

  /** The entries pair every row with its own key, in order. */
  ghost predicate Keyed(scheme: string, year: string, ordered: seq<Entitlement>, entries: seq<Entry>) {
    && |entries| == |ordered|
    && forall i :: 0 <= i < |ordered| ==>
       entries[i].owed == ordered[i] && KeyOf(scheme, year, ordered[i]) == Ok(entries[i].key)
  }

  lemma {:induction false} AssignNew(entries: seq<Entry>, entry: Entry)
    requires forall i :: 0 <= i < |entries| ==> entries[i].key != entry.key
    ensures Assign(entries, entry) == entries + [entry]
  {
    if entries != [] {
      AssignNew(entries[1..], entry);
      assert entries == [entries[0]] + entries[1..];
    }
  }

  lemma DifferentRowsDifferentKeys(scheme: string, year: string, a: Entitlement, b: Entitlement)
    requires KeyOf(scheme, year, a).Ok? && KeyOf(scheme, year, a) == KeyOf(scheme, year, b)
    ensures a.beneficiaryId == b.beneficiaryId && a.installment == b.installment
  {
    KeyInjective(scheme, a.beneficiaryId, year, a.installment, scheme, b.beneficiaryId, year, b.installment);
  }

  lemma {:induction false} KeyMapKeyed(scheme: string, year: string, ordered: seq<Entitlement>)
    requires DistinctRows(ordered) && Keyable(scheme, year, ordered)
    ensures KeyMap(scheme, year, ordered).Ok? && Keyed(scheme, year, ordered, KeyMap(scheme, year, ordered).value)
    ensures DistinctKeys(KeyMap(scheme, year, ordered).value)
  {
    if ordered != [] {
      var n := |ordered| - 1;
      KeyMapKeyed(scheme, year, ordered[..n]);
      var entries, last := KeyMap(scheme, year, ordered[..n]).value,
        Entry(KeyOf(scheme, year, ordered[n]).value, ordered[n]);
      forall i | 0 <= i < n ensures entries[i].key != last.key {
        assert KeyOf(scheme, year, ordered[..n][i]) == Ok(entries[i].key);
        if entries[i].key == last.key {
          DifferentRowsDifferentKeys(scheme, year, ordered[i], ordered[n]);
        }
      }
      AssignNew(entries, last);
    }
  }

  lemma {:induction false} KeyMapRaises(scheme: string, year: string, ordered: seq<Entitlement>)
    ensures KeyMap(scheme, year, ordered).Ok? <==> Keyable(scheme, year, ordered)
  {
    if ordered != [] {
      var n := |ordered| - 1;
      KeyMapRaises(scheme, year, ordered[..n]);
      assert forall i :: 0 <= i < n ==> ordered[..n][i] == ordered[i];
    }
  }

  lemma CanonicalOrder()
    ensures Ranks(OrderLessEq)
  {
    TextOrder();
    forall a: Entitlement, b: Entitlement ensures OrderLessEq(a, b) || OrderLessEq(b, a) {
      TextTrichotomy(a.beneficiaryId, b.beneficiaryId);
    }
    forall a: Entitlement, b: Entitlement, c: Entitlement | OrderLessEq(a, b) && OrderLessEq(b, c)
      ensures OrderLessEq(a, c) {
      if TextLess(a.beneficiaryId, b.beneficiaryId) && TextLess(b.beneficiaryId, c.beneficiaryId) {
        TextTransitive(a.beneficiaryId, b.beneficiaryId, c.beneficiaryId);
      }
    }
  }

  lemma RowsDecide(batch: seq<Entitlement>)
    requires DistinctRows(batch)
    ensures Decides(batch, OrderLessEq)
  {
    forall i, j | 0 <= i < |batch| && 0 <= j < |batch| && OrderLessEq(batch[i], batch[j])
      && OrderLessEq(batch[j], batch[i])
      ensures batch[i] == batch[j]
    {
      TextTrichotomy(batch[i].beneficiaryId, batch[j].beneficiaryId);
    }
  }

  /** The canonical order of a batch does not depend on the order of its rows. */
  lemma CanonicalIgnoresOrder(xs: seq<Entitlement>, ys: seq<Entitlement>)
    requires DistinctRows(xs) && multiset(xs) == multiset(ys)
    ensures Canonical(xs) == Canonical(ys)
  {
    CanonicalOrder();
    RowsDecide(xs);
    SortIgnoresOrder(xs, ys, OrderLessEq);
  }

  /** By beneficiary, then by installment, smallest first. */
  lemma CanonicalInOrder(batch: seq<Entitlement>)
    ensures multiset(Canonical(batch)) == multiset(batch)
    ensures forall i, j :: 0 <= i < j < |Canonical(batch)| ==>
              var a, b := Canonical(batch)[i], Canonical(batch)[j];
              TextLess(a.beneficiaryId, b.beneficiaryId)
              || (a.beneficiaryId == b.beneficiaryId && a.installment <= b.installment)
  {
    CanonicalOrder();
    SortPermutes(batch, OrderLessEq);
    SortSorts(batch, OrderLessEq);
    forall i, j | 0 <= i < j < |Canonical(batch)|
      ensures var a, b := Canonical(batch)[i], Canonical(batch)[j];
              TextLess(a.beneficiaryId, b.beneficiaryId)
              || (a.beneficiaryId == b.beneficiaryId && a.installment <= b.installment)
    {
      assert OrderLessEq(Canonical(batch)[i], Canonical(batch)[j]);
    }
  }

  lemma DistinctIgnoresOrder(xs: seq<Entitlement>, ys: seq<Entitlement>)
    requires DistinctRows(xs) && multiset(xs) == multiset(ys)
    ensures DistinctRows(ys)
  {
    forall i, j | 0 <= i < j < |ys|
      ensures ys[i].beneficiaryId != ys[j].beneficiaryId || ys[i].installment != ys[j].installment
    {
      if ys[i] == ys[j] {
        OccursTwice(ys, i, j);
        var a, b := TwoOccurrences(xs, ys[i]);
      } else {
        assert ys[i] in multiset(xs) && ys[j] in multiset(xs);
        var a :| 0 <= a < |xs| && xs[a] == ys[i];
        var b :| 0 <= b < |xs| && xs[b] == ys[j];
      }
    }
  }

  /** The budget of a batch: the sum of its amounts. */
  function TotalBudget(batch: seq<Entitlement>): int {
    if batch == [] then 0 else TotalBudget(batch[..|batch| - 1]) + batch[|batch| - 1].amount
  }

  lemma {:induction false} BudgetConcat(xs: seq<Entitlement>, ys: seq<Entitlement>)
    ensures TotalBudget(xs + ys) == TotalBudget(xs) + TotalBudget(ys)
    decreases |ys|
  {
    if ys == [] {
      assert xs + ys == xs;
    } else {
      assert (xs + ys)[..|xs + ys| - 1] == xs + ys[..|ys| - 1];
      BudgetConcat(xs, ys[..|ys| - 1]);
    }
  }

  lemma {:induction false} BudgetIgnoresOrder(xs: seq<Entitlement>, ys: seq<Entitlement>)
    requires multiset(xs) == multiset(ys)
    ensures TotalBudget(xs) == TotalBudget(ys)
  {
    if xs == [] {
      assert |ys| == |multiset(ys)|;
    } else {
      var i := MatchLast(xs, ys);
      BudgetIgnoresOrder(xs[..|xs| - 1], ys[..i] + ys[i + 1..]);
      assert ys == ys[..i] + ([ys[i]] + ys[i + 1..]);
      BudgetConcat(ys[..i], [ys[i]] + ys[i + 1..]);
      BudgetConcat([ys[i]], ys[i + 1..]);
      BudgetConcat(ys[..i], ys[i + 1..]);
      assert [ys[i]][..0] == [];
    }
  }

  lemma {:induction false} KeyedBudget(scheme: string, year: string, ordered: seq<Entitlement>, entries: seq<Entry>)
    requires Keyed(scheme, year, ordered, entries)
    ensures Owed(entries) == TotalBudget(ordered)
  {
    if ordered != [] {
      var n := |ordered| - 1;
      KeyedBudget(scheme, year, ordered[..n], entries[..n]);
    }
  }

  lemma CanonicalKeeps(scheme: string, year: string, batch: seq<Entitlement>)
    requires DistinctRows(batch)
    ensures DistinctRows(Canonical(batch)) && multiset(Canonical(batch)) == multiset(batch)
    ensures |Canonical(batch)| == |batch|
    ensures Keyable(scheme, year, batch) <==> Keyable(scheme, year, Canonical(batch))
  {
    var ordered := Canonical(batch);
    SortPermutes(batch, OrderLessEq);
    DistinctIgnoresOrder(batch, ordered);
    if Keyable(scheme, year, batch) {
      forall i | 0 <= i < |ordered| ensures KeyOf(scheme, year, ordered[i]).Ok? {
        assert ordered[i] in multiset(batch);
        var j :| 0 <= j < |batch| && batch[j] == ordered[i];
      }
    }
    if Keyable(scheme, year, ordered) {
      forall i | 0 <= i < |batch| ensures KeyOf(scheme, year, batch[i]).Ok? {
        assert batch[i] in multiset(ordered);
        var j :| 0 <= j < |ordered| && ordered[j] == batch[i];
      }
    }
  }

  /**
   The key map of a batch with one row per beneficiary and installment: it exists exactly
   when every row can be keyed, has one entry per row in canonical order, no key twice, and
   its amounts add up to the batch budget.
   */
  lemma KeyMapOfBatch(scheme: string, year: string, batch: seq<Entitlement>)
    requires DistinctRows(batch)
    ensures var keyed := KeyEntitlements(scheme, year, batch);
            && (keyed.Ok? <==> Keyable(scheme, year, batch))
            && (keyed.Ok? ==>
                  && Keyed(scheme, year, Canonical(batch), keyed.value)
                  && DistinctKeys(keyed.value) && |keyed.value| == |batch|
                  && Owed(keyed.value) == TotalBudget(batch))
  {
    var ordered := Canonical(batch);
    CanonicalKeeps(scheme, year, batch);
    KeyMapRaises(scheme, year, ordered);
    if Keyable(scheme, year, batch) {
      KeyMapKeyed(scheme, year, ordered);
      KeyedBudget(scheme, year, ordered, KeyMap(scheme, year, ordered).value);
      BudgetIgnoresOrder(batch, ordered);
    }
  }
}
