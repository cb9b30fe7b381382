/** `expenses_for_month_breakdown`: the net amount of one month per category,
    per beneficiary and per payer, the month's totals, and the allocation
    mismatch warnings (returned here instead of printed).

    Sign convention: the payload gives expenses as negative amounts and
    incomes as positive ones; the report flips the sign, so an expense adds a
    positive net and an income a negative one. */
module Breakdown {
  import opened Payload
  import opened Buckets
  import opened Lookups

  /** How far the allocations of an entry may drift from its amount before a
      warning is given (1e-6). */
  const Tolerance: real := 0.000001

  /** The report's parameters: the target month "YYYY-MM" and the date parser. */
  datatype Query = Query(month: string, strptime: Strptime)

  /** The three buckets: per category, per beneficiary, per payer. */
  datatype Nets = Nets(
    perCategory: map<string, real>,
    perBeneficiary: map<string, real>,
    perPayer: map<string, real>)

  const NoNets := Nets(map[], map[], map[])

  datatype Totals = Totals(expenses: real, incomes: real, net: real)

  /** The report's warning that an entry's allocations do not add up to its
      amount: the entry's id, the sum of its allocations and its amount. */
  datatype Warning = AllocationMismatch(entryId: Option<int>, allocationSum: real, amount: real)

  function Abs(x: real): real
  {
    if x < 0.0 then -x else x
  }

  /** `data.get("Response", [])`, then, unless that is empty,
      `response[0].get("Registry", {}).get("all_registry_entry", []) or []`. */
  function EntriesOf(data: TricountData): seq<Option<RegistryEntry>>
  {
    match data.response
    case None => []
    case Some(items) =>
      if items == [] then []
      else
        match items[0].registry
        case None => []
        case Some(reg) =>
          match reg.entries
          case None => []
          case Some(ws) => ws
  }

  /** An entry passes the status filter when it has no status (or an empty
      one) or its status is "ACTIVE". */
  predicate StatusAdmits(e: RegistryEntry)
  {
    e.status.None? || e.status.value == "" || e.status.value == "ACTIVE"
  }

  /** The entry's date parses and falls in the target month. */
  predicate InMonth(e: RegistryEntry, q: Query)
  {
    var dt := ParseDate(q.strptime, e.date);
    dt.Some? && MonthKey(dt.value) == q.month
  }

  function EntryAmount(e: RegistryEntry): real
  {
    GetAmount(e.amountLocal, e.amount)
  }

  /** An entry that reaches the buckets: it passes the status and month
      filters and its amount is not zero. */
  predicate Counted(e: RegistryEntry, q: Query)
  {
    StatusAdmits(e) && InMonth(e, q) && EntryAmount(e) != 0.0
  }

  /** The entry's contribution under the report's sign convention. */
  function Signed(e: RegistryEntry): real
  {
    -EntryAmount(e)
  }

  function CategoryKey(e: RegistryEntry): string
  {
    CategoryOf(e.categoryCustom, e.category)
  }

  function PayerOf(e: RegistryEntry): string
  {
    DisplayName(e.membershipOwned)
  }

  /** `entry.get("allocations", []) or []` */
  function AllocationsOf(e: RegistryEntry): seq<Allocation>
  {
    match e.allocations
    case None => []
    case Some(allocs) => allocs
  }

  function AllocationAmount(a: Allocation): real
  {
    GetAmount(a.amountLocal, a.amount)
  }

  function BeneficiaryOf(a: Allocation): string
  {
    DisplayName(a.membership)
  }

  /** `alloc_sum`: the sum of the amounts of all allocations, zero ones included. */
  function AllocationSum(allocs: seq<Allocation>): real
    decreases |allocs|
  {
    if allocs == [] then 0.0
    else AllocationSum(allocs[..|allocs| - 1]) + AllocationAmount(allocs[|allocs| - 1])
  }

  /** The inner loop: each allocation with a non-zero amount `a` adds `-a` to
      its beneficiary; a zero allocation is skipped. */
  function Distribute(ben: map<string, real>, allocs: seq<Allocation>): map<string, real>
    decreases |allocs|
  {
    if allocs == [] then ben
    else
      var prior := Distribute(ben, allocs[..|allocs| - 1]);
      var last := allocs[|allocs| - 1];
      var a := AllocationAmount(last);
      if a == 0.0 then prior else Add(prior, BeneficiaryOf(last), -a)
  }

  /** What one counted entry does to the buckets. */
  function CountEntry(n: Nets, e: RegistryEntry): Nets
  {
    var signed := Signed(e);
    var payer := PayerOf(e);
    var allocs := AllocationsOf(e);
    Nets(
      Add(n.perCategory, CategoryKey(e), signed),
      if allocs != [] then Distribute(n.perBeneficiary, allocs) else Add(n.perBeneficiary, payer, signed),
      Add(n.perPayer, payer, signed))
  }

  /** One iteration of the entry loop; a missing entry reads as `{}`. */
  function Step(n: Nets, w: Option<RegistryEntry>, q: Query): Nets
  {
    var e := Unwrap(w);
    if Counted(e, q) then CountEntry(n, e) else n
  }

  /** The buckets after the entry loop has run over `ws`, starting from `n`. */
  function Fold(n: Nets, ws: seq<Option<RegistryEntry>>, q: Query): Nets
    decreases |ws|
  {
    if ws == [] then n else Step(Fold(n, ws[..|ws| - 1], q), ws[|ws| - 1], q)
  }

  /** The warning a counted entry gives: its allocations, if it has any,
      must add up to its amount up to the tolerance. */
  function CheckAllocations(e: RegistryEntry): seq<Warning>
  {
    var allocs := AllocationsOf(e);
    if allocs != [] && Abs(AllocationSum(allocs) - EntryAmount(e)) > Tolerance
    then [AllocationMismatch(e.id, AllocationSum(allocs), EntryAmount(e))]
    else []
  }

  /** A counted entry with allocations whose sum is off by more than the tolerance. */
  predicate Mismatched(e: RegistryEntry, q: Query)
  {
    Counted(e, q) && CheckAllocations(e) != []
  }

  /** Only counted entries are checked. */
  function EntryWarnings(e: RegistryEntry, q: Query): seq<Warning>
  {
    if Counted(e, q) then CheckAllocations(e) else []
  }

  function Warnings(ws: seq<Option<RegistryEntry>>, q: Query): seq<Warning>
    decreases |ws|
  {
    if ws == [] then [] else Warnings(ws[..|ws| - 1], q) + EntryWarnings(Unwrap(ws[|ws| - 1]), q)
  }

  /** The totals, taken from the category bucket alone. */
  ghost function TotalsOf(perCategory: map<string, real>): Totals
  {
    Totals(SumOf(perCategory, Positive), SumOf(perCategory, Negative), SumOf(perCategory, All))
  }

  /** The inner loop over an entry's allocations: spreads them over the
      beneficiary bucket and adds up `alloc_sum`. */
  method DistributeAllocations(ben: map<string, real>, allocations: seq<Allocation>)
    returns (ben': map<string, real>, allocSum: real)
    ensures ben' == Distribute(ben, allocations)
    ensures allocSum == AllocationSum(allocations)
  {
    ben', allocSum := ben, 0.0;
    for j := 0 to |allocations|
      invariant allocSum == AllocationSum(allocations[..j])
      invariant ben' == Distribute(ben, allocations[..j])
    {
      assert allocations[..j + 1][..j] == allocations[..j];
      var alloc := allocations[j];
      var a := GetAmount(alloc.amountLocal, alloc.amount);
      allocSum := allocSum + a;
      if a == 0.0 {
        continue;
      }
      ben' := Add(ben', DisplayName(alloc.membership), -a);
    }
    assert allocations[..|allocations|] == allocations;
  }

  /** The body of the entry loop past the filters: the three buckets, then
      the consistency check, which changes no bucket. */
  method BookEntry(n: Nets, entry: RegistryEntry) returns (n': Nets, warned: seq<Warning>)
    ensures n' == CountEntry(n, entry)
    ensures warned == CheckAllocations(entry)
  {
    warned := [];
    var amount := GetAmount(entry.amountLocal, entry.amount);
    var signed := -amount;
    var category := CategoryOf(entry.categoryCustom, entry.category);
    var perCategory := Add(n.perCategory, category, signed);
    var payer := DisplayName(entry.membershipOwned);
    var perPayer := Add(n.perPayer, payer, signed);
    var perBeneficiary := n.perBeneficiary;
    var allocations := AllocationsOf(entry);
    if allocations != [] {
      var allocSum;
      perBeneficiary, allocSum := DistributeAllocations(perBeneficiary, allocations);
      if Abs(allocSum - amount) > Tolerance {
        warned := [AllocationMismatch(entry.id, allocSum, amount)];
      }
    } else {
      // no allocations: the payer is the sole beneficiary
      perBeneficiary := Add(perBeneficiary, payer, signed);
    }
    n' := Nets(perCategory, perBeneficiary, perPayer);
  }

  /** One pass of the entry loop's body over `entry`: the filters (each a
      `continue` in the source), then the bookkeeping. */
  method VisitEntry(n: Nets, entry: RegistryEntry, month: string, strptime: Strptime)
    returns (n': Nets, warned: seq<Warning>)
    ensures n' == (if Counted(entry, Query(month, strptime)) then CountEntry(n, entry) else n)
    ensures warned == EntryWarnings(entry, Query(month, strptime))
  {
    n', warned := n, [];
    // status filter: an absent, empty or "ACTIVE" status passes
    if entry.status.Some? && entry.status.value != "" && entry.status.value != "ACTIVE" {
      return;
    }
    // date filter: only the target month
    var dt := ParseDateOf(strptime, entry.date);
    if dt.None? || MonthKey(dt.value) != month {
      return;
    }
    var amount := GetAmount(entry.amountLocal, entry.amount);
    if amount == 0.0 {
      return;
    }
    assert Counted(entry, Query(month, strptime));
    n', warned := BookEntry(n, entry);
  }

  method MonthlyBreakdown(data: TricountData, month: string, strptime: Strptime)
    returns (perCategory: map<string, real>, totals: Totals,
             perBeneficiary: map<string, real>, perPayer: map<string, real>,
             warnings: seq<Warning>)
    ensures Nets(perCategory, perBeneficiary, perPayer) == Fold(NoNets, EntriesOf(data), Query(month, strptime))
    ensures warnings == Warnings(EntriesOf(data), Query(month, strptime))
    ensures totals == TotalsOf(perCategory)
    ensures totals.expenses >= 0.0 && totals.incomes >= 0.0
    ensures totals.net == totals.expenses - totals.incomes
    ensures data.response.None? || data.response == Some([]) ==>
              perCategory == map[] && perBeneficiary == map[] && perPayer == map[] &&
              totals == Totals(0.0, 0.0, 0.0) && warnings == []
  {
    var response := match data.response case None => [] case Some(items) => items;
    if response == [] {
      perCategory, perBeneficiary, perPayer, warnings := map[], map[], map[], [];
      totals := Totals(0.0, 0.0, 0.0);
      return;
    }
    ghost var q := Query(month, strptime);
    var entries := EntriesOf(data);
    var nets := NoNets;
    warnings := [];
    for i := 0 to |entries|
      invariant nets == Fold(NoNets, entries[..i], q)
      invariant warnings == Warnings(entries[..i], q)
    {
      assert entries[..i + 1][..i] == entries[..i];
      var warned;
      nets, warned := VisitEntry(nets, Unwrap(entries[i]), month, strptime);
      warnings := warnings + warned;
    }
    assert entries[..|entries|] == entries;
    perCategory, perBeneficiary, perPayer := nets.perCategory, nets.perBeneficiary, nets.perPayer;
    // totals come from the category bucket alone
    var expenses := SumWhere(perCategory, Positive);
    var incomes := SumWhere(perCategory, Negative);
    var net := SumWhere(perCategory, All);
    totals := Totals(expenses, incomes, net);
    PartsSplit(perCategory);
  }
}
