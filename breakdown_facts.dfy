/** What the monthly breakdown promises, proved about the fold that specifies
    `Breakdown.MonthlyBreakdown`. */
module BreakdownFacts {
  import opened Payload
  import opened Buckets
  import opened Lookups
  import opened Breakdown
  import opened Prefixes

  /** The entry loop can be cut anywhere: running it over `a + b` is running
      it over `a`, then over `b`. */
  lemma {:induction false} FoldAppend(n: Nets, a: seq<Option<RegistryEntry>>, b: seq<Option<RegistryEntry>>, q: Query)
    ensures Fold(n, a + b, q) == Fold(Fold(n, a, q), b, q)
    ensures Warnings(a + b, q) == Warnings(a, q) + Warnings(b, q)
    decreases |b|
  {
    if b == [] {
      assert a + b == a;
    } else {
      var b' := b[..|b| - 1];
      assert (a + b)[..|a + b| - 1] == a + b';
      assert (a + b)[|a + b| - 1] == b[|b| - 1];
      FoldAppend(n, a, b', q);
    }
  }

  lemma SkippedEntry(m: Nets, w: Option<RegistryEntry>, q: Query)
    requires !Counted(Unwrap(w), q)
    ensures Fold(m, [w], q) == m
    ensures Warnings([w], q) == []
  {
  }

  /** A skipped entry can be taken out of the list. */
  lemma DropSkipped(n: Nets, pre: seq<Option<RegistryEntry>>, w: Option<RegistryEntry>, post: seq<Option<RegistryEntry>>, q: Query)
    requires !Counted(Unwrap(w), q)
    ensures Fold(n, pre + [w] + post, q) == Fold(n, pre + post, q)
    ensures Warnings(pre + [w] + post, q) == Warnings(pre + post, q)
  {
    assert Fold(n, pre + [w], q) == Fold(n, pre, q) && Warnings(pre + [w], q) == Warnings(pre, q) by {
      SkippedEntry(Fold(n, pre, q), w, q);
      FoldAppend(n, pre, [w], q);
    }
    FoldAppend(n, pre + [w], post, q);
    FoldAppend(n, pre, post, q);
  }

  /** An entry that fails the status filter, has no parsable date, lies in
      another month or has a zero amount changes no bucket and gives no
      warning: the report is the same without it. */
  lemma UncountedEntryIgnored(n: Nets, ws: seq<Option<RegistryEntry>>, i: nat, q: Query)
    requires i < |ws|
    requires !StatusAdmits(Unwrap(ws[i])) || !InMonth(Unwrap(ws[i]), q) || EntryAmount(Unwrap(ws[i])) == 0.0
    ensures Fold(n, ws, q) == Fold(n, ws[..i] + ws[i + 1..], q)
    ensures Warnings(ws, q) == Warnings(ws[..i] + ws[i + 1..], q)
  {
    assert ws == ws[..i] + [ws[i]] + ws[i + 1..];
    DropSkipped(n, ws[..i], ws[i], ws[i + 1..], q);
  }

  /** The two buckets that take each counted entry's whole signed amount
      under one key. */
  datatype Axis = ByCategory | ByPayer

  function KeyOf(axis: Axis, e: RegistryEntry): string
  {
    match axis
    case ByCategory => CategoryKey(e)
    case ByPayer => PayerOf(e)
  }

  function Bucket(n: Nets, axis: Axis): map<string, real>
  {
    match axis
    case ByCategory => n.perCategory
    case ByPayer => n.perPayer
  }

  /** The entry is counted and files under key `k` of the bucket. */
  predicate Feeds(w: Option<RegistryEntry>, q: Query, axis: Axis, k: string)
  {
    Counted(Unwrap(w), q) && KeyOf(axis, Unwrap(w)) == k
  }

  /** The net of key `k`, entry by entry: the sum of the signed amounts of
      the counted entries filed under `k`. */
  function BucketNet(ws: seq<Option<RegistryEntry>>, q: Query, axis: Axis, k: string): real
    decreases |ws|
  {
    if ws == [] then 0.0
    else
      var last := ws[|ws| - 1];
      BucketNet(ws[..|ws| - 1], q, axis, k) + (if Feeds(last, q, axis, k) then Signed(Unwrap(last)) else 0.0)
  }

  /** One entry touches key `k` of the bucket only when it files under `k`. */
  lemma StepBucket(m: Nets, w: Option<RegistryEntry>, q: Query, axis: Axis, k: string)
    ensures k in Bucket(Step(m, w, q), axis) <==> k in Bucket(m, axis) || Feeds(w, q, axis, k)
    ensures Get(Bucket(Step(m, w, q), axis), k) ==
              Get(Bucket(m, axis), k) + (if Feeds(w, q, axis, k) then Signed(Unwrap(w)) else 0.0)
  {
  }

  /** Some entry of `ws` feeds `k` exactly when one of its prefix does or its last one does. */
  lemma FeedsSplit(ws: seq<Option<RegistryEntry>>, pre: seq<Option<RegistryEntry>>, q: Query, axis: Axis, k: string)
    requires ws != [] && pre == ws[..|ws| - 1]
    ensures (exists i :: 0 <= i < |ws| && Feeds(ws[i], q, axis, k)) <==>
              (exists i :: 0 <= i < |pre| && Feeds(pre[i], q, axis, k)) || Feeds(ws[|ws| - 1], q, axis, k)
  {
    ExistsSplit(ws, pre, w => Feeds(w, q, axis, k));
  }

  /** A category (or payer) appears in its bucket exactly when some counted
      entry files under it, and its value is the sum of their signed amounts. */
  lemma {:induction false} BucketIsSumOfItsEntries(n: Nets, ws: seq<Option<RegistryEntry>>, q: Query, axis: Axis, k: string)
    ensures k in Bucket(Fold(n, ws, q), axis) <==>
              k in Bucket(n, axis) || exists i :: 0 <= i < |ws| && Feeds(ws[i], q, axis, k)
    ensures Get(Bucket(Fold(n, ws, q), axis), k) == Get(Bucket(n, axis), k) + BucketNet(ws, q, axis, k)
    decreases |ws|
  {
    if ws != [] {
      var pre := ws[..|ws| - 1];
      BucketIsSumOfItsEntries(n, pre, q, axis, k);
      StepBucket(Fold(n, pre, q), ws[|ws| - 1], q, axis, k);
      FeedsSplit(ws, pre, q, axis, k);
    }
  }

  /** What the allocations of one entry give beneficiary `k`. */
  function AllocationShare(allocs: seq<Allocation>, k: string): real
    decreases |allocs|
  {
    if allocs == [] then 0.0
    else
      var last := allocs[|allocs| - 1];
      AllocationShare(allocs[..|allocs| - 1], k) + (if BeneficiaryOf(last) == k then -AllocationAmount(last) else 0.0)
  }

  /** Some allocation with a non-zero amount names `k`. */
  predicate Allocates(allocs: seq<Allocation>, k: string)
  {
    exists j :: 0 <= j < |allocs| && AllocationAmount(allocs[j]) != 0.0 && BeneficiaryOf(allocs[j]) == k
  }

  /** Spreading allocations adds to `k` the negated amounts of the allocations
      that name `k`; a beneficiary whose allocations are all zero gets no key. */
  lemma {:induction false} DistributeShare(ben: map<string, real>, allocs: seq<Allocation>, k: string)
    ensures k in Distribute(ben, allocs) <==> k in ben || Allocates(allocs, k)
    ensures Get(Distribute(ben, allocs), k) == Get(ben, k) + AllocationShare(allocs, k)
    decreases |allocs|
  {
    if allocs != [] {
      var pre := allocs[..|allocs| - 1];
      DistributeShare(ben, pre, k);
      assert forall j :: 0 <= j < |pre| ==> pre[j] == allocs[j];
      if Allocates(allocs, k) {
        var j :| 0 <= j < |allocs| && AllocationAmount(allocs[j]) != 0.0 && BeneficiaryOf(allocs[j]) == k;
        if j < |pre| {
          assert AllocationAmount(pre[j]) != 0.0 && BeneficiaryOf(pre[j]) == k;
        }
      }
    }
  }

  /** What one counted entry gives beneficiary `k`: its whole signed amount
      when it has no allocations and `k` is its payer, else the share its
      allocations name `k` for. */
  function EntryShare(e: RegistryEntry, k: string): real
  {
    if AllocationsOf(e) == [] then (if PayerOf(e) == k then Signed(e) else 0.0)
    else AllocationShare(AllocationsOf(e), k)
  }

  /** The entry creates key `k` in the beneficiary bucket. */
  predicate Reaches(e: RegistryEntry, k: string)
  {
    if AllocationsOf(e) == [] then PayerOf(e) == k else Allocates(AllocationsOf(e), k)
  }

  function BeneficiaryNet(ws: seq<Option<RegistryEntry>>, q: Query, k: string): real
    decreases |ws|
  {
    if ws == [] then 0.0
    else
      var last := Unwrap(ws[|ws| - 1]);
      BeneficiaryNet(ws[..|ws| - 1], q, k) + (if Counted(last, q) then EntryShare(last, k) else 0.0)
  }

  /** The entry is counted and creates key `k` in the beneficiary bucket. */
  predicate CountedReach(w: Option<RegistryEntry>, q: Query, k: string)
  {
    Counted(Unwrap(w), q) && Reaches(Unwrap(w), k)
  }

  /** One entry's effect on beneficiary `k`. */
  lemma StepShare(prior: Nets, w: Option<RegistryEntry>, q: Query, k: string)
    ensures k in Step(prior, w, q).perBeneficiary <==>
              k in prior.perBeneficiary || CountedReach(w, q, k)
    ensures Get(Step(prior, w, q).perBeneficiary, k) ==
              Get(prior.perBeneficiary, k) + (if Counted(Unwrap(w), q) then EntryShare(Unwrap(w), k) else 0.0)
  {
    var e := Unwrap(w);
    if Counted(e, q) && AllocationsOf(e) != [] {
      DistributeShare(prior.perBeneficiary, AllocationsOf(e), k);
    }
  }

  lemma ReachSplit(ws: seq<Option<RegistryEntry>>, pre: seq<Option<RegistryEntry>>, q: Query, k: string)
    requires ws != [] && pre == ws[..|ws| - 1]
    ensures (exists i :: 0 <= i < |ws| && CountedReach(ws[i], q, k)) <==>
              (exists i :: 0 <= i < |pre| && CountedReach(pre[i], q, k)) || CountedReach(ws[|ws| - 1], q, k)
  {
    ExistsSplit(ws, pre, w => CountedReach(w, q, k));
  }

  /** A person appears in the beneficiary bucket exactly when a counted entry
      reaches them, and their net is the sum of their shares of the counted
      entries. */
  lemma {:induction false} BeneficiaryIsSumOfShares(n: Nets, ws: seq<Option<RegistryEntry>>, q: Query, k: string)
    ensures k in Fold(n, ws, q).perBeneficiary <==>
              k in n.perBeneficiary || exists i :: 0 <= i < |ws| && CountedReach(ws[i], q, k)
    ensures Get(Fold(n, ws, q).perBeneficiary, k) == Get(n.perBeneficiary, k) + BeneficiaryNet(ws, q, k)
    decreases |ws|
  {
    if ws != [] {
      var pre := ws[..|ws| - 1];
      var w := ws[|ws| - 1];
      BeneficiaryIsSumOfShares(n, pre, q, k);
      StepShare(Fold(n, pre, q), w, q, k);
      ReachSplit(ws, pre, q, k);
    }
  }

  /** Spreading allocations lowers the sum of the beneficiary bucket by their
      sum, zero allocations included (they add nothing). */
  lemma {:induction false} DistributeTotal(ben: map<string, real>, allocs: seq<Allocation>)
    ensures SumOf(Distribute(ben, allocs), All) == SumOf(ben, All) - AllocationSum(allocs)
    decreases |allocs|
  {
    if allocs != [] {
      var pre := allocs[..|allocs| - 1];
      var last := allocs[|allocs| - 1];
      DistributeTotal(ben, pre);
      if AllocationAmount(last) != 0.0 {
        SumOfAdd(Distribute(ben, pre), BeneficiaryOf(last), -AllocationAmount(last));
      }
    }
  }

  /** The sum of the signed amounts of the counted entries. */
  function CountedTotal(ws: seq<Option<RegistryEntry>>, q: Query): real
    decreases |ws|
  {
    if ws == [] then 0.0
    else
      var last := Unwrap(ws[|ws| - 1]);
      CountedTotal(ws[..|ws| - 1], q) + (if Counted(last, q) then Signed(last) else 0.0)
  }

  /** What the counted entries put into the beneficiary bucket in all: the
      signed amount of those without allocations, the negated allocation sum
      of the others. */
  function BeneficiaryTotal(ws: seq<Option<RegistryEntry>>, q: Query): real
    decreases |ws|
  {
    if ws == [] then 0.0
    else
      var last := Unwrap(ws[|ws| - 1]);
      var part := if AllocationsOf(last) == [] then Signed(last) else -AllocationSum(AllocationsOf(last));
      BeneficiaryTotal(ws[..|ws| - 1], q) + (if Counted(last, q) then part else 0.0)
  }

  lemma {:induction false} BucketSums(n: Nets, ws: seq<Option<RegistryEntry>>, q: Query)
    ensures SumOf(Fold(n, ws, q).perCategory, All) == SumOf(n.perCategory, All) + CountedTotal(ws, q)
    ensures SumOf(Fold(n, ws, q).perPayer, All) == SumOf(n.perPayer, All) + CountedTotal(ws, q)
    ensures SumOf(Fold(n, ws, q).perBeneficiary, All) == SumOf(n.perBeneficiary, All) + BeneficiaryTotal(ws, q)
    decreases |ws|
  {
    if ws != [] {
      var pre := ws[..|ws| - 1];
      var e := Unwrap(ws[|ws| - 1]);
      var prior := Fold(n, pre, q);
      BucketSums(n, pre, q);
      if Counted(e, q) {
        SumOfAdd(prior.perCategory, CategoryKey(e), Signed(e));
        SumOfAdd(prior.perPayer, PayerOf(e), Signed(e));
        if AllocationsOf(e) != [] {
          DistributeTotal(prior.perBeneficiary, AllocationsOf(e));
        } else {
          SumOfAdd(prior.perBeneficiary, PayerOf(e), Signed(e));
        }
      }
    }
  }

  /** Every counted entry goes to one category and one payer, so the payer
      nets add up to the category nets, which is the month's net total. */
  lemma PayerNetsMatchCategoryNets(ws: seq<Option<RegistryEntry>>, q: Query)
    ensures SumOf(Fold(NoNets, ws, q).perPayer, All) == SumOf(Fold(NoNets, ws, q).perCategory, All)
    ensures SumOf(Fold(NoNets, ws, q).perCategory, All) == TotalsOf(Fold(NoNets, ws, q).perCategory).net
  {
    BucketSums(NoNets, ws, q);
  }

  lemma {:induction false} BalancedTotals(ws: seq<Option<RegistryEntry>>, q: Query)
    requires forall i :: 0 <= i < |ws| && Counted(Unwrap(ws[i]), q) && AllocationsOf(Unwrap(ws[i])) != [] ==>
               AllocationSum(AllocationsOf(Unwrap(ws[i]))) == EntryAmount(Unwrap(ws[i]))
    ensures BeneficiaryTotal(ws, q) == CountedTotal(ws, q)
    decreases |ws|
  {
    if ws != [] {
      var pre := ws[..|ws| - 1];
      assert forall i :: 0 <= i < |pre| ==> pre[i] == ws[i];
      BalancedTotals(pre, q);
    }
  }

  /** When the allocations of every counted entry add up exactly to its
      amount, the beneficiary nets add up to the category nets as well. */
  lemma ExactAllocationsBalance(ws: seq<Option<RegistryEntry>>, q: Query)
    requires forall i :: 0 <= i < |ws| && Counted(Unwrap(ws[i]), q) && AllocationsOf(Unwrap(ws[i])) != [] ==>
               AllocationSum(AllocationsOf(Unwrap(ws[i]))) == EntryAmount(Unwrap(ws[i]))
    ensures SumOf(Fold(NoNets, ws, q).perBeneficiary, All) == SumOf(Fold(NoNets, ws, q).perCategory, All)
  {
    BucketSums(NoNets, ws, q);
    BalancedTotals(ws, q);
  }

  /** The two entry lists differ at most in their entries' allocations. */
  predicate SameButAllocations(ws1: seq<Option<RegistryEntry>>, ws2: seq<Option<RegistryEntry>>)
  {
    |ws1| == |ws2| &&
    forall i :: 0 <= i < |ws1| ==> Unwrap(ws1[i]).(allocations := None) == Unwrap(ws2[i]).(allocations := None)
  }

  lemma StepIgnoresAllocations(m1: Nets, m2: Nets, w1: Option<RegistryEntry>, w2: Option<RegistryEntry>, q: Query)
    requires m1.perCategory == m2.perCategory && m1.perPayer == m2.perPayer
    requires Unwrap(w1).(allocations := None) == Unwrap(w2).(allocations := None)
    ensures Step(m1, w1, q).perCategory == Step(m2, w2, q).perCategory
    ensures Step(m1, w1, q).perPayer == Step(m2, w2, q).perPayer
  {
    var e1, e2 := Unwrap(w1), Unwrap(w2);
    assert Counted(e1, q) == Counted(e2, q) by {
      assert e1.status == e2.status && e1.date == e2.date;
      assert e1.amountLocal == e2.amountLocal && e1.amount == e2.amount;
    }
    if Counted(e1, q) {
      assert CategoryKey(e1) == CategoryKey(e2) by {
        assert e1.categoryCustom == e2.categoryCustom && e1.category == e2.category;
      }
      assert PayerOf(e1) == PayerOf(e2) by {
        assert e1.membershipOwned == e2.membershipOwned;
      }
      assert Signed(e1) == Signed(e2) by {
        assert e1.amountLocal == e2.amountLocal && e1.amount == e2.amount;
      }
      assert Step(m1, w1, q).perCategory == Add(m1.perCategory, CategoryKey(e1), Signed(e1));
      assert Step(m2, w2, q).perCategory == Add(m2.perCategory, CategoryKey(e2), Signed(e2));
      assert Step(m1, w1, q).perPayer == Add(m1.perPayer, PayerOf(e1), Signed(e1));
      assert Step(m2, w2, q).perPayer == Add(m2.perPayer, PayerOf(e2), Signed(e2));
    }
  }

  /** Allocations only distribute: the category and payer buckets, and so the
      totals, are the same whatever the allocations are. */
  lemma {:induction false} AllocationsOnlyDistribute(n1: Nets, n2: Nets, ws1: seq<Option<RegistryEntry>>, ws2: seq<Option<RegistryEntry>>, q: Query)
    requires n1.perCategory == n2.perCategory && n1.perPayer == n2.perPayer
    requires SameButAllocations(ws1, ws2)
    ensures Fold(n1, ws1, q).perCategory == Fold(n2, ws2, q).perCategory
    ensures Fold(n1, ws1, q).perPayer == Fold(n2, ws2, q).perPayer
    ensures TotalsOf(Fold(n1, ws1, q).perCategory) == TotalsOf(Fold(n2, ws2, q).perCategory)
    decreases |ws1|
  {
    if ws1 != [] {
      var pre1, pre2 := ws1[..|ws1| - 1], ws2[..|ws2| - 1];
      assert SameButAllocations(pre1, pre2) by {
        assert forall i :: 0 <= i < |pre1| ==> pre1[i] == ws1[i] && pre2[i] == ws2[i];
      }
      AllocationsOnlyDistribute(n1, n2, pre1, pre2, q);
      StepIgnoresAllocations(Fold(n1, pre1, q), Fold(n2, pre2, q), ws1[|ws1| - 1], ws2[|ws2| - 1], q);
    }
  }

  /** The date parser yields calendar dates (four-digit years, two-digit months). */
  ghost predicate CalendarParser(p: Strptime)
  {
    forall s, f :: p(s, f).Some? ==> p(s, f).value.year < 10000 && p(s, f).value.month < 100
  }

  lemma NotInMalformedMonth(e: RegistryEntry, q: Query)
    requires |q.month| != 7 || q.month[4] != '-'
    requires CalendarParser(q.strptime)
    ensures !InMonth(e, q)
  {
    var dt := ParseDate(q.strptime, e.date);
    if dt.Some? {
      MonthKeyShape(dt.value);
    }
  }

  /** A target month that is not seven characters long with a '-' at index 4
      (for example "2025-7" or "2025/07") matches no entry, provided the date
      parser yields calendar dates: the report is empty. */
  lemma {:induction false} MalformedMonthMatchesNothing(n: Nets, ws: seq<Option<RegistryEntry>>, q: Query)
    requires |q.month| != 7 || q.month[4] != '-'
    requires CalendarParser(q.strptime)
    ensures Fold(n, ws, q) == n
    ensures Warnings(ws, q) == []
    decreases |ws|
  {
    if ws != [] {
      MalformedMonthMatchesNothing(n, ws[..|ws| - 1], q);
      NotInMalformedMonth(Unwrap(ws[|ws| - 1]), q);
    }
  }

  /** At most one warning per entry, and none at all exactly when no counted
      entry's allocations drift from its amount by more than the tolerance. */
  lemma {:induction false} WarningsExactlyForMismatches(ws: seq<Option<RegistryEntry>>, q: Query)
    ensures |Warnings(ws, q)| <= |ws|
    ensures Warnings(ws, q) == [] <==> forall i :: 0 <= i < |ws| ==> !Mismatched(Unwrap(ws[i]), q)
    decreases |ws|
  {
    if ws != [] {
      var pre := ws[..|ws| - 1];
      WarningsExactlyForMismatches(pre, q);
      ExistsSplit(ws, pre, w => Mismatched(Unwrap(w), q));
    }
  }
}
