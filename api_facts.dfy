/** What `get_users` and `get_expenses` promise, stated over the fold
    functions that the two methods of TricountApi are proved against. */
module TricountApiFacts {
  import opened Payload
  import opened IntText
  import opened TricountApi
  import opened Prefixes

  // ---------------------------------------------------------------- get_users

  /** The membership gives the key `k`. */
  predicate HasKey(m: Membership, k: string)
  {
    MemberRecord(m).Returns? && MemberRecord(m).value.0 == k
  }

  /** The loop raises exactly when one of the memberships lacks a link of
      the chain it reads. */
  lemma {:induction false} UsersRaiseIff(ms: seq<Membership>)
    ensures UsersOf(ms).Raises? <==> exists i :: 0 <= i < |ms| && MemberRecord(ms[i]).Raises?
    decreases |ms|
  {
    if ms != [] {
      var p := ms[..|ms| - 1];
      UsersRaiseIff(p);
      ExistsSplit(ms, p, m => MemberRecord(m).Raises?);
    }
  }

  /** The dict's keys are exactly the `str(id)` of the memberships. */
  lemma {:induction false} UsersKeys(ms: seq<Membership>, users: map<string, string>)
    requires UsersOf(ms) == Returns(users)
    ensures forall k :: k in users <==> exists i :: 0 <= i < |ms| && HasKey(ms[i], k)
    decreases |ms|
  {
    if ms != [] {
      var p := ms[..|ms| - 1];
      var prior := UsersOf(p).value;
      var rec := MemberRecord(ms[|ms| - 1]).value;
      assert users == prior[rec.0 := rec.1];
      UsersKeys(p, prior);
      forall k
        ensures k in users <==> exists i :: 0 <= i < |ms| && HasKey(ms[i], k)
      {
        ExistsSplit(ms, p, m => HasKey(m, k));
      }
    }
  }

  /** Reference definition: the name of the last membership with key `k`. */
  function LastName(ms: seq<Membership>, k: string): Option<string>
    decreases |ms|
  {
    if ms == [] then None
    else if HasKey(ms[|ms| - 1], k) then Some(MemberRecord(ms[|ms| - 1]).value.1)
    else LastName(ms[..|ms| - 1], k)
  }

  /** `LastName` is what it says: nothing when no membership has the key,
      else the name of one that has it and after which none has it. */
  lemma {:induction false} LastNameIsLast(ms: seq<Membership>, k: string)
    ensures LastName(ms, k).None? <==> forall i :: 0 <= i < |ms| ==> !HasKey(ms[i], k)
    ensures LastName(ms, k).Some? ==>
              exists i :: 0 <= i < |ms| && MemberRecord(ms[i]) == Returns((k, LastName(ms, k).value)) &&
                forall j :: i < j < |ms| ==> !HasKey(ms[j], k)
    decreases |ms|
  {
    if ms != [] {
      var p := ms[..|ms| - 1];
      LastNameIsLast(p, k);
      ExistsSplit(ms, p, m => HasKey(m, k));
      if !HasKey(ms[|ms| - 1], k) && LastName(p, k).Some? {
        var i :| 0 <= i < |p| && MemberRecord(p[i]) == Returns((k, LastName(p, k).value)) &&
                 forall j :: i < j < |p| ==> !HasKey(p[j], k);
        assert p[i] == ms[i];
        forall j | i < j < |ms|
          ensures !HasKey(ms[j], k)
        {
          if j < |p| {
            assert p[j] == ms[j];
          }
        }
      }
    }
  }

  /** Each key's value is the name of the LAST membership with that key. */
  lemma {:induction false} UsersLastWins(ms: seq<Membership>, users: map<string, string>)
    requires UsersOf(ms) == Returns(users)
    ensures forall k :: k in users <==> LastName(ms, k).Some?
    ensures forall k :: k in users ==> users[k] == LastName(ms, k).value
    decreases |ms|
  {
    if ms != [] {
      var p := ms[..|ms| - 1];
      var prior := UsersOf(p).value;
      var rec := MemberRecord(ms[|ms| - 1]).value;
      assert users == prior[rec.0 := rec.1];
      UsersLastWins(p, prior);
    }
  }

  /** A key `get_users` returns, handed back to `get_expenses` as `user_id`
      (as the example script does), is truthy; it parses to the member's id,
      so the filter selects exactly that member's allocations, unless it is
      the "None" of a null id, on which `int()` raises. */
  lemma UserKeysSelectMembers(data: TricountData, users: map<string, string>)
    requires Users(data) == Returns(users)
    ensures forall k :: k in users ==> IsTruthy(TextUser(k))
    ensures forall k :: k in users ==> (UserIdOf(TextUser(k)).Returns? <==> k != NoneText)
    ensures forall k :: k in users && k != NoneText ==> Show(UserIdOf(TextUser(k)).value) == k
  {
    var ms := RegistryOf(data).value.memberships.value;
    UsersKeys(ms, users);
    forall k | k in users
      ensures IsTruthy(TextUser(k))
      ensures UserIdOf(TextUser(k)).Returns? <==> k != NoneText
      ensures k != NoneText ==> Show(UserIdOf(TextUser(k)).value) == k
    {
      var i :| 0 <= i < |ms| && HasKey(ms[i], k);
      match ms[i].nonUser.value.id
      case Null =>
        assert k == NoneText;
        assert !IsDigit(k[0]);
      case Present(id) =>
        assert k == Show(id);
        ParseShow(id);
        assert k[0] == '-' || IsDigit(k[0]);
    }
  }

  // ------------------------------------------------------------- get_expenses

  /** The list of a concatenation is the concatenation of the lists: the
      entries' order is kept, and one entry that raises makes it all raise. */
  lemma {:induction false} ExpensesAppend(a: seq<Option<RegistryEntry>>, b: seq<Option<RegistryEntry>>, u: UserArg)
    ensures ExpensesOf(a + b, u) ==
              if ExpensesOf(a, u).Raises? || ExpensesOf(b, u).Raises? then Raises
              else Returns(ExpensesOf(a, u).value + ExpensesOf(b, u).value)
    decreases |b|
  {
    if b == [] {
      assert a + b == a;
      if ExpensesOf(a, u).Returns? {
        assert ExpensesOf(a, u).value + [] == ExpensesOf(a, u).value;
      }
    } else {
      var b' := b[..|b| - 1];
      assert (a + b)[..|a + b| - 1] == a + b';
      assert (a + b)[|a + b| - 1] == b[|b| - 1];
      ExpensesAppend(a, b', u);
      if ExpensesOf(a, u).Returns? && ExpensesOf(b', u).Returns? {
        var xs, ys := ExpensesOf(a, u).value, ExpensesOf(b', u).value;
        match EntryExpense(b[|b| - 1], u)
        case Raises =>
        case Returns(None) =>
        case Returns(Some(x)) =>
          assert xs + ys + [x] == xs + (ys + [x]);
      }
    }
  }

  /** At most one amount per entry. */
  lemma {:induction false} ExpensesLength(ws: seq<Option<RegistryEntry>>, u: UserArg)
    ensures ExpensesOf(ws, u).Returns? ==> |ExpensesOf(ws, u).value| <= |ws|
    decreases |ws|
  {
    if ws != [] {
      ExpensesLength(ws[..|ws| - 1], u);
    }
  }

  /** The loop raises exactly when one of the entries does. */
  lemma {:induction false} ExpensesRaiseIff(ws: seq<Option<RegistryEntry>>, u: UserArg)
    ensures ExpensesOf(ws, u).Raises? <==> exists i :: 0 <= i < |ws| && EntryExpense(ws[i], u).Raises?
    decreases |ws|
  {
    if ws != [] {
      var p := ws[..|ws| - 1];
      ExpensesRaiseIff(p, u);
      assert forall i :: 0 <= i < |p| ==> p[i] == ws[i];
      if ExpensesOf(ws, u).Raises? && ExpensesOf(p, u).Returns? {
        assert EntryExpense(ws[|ws| - 1], u).Raises?;
      }
    }
  }

  /** One allocation makes the inner loop raise: its member id is missing,
      `int(user_id)` fails, or it is the member's and its amount is not a number. */
  predicate AllocationRaises(a: Allocation, u: UserArg)
  {
    MembershipId(a.membership).Raises? || UserIdOf(u).Raises? ||
    (Matches(a, u) && StrictAmount(a.amount).Raises?)
  }

  /** The inner loop raises exactly when one of the allocations does; the
      other members' allocations are read too. */
  lemma {:induction false} MatchRaisesIff(allocs: seq<Allocation>, u: UserArg)
    ensures MatchAllocations(allocs, u).Raises? <==> exists j :: 0 <= j < |allocs| && AllocationRaises(allocs[j], u)
    decreases |allocs|
  {
    if allocs != [] {
      var p := allocs[..|allocs| - 1];
      MatchRaisesIff(p, u);
      assert forall j :: 0 <= j < |p| ==> p[j] == allocs[j];
      if MatchAllocations(allocs, u).Raises? && MatchAllocations(p, u).Returns? {
        assert AllocationRaises(allocs[|allocs| - 1], u);
      }
    }
  }

  /** An allocation whose member id is JSON null belongs to nobody (`None`
      never equals an int), and it makes the inner loop raise only when
      `int(user_id)` does. */
  lemma NullIdNeverMatches(a: Allocation, u: UserArg)
    requires MembershipId(a.membership) == Returns(None)
    ensures !Matches(a, u)
    ensures AllocationRaises(a, u) <==> UserIdOf(u).Raises?
    ensures UserIdOf(u).Returns? ==> forall c :: AllocationStep(c, a, u) == Returns(c)
  {
  }

  /** The inner loop ends with no amount exactly when none of the
      allocations is the member's. */
  lemma {:induction false} MatchNoneIff(allocs: seq<Allocation>, u: UserArg, r: Option<real>)
    requires MatchAllocations(allocs, u) == Returns(r)
    ensures r.None? <==> forall j :: 0 <= j < |allocs| ==> !Matches(allocs[j], u)
    decreases |allocs|
  {
    if allocs != [] {
      var p := allocs[..|allocs| - 1];
      MatchNoneIff(p, u, MatchAllocations(p, u).value);
      ExistsSplit(allocs, p, a => Matches(a, u));
    }
  }

  /** The inner loop keeps the amount of the LAST allocation of the member. */
  lemma {:induction false} MatchPicksLastAllocation(allocs: seq<Allocation>, u: UserArg, x: real)
    requires MatchAllocations(allocs, u) == Returns(Some(x))
    ensures exists j :: 0 <= j < |allocs| && Matches(allocs[j], u) &&
              StrictAmount(allocs[j].amount) == Returns(x) &&
              forall k :: j < k < |allocs| ==> !Matches(allocs[k], u)
    decreases |allocs|
  {
    var p := allocs[..|allocs| - 1];
    var last := |allocs| - 1;
    if !Matches(allocs[last], u) {
      assert MatchAllocations(p, u) == Returns(Some(x));
      MatchPicksLastAllocation(p, u, x);
      var j :| 0 <= j < |p| && Matches(p[j], u) &&
               StrictAmount(p[j].amount) == Returns(x) &&
               forall k :: j < k < |p| ==> !Matches(p[k], u);
      assert p[j] == allocs[j];
      forall k | j < k < |allocs|
        ensures !Matches(allocs[k], u)
      {
        if k < last {
          assert p[k] == allocs[k];
        }
      }
    } else {
      assert StrictAmount(allocs[last].amount) == Returns(x);
    }
  }

  /** A BALANCE entry whose amount parses is skipped whatever the filter:
      its allocations are not even read. */
  lemma BalanceEntryDropped(ws: seq<Option<RegistryEntry>>, i: nat, u: UserArg)
    requires i < |ws| && ws[i].Some?
    requires ws[i].value.typeTransaction == Present("BALANCE") && StrictAmount(ws[i].value.amount).Returns?
    ensures ExpensesOf(ws, u) == ExpensesOf(ws[..i] + ws[i + 1..], u)
  {
    assert ws == ws[..i] + [ws[i]] + ws[i + 1..];
    ExpensesAppend(ws[..i] + [ws[i]], ws[i + 1..], u);
    ExpensesAppend(ws[..i], [ws[i]], u);
    assert ExpensesOf([ws[i]], u) == Returns([]) by {
      assert [ws[i]][..0] == [];
    }
    ExpensesAppend(ws[..i], ws[i + 1..], u);
  }

  /** A `type_transaction` of JSON null is not "BALANCE": without a filter
      the entry lists its amount. */
  lemma NullTypeKept(e: RegistryEntry, u: UserArg)
    requires e.typeTransaction == Null && StrictAmount(e.amount).Returns? && !IsTruthy(u)
    ensures ExpensesOf([Some(e)], u) == Returns([StrictAmount(e.amount).value])
  {
    ExpensesSingle(Some(e), u);
  }

  /** The list of one entry. */
  lemma ExpensesSingle(w: Option<RegistryEntry>, u: UserArg)
    ensures ExpensesOf([w], u) ==
              match EntryExpense(w, u)
              case Raises => Raises
              case Returns(None) => Returns([])
              case Returns(Some(x)) => Returns([x])
  {
    var one := [w];
    assert one[..|one| - 1] == [] && one[|one| - 1] == w;
    assert ExpensesOf(one[..|one| - 1], u) == Returns([]);
    if EntryExpense(w, u).Returns? && EntryExpense(w, u).value.Some? {
      var x := EntryExpense(w, u).value.value;
      assert [] + [x] == [x];
    }
  }

  /** An entry `get_expenses` can read without a filter. */
  predicate Listable(w: Option<RegistryEntry>)
  {
    w.Some? && StrictAmount(w.value.amount).Returns? && !w.value.typeTransaction.Absent?
  }

  predicate AllListable(ws: seq<Option<RegistryEntry>>)
  {
    forall i :: 0 <= i < |ws| ==> Listable(ws[i])
  }

  /** Reference definition, from the front: the amounts of the entries that
      are not BALANCE, in order. */
  function NonBalanceAmounts(ws: seq<Option<RegistryEntry>>): seq<real>
    requires AllListable(ws)
    decreases |ws|
  {
    if ws == [] then []
    else
      var e := ws[0].value;
      (if e.typeTransaction == Present("BALANCE") then [] else [StrictAmount(e.amount).value]) +
      NonBalanceAmounts(ws[1..])
  }

  /** Without a (truthy) user filter, the list is the amounts of all non-BALANCE
      entries in order, and it raises exactly when an entry cannot be read. */
  lemma {:induction false} UnfilteredListsNonBalanceAmounts(ws: seq<Option<RegistryEntry>>, u: UserArg)
    requires !IsTruthy(u)
    ensures ExpensesOf(ws, u) == if AllListable(ws) then Returns(NonBalanceAmounts(ws)) else Raises
    decreases |ws|
  {
    if ws != [] {
      var rest := ws[1..];
      assert ws == [ws[0]] + rest;
      ExpensesAppend([ws[0]], rest, u);
      assert [ws[0]][..0] == [];
      UnfilteredListsNonBalanceAmounts(rest, u);
      ExpensesSingle(ws[0], u);
      assert EntryExpense(ws[0], u).Raises? <==> !Listable(ws[0]);
      assert AllListable(ws) <==> Listable(ws[0]) && AllListable(rest) by {
        assert forall i :: 0 <= i < |rest| ==> rest[i] == ws[i + 1];
        if Listable(ws[0]) && AllListable(rest) {
          forall i | 0 <= i < |ws|
            ensures Listable(ws[i])
          {
            if i > 0 {
              assert ws[i] == rest[i - 1];
            }
          }
        }
      }
    }
  }

  /** Two `user_id` arguments filter alike when both are falsy, or both are
      truthy and `int()` gives the same for both. */
  predicate SameFilter(u: UserArg, v: UserArg)
  {
    IsTruthy(u) == IsTruthy(v) && (IsTruthy(u) ==> UserIdOf(u) == UserIdOf(v))
  }

  lemma {:induction false} MatchDependsOnlyOnId(allocs: seq<Allocation>, u: UserArg, v: UserArg)
    requires UserIdOf(u) == UserIdOf(v)
    ensures MatchAllocations(allocs, u) == MatchAllocations(allocs, v)
    decreases |allocs|
  {
    if allocs != [] {
      MatchDependsOnlyOnId(allocs[..|allocs| - 1], u, v);
    }
  }

  /** `get_expenses` sees the argument only through its truthiness and its `int()`. */
  lemma {:induction false} FilterDependsOnlyOnId(ws: seq<Option<RegistryEntry>>, u: UserArg, v: UserArg)
    requires SameFilter(u, v)
    ensures ExpensesOf(ws, u) == ExpensesOf(ws, v)
    decreases |ws|
  {
    if ws != [] {
      FilterDependsOnlyOnId(ws[..|ws| - 1], u, v);
      var w := ws[|ws| - 1];
      if w.Some? && IsTruthy(u) && w.value.allocations.Some? {
        MatchDependsOnlyOnId(w.value.allocations.value, u, v);
      }
    }
  }

  /** The id as text (a key of `get_users`) and the id as a number filter
      alike, except for id 0, which is falsy as a number and so does not
      filter at all, like no argument. */
  lemma UserKeyFilters(ws: seq<Option<RegistryEntry>>, n: int)
    ensures n != 0 ==> ExpensesOf(ws, TextUser(Show(n))) == ExpensesOf(ws, IntUser(n))
    ensures ExpensesOf(ws, IntUser(0)) == ExpensesOf(ws, NoUser)
  {
    ParseShow(n);
    if n != 0 {
      FilterDependsOnlyOnId(ws, TextUser(Show(n)), IntUser(n));
    }
    FilterDependsOnlyOnId(ws, IntUser(0), NoUser);
  }

  /** An entry whose amount does not parse makes the whole call raise, even
      when it is a BALANCE entry: the amount is read before the type. */
  lemma BalanceAmountStillRead(ws: seq<Option<RegistryEntry>>, i: nat, u: UserArg)
    requires i < |ws| && ws[i].Some? && StrictAmount(ws[i].value.amount).Raises?
    ensures ExpensesOf(ws, u).Raises?
  {
    ExpensesRaiseIff(ws, u);
    assert EntryExpense(ws[i], u).Raises?;
  }

  /** Two allocations that differ at most in `amount_local`. */
  predicate AllocationsAlike(a1: seq<Allocation>, a2: seq<Allocation>)
  {
    |a1| == |a2| &&
    forall j :: 0 <= j < |a1| ==> a1[j].(amountLocal := None) == a2[j].(amountLocal := None)
  }

  /** Two entries that differ at most in the `amount_local` of the entry and
      of its allocations. */
  predicate EntriesAlike(w1: Option<RegistryEntry>, w2: Option<RegistryEntry>)
  {
    w1.None? == w2.None? &&
    (w1.Some? ==>
       w1.value.(amountLocal := None, allocations := None) == w2.value.(amountLocal := None, allocations := None) &&
       w1.value.allocations.None? == w2.value.allocations.None? &&
       (w1.value.allocations.Some? ==> AllocationsAlike(w1.value.allocations.value, w2.value.allocations.value)))
  }

  lemma {:induction false} MatchIgnoresAmountLocal(a1: seq<Allocation>, a2: seq<Allocation>, u: UserArg)
    requires AllocationsAlike(a1, a2)
    ensures MatchAllocations(a1, u) == MatchAllocations(a2, u)
    decreases |a1|
  {
    if a1 != [] {
      var p1, p2 := a1[..|a1| - 1], a2[..|a2| - 1];
      assert AllocationsAlike(p1, p2) by {
        forall j | 0 <= j < |p1|
          ensures p1[j].(amountLocal := None) == p2[j].(amountLocal := None)
        {
          assert p1[j] == a1[j] && p2[j] == a2[j];
        }
      }
      MatchIgnoresAmountLocal(p1, p2, u);
      var l1, l2 := a1[|a1| - 1], a2[|a2| - 1];
      assert l1.(amountLocal := None) == l2.(amountLocal := None);
      assert l1.membership == l2.membership && l1.amount == l2.amount;
    }
  }

  lemma EntryIgnoresAmountLocal(w1: Option<RegistryEntry>, w2: Option<RegistryEntry>, u: UserArg)
    requires EntriesAlike(w1, w2)
    ensures EntryExpense(w1, u) == EntryExpense(w2, u)
  {
    if w1.Some? {
      var e1, e2 := w1.value, w2.value;
      assert e1.amount == e2.amount && e1.typeTransaction == e2.typeTransaction;
      if e1.allocations.Some? {
        MatchIgnoresAmountLocal(e1.allocations.value, e2.allocations.value, u);
      }
    }
  }

  /** `get_expenses` reads `amount` and never `amount_local`, unlike the
      monthly report: changing the local amounts changes nothing. */
  lemma {:induction false} ExpensesIgnoreAmountLocal(ws1: seq<Option<RegistryEntry>>, ws2: seq<Option<RegistryEntry>>, u: UserArg)
    requires |ws1| == |ws2| && forall i :: 0 <= i < |ws1| ==> EntriesAlike(ws1[i], ws2[i])
    ensures ExpensesOf(ws1, u) == ExpensesOf(ws2, u)
    decreases |ws1|
  {
    if ws1 != [] {
      var p1, p2 := ws1[..|ws1| - 1], ws2[..|ws2| - 1];
      forall i | 0 <= i < |p1|
        ensures EntriesAlike(p1[i], p2[i])
      {
        assert p1[i] == ws1[i] && p2[i] == ws2[i];
      }
      ExpensesIgnoreAmountLocal(p1, p2, u);
      EntryIgnoresAmountLocal(ws1[|ws1| - 1], ws2[|ws2| - 1], u);
    }
  }
}
