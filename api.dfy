/** The two queries of the API client over its cached payload `self.data`:
    the members of the registry, and the amounts of its entries. Unlike the
    monthly breakdown, these index the payload with `[...]`, so a missing key
    raises instead of falling back. */
module TricountApi {
  import opened Payload
  import opened IntText

  /** `self.data['Response'][0]['Registry']` */
  function RegistryOf(data: TricountData): Outcome<Registry>
  {
    match data.response
    case None => Raises
    case Some(items) =>
      if items == [] then Raises
      else
        match items[0].registry
        case None => Raises
        case Some(reg) => Returns(reg)
  }

  // ---------------------------------------------------------------- get_users

  /** `str(None)`, the key a null id is filed under. */
  const NoneText := "None"

  /** `str(x)` of a present id: its decimal text, or "None" for a null. */
  function IdText(id: Field<int>): string
    requires !id.Absent?
  {
    match id
    case Null => NoneText
    case Present(n) => Show(n)
  }

  /** The key and the name one membership gives `get_users`: the text of
      the member's id and the name of its alias's pointer. A missing link
      raises. */
  function MemberRecord(m: Membership): Outcome<(string, string)>
  {
    match m.nonUser
    case None => Raises
    case Some(nu) =>
      if nu.id.Absent? then Raises
      else
        match nu.alias
        case None => Raises
        case Some(al) =>
          match al.pointer
          case None => Raises
          case Some(p) =>
            match p.name
            case None => Raises
            case Some(name) => Returns((IdText(nu.id), name))
  }

  /** The dict `users` after the loop has run over `ms`. */
  function UsersOf(ms: seq<Membership>): Outcome<map<string, string>>
    decreases |ms|
  {
    if ms == [] then Returns(map[])
    else
      match UsersOf(ms[..|ms| - 1])
      case Raises => Raises
      case Returns(users) =>
        match MemberRecord(ms[|ms| - 1])
        case Raises => Raises
        case Returns(rec) => Returns(users[rec.0 := rec.1])
  }

  function Users(data: TricountData): Outcome<map<string, string>>
  {
    match RegistryOf(data)
    case Raises => Raises
    case Returns(reg) =>
      match reg.memberships
      case None => Raises
      case Some(ms) => UsersOf(ms)
  }

  /** Once the loop has raised, it stays raised. */
  lemma {:induction false} UsersRaisePersists(ms: seq<Membership>, i: nat)
    requires i <= |ms|
    requires UsersOf(ms[..i]).Raises?
    ensures UsersOf(ms).Raises?
    decreases |ms| - i
  {
    if i < |ms| {
      assert ms[..i + 1][..i] == ms[..i];
      UsersRaisePersists(ms, i + 1);
    } else {
      assert ms[..i] == ms;
    }
  }

  method GetUsers(data: TricountData) returns (r: Outcome<map<string, string>>)
    ensures r == Users(data)
  {
    var reg := RegistryOf(data);
    if reg.Raises? || reg.value.memberships.None? {
      return Raises;
    }
    var memberships := reg.value.memberships.value;
    var users: map<string, string> := map[];
    for i := 0 to |memberships|
      invariant UsersOf(memberships[..i]) == Returns(users)
    {
      assert memberships[..i + 1][..i] == memberships[..i];
      var entry := memberships[i].nonUser;
      if entry.None? || entry.value.id.Absent? {
        UsersRaisePersists(memberships, i + 1);
        return Raises;
      }
      var id := IdText(entry.value.id);
      var alias := entry.value.alias;
      if alias.None? || alias.value.pointer.None? || alias.value.pointer.value.name.None? {
        UsersRaisePersists(memberships, i + 1);
        return Raises;
      }
      var name := alias.value.pointer.value.name.value;
      users := users[id := name];
    }
    assert memberships[..|memberships|] == memberships;
    r := Returns(users);
  }

  // ------------------------------------------------------------- get_expenses

  /** The `user_id` argument of `get_expenses`. */
  datatype UserArg = NoUser | IntUser(n: int) | TextUser(text: string)

  /** `if user_id:` */
  predicate IsTruthy(u: UserArg)
  {
    match u
    case NoUser => false
    case IntUser(n) => n != 0
    case TextUser(s) => s != ""
  }

  /** `int(user_id)` */
  function UserIdOf(u: UserArg): Outcome<int>
  {
    match u
    case NoUser => Raises
    case IntUser(n) => Returns(n)
    case TextUser(s) =>
      match ParseInt(s)
      case None => Raises
      case Some(n) => Returns(n)
  }

  /** `float(x['amount']['value'])` */
  function StrictAmount(amount: Option<Money>): Outcome<real>
  {
    match amount
    case None => Raises
    case Some(money) =>
      match money.value
      case None => Raises
      case Some(NonNumeric) => Raises
      case Some(Numeric(x)) => Returns(x)
  }

  /** The member id of an allocation, `None` when it is JSON null; a
      missing link of the chain raises. */
  function MembershipId(m: Option<Membership>): Outcome<Option<int>>
  {
    match m
    case None => Raises
    case Some(ms) =>
      match ms.nonUser
      case None => Raises
      case Some(nu) =>
        match nu.id
        case Absent => Raises
        case Null => Returns(None)
        case Present(id) => Returns(Some(id))
  }

  /** The allocation belongs to the requested member (a null id belongs to
      nobody: it never equals an `int`). */
  predicate Matches(a: Allocation, u: UserArg)
  {
    MembershipId(a.membership).Returns? && UserIdOf(u).Returns? &&
    MembershipId(a.membership).value == Some(UserIdOf(u).value)
  }

  /** One pass of the inner loop: the id comparison (left side first), then,
      on a match, the allocation's amount replaces the current one. */
  function AllocationStep(current: Option<real>, a: Allocation, u: UserArg): Outcome<Option<real>>
  {
    match MembershipId(a.membership)
    case Raises => Raises
    case Returns(id) =>
      match UserIdOf(u)
      case Raises => Raises
      case Returns(uid) =>
        if id == Some(uid) then
          match StrictAmount(a.amount)
          case Raises => Raises
          case Returns(x) => Returns(Some(x))
        else Returns(current)
  }

  /** `amount` after the inner loop has run over `allocs`, starting from `None`. */
  function MatchAllocations(allocs: seq<Allocation>, u: UserArg): Outcome<Option<real>>
    decreases |allocs|
  {
    if allocs == [] then Returns(None)
    else
      match MatchAllocations(allocs[..|allocs| - 1], u)
      case Raises => Raises
      case Returns(current) => AllocationStep(current, allocs[|allocs| - 1], u)
  }

  /** What one element of `all_registry_entry` appends to the list: the
      amount is read first, then BALANCE entries are skipped, then the user
      filter (if any) replaces the amount by the member's allocation. */
  function EntryExpense(w: Option<RegistryEntry>, u: UserArg): Outcome<Option<real>>
  {
    match w
    case None => Raises
    case Some(e) =>
      match StrictAmount(e.amount)
      case Raises => Raises
      case Returns(amount) =>
        if e.typeTransaction.Absent? then Raises
        else if e.typeTransaction == Present("BALANCE") then Returns(None)
        else if IsTruthy(u) then
          match e.allocations
          case None => Raises
          case Some(allocs) => MatchAllocations(allocs, u)
        else Returns(Some(amount))
  }

  /** The list `expenses` after the loop has run over `ws`. */
  function ExpensesOf(ws: seq<Option<RegistryEntry>>, u: UserArg): Outcome<seq<real>>
    decreases |ws|
  {
    if ws == [] then Returns([])
    else
      match ExpensesOf(ws[..|ws| - 1], u)
      case Raises => Raises
      case Returns(xs) =>
        match EntryExpense(ws[|ws| - 1], u)
        case Raises => Raises
        case Returns(None) => Returns(xs)
        case Returns(Some(x)) => Returns(xs + [x])
  }

  function Expenses(data: TricountData, u: UserArg): Outcome<seq<real>>
  {
    match RegistryOf(data)
    case Raises => Raises
    case Returns(reg) =>
      match reg.entries
      case None => Raises
      case Some(ws) => ExpensesOf(ws, u)
  }

  lemma {:induction false} MatchRaisePersists(allocs: seq<Allocation>, j: nat, u: UserArg)
    requires j <= |allocs|
    requires MatchAllocations(allocs[..j], u).Raises?
    ensures MatchAllocations(allocs, u).Raises?
    decreases |allocs| - j
  {
    if j < |allocs| {
      assert allocs[..j + 1][..j] == allocs[..j];
      MatchRaisePersists(allocs, j + 1, u);
    } else {
      assert allocs[..j] == allocs;
    }
  }

  lemma {:induction false} ExpensesRaisePersists(ws: seq<Option<RegistryEntry>>, i: nat, u: UserArg)
    requires i <= |ws|
    requires ExpensesOf(ws[..i], u).Raises?
    ensures ExpensesOf(ws, u).Raises?
    decreases |ws| - i
  {
    if i < |ws| {
      assert ws[..i + 1][..i] == ws[..i];
      ExpensesRaisePersists(ws, i + 1, u);
    } else {
      assert ws[..i] == ws;
    }
  }

  /** The inner loop over one entry's allocations. */
  method FindAllocation(allocations: seq<Allocation>, u: UserArg) returns (r: Outcome<Option<real>>)
    ensures r == MatchAllocations(allocations, u)
  {
    var amount: Option<real> := None;
    for j := 0 to |allocations|
      invariant MatchAllocations(allocations[..j], u) == Returns(amount)
    {
      assert allocations[..j + 1][..j] == allocations[..j];
      var allocation := allocations[j];
      var id := MembershipId(allocation.membership);
      if id.Raises? {
        MatchRaisePersists(allocations, j + 1, u);
        return Raises;
      }
      var uid := UserIdOf(u);
      if uid.Raises? {
        MatchRaisePersists(allocations, j + 1, u);
        return Raises;
      }
      if id.value == Some(uid.value) {
        var x := StrictAmount(allocation.amount);
        if x.Raises? {
          MatchRaisePersists(allocations, j + 1, u);
          return Raises;
        }
        amount := Some(x.value);
      }
    }
    assert allocations[..|allocations|] == allocations;
    r := Returns(amount);
  }

  method GetExpenses(data: TricountData, u: UserArg) returns (r: Outcome<seq<real>>)
    ensures r == Expenses(data, u)
  {
    var reg := RegistryOf(data);
    if reg.Raises? || reg.value.entries.None? {
      return Raises;
    }
    var entries := reg.value.entries.value;
    var expenses: seq<real> := [];
    for i := 0 to |entries|
      invariant ExpensesOf(entries[..i], u) == Returns(expenses)
    {
      assert entries[..i + 1][..i] == entries[..i];
      if entries[i].None? {
        ExpensesRaisePersists(entries, i + 1, u);
        return Raises;
      }
      var entry := entries[i].value;
      var parsed := StrictAmount(entry.amount);
      if parsed.Raises? || entry.typeTransaction.Absent? {
        ExpensesRaisePersists(entries, i + 1, u);
        return Raises;
      }
      var amount: Option<real> := Some(parsed.value);
      // BALANCE entries are refunds and never listed; a null type is not BALANCE
      if entry.typeTransaction == Present("BALANCE") {
        continue;
      }
      // with a truthy user id, the member's allocation replaces the amount
      if IsTruthy(u) {
        if entry.allocations.None? {
          ExpensesRaisePersists(entries, i + 1, u);
          return Raises;
        }
        var found := FindAllocation(entry.allocations.value, u);
        if found.Raises? {
          ExpensesRaisePersists(entries, i + 1, u);
          return Raises;
        }
        amount := found.value;
      }
      if amount.Some? {
        expenses := expenses + [amount.value];
      }
    }
    assert entries[..|entries|] == entries;
    r := Returns(expenses);
  }
}
