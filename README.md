# Tricount registry: monthly breakdown and payload queries

A model of the in-memory logic a Tricount client runs over a registry
payload once it has been fetched. Tricount is a shared-expense app. Its
registry ("tricount") holds memberships (the people) and registry entries
(expenses, incomes and BALANCE refunds). Each entry has an amount, an
optional local-currency amount, a payer (`membership_owned`) and optional
allocations that say who the entry was for.

Two pieces are modelled.

- **The monthly net breakdown** (`expenses_for_month_breakdown` with
  `_get_amount`, `_get_display_name` and `_parse_date`).
  - It keeps the ACTIVE (or status-less) entries of one month "YYYY-MM"
    whose amount is not zero.
  - It flips their sign: the payload gives expenses as negative numbers,
    and the report shows them as positive nets.
  - It adds each entry to three buckets: per category, per payer, and per
    beneficiary. Beneficiaries come from the allocations. An entry without
    allocations goes to its payer.
  - It derives the month's totals from the category bucket alone.
  - It warns when an entry's allocations do not add up to its amount. Here
    the warnings are returned as a list instead of printed.
- **The payload queries** of the API client.
  - `get_users` maps `str(id)` to the member's name.
  - `get_expenses` lists entry amounts, skipping BALANCE entries. With a
    `user_id` it lists that member's allocated amount per entry instead.

Modules:

| module | file | contents |
|---|---|---|
| `Payload` | payload.dfy | The typed registry payload. `Option` fields stand for keys that may be absent. A `Field` keeps an absent key and a JSON `null` apart, for the two values the code compares or prints. `Outcome` stands for a Python lookup that may raise. |
| `IntText` | inttext.dfy | `str(n)`, `int(s)` and zero padding, with the round trip `int(str(n)) == n`. |
| `Buckets` | buckets.dfy | A `defaultdict(float)` and its `+=`. Sums over the values, and the loop that computes them. |
| `Lookups` | lookups.dfy | The amount, display-name, category and date helpers. |
| `Breakdown` | breakdown.dfy | The monthly breakdown. Its loops are methods, proved against a fold over the entries. |
| `BreakdownFacts` | breakdown_facts.dfy | What the breakdown promises, proved about that fold. |
| `TricountApi` | api.dfy | `get_users` and `get_expenses`. Their loops are methods, proved against folds. |
| `TricountApiFacts` | api_facts.dfy | What the two queries promise, proved about their folds. |
| `Prefixes` | prefixes.dfy | One fact about a sequence and its prefix, shared by the proofs. |

Exceptions are modelled explicitly. The breakdown uses `.get(..., default)`
throughout and never raises on the typed payload, so its functions are
total. In the code, a JSON `null` where a dict is expected does raise
AttributeError there (see "Left out"). The API queries
index with `[...]`, call `float()` and call `int()`. Each of those raises
on a missing key or a malformed value. There, every result is an
`Outcome`, and `Raises` stands for any exception.

The model keeps the order in which the code reads a payload. One example:
`get_expenses` converts an entry's amount before its BALANCE check. So a
BALANCE entry with a malformed amount raises rather than being skipped
like the other refunds.

## Model

| member | source | states |
|---|---|---|
| Lookups.GetAmount | main.py:33-44 | A numeric local value is the result. A local value that does not convert gives 0 and does not fall back to the base value. Without a local value, a numeric base value is the result. Otherwise the result is 0. |
| Lookups.DisplayName | main.py:23-30 | The result is never empty. A present, non-empty display name is the result. The result is "Unbekannt" exactly when a link of the chain is missing or the name is "" (or is itself "Unbekannt"). |
| Lookups.CategoryOf | main.py:88 | A non-empty custom category wins. Otherwise a non-empty category wins. Otherwise "Unbekannt". The result is never empty. |
| Lookups.TryFormats | main.py:15-20 | A parsed result comes from the first format that parses, and every earlier format failed. No result means every format failed. |
| Lookups.ParseDate | main.py:12-20 | A missing or empty date gives no result. Otherwise the microsecond format is preferred and the plain format is the fallback. No result means both formats failed. |
| Lookups.ParseDateOf | main.py:12-20 | The loop over the two formats, with its early return, computes `ParseDate`. |
| Lookups.MonthKey | main.py:78 | Defines `dt.strftime("%Y-%m")`: the year padded to four digits, a dash, and the month padded to two. Its shape is `MonthKeyShape`. |
| Lookups.MonthKeyShape | main.py:78 | For a calendar date, `strftime("%Y-%m")` is 7 characters long with the dash at index 4. |
| IntText.Show | tricount_api.py:121 | `str(n)`: all digits for n >= 0, a '-' followed by digits for n < 0, never empty. |
| IntText.ParseInt | tricount_api.py:149 | `int(s)`: a string of digits reads as its decimal value. A string that does not start with a digit or a sign raises. |
| IntText.ParseShow | tricount_api.py:121 | `str(id)` is non-empty, and `int(str(id)) == id` for every integer, negative ones included. |
| IntText.ShowInjective | tricount_api.py:121 | Different ids give different `str(id)` keys. |
| IntText.DigitsLength | main.py:78 | A number below 10^k has at most k decimal digits, so padding to k digits gives exactly k. |
| Buckets.Add | main.py:89 | `d[k] += v` on a defaultdict adds k to the keys, adds v under k and leaves every other key unchanged. |
| Buckets.SumOfAdd | main.py:89 | Adding v under one key adds v to the sum of all values. |
| Buckets.PartsSplit | main.py:113-115 | The sum of the positive values and the sum of the negated negative values are both >= 0. Their difference is the sum of all values. |
| Buckets.SumWhere | main.py:113-115 | The loop over the keys computes the sum of the chosen part of the values. |
| Breakdown.EntriesOf | main.py:63-67 | Defines the list of entries the loop reads: none when `Response` is missing or empty, or when `Registry` or `all_registry_entry` is missing, else the list itself. |
| Breakdown.StatusAdmits | main.py:72-74 | Defines the status filter: an absent or empty status, or "ACTIVE", passes. Any other status skips the entry. |
| Breakdown.InMonth | main.py:76-79 | Defines the month filter: the date parses and its `strftime("%Y-%m")` equals the target month. |
| Breakdown.Counted | main.py:72-84 | Defines the entries that reach the buckets: those passing the status and month filters whose amount is not zero. `UncountedEntryIgnored` states that the others change nothing. |
| Breakdown.AllocationSum | main.py:98-101 | Defines `alloc_sum`: the amounts of all allocations added up, zero ones included. `DistributeTotal` relates it to the beneficiary bucket. |
| Breakdown.Distribute | main.py:99-104 | Defines the inner loop on the beneficiary bucket: every non-zero allocation adds its negated amount to its beneficiary. `DistributeShare` states the value per beneficiary. |
| Breakdown.CountEntry | main.py:85-110 | Defines the bookkeeping of one counted entry on the three buckets. Its meaning is stated by `BookEntry`, `BucketSums` and the bucket lemmas. |
| Breakdown.Step | main.py:70-110 | Defines one pass of the entry loop: `CountEntry` for a counted entry, nothing for a skipped one. `VisitEntry` computes it. |
| Breakdown.Fold | main.py:69-110 | Defines the buckets after the entry loop. `MonthlyBreakdown` computes it, and `FoldAppend`, `BucketIsSumOfItsEntries` and `BeneficiaryIsSumOfShares` state what it holds. |
| Breakdown.CheckAllocations | main.py:106-107 | Defines the warning of one counted entry: allocations present and their sum off the amount by more than 1e-6. |
| Breakdown.Mismatched | main.py:106-107 | Defines the entries that warn: counted ones whose allocation check fails. `WarningsExactlyForMismatches` is stated over it. |
| Breakdown.EntryWarnings | main.py:106-107 | Defines the warnings of one entry: the allocation check for a counted entry, none for a skipped one. `VisitEntry` computes it. |
| Breakdown.Warnings | main.py:106-107 | Defines the warnings of the whole loop, one check per counted entry in entry order. `WarningsExactlyForMismatches` states what it holds. |
| Breakdown.TotalsOf | main.py:113-117 | Defines the totals from the category bucket alone: the sum of its positive values, the sum of its negated negative values, and the sum of all. `PartsSplit` gives their signs and `net == expenses - incomes`. |
| Breakdown.DistributeAllocations | main.py:96-104 | The inner loop adds no amount for a zero allocation and `-a` to the beneficiary of every other allocation. It adds up `alloc_sum` over all allocations, zero ones included. |
| Breakdown.BookEntry | main.py:85-110 | A counted entry adds its signed amount to its category and its payer. It adds its allocations to their beneficiaries, or the whole signed amount to the payer when it has no allocations. It warns exactly when the allocations are off by more than 1e-6. |
| Breakdown.VisitEntry | main.py:70-110 | Only an entry that passes the status, month and non-zero-amount filters changes the buckets. A skipped entry gives no warning. |
| Breakdown.MonthlyBreakdown | main.py:47-118 | The buckets and the warnings are those of the fold over the entries. The totals come from the category bucket: expenses >= 0, incomes >= 0, net == expenses - incomes. An empty or missing Response gives empty buckets, zero totals and no warnings. |
| BreakdownFacts.FoldAppend | main.py:69-110 | The entry loop can be cut anywhere: it runs over a, then over b, and the warnings concatenate. |
| BreakdownFacts.UncountedEntryIgnored | main.py:72-84 | An entry with a status other than ACTIVE (and not empty), without a parsable date, in another month, or with a zero amount can be removed without changing any bucket or warning. |
| BreakdownFacts.BucketIsSumOfItsEntries | main.py:85-93 | A category (or payer) is a key exactly when some counted entry files under it. Its value is the sum of the signed amounts, `-amount`, of those entries. |
| BreakdownFacts.BeneficiaryIsSumOfShares | main.py:95-110 | A person is a beneficiary key exactly when a counted entry reaches them: as payer of an entry without allocations, or through a non-zero allocation. Their value is the sum of their shares. |
| BreakdownFacts.DistributeShare | main.py:99-104 | Spreading allocations adds to a beneficiary the negated amounts of the allocations that name them. A beneficiary whose allocations are all zero gets no key. |
| BreakdownFacts.DistributeTotal | main.py:99-104 | Spreading allocations lowers the sum of the beneficiary bucket by the allocation sum. |
| BreakdownFacts.BucketSums | main.py:85-110 | The category and payer buckets each grow in sum by the signed amounts of the counted entries. The beneficiary bucket grows by the payer's share or the negated allocation sum of each entry. |
| BreakdownFacts.PayerNetsMatchCategoryNets | main.py:85-115 | The payer nets add up to the category nets, which are the month's net total. |
| BreakdownFacts.ExactAllocationsBalance | main.py:96-110 | When every counted entry's allocations add up exactly to its amount, the beneficiary nets add up to the category nets too. |
| BreakdownFacts.AllocationsOnlyDistribute | main.py:95-117 | Changing only the allocations leaves the category and payer buckets, and so the totals, unchanged. |
| BreakdownFacts.MalformedMonthMatchesNothing | main.py:78 | A target month that is not 7 characters long with a '-' at index 4, such as "2025-7" or "2025/07", matches no entry when the date parser yields calendar dates. The buckets are then unchanged and there are no warnings. |
| BreakdownFacts.WarningsExactlyForMismatches | main.py:106-107 | There is at most one warning per entry. There are none exactly when no counted entry's allocations drift by more than 1e-6. |
| TricountApi.RegistryOf | tricount_api.py:119 | Defines `self.data['Response'][0]['Registry']`: it raises on a missing `Response`, an empty list or a missing `Registry`. |
| TricountApi.Users | tricount_api.py:119-126 | Defines the result of `get_users`: the membership fold over the registry's `memberships`, raising when the registry or the list is missing. `GetUsers` computes it. |
| TricountApi.MemberRecord | tricount_api.py:120-122 | Defines the key and name of one membership: `str(id)` ("None" for a null id) and the alias's pointer's name, raising on a missing link. |
| TricountApi.UsersOf | tricount_api.py:119-124 | Defines the users dict after the loop. `UsersRaiseIff`, `UsersKeys` and `UsersLastWins` state what it holds. |
| TricountApi.GetUsers | tricount_api.py:111-126 | The loop computes the fold of the memberships into the id-to-name dict, raising where a lookup raises. |
| TricountApi.IsTruthy | tricount_api.py:146 | Defines `if user_id:`: no argument, 0 and "" are falsy. |
| TricountApi.UserIdOf | tricount_api.py:149 | Defines `int(user_id)`: an int is itself, a text goes through `ParseInt`, no argument raises. |
| TricountApi.StrictAmount | tricount_api.py:139 | Defines `float(x['amount']['value'])`: a numeric value, and raising on a missing key or a non-numeric value. |
| TricountApi.MembershipId | tricount_api.py:149 | Defines `allocation['membership']['RegistryMembershipNonUser']['id']`: raising on a missing link, `None` for a `null` id, else the id. |
| TricountApi.Matches | tricount_api.py:149 | Defines the comparison `id == int(user_id)`. A `null` id never matches (`NullIdNeverMatches`). |
| TricountApi.AllocationStep | tricount_api.py:149-150 | Defines one pass of the inner loop: the id is read first, then `int(user_id)`, then the amount of a matching allocation replaces the current one. |
| TricountApi.MatchAllocations | tricount_api.py:147-150 | Defines the amount after the inner loop. `MatchRaisesIff`, `MatchNoneIff` and `MatchPicksLastAllocation` state what it holds. |
| TricountApi.EntryExpense | tricount_api.py:138-153 | Defines what one entry adds: the amount is read, then a missing type raises and BALANCE is skipped, then a truthy filter replaces the amount with the member's allocation. |
| TricountApi.ExpensesOf | tricount_api.py:136-153 | Defines the list after the entry loop: each entry's `EntryExpense` appended in order, raising at the first entry that raises. `ExpensesAppend`, `ExpensesRaiseIff` and `UnfilteredListsNonBalanceAmounts` state what it holds. |
| TricountApi.Expenses | tricount_api.py:136-155 | Defines the result of `get_expenses`: the entry fold over `all_registry_entry`, raising when the registry or the list is missing. `GetExpenses` computes it. |
| TricountApi.FindAllocation | tricount_api.py:147-150 | The inner loop computes the allocation fold, starting from no amount. |
| TricountApi.GetExpenses | tricount_api.py:128-155 | The loop computes the fold of the entries into the list, raising where a lookup or a conversion raises. |
| TricountApiFacts.UsersRaiseIff | tricount_api.py:119-122 | The loop over the memberships raises exactly when some membership lacks its `RegistryMembershipNonUser`, its `id` key, or its alias, pointer or name. (`Users` also raises on a missing `Response` or `Registry`.) |
| TricountApiFacts.UsersKeys | tricount_api.py:119-124 | The keys are exactly the `str(id)` of the memberships, "None" for a null id. |
| TricountApiFacts.UsersLastWins | tricount_api.py:124 | The value under each key is the name of the last membership with that key, as `LastName` defines it. |
| TricountApiFacts.LastNameIsLast | tricount_api.py:124 | `LastName` is empty exactly when no membership has the key. Otherwise it is the name of a membership with the key after which none has it. |
| TricountApiFacts.UserKeysSelectMembers | tricount_api.py:121-149 | Every key `get_users` returns is a truthy `user_id`. `int()` of it succeeds exactly when it is not the "None" of a null id, and then gives back the member's id. |
| TricountApiFacts.ExpensesAppend | tricount_api.py:136-153 | The list for a + b is the list for a followed by the list for b, and it raises if either raises. Entry order is kept. |
| TricountApiFacts.ExpensesLength | tricount_api.py:136-153 | The list has at most one amount per entry. |
| TricountApiFacts.ExpensesRaiseIff | tricount_api.py:136-153 | `get_expenses` raises exactly when some entry does. |
| TricountApiFacts.BalanceEntryDropped | tricount_api.py:141-143 | A BALANCE entry whose amount parses can be removed without changing the result, with or without a user filter. Its allocations are not read. |
| TricountApiFacts.NullTypeKept | tricount_api.py:142 | A `null` `type_transaction` is not BALANCE. Without a filter, such an entry lists its amount. |
| TricountApiFacts.BalanceAmountStillRead | tricount_api.py:139-142 | An entry whose amount does not parse makes the whole call raise, BALANCE entries included. |
| TricountApiFacts.UnfilteredListsNonBalanceAmounts | tricount_api.py:134-155 | Without a truthy `user_id`, the result is the amounts of the non-BALANCE entries in entry order, a `null` type counting as non-BALANCE. It raises exactly when some entry cannot be read: it is null, its amount does not convert, or it has no `type_transaction` key. |
| TricountApiFacts.MatchRaisesIff | tricount_api.py:148-150 | The inner loop raises exactly when some allocation lacks its membership or its `id` key, `int(user_id)` fails, or the member's allocation has no numeric amount. A `null` id matches no member and does not raise. Other members' allocations are read too. |
| TricountApiFacts.NullIdNeverMatches | tricount_api.py:149 | An allocation with a `null` member id is nobody's: it raises only when `int(user_id)` does, and otherwise leaves the amount found so far unchanged. |
| TricountApiFacts.MatchNoneIff | tricount_api.py:146-153 | With a filter, an entry contributes nothing exactly when none of its allocations belongs to the member. |
| TricountApiFacts.MatchPicksLastAllocation | tricount_api.py:148-150 | The amount kept is that of an allocation of the member after which no other allocation of the member follows: the last match wins. |
| TricountApiFacts.FilterDependsOnlyOnId | tricount_api.py:146-149 | The result depends on `user_id` only through its truthiness and, when truthy, its `int()`. |
| TricountApiFacts.UserKeyFilters | tricount_api.py:146-149 | Passing the id as text or as a number filters alike, except id 0: as a number it is falsy and filters like no argument. |
| TricountApiFacts.ExpensesIgnoreAmountLocal | tricount_api.py:139-150 | Changing `amount_local` on entries or allocations changes nothing: only `amount` is read, unlike in the monthly report. |

## Left out

- HTTP session, authentication, token and header handling, `update_data`: network I/O, kept outside the model. The payload is a given value (`self.data`).
- RSA key and installation UUID generation: cryptography and randomness from foreign libraries.
- `.env` loading and `os.getenv`: environment I/O.
- The grammar of `datetime.strptime`: it is a parameter of the model (`Strptime`). Only the empty-date rule, the order of the two formats and the shape of `strftime("%Y-%m")` are pinned down.
- BreakdownFacts.MalformedMonthMatchesNothing: holds only under `CalendarParser`, the hypothesis that the date parser gives years below 10000 and months below 100. Without it, a key like "12345-01" can be 8 characters long. It also relies on the year being padded to four digits, as `MonthKey` models it.
- Lookups.MonthKeyShape: the 7-character shape is stated for years below 10000 with the year padded to four digits, since the model does not follow the platform's `strftime` for years below 1000.
- Float rounding, NaN and infinities: amounts are exact reals, and `float()` of a value is either a real number or fails.
- The printed report, its two-decimal formatting and its descending sort (the `__main__` block of `main.py`), and the printing of warnings: warnings are returned as a list instead.
- The example driver script (`exemple.py`): it only prints. Its use of `get_users` keys as `user_id` is covered by `TricountApiFacts.UserKeysSelectMembers`.
- JSON `null` and an absent key are the same `None` in the model, except for the member `id` and `type_transaction`, which keep the two apart. So where the code would raise AttributeError on a `null` object, the model treats it as absent and returns a report: `amount_local` (main.py:39), `amount` (main.py:41), `RegistryMembershipNonUser` or `alias` (main.py:26-27), `membership_owned` (main.py:92), an allocation's `membership` (main.py:104) or `Registry` (main.py:67) being `null`. Two kinds of `null` cannot be expressed at all, because the payload types hold no `null` there. One is a `null` element of `allocations`: the report would raise AttributeError in `_get_amount` (main.py:100), and `get_expenses` would raise TypeError (tricount_api.py:149). The other is a `null` `Response[0]`: the report would raise AttributeError (main.py:67), and both queries would raise TypeError (tricount_api.py:119, 136). In `get_users`, a `null` name would be stored as None in the code; the model raises instead.
- `int(user_id)` accepts an optional sign and ASCII digits only. Surrounding whitespace, underscores and non-ASCII digits are not modelled, and neither are non-string, non-integer `user_id` values such as floats.
- The insertion order of the returned dicts: the buckets and the users dict are maps without order.
