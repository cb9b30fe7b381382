/** The registry payload that the Tricount API returns and that the client
    caches, as typed values instead of raw JSON.

    Most fields are an `Option`: `None` stands for a key that is absent and
    also for a key whose value is JSON null. A `Field` keeps the two apart,
    for the places where the code indexes with `[...]` and then compares or
    prints the value, so that an absent key raises but a null does not. An amount's "value" slot is seen only through Python's
    `float()`: either it converts to a number or the conversion fails. */
module Payload {

  datatype Option<T> = None | Some(value: T)

  /** A key read with `d[key]`: absent (KeyError), present with JSON null
      (Python's `None`), or present with a value. */
  datatype Field<T> = Absent | Null | Present(value: T)

  /** What a lookup that uses `d[key]`, `xs[0]` or `float(...)` gives: a value,
      or an exception (KeyError, IndexError, TypeError or ValueError). */
  datatype Outcome<T> = Returns(value: T) | Raises

  /** A JSON value in an amount's "value" slot, as `float()` sees it. */
  datatype Scalar =
    | Numeric(number: real)  // a JSON number, or text that float() accepts
    | NonNumeric             // text or a structure on which float() raises

  /** {"value": ..., "currency": ...} */
  datatype Money = Money(value: Option<Scalar>)

  /** alias.pointer: {"name": ...} */
  datatype Pointer = Pointer(name: Option<string>)

  /** alias: {"display_name": ..., "pointer": {...}} */
  datatype Alias = Alias(displayName: Option<string>, pointer: Option<Pointer>)

  /** The body of a "RegistryMembershipNonUser" block. */
  datatype NonUser = NonUser(id: Field<int>, alias: Option<Alias>)

  /** {"RegistryMembershipNonUser": {...}} */
  datatype Membership = Membership(nonUser: Option<NonUser>)

  /** One split of an entry: who it is for and how much. */
  datatype Allocation = Allocation(
    amountLocal: Option<Money>,
    amount: Option<Money>,
    membership: Option<Membership>)

  /** One transaction of the registry. */
  datatype RegistryEntry = RegistryEntry(
    id: Option<int>,
    status: Option<string>,
    date: Option<string>,
    amountLocal: Option<Money>,
    amount: Option<Money>,
    categoryCustom: Option<string>,
    category: Option<string>,
    membershipOwned: Option<Membership>,
    typeTransaction: Field<string>,
    allocations: Option<seq<Allocation>>)

  /** {"memberships": [...], "all_registry_entry": [{"RegistryEntry": {...}}, ...]};
      an element of `entries` is `None` when the wrapper is null or has no
      (or a null) "RegistryEntry". */
  datatype Registry = Registry(
    memberships: Option<seq<Membership>>,
    entries: Option<seq<Option<RegistryEntry>>>)

  /** An element of the "Response" list. */
  datatype ResponseItem = ResponseItem(registry: Option<Registry>)

  /** The whole payload: {"Response": [...]} */
  datatype TricountData = TricountData(response: Option<seq<ResponseItem>>)

  /** The entry `{}` that the breakdown substitutes for a missing one. */
  const EmptyEntry := RegistryEntry(None, None, None, None, None, None, None, None, Absent, None)

  function Unwrap(w: Option<RegistryEntry>): RegistryEntry
  {
    match w
    case None => EmptyEntry
    case Some(e) => e
  }
}
