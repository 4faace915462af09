/**
 * Moving the secure store's items to the "first unlock, this device only" class:
 * each item is copied to a staging service, deleted, added again and verified.
 * Any store operation may be refused, may take effect and then fail (as when the
 * process dies), or may report success for something else than was asked for.
 */
module Keychain {
  import opened Common
  import opened Sequences
  import opened Rotation

  // ----- The store

  datatype Accessibility = Legacy | Target | OtherClass(name: string)

  /** `group` is the access group, `attributes` the other attributes that are copied along. */
  datatype Item = Item(account: string, data: Bytes, access: Accessibility, group: string, attributes: string)

  datatype Service = Canonical | Staging

  datatype Error =
    | InvalidService
    | DuplicateAccount(account: string)
    | ConflictingCopies(account: string)
    | UnexpectedAccessibility(account: string)
    | StoreFailed

  /** `ticks` counts the store operations made so far. */
  datatype Vault = Vault(canonical: seq<Item>, staging: seq<Item>, complete: bool, ticks: nat)

  /** How the store treats one operation. */
  datatype Fault =
    | Fine
    | Refused                                // no effect, an error
    | Interrupted                            // the effect, then an error
    | Garbled(data: Bytes, access: Accessibility, attributes: string)   // an addition that stores something else

  type Faults = nat -> Fault

  /** An operation's effect on the vault and what it reports. */
  datatype Done<+T> = Done(vault: Vault, result: Result<T, Error>)

  function Contents(v: Vault, service: Service): seq<Item> {
    if service == Canonical then v.canonical else v.staging
  }

  function WithContents(v: Vault, service: Service, items: seq<Item>): Vault {
    var v' := v.(ticks := v.ticks + 1);
    if service == Canonical then v'.(canonical := items) else v'.(staging := items)
  }

  function Read(v: Vault, faults: Faults, service: Service): Done<seq<Item>> {
    var v' := WithContents(v, service, Contents(v, service));
    match faults(v.ticks)
    case Refused => Done(v', Err(StoreFailed))
    case Interrupted => Done(v', Err(StoreFailed))
    case _ => Done(v', Ok(Contents(v, service)))
  }

  predicate Occupied(items: seq<Item>, item: Item) {
    exists i :: 0 <= i < |items| && items[i].account == item.account && items[i].group == item.group
  }

  /** Additions always ask for the target class. */
  function Stored(item: Item, fault: Fault): Item {
    match fault
    case Garbled(data, access, attributes) => item.(data := data, access := access, attributes := attributes)
    case _ => item.(access := Target)
  }

  function Add(v: Vault, faults: Faults, service: Service, item: Item): Done<()> {
    var items := Contents(v, service);
    var fault := faults(v.ticks);
    if fault == Refused || Occupied(items, item) then Done(WithContents(v, service, items), Err(StoreFailed))
    else
      Done(WithContents(v, service, items + [Stored(item, fault)]),
           if fault == Interrupted then Err(StoreFailed) else Ok(()))
  }

  function OfOther(account: string): Item -> bool {
    (item: Item) => item.account != account
  }

  function OfAccount(account: string): Item -> bool {
    (item: Item) => item.account == account
  }

  /** Deletes every item of the account; deleting nothing is not an error. */
  function Delete(v: Vault, faults: Faults, service: Service, account: string): Done<()> {
    var items := Contents(v, service);
    match faults(v.ticks)
    case Refused => Done(WithContents(v, service, items), Err(StoreFailed))
    case Interrupted => Done(WithContents(v, service, Filter(items, OfOther(account))), Err(StoreFailed))
    case _ => Done(WithContents(v, service, Filter(items, OfOther(account))), Ok(()))
  }

  // ----- The migration

  /** The items of one account. */
  function Of(items: seq<Item>, account: string): seq<Item> {
    Filter(items, OfAccount(account))
  }

  function Verify(v: Vault, faults: Faults, service: Service, expected: Item): Done<()> {
    var read := Read(v, faults, service);
    if read.result.Err? then Done(read.vault, Err(read.result.error))
    else
      var matches := Of(read.result.value, expected.account);
      Done(read.vault,
           if |matches| != 1 then Err(ConflictingCopies(expected.account))
           else if matches[0].access != Target then Err(UnexpectedAccessibility(matches[0].account))
           else if expected.data != matches[0].data then Err(ConflictingCopies(expected.account))
           else Ok(()))
  }

  /** Adds an item and verifies what the store holds afterwards. */
  function Copy(v: Vault, faults: Faults, service: Service, item: Item): Done<()> {
    var added := Add(v, faults, service, item);
    if added.result.Err? then added else Verify(added.vault, faults, service, item)
  }

  function DeleteStaged(v: Vault, faults: Faults, account: string, migrated: bool): Done<bool> {
    var deleted := Delete(v, faults, Staging, account);
    Done(deleted.vault, if deleted.result.Err? then Err(deleted.result.error) else Ok(migrated))
  }

  /** With a verified copy in staging: delete, add again, verify, drop the copy. */
  function Replace(v: Vault, faults: Faults, item: Item): Done<bool> {
    var deleted := Delete(v, faults, Canonical, item.account);
    if deleted.result.Err? then Done(deleted.vault, Err(deleted.result.error))
    else Restore(deleted.vault, faults, item)
  }

  function Restore(v: Vault, faults: Faults, item: Item): Done<bool> {
    var copied := Copy(v, faults, Canonical, item);
    if copied.result.Err? then Done(copied.vault, Err(copied.result.error))
    else DeleteStaged(copied.vault, faults, item.account, true)
  }

  function Migrate(v: Vault, faults: Faults, account: string, canonical: Option<Item>,
                   staged: Option<Item>): Done<bool> {
    if staged.Some? && staged.value.access != Target then Done(v, Err(UnexpectedAccessibility(staged.value.account)))
    else if canonical.None? then
      if staged.None? then Done(v, Ok(false)) else Restore(v, faults, staged.value)
    else if canonical.value.access == Target then
      if staged.None? then Done(v, Ok(false))
      else if canonical.value.data != staged.value.data then Done(v, Err(ConflictingCopies(canonical.value.account)))
      else DeleteStaged(v, faults, account, false)
    else if canonical.value.access != Legacy then Done(v, Err(UnexpectedAccessibility(account)))
    else if staged.Some? then
      if canonical.value.data != staged.value.data then Done(v, Err(ConflictingCopies(canonical.value.account)))
      else Replace(v, faults, canonical.value)
    else
      var copied := Copy(v, faults, Staging, canonical.value);
      if copied.result.Err? then Done(copied.vault, Err(copied.result.error))
      else Replace(copied.vault, faults, canonical.value)
  }

  /** `indexedItems`: the items by account, unless two share one. */
  function Index(items: seq<Item>): (r: Result<map<string, Item>, Error>) {
    if items == [] then Ok(map[])
    else
      var last := items[|items| - 1];
      match Index(items[..|items| - 1])
      case Err(e) => Err(e)
      case Ok(m) => if last.account in m then Err(DuplicateAccount(last.account)) else Ok(m[last.account := last])
  }

  function Lookup(m: map<string, Item>, account: string): Option<Item> {
    if account in m then Some(m[account]) else None
  }

  function Tally(count: nat, moved: bool): nat {
    if moved then count + 1 else count
  }

  function MigrateAll(v: Vault, faults: Faults, accounts: seq<string>, canonical: map<string, Item>,
                      staged: map<string, Item>,
                      count: nat): Done<nat>
    decreases |accounts|
  {
    if accounts == [] then Done(v, Ok(count))
    else
      var one := Migrate(v, faults, accounts[0], Lookup(canonical, accounts[0]), Lookup(staged, accounts[0]));
      if one.result.Err? then Done(one.vault, Err(one.result.error))
      else MigrateAll(one.vault, faults, accounts[1..], canonical, staged, Tally(count, one.result.value))
  }

  function Accounts(items: seq<Item>): (r: seq<string>)
    ensures |r| == |items| && forall i :: 0 <= i < |items| ==> r[i] == items[i].account
  {
    seq(|items|, i requires 0 <= i < |items| => items[i].account)
  }

  /** `ensureFirstUnlockThisDeviceOnly` for one allowed service: how many items were moved. */
  function Ensure(v: Vault, faults: Faults): Done<nat> {
    if v.complete then Done(v, Ok(0))
    else
      var canonical := Read(v, faults, Canonical);
      if canonical.result.Err? then Done(canonical.vault, Err(canonical.result.error))
      else
        var byAccount := Index(canonical.result.value);
        if byAccount.Err? then Done(canonical.vault, Err(byAccount.error))
        else
          var staged := Read(canonical.vault, faults, Staging);
          if staged.result.Err? then Done(staged.vault, Err(staged.result.error))
          else
            var copies := Index(staged.result.value);
            if copies.Err? then Done(staged.vault, Err(copies.error))
            else Finish(MigrateAll(staged.vault, faults, AllAccounts(v), byAccount.value, copies.value, 0))
  }

  function AllAccounts(v: Vault): seq<string> {
    SortedDistinct(Accounts(v.canonical) + Accounts(v.staging))
  }

  /** The completion flag is set only after every account went through. */
  function Finish(done: Done<nat>): Done<nat> {
    if done.result.Ok? then done.(vault := done.vault.(complete := true)) else done
  }
}
