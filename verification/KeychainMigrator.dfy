/**
 * The migrator at work on the two services of one secure store, operation by
 * operation, proved against the functions of the vault.
 */
module KeychainMigrator {
  import opened Common
  import opened Sequences
  import opened Rotation
  import opened Keychain
  import opened KeychainTheorems

  const ALLOWED_SERVICES: set<string> := {
    "com.keplr.vizor.secure_store", "com.keplr.vizor.ironwood.secure_store",
    "com.keplr.vizor.test.secure_store", "com.keplr.vizor.regtest.secure_store"}

  /** A secure store with its staging service and completion flag. */
  class SecureStore {
    const faults: Faults
    var canonical: seq<Item>
    var staging: seq<Item>
    var complete: bool
    var ticks: nat

    ghost function View(): Vault
      reads this
    {
      Vault(canonical, staging, complete, ticks)
    }

    constructor (v: Vault, faults: Faults)
      ensures View() == v && this.faults == faults
    {
      this.faults := faults;
      canonical, staging, complete, ticks := v.canonical, v.staging, v.complete, v.ticks;
    }

    method Items(service: Service) returns (r: Result<seq<Item>, Error>)
      modifies this`ticks
      ensures Done(View(), r) == Keychain.Read(old(View()), faults, service)
    {
      var fault := faults(ticks);
      ticks := ticks + 1;
      if fault.Refused? || fault.Interrupted? {
        return Err(StoreFailed);
      }
      return Ok(if service == Canonical then canonical else staging);
    }

    method Add(item: Item, service: Service) returns (r: Result<(), Error>)
      modifies this
      ensures Done(View(), r) == Keychain.Add(old(View()), faults, service, item)
    {
      var fault := faults(ticks);
      ticks := ticks + 1;
      if fault.Refused? || Occupied(if service == Canonical then canonical else staging, item) {
        return Err(StoreFailed);
      }
      if service == Canonical {
        canonical := canonical + [Stored(item, fault)];
      } else {
        staging := staging + [Stored(item, fault)];
      }
      return if fault.Interrupted? then Err(StoreFailed) else Ok(());
    }

    method Delete(service: Service, account: string) returns (r: Result<(), Error>)
      modifies this
      ensures Done(View(), r) == Keychain.Delete(old(View()), faults, service, account)
    {
      var fault := faults(ticks);
      ticks := ticks + 1;
      if fault.Refused? {
        return Err(StoreFailed);
      }
      if service == Canonical {
        canonical := Filter(canonical, OfOther(account));
      } else {
        staging := Filter(staging, OfOther(account));
      }
      return if fault.Interrupted? then Err(StoreFailed) else Ok(());
    }

    method Verify(expected: Item, service: Service) returns (r: Result<(), Error>)
      modifies this`ticks
      ensures Done(View(), r) == Keychain.Verify(old(View()), faults, service, expected)
    {
      var items := Items(service);
      if items.Err? {
        return Err(items.error);
      }
      var matches := Of(items.value, expected.account);
      if |matches| != 1 {
        return Err(ConflictingCopies(expected.account));
      }
      if matches[0].access != Target {
        return Err(UnexpectedAccessibility(matches[0].account));
      }
      if expected.data != matches[0].data {
        return Err(ConflictingCopies(expected.account));
      }
      return Ok(());
    }

    method AddAndVerify(item: Item, service: Service) returns (r: Result<(), Error>)
      modifies this
      ensures Done(View(), r) == Keychain.Copy(old(View()), faults, service, item)
    {
      r := Add(item, service);
      if r.Ok? {
        r := Verify(item, service);
      }
    }

    /** Adds the item to the canonical service, verifies it and drops the staged copy. */
    method RestoreCanonical(item: Item) returns (r: Result<bool, Error>)
      modifies this
      ensures Done(View(), r) == Keychain.Restore(old(View()), faults, item)
    {
      hide Keychain.Copy, Keychain.Delete;
      var done := AddAndVerify(item, Canonical);
      if done.Err? {
        return Err(done.error);
      }
      done := Delete(Staging, item.account);
      return if done.Err? then Err(done.error) else Ok(true);
    }

    method Migrate(account: string, canonicalItem: Option<Item>, staged: Option<Item>) returns (r: Result<bool, Error>)
      requires canonicalItem.Some? ==> canonicalItem.value.account == account
      modifies this
      ensures Done(View(), r) == Keychain.Migrate(old(View()), faults, account, canonicalItem, staged)
    {
      hide Keychain.Copy, Keychain.Delete, Keychain.Restore;
      if staged.Some? && staged.value.access != Target {
        return Err(UnexpectedAccessibility(staged.value.account));
      }
      if canonicalItem.None? {
        if staged.None? {
          return Ok(false);
        }
        r := RestoreCanonical(staged.value);
        return;
      }
      var item := canonicalItem.value;
      if item.access == Target {
        if staged.None? {
          return Ok(false);
        }
        if item.data != staged.value.data {
          return Err(ConflictingCopies(item.account));
        }
        var dropped := Delete(Staging, account);
        return if dropped.Err? then Err(dropped.error) else Ok(false);
      }
      if item.access != Legacy {
        return Err(UnexpectedAccessibility(account));
      }
      if staged.Some? {
        if item.data != staged.value.data {
          return Err(ConflictingCopies(item.account));
        }
      } else {
        var copied := AddAndVerify(item, Staging);
        if copied.Err? {
          return Err(copied.error);
        }
      }
      var deleted := Delete(Canonical, account);
      if deleted.Err? {
        return Err(deleted.error);
      }
      r := RestoreCanonical(item);
    }

    /** `indexedItems`. */
    method IndexedItems(items: seq<Item>) returns (r: Result<map<string, Item>, Error>)
      ensures r == Index(items)
    {
      var result: map<string, Item> := map[];
      var n := 0;
      while n < |items|
        invariant n <= |items| && Index(items[..n]) == Ok(result)
      {
        assert items[..n + 1][..n] == items[..n];
        if items[n].account in result {
          IndexFails(items, n + 1);
          return Err(DuplicateAccount(items[n].account));
        }
        result := result[items[n].account := items[n]];
        n := n + 1;
      }
      assert items[..n] == items;
      return Ok(result);
    }

    /** `ensureFirstUnlockThisDeviceOnly`. */
    method EnsureFirstUnlockThisDeviceOnly(service: string) returns (r: Result<nat, Error>)
      modifies this
      ensures service !in ALLOWED_SERVICES ==> r == Err(InvalidService) && View() == old(View())
      ensures service in ALLOWED_SERVICES ==> Done(View(), r) == Keychain.Ensure(old(View()), faults)
    {
      hide Keychain.Migrate;
      if service !in ALLOWED_SERVICES {
        return Err(InvalidService);
      }
      if complete {
        return Ok(0);
      }
      var accounts := SortedDistinct(Accounts(canonical) + Accounts(staging));
      var items := Items(Canonical);
      if items.Err? {
        return Err(items.error);
      }
      var byAccount := IndexedItems(items.value);
      if byAccount.Err? {
        return Err(byAccount.error);
      }
      items := Items(Staging);
      if items.Err? {
        return Err(items.error);
      }
      var staged := IndexedItems(items.value);
      if staged.Err? {
        return Err(staged.error);
      }
      IndexAccounts(canonical, byAccount.value);
      ghost var all := MigrateAll(View(), faults, accounts, byAccount.value, staged.value, 0);
      assert Keychain.Ensure(old(View()), faults) == Finish(all);
      var migrated := 0;
      var n := 0;
      assert accounts[0..] == accounts;
      while n < |accounts|
        invariant n <= |accounts|
        invariant all == MigrateAll(View(), faults, accounts[n..], byAccount.value, staged.value, migrated)
      {
        var account := accounts[n];
        assert accounts[n..][1..] == accounts[n + 1..];
        var moved := Migrate(account, Lookup(byAccount.value, account), Lookup(staged.value, account));
        if moved.Err? {
          return Err(moved.error);
        }
        if moved.value {
          migrated := migrated + 1;
        }
        n := n + 1;
      }
      complete := true;
      return Ok(migrated);
    }
  }

  lemma {:induction false} IndexFails(items: seq<Item>, n: nat)
    requires n <= |items| && Index(items[..n]).Err?
    ensures Index(items) == Index(items[..n])
    decreases |items| - n
  {
    if n == |items| {
      assert items[..n] == items;
    } else {
      assert items[..n + 1][..n] == items[..n];
      IndexFails(items, n + 1);
    }
  }

  lemma IndexAccounts(items: seq<Item>, m: map<string, Item>)
    requires Index(items) == Ok(m)
    ensures forall a :: a in m ==> m[a].account == a
  {
    IndexExact(items);
    forall a | a in m
      ensures m[a].account == a
    {
      assert Sees(items, a, Lookup(m, a));
    }
  }
}
