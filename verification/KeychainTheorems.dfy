/** What the keychain migration promises, for every way its store can fail. */
module KeychainTheorems {
  import opened Common
  import opened Sequences
  import opened Rotation
  import opened Keychain

  // ----- One account at a time

  lemma {:induction false} WithoutAccount(items: seq<Item>, a: string, b: string)
    ensures Of(Filter(items, OfOther(a)), b) == if a == b then [] else Of(items, b)
  {
    if items != [] {
      WithoutAccount(items[1..], a, b);
      var rest := Filter(items[1..], OfOther(a));
      if items[0].account != a {
        assert ([items[0]] + rest)[1..] == rest;
      } else {
        assert [] + rest == rest;
      }
    }
  }

  lemma {:induction false} OfMember(items: seq<Item>, a: string)
    ensures forall i :: 0 <= i < |Of(items, a)| ==> Of(items, a)[i].account == a && Of(items, a)[i] in items
    ensures Of(items, a) == [] <==> a !in Accounts(items)
  {
    forall i | 0 <= i < |Of(items, a)|
      ensures Of(items, a)[i].account == a && Of(items, a)[i] in items
    {
      assert Of(items, a)[i] in Of(items, a);
      FilterMember(items, OfAccount(a), Of(items, a)[i]);
    }
    if a in Accounts(items) {
      var i :| 0 <= i < |items| && Accounts(items)[i] == a;
      FilterMember(items, OfAccount(a), items[i]);
    }
    if Of(items, a) != [] {
      ListedAccount(items, Of(items, a)[0]);
    }
  }

  lemma ListedAccount(items: seq<Item>, item: Item)
    requires item in items
    ensures item.account in Accounts(items)
  {
    var i :| 0 <= i < |items| && items[i] == item;
    assert Accounts(items)[i] == item.account;
  }

  /** Nothing but the items of account `a` may differ. */
  ghost predicate TouchesOnly(v: Vault, v': Vault, a: string) {
    && v'.complete == v.complete
    && (forall b :: b != a ==> Of(v'.canonical, b) == Of(v.canonical, b) && Of(v'.staging, b) == Of(v.staging, b))
  }

  lemma DeleteLocal(v: Vault, faults: Faults, service: Service, a: string)
    ensures var d := Delete(v, faults, service, a);
            && TouchesOnly(v, d.vault, a)
            && Contents(d.vault, Other(service)) == Contents(v, Other(service))
            && (|| Of(Contents(d.vault, service), a) == []
                || Of(Contents(d.vault, service), a) == Of(Contents(v, service), a))
            && (d.result.Ok? ==> Of(Contents(d.vault, service), a) == [])
            && (faults(v.ticks) == Fine ==> d.result.Ok?)
            && d.vault.ticks == v.ticks + 1
  {
    var items := Contents(v, service);
    forall b
      ensures Of(Filter(items, OfOther(a)), b) == if a == b then [] else Of(items, b)
    {
      WithoutAccount(items, a, b);
    }
    hide Of;
  }

  function Other(service: Service): Service {
    if service == Canonical then Staging else Canonical
  }

  lemma AddLocal(v: Vault, faults: Faults, service: Service, item: Item)
    ensures var d := Add(v, faults, service, item);
            var before := Of(Contents(v, service), item.account);
            var after := Of(Contents(d.vault, service), item.account);
            && TouchesOnly(v, d.vault, item.account)
            && Contents(d.vault, Other(service)) == Contents(v, Other(service))
            && (after == before || after == before + [Stored(item, faults(v.ticks))])
            && (d.result.Ok? ==> after == before + [Stored(item, faults(v.ticks))])
            && (faults(v.ticks) == Fine && before == [] ==> d.result.Ok?)
            && d.vault.ticks == v.ticks + 1
  {
    var stored := Stored(item, faults(v.ticks));
    forall b
      ensures Of(Contents(v, service) + [stored], b) == Of(Contents(v, service), b)
              + if b == item.account then [stored] else []
    {
      FilterAppend(Contents(v, service), OfAccount(b), stored);
    }
    OfMember(Contents(v, service), item.account);
    if Occupied(Contents(v, service), item) {
      var i :| 0 <= i < |Contents(v, service)| && Contents(v, service)[i].account == item.account;
      assert Accounts(Contents(v, service))[i] == item.account;
    }
  }

  ghost predicate FineFrom(faults: Faults, tick: nat) {
    forall n: nat :: n >= tick ==> faults(n) == Fine
  }

  /** A store that never stores anything but what it was given. */
  ghost predicate Honest(faults: Faults) {
    forall n: nat :: !faults(n).Garbled?
  }

  lemma CopyLocal(v: Vault, faults: Faults, service: Service, item: Item)
    ensures var d := Copy(v, faults, service, item);
            var before := Of(Contents(v, service), item.account);
            var after := Of(Contents(d.vault, service), item.account);
            && TouchesOnly(v, d.vault, item.account)
            && Contents(d.vault, Other(service)) == Contents(v, Other(service))
            && (after == before || (|after| == |before| + 1 && after[..|before|] == before))
            && (d.result.Ok? ==> |after| == 1 && after[0].access == Target && after[0].data == item.data)
            && (Honest(faults) ==> after == before || after == before + [item.(access := Target)])
            && (FineFrom(faults, v.ticks) && before == [] ==> d.result.Ok? && after == [item.(access := Target)])
            && d.vault.ticks >= v.ticks
  {
    AddLocal(v, faults, service, item);
  }

  // ----- What must never be lost

  /** The account's original item, wherever its data now is: alone in the canonical service, or verified in staging. */
  ghost predicate DataKept(original: Item, c: seq<Item>, s: seq<Item>) {
    || (|c| == 1 && c[0].data == original.data)
    || (|s| == 1 && s[0].data == original.data && s[0].access == Target)
  }

  ghost predicate Moved(original: Item, c: seq<Item>, s: seq<Item>) {
    |c| == 1 && c[0].data == original.data && c[0].access == Target && s == []
  }

  lemma RestoreLocal(v: Vault, faults: Faults, item: Item, original: Item)
    requires Of(v.canonical, item.account) == []
    requires |Of(v.staging, item.account)| == 1 && Of(v.staging, item.account)[0].access == Target
    requires Of(v.staging, item.account)[0].data == original.data == item.data
    ensures var d := Restore(v, faults, item);
            var c, s := Of(d.vault.canonical, item.account), Of(d.vault.staging, item.account);
            && TouchesOnly(v, d.vault, item.account)
            && DataKept(original, c, s)
            && (d.result.Ok? ==> Moved(original, c, s))
  {
    hide Copy, Delete;
    CopyLocal(v, faults, Canonical, item);
    DeleteLocal(Copy(v, faults, Canonical, item).vault, faults, Staging, item.account);
  }

  lemma ReplaceLocal(v: Vault, faults: Faults, item: Item, original: Item)
    requires |Of(v.canonical, item.account)| == 1 && Of(v.canonical, item.account)[0].data == original.data
    requires |Of(v.staging, item.account)| == 1 && Of(v.staging, item.account)[0].access == Target
    requires Of(v.staging, item.account)[0].data == original.data == item.data
    ensures var d := Replace(v, faults, item);
            var c, s := Of(d.vault.canonical, item.account), Of(d.vault.staging, item.account);
            && TouchesOnly(v, d.vault, item.account)
            && DataKept(original, c, s)
            && (d.result.Ok? ==> Moved(original, c, s))
  {
    hide Restore, Delete;
    DeleteLocal(v, faults, Canonical, item.account);
    var deleted := Delete(v, faults, Canonical, item.account);
    if deleted.result.Ok? {
      RestoreLocal(deleted.vault, faults, item, original);
    }
  }

  /** The single item of an account, as the migration sees it. */
  ghost predicate Sees(items: seq<Item>, account: string, seen: Option<Item>) {
    match seen
    case None => Of(items, account) == []
    case Some(item) => Of(items, account) == [item] && item.account == account
  }

  lemma MigrateKeeps(v: Vault, faults: Faults, account: string, canonical: Option<Item>, staged: Option<Item>,
                     original: Item)
    requires Sees(v.canonical, account, canonical) && Sees(v.staging, account, staged)
    requires DataKept(original, Of(v.canonical, account), Of(v.staging, account))
    ensures var d := Migrate(v, faults, account, canonical, staged);
            var c, s := Of(d.vault.canonical, account), Of(d.vault.staging, account);
            && TouchesOnly(v, d.vault, account)
            && DataKept(original, c, s)
            && (d.result.Ok? ==> Moved(original, c, s))
  {
    hide Copy, Restore, Replace, Delete;
    if staged.Some? && staged.value.access == Target {
      DeleteLocal(v, faults, Staging, account);
      if canonical.None? {
        RestoreLocal(v, faults, staged.value, original);
      } else if canonical.value.access == Legacy && canonical.value.data == staged.value.data {
        ReplaceLocal(v, faults, canonical.value, original);
      }
    } else if staged.None? && canonical.Some? && canonical.value.access == Legacy {
      CopyLocal(v, faults, Staging, canonical.value);
      var copied := Copy(v, faults, Staging, canonical.value);
      if copied.result.Ok? {
        ReplaceLocal(copied.vault, faults, canonical.value, original);
      }
    }
  }

  /** Whatever is stored, migrating one account touches no other. */
  lemma MigrateTouches(v: Vault, faults: Faults, account: string, canonical: Option<Item>, staged: Option<Item>)
    requires canonical.Some? ==> canonical.value.account == account
    requires staged.Some? ==> staged.value.account == account
    ensures TouchesOnly(v, Migrate(v, faults, account, canonical, staged).vault, account)
    ensures Migrate(v, faults, account, canonical, staged).vault.ticks >= v.ticks
  {
    hide Copy, Delete;
    DeleteLocal(v, faults, Staging, account);
    if staged.Some? && canonical.None? {
      RestoreTouches(v, faults, staged.value);
    }
    if canonical.Some? {
      CopyLocal(v, faults, Staging, canonical.value);
      ReplaceTouches(v, faults, canonical.value);
      ReplaceTouches(Copy(v, faults, Staging, canonical.value).vault, faults, canonical.value);
    }
  }

  lemma RestoreTouches(v: Vault, faults: Faults, item: Item)
    ensures TouchesOnly(v, Restore(v, faults, item).vault, item.account)
    ensures Restore(v, faults, item).vault.ticks >= v.ticks
  {
    hide Copy, Delete;
    CopyLocal(v, faults, Canonical, item);
    DeleteLocal(Copy(v, faults, Canonical, item).vault, faults, Staging, item.account);
  }

  lemma ReplaceTouches(v: Vault, faults: Faults, item: Item)
    ensures TouchesOnly(v, Replace(v, faults, item).vault, item.account)
    ensures Replace(v, faults, item).vault.ticks >= v.ticks
  {
    hide Restore, Delete;
    DeleteLocal(v, faults, Canonical, item.account);
    RestoreTouches(Delete(v, faults, Canonical, item.account).vault, faults, item);
  }

  // ----- The index

  lemma {:induction false} IndexExact(items: seq<Item>)
    ensures Index(items).Ok? <==> forall a :: |Of(items, a)| <= 1
    ensures Index(items).Ok? ==> forall a :: Sees(items, a, Lookup(Index(items).value, a))
  {
    if items != [] {
      var n := |items| - 1;
      var last := items[n];
      assert items == items[..n] + [last];
      IndexExact(items[..n]);
      forall a
        ensures Of(items, a) == Of(items[..n], a) + if a == last.account then [last] else []
      {
        FilterAppend(items[..n], OfAccount(a), last);
      }
      if Index(items[..n]).Ok? {
        var m := Index(items[..n]).value;
        assert Sees(items[..n], last.account, Lookup(m, last.account));
        if last.account !in m {
          forall a
            ensures Sees(items, a, Lookup(Index(items).value, a))
          {
            assert Sees(items[..n], a, Lookup(m, a));
          }
          forall a
            ensures |Of(items, a)| <= 1
          {
            assert Sees(items, a, Lookup(Index(items).value, a));
          }
        }
      } else {
        var a :| |Of(items[..n], a)| > 1;
        assert |Of(items, a)| > 1;
      }
    }
  }

  // ----- The whole migration

  /** The two indexes describe the accounts still to be migrated. */
  ghost predicate Describes(v: Vault, accounts: seq<string>, canonical: map<string, Item>, staged: map<string, Item>) {
    && (forall i, j :: 0 <= i < j < |accounts| ==> accounts[i] != accounts[j])
    && (forall i :: 0 <= i < |accounts| ==>
          Sees(v.canonical, accounts[i], Lookup(canonical, accounts[i]))
              && Sees(v.staging, accounts[i], Lookup(staged, accounts[i])))
  }

  lemma DescribesRest(v: Vault, v': Vault, accounts: seq<string>, canonical: map<string, Item>,
                      staged: map<string, Item>)
    requires accounts != [] && Describes(v, accounts, canonical, staged) && TouchesOnly(v, v', accounts[0])
    ensures Describes(v', accounts[1..], canonical, staged)
  {
    var rest := accounts[1..];
    forall i | 0 <= i < |rest|
      ensures Sees(v'.canonical, rest[i], Lookup(canonical, rest[i]))
              && Sees(v'.staging, rest[i], Lookup(staged, rest[i]))
    {
      assert rest[i] == accounts[i + 1] != accounts[0];
    }
  }

  lemma {:induction false} MigrateAllKeeps(v: Vault, faults: Faults, accounts: seq<string>,
                                           canonical: map<string, Item>,
                                           staged: map<string, Item>, count: nat, a: string, original: Item)
    requires Describes(v, accounts, canonical, staged)
    requires DataKept(original, Of(v.canonical, a), Of(v.staging, a))
    ensures var d := MigrateAll(v, faults, accounts, canonical, staged, count);
            && d.vault.complete == v.complete
            && DataKept(original, Of(d.vault.canonical, a), Of(d.vault.staging, a))
            && (d.result.Ok? && a in accounts ==> Moved(original, Of(d.vault.canonical, a), Of(d.vault.staging, a)))
            && (a !in accounts ==> SameAt(v, d.vault, a))
    decreases |accounts|
  {
    hide Migrate;
    if accounts != [] {
      var c, s := Lookup(canonical, accounts[0]), Lookup(staged, accounts[0]);
      var one := Migrate(v, faults, accounts[0], c, s);
      MigrateTouches(v, faults, accounts[0], c, s);
      DescribesRest(v, one.vault, accounts, canonical, staged);
      if a == accounts[0] {
        MigrateKeeps(v, faults, a, c, s, original);
        assert a !in accounts[1..];
      }
      if one.result.Ok? {
        MigrateAllKeeps(one.vault, faults, accounts[1..], canonical, staged, Tally(count, one.result.value), a,
                        original);
      }
    }
  }

  ghost predicate SameAt(v: Vault, v': Vault, a: string) {
    Of(v'.canonical, a) == Of(v.canonical, a) && Of(v'.staging, a) == Of(v.staging, a)
  }

  lemma {:induction false} MigrateAllTouches(v: Vault, faults: Faults, accounts: seq<string>,
                                             canonical: map<string, Item>,
                                             staged: map<string, Item>, count: nat, a: string)
    requires Describes(v, accounts, canonical, staged) && a !in accounts
    ensures SameAt(v, MigrateAll(v, faults, accounts, canonical, staged, count).vault, a)
    decreases |accounts|
  {
    hide Migrate;
    if accounts != [] {
      var c, s := Lookup(canonical, accounts[0]), Lookup(staged, accounts[0]);
      var one := Migrate(v, faults, accounts[0], c, s);
      MigrateTouches(v, faults, accounts[0], c, s);
      DescribesRest(v, one.vault, accounts, canonical, staged);
      if one.result.Ok? {
        MigrateAllTouches(one.vault, faults, accounts[1..], canonical, staged, Tally(count, one.result.value), a);
      }
    }
  }

  /** The vault and the indexes as the loop over accounts starts, when it does. */
  lemma EnsureUnfolds(v: Vault, faults: Faults)
    returns (started: bool, v': Vault, canonical: map<string, Item>, staged: map<string, Item>)
    requires !v.complete
    ensures v'.canonical == v.canonical && v'.staging == v.staging && v'.complete == v.complete && v'.ticks >= v.ticks
    ensures started ==> Describes(v', AllAccounts(v), canonical, staged)
    ensures started ==> Ensure(v, faults) == Finish(MigrateAll(v', faults, AllAccounts(v), canonical, staged, 0))
    ensures started ==> forall a :: |Of(v.canonical, a)| <= 1 && |Of(v.staging, a)| <= 1
    ensures !started ==> Ensure(v, faults).result.Err?
    ensures !started ==> Ensure(v, faults).vault == v.(ticks := Ensure(v, faults).vault.ticks)
    ensures FineFrom(faults, v.ticks) ==>
              (started <==> forall a :: |Of(v.canonical, a)| <= 1 && |Of(v.staging, a)| <= 1)
  {
    IndexExact(v.canonical);
    IndexExact(v.staging);
    SortedDistinctIsSorted(Accounts(v.canonical) + Accounts(v.staging));
    canonical, staged := map[], map[];
    var first := Read(v, faults, Canonical);
    var second := Read(first.vault, faults, Staging);
    v' := second.vault;
    started := first.result.Ok? && second.result.Ok? && Index(v.canonical).Ok? && Index(v.staging).Ok?;
    if started {
      canonical, staged := Index(v.canonical).value, Index(v.staging).value;
      AccountsDistinct(v);
    }
  }

  lemma AccountsDistinct(v: Vault)
    ensures var accounts := AllAccounts(v); forall i, j :: 0 <= i < j < |accounts| ==> accounts[i] != accounts[j]
  {
    SortedDistinctIsSorted(Accounts(v.canonical) + Accounts(v.staging));
    var accounts := AllAccounts(v);
    forall i, j | 0 <= i < j < |accounts|
      ensures accounts[i] != accounts[j]
    {
      LessTotal(accounts[i], accounts[j]);
    }
  }

  /** Crash safety: whatever the store does to any operation, no tracked data is ever lost. */
  lemma EveryFaultKeepsData(v: Vault, faults: Faults, a: string, original: Item)
    requires DataKept(original, Of(v.canonical, a), Of(v.staging, a))
    ensures var v' := Ensure(v, faults).vault; DataKept(original, Of(v'.canonical, a), Of(v'.staging, a))
  {
    hide MigrateAll, Ensure;
    if !v.complete {
      var started, v', canonical, staged := EnsureUnfolds(v, faults);
      if started {
        MigrateAllKeeps(v', faults, AllAccounts(v), canonical, staged, 0, a, original);
      }
    } else {
      CompleteDoesNothing(v, faults);
    }
  }

  lemma CompleteDoesNothing(v: Vault, faults: Faults)
    requires v.complete
    ensures Ensure(v, faults) == Done(v, Ok(0))
  {
  }

  // ----- When a run finishes

  /** What the migration asks of one account: at most one item each, known classes, and copies that agree. */
  ghost predicate Migratable(c: seq<Item>, s: seq<Item>) {
    && |c| <= 1 && |s| <= 1
    && (s != [] ==> s[0].access == Target)
    && (c != [] ==> c[0].access == Target || c[0].access == Legacy)
    && (c != [] && s != [] ==> c[0].data == s[0].data)
  }

  /** The item that the account is left with, before its class is changed. */
  ghost function Survivor(c: seq<Item>, s: seq<Item>): Item
    requires c != [] || s != []
  {
    if c != [] then c[0] else s[0]
  }

  lemma MigrateNeeds(v: Vault, faults: Faults, account: string, canonical: Option<Item>, staged: Option<Item>)
    requires Sees(v.canonical, account, canonical) && Sees(v.staging, account, staged)
    requires Migrate(v, faults, account, canonical, staged).result.Ok?
    ensures Migratable(Of(v.canonical, account), Of(v.staging, account))
  {
    hide Copy, Restore, Replace, Delete;
  }

  lemma {:induction false} MigrateAllNeeds(v: Vault, faults: Faults, accounts: seq<string>,
                                           canonical: map<string, Item>,
                                           staged: map<string, Item>, count: nat, a: string)
    requires Describes(v, accounts, canonical, staged) && a in accounts
    requires MigrateAll(v, faults, accounts, canonical, staged, count).result.Ok?
    ensures Migratable(Of(v.canonical, a), Of(v.staging, a))
    decreases |accounts|
  {
    hide Migrate;
    var c, s := Lookup(canonical, accounts[0]), Lookup(staged, accounts[0]);
    var one := Migrate(v, faults, accounts[0], c, s);
    MigrateTouches(v, faults, accounts[0], c, s);
    DescribesRest(v, one.vault, accounts, canonical, staged);
    if a == accounts[0] {
      MigrateNeeds(v, faults, a, c, s);
    } else {
      MigrateAllNeeds(one.vault, faults, accounts[1..], canonical, staged, Tally(count, one.result.value), a);
    }
  }

  lemma AccountListed(v: Vault, a: string)
    ensures a in AllAccounts(v) <==> Of(v.canonical, a) != [] || Of(v.staging, a) != []
  {
    SortedDistinctIsSorted(Accounts(v.canonical) + Accounts(v.staging));
    OfMember(v.canonical, a);
    OfMember(v.staging, a);
  }

  /**
   * Convergence: however many faults came before and whatever the store does
   * now, a run that finishes leaves every account with exactly one canonical
   * item, in the target class and with the account's data, an empty staging
   * service, and the completion flag set; accounts without items stay without.
   */
  lemma FinishedRunMigrates(v: Vault, faults: Faults, a: string)
    requires !v.complete && Ensure(v, faults).result.Ok?
    ensures Ensure(v, faults).vault.complete
    ensures var v' := Ensure(v, faults).vault;
            var c, s := Of(v.canonical, a), Of(v.staging, a);
            if c == [] && s == [] then SameAt(v, v', a)
            else Moved(Survivor(c, s), Of(v'.canonical, a), Of(v'.staging, a))
  {
    hide MigrateAll, Ensure;
    var started, v', canonical, staged := EnsureUnfolds(v, faults);
    var c, s := Of(v.canonical, a), Of(v.staging, a);
    AccountListed(v, a);
    if c == [] && s == [] {
      MigrateAllTouches(v', faults, AllAccounts(v), canonical, staged, 0, a);
    } else {
      MigrateAllNeeds(v', faults, AllAccounts(v), canonical, staged, 0, a);
      MigrateAllKeeps(v', faults, AllAccounts(v), canonical, staged, 0, a, Survivor(c, s));
    }
  }

  /** Everything is in the target class, once, and staging is empty. */
  ghost predicate AllMoved(v: Vault) {
    && v.staging == []
    && (forall a :: |Of(v.canonical, a)| <= 1)
    && (forall i :: 0 <= i < |v.canonical| ==> v.canonical[i].access == Target)
  }

  predicate NoneOrTarget(c: seq<Item>) {
    c == [] || (|c| == 1 && c[0].access == Target)
  }

  lemma MovedEverywhere(v: Vault)
    requires forall a :: Of(v.staging, a) == [] && NoneOrTarget(Of(v.canonical, a))
    ensures AllMoved(v)
  {
    if v.staging != [] {
      ListedAccount(v.staging, v.staging[0]);
      OfMember(v.staging, v.staging[0].account);
    }
    forall i | 0 <= i < |v.canonical|
      ensures v.canonical[i].access == Target
    {
      var c := Of(v.canonical, v.canonical[i].account);
      FilterMember(v.canonical, OfAccount(v.canonical[i].account), v.canonical[i]);
      assert v.canonical[i] in c && c == [c[0]];
    }
  }

  /** The completion flag is never set while anything is left to move. */
  lemma FlagMeansMoved(v: Vault, faults: Faults)
    requires v.complete ==> AllMoved(v)
    ensures Ensure(v, faults).vault.complete ==> AllMoved(Ensure(v, faults).vault)
    ensures Ensure(v, faults).vault.complete <==> Ensure(v, faults).result.Ok?
  {
    hide MigrateAll, Ensure, AllMoved;
    if v.complete {
      CompleteDoesNothing(v, faults);
    } else {
      var started, v', canonical, staged := EnsureUnfolds(v, faults);
      if started {
        FinishFlag(v', faults, AllAccounts(v), canonical, staged);
      }
      if Ensure(v, faults).result.Ok? {
        forall a
          ensures var w := Ensure(v, faults).vault;
                  Of(w.staging, a) == [] && NoneOrTarget(Of(w.canonical, a))
        {
          FinishedRunMigrates(v, faults, a);
        }
        MovedEverywhere(Ensure(v, faults).vault);
      }
    }
  }

  lemma {:induction false} FinishFlag(v: Vault, faults: Faults, accounts: seq<string>, canonical: map<string, Item>,
                                      staged: map<string, Item>)
    requires !v.complete && Describes(v, accounts, canonical, staged)
    ensures var d := Finish(MigrateAll(v, faults, accounts, canonical, staged, 0)); d.vault.complete <==> d.result.Ok?
  {
    FlagUntouched(v, faults, accounts, canonical, staged, 0);
  }

  lemma {:induction false} FlagUntouched(v: Vault, faults: Faults, accounts: seq<string>,
                                         canonical: map<string, Item>, staged: map<string, Item>, count: nat)
    requires Describes(v, accounts, canonical, staged)
    ensures MigrateAll(v, faults, accounts, canonical, staged, count).vault.complete == v.complete
    decreases |accounts|
  {
    hide Migrate;
    if accounts != [] {
      var c, s := Lookup(canonical, accounts[0]), Lookup(staged, accounts[0]);
      var one := Migrate(v, faults, accounts[0], c, s);
      MigrateTouches(v, faults, accounts[0], c, s);
      DescribesRest(v, one.vault, accounts, canonical, staged);
      if one.result.Ok? {
        FlagUntouched(one.vault, faults, accounts[1..], canonical, staged, Tally(count, one.result.value));
      }
    }
  }

  // ----- Runs without faults

  lemma FineRestores(v: Vault, faults: Faults, item: Item)
    requires FineFrom(faults, v.ticks) && Of(v.canonical, item.account) == []
    ensures var d := Restore(v, faults, item);
            && d.result == Ok(true)
            && Of(d.vault.canonical, item.account) == [item.(access := Target)]
            && Of(d.vault.staging, item.account) == []
  {
    hide Copy, Delete;
    CopyLocal(v, faults, Canonical, item);
    DeleteLocal(Copy(v, faults, Canonical, item).vault, faults, Staging, item.account);
  }

  lemma FineReplaces(v: Vault, faults: Faults, item: Item)
    requires FineFrom(faults, v.ticks)
    ensures var d := Replace(v, faults, item);
            && d.result == Ok(true)
            && Of(d.vault.canonical, item.account) == [item.(access := Target)]
            && Of(d.vault.staging, item.account) == []
  {
    hide Restore, Delete;
    DeleteLocal(v, faults, Canonical, item.account);
    FineRestores(Delete(v, faults, Canonical, item.account).vault, faults, item);
  }

  /** Without faults an account that can be migrated is, attributes and all; the result counts it when it was moved. */
  lemma FineMigrates(v: Vault, faults: Faults, account: string, canonical: Option<Item>, staged: Option<Item>)
    requires Sees(v.canonical, account, canonical) && Sees(v.staging, account, staged)
    requires canonical.Some? || staged.Some?
    requires FineFrom(faults, v.ticks) && Migratable(Of(v.canonical, account), Of(v.staging, account))
    ensures var d := Migrate(v, faults, account, canonical, staged);
            var c := Of(v.canonical, account);
            && d.result == Ok(c == [] || c[0].access == Legacy)
            && Of(d.vault.canonical, account) == [Survivor(c, Of(v.staging, account)).(access := Target)]
            && Of(d.vault.staging, account) == []
  {
    hide Copy, Restore, Replace, Delete;
    DeleteLocal(v, faults, Staging, account);
    if canonical.None? {
      FineRestores(v, faults, staged.value);
    } else if canonical.value.access == Legacy {
      if staged.Some? {
        FineReplaces(v, faults, canonical.value);
      } else {
        CopyLocal(v, faults, Staging, canonical.value);
        FineReplaces(Copy(v, faults, Staging, canonical.value).vault, faults, canonical.value);
      }
    }
  }

  lemma {:induction false} FineMigratesAll(v: Vault, faults: Faults, accounts: seq<string>,
                                           canonical: map<string, Item>,
                                           staged: map<string, Item>, count: nat)
    requires Describes(v, accounts, canonical, staged) && FineFrom(faults, v.ticks)
    requires forall i :: 0 <= i < |accounts| ==>
               Migratable(Of(v.canonical, accounts[i]), Of(v.staging, accounts[i]))
               && (Of(v.canonical, accounts[i]) != [] || Of(v.staging, accounts[i]) != [])
    ensures var d := MigrateAll(v, faults, accounts, canonical, staged, count);
            && d.result.Ok?
            && forall i :: 0 <= i < |accounts| ==>
                 Of(d.vault.canonical, accounts[i])
                 == [Survivor(Of(v.canonical, accounts[i]), Of(v.staging, accounts[i])).(access := Target)]
    decreases |accounts|
  {
    hide Migrate, Migratable;
    if accounts != [] {
      var first, rest := accounts[0], accounts[1..];
      var c, s := Lookup(canonical, first), Lookup(staged, first);
      var one := Migrate(v, faults, first, c, s);
      MigrateTouches(v, faults, first, c, s);
      DescribesRest(v, one.vault, accounts, canonical, staged);
      FineMigrates(v, faults, first, c, s);
      forall i | 0 <= i < |rest|
        ensures SameAt(v, one.vault, rest[i]) && rest[i] != first
        ensures Migratable(Of(v.canonical, rest[i]), Of(v.staging, rest[i]))
        ensures Of(v.canonical, rest[i]) != [] || Of(v.staging, rest[i]) != []
      {
        assert rest[i] == accounts[i + 1];
      }
      var next := Tally(count, one.result.value);
      FineMigratesAll(one.vault, faults, rest, canonical, staged, next);
      MigrateAllTouches(one.vault, faults, rest, canonical, staged, next, first);
      assert forall i :: 1 <= i < |accounts| ==> accounts[i] == rest[i - 1];
    }
  }

  /** Exactly when a run without faults finishes, from any state of the two services. */
  lemma FaultFreeRunFinishesExactly(v: Vault, faults: Faults)
    requires !v.complete && FineFrom(faults, v.ticks)
    ensures Ensure(v, faults).result.Ok? <==> forall a :: Migratable(Of(v.canonical, a), Of(v.staging, a))
  {
    hide MigrateAll, Ensure;
    var started, v', canonical, staged := EnsureUnfolds(v, faults);
    if Ensure(v, faults).result.Ok? {
      forall a
        ensures Migratable(Of(v.canonical, a), Of(v.staging, a))
      {
        AccountListed(v, a);
        if a in AllAccounts(v) {
          MigrateAllNeeds(v', faults, AllAccounts(v), canonical, staged, 0, a);
        }
      }
    } else if forall a :: Migratable(Of(v.canonical, a), Of(v.staging, a)) {
      FineRunFinishes(v, faults, v', canonical, staged);
    }
  }

  lemma FineRunFinishes(v: Vault, faults: Faults, v': Vault, canonical: map<string, Item>, staged: map<string, Item>)
    requires FineFrom(faults, v'.ticks) && v'.canonical == v.canonical && v'.staging == v.staging
    requires Describes(v', AllAccounts(v), canonical, staged)
    requires forall a :: Migratable(Of(v.canonical, a), Of(v.staging, a))
    ensures var d := MigrateAll(v', faults, AllAccounts(v), canonical, staged, 0);
            && d.result.Ok?
            && forall a :: a in AllAccounts(v) ==>
                 (Of(v.canonical, a) != [] || Of(v.staging, a) != [])
                 && Of(d.vault.canonical, a) == [Survivor(Of(v.canonical, a), Of(v.staging, a)).(access := Target)]
  {
    hide MigrateAll, Migratable;
    var accounts := AllAccounts(v);
    forall i | 0 <= i < |accounts|
      ensures Of(v.canonical, accounts[i]) != [] || Of(v.staging, accounts[i]) != []
    {
      AccountListed(v, accounts[i]);
    }
    FineMigratesAll(v', faults, accounts, canonical, staged, 0);
  }

  // ----- Interrupted runs, and the run after them

  /** Where an honest store can leave an account: the item is never absent, and copies differ from it in class only. */
  ghost predicate Faithful(original: Item, c: seq<Item>, s: seq<Item>) {
    && (c == [] || c == [original] || c == [original.(access := Target)])
    && (s == [] || s == [original.(access := Target)])
    && (c != [] || s != [])
  }

  lemma HonestRestore(v: Vault, faults: Faults, item: Item, original: Item)
    requires Honest(faults) && item.(access := Target) == original.(access := Target)
    requires Of(v.canonical, item.account) == [] && Of(v.staging, item.account) == [original.(access := Target)]
    ensures var d := Restore(v, faults, item);
            Faithful(original, Of(d.vault.canonical, item.account), Of(d.vault.staging, item.account))
  {
    hide Copy, Delete, Honest;
    CopyLocal(v, faults, Canonical, item);
    DeleteLocal(Copy(v, faults, Canonical, item).vault, faults, Staging, item.account);
  }

  lemma HonestReplace(v: Vault, faults: Faults, item: Item, original: Item)
    requires Honest(faults) && item.(access := Target) == original.(access := Target)
    requires Of(v.canonical, item.account) == [item] && Of(v.staging, item.account) == [original.(access := Target)]
    requires item == original
    ensures var d := Replace(v, faults, item);
            Faithful(original, Of(d.vault.canonical, item.account), Of(d.vault.staging, item.account))
  {
    hide Restore, Delete, Honest;
    DeleteLocal(v, faults, Canonical, item.account);
    var deleted := Delete(v, faults, Canonical, item.account);
    if deleted.result.Ok? {
      HonestRestore(deleted.vault, faults, item, original);
    }
  }

  lemma HonestMigrate(v: Vault, faults: Faults, account: string, canonical: Option<Item>, staged: Option<Item>,
                      original: Item)
    requires Honest(faults) && original.account == account
    requires Sees(v.canonical, account, canonical) && Sees(v.staging, account, staged)
    requires Faithful(original, Of(v.canonical, account), Of(v.staging, account))
    ensures var d := Migrate(v, faults, account, canonical, staged);
            Faithful(original, Of(d.vault.canonical, account), Of(d.vault.staging, account))
  {
    hide Copy, Restore, Replace, Delete, Honest;
    DeleteLocal(v, faults, Staging, account);
    if canonical.None? {
      HonestRestore(v, faults, staged.value, original);
    } else if canonical.value.access == Legacy {
      if staged.Some? {
        HonestReplace(v, faults, canonical.value, original);
      } else {
        CopyLocal(v, faults, Staging, canonical.value);
        var copied := Copy(v, faults, Staging, canonical.value);
        if copied.result.Ok? {
          HonestReplace(copied.vault, faults, canonical.value, original);
        }
      }
    }
  }

  lemma {:induction false} HonestMigrateAll(v: Vault, faults: Faults, accounts: seq<string>,
                                            canonical: map<string, Item>,
                                            staged: map<string, Item>, count: nat, original: Item)
    requires Honest(faults) && Describes(v, accounts, canonical, staged)
    requires Faithful(original, Of(v.canonical, original.account), Of(v.staging, original.account))
    ensures var d := MigrateAll(v, faults, accounts, canonical, staged, count);
            Faithful(original, Of(d.vault.canonical, original.account), Of(d.vault.staging, original.account))
    decreases |accounts|
  {
    hide Migrate, Faithful, Honest;
    if accounts != [] {
      var c, s := Lookup(canonical, accounts[0]), Lookup(staged, accounts[0]);
      var one := Migrate(v, faults, accounts[0], c, s);
      MigrateTouches(v, faults, accounts[0], c, s);
      DescribesRest(v, one.vault, accounts, canonical, staged);
      if original.account == accounts[0] {
        HonestMigrate(v, faults, accounts[0], c, s, original);
      }
      if one.result.Ok? {
        HonestMigrateAll(one.vault, faults, accounts[1..], canonical, staged, Tally(count, one.result.value), original);
      }
    }
  }

  lemma HonestRunIsFaithful(v: Vault, faults: Faults, original: Item)
    requires Honest(faults)
    requires Faithful(original, Of(v.canonical, original.account), Of(v.staging, original.account))
    ensures var v' := Ensure(v, faults).vault;
            Faithful(original, Of(v'.canonical, original.account), Of(v'.staging, original.account))
  {
    hide MigrateAll, Ensure, Faithful, Honest;
    if v.complete {
      CompleteDoesNothing(v, faults);
    } else {
      var started, v', canonical, staged := EnsureUnfolds(v, faults);
      if started {
        HonestMigrateAll(v', faults, AllAccounts(v), canonical, staged, 0, original);
      }
    }
  }

  /** The vault after a number of runs, each with its own faults. */
  function AfterRuns(v: Vault, runs: seq<Faults>): Vault
    decreases |runs|
  {
    if runs == [] then v else AfterRuns(Ensure(v, runs[0]).vault, runs[1..])
  }

  /** Over any number of failing runs the data survives. */
  lemma {:induction false} RunsKeepData(v: Vault, runs: seq<Faults>, a: string, original: Item)
    requires DataKept(original, Of(v.canonical, a), Of(v.staging, a))
    ensures var v' := AfterRuns(v, runs); DataKept(original, Of(v'.canonical, a), Of(v'.staging, a))
    decreases |runs|
  {
    hide Ensure, DataKept;
    if runs != [] {
      EveryFaultKeepsData(v, runs[0], a, original);
      RunsKeepData(Ensure(v, runs[0]).vault, runs[1..], a, original);
    }
  }

  /** Over any number of failing runs the flag is set only when everything has moved. */
  lemma {:induction false} RunsKeepFlag(v: Vault, runs: seq<Faults>)
    requires v.complete ==> AllMoved(v)
    ensures AfterRuns(v, runs).complete ==> AllMoved(AfterRuns(v, runs))
    decreases |runs|
  {
    hide Ensure, AllMoved;
    if runs != [] {
      FlagMeansMoved(v, runs[0]);
      RunsKeepFlag(Ensure(v, runs[0]).vault, runs[1..]);
    }
  }

  lemma {:induction false} HonestRunsAreFaithful(v: Vault, runs: seq<Faults>, original: Item)
    requires forall i :: 0 <= i < |runs| ==> Honest(runs[i])
    requires Faithful(original, Of(v.canonical, original.account), Of(v.staging, original.account))
    ensures var v' := AfterRuns(v, runs);
            Faithful(original, Of(v'.canonical, original.account), Of(v'.staging, original.account))
    decreases |runs|
  {
    hide Ensure, Faithful, Honest;
    if runs != [] {
      HonestRunIsFaithful(v, runs[0], original);
      HonestRunsAreFaithful(Ensure(v, runs[0]).vault, runs[1..], original);
    }
  }

  lemma {:induction false} NoAccountAppears(v: Vault, runs: seq<Faults>, a: string)
    requires Of(v.canonical, a) == [] && Of(v.staging, a) == []
    ensures var v' := AfterRuns(v, runs); Of(v'.canonical, a) == [] && Of(v'.staging, a) == []
    decreases |runs|
  {
    hide Ensure, MigrateAll;
    if runs != [] {
      if v.complete {
        CompleteDoesNothing(v, runs[0]);
      } else {
        var started, v', canonical, staged := EnsureUnfolds(v, runs[0]);
        AccountListed(v, a);
        if started {
          MigrateAllTouches(v', runs[0], AllAccounts(v), canonical, staged, 0, a);
        }
      }
      NoAccountAppears(Ensure(v, runs[0]).vault, runs[1..], a);
    }
  }

  /**
   * Recovery: an app that starts with one legacy or target item per account and
   * nothing staged may be interrupted in any number of runs at any operation;
   * the first run without faults then finishes, and every account holds its
   * original item, attributes included, in the target class.
   */
  lemma InterruptedRunsRecover(v: Vault, runs: seq<Faults>, faults: Faults)
    requires !v.complete && v.staging == []
    requires forall a :: Migratable(Of(v.canonical, a), Of(v.staging, a))
    requires forall i :: 0 <= i < |runs| ==> Honest(runs[i])
    requires FineFrom(faults, AfterRuns(v, runs).ticks)
    ensures var d := Ensure(AfterRuns(v, runs), faults);
            && d.result.Ok? && d.vault.complete && d.vault.staging == []
            && forall a :: Of(d.vault.canonical, a)
                           == if Of(v.canonical, a) == [] then [] else [Of(v.canonical, a)[0].(access := Target)]
  {
    hide Ensure, MigrateAll, Honest, AllMoved, AfterRuns;
    var v1 := AfterRuns(v, runs);
    forall a
      ensures Recoverable(v, v1, a) && Migratable(Of(v1.canonical, a), Of(v1.staging, a))
    {
      RecoverableAfter(v, runs, a);
    }
    RunsKeepFlag(v, runs);
    if v1.complete {
      CompleteDoesNothing(v1, faults);
    } else {
      FaultFreeRunFinishesExactly(v1, faults);
    }
    FlagMeansMoved(v1, faults);
    AllMovedStaging(Ensure(v1, faults).vault);
    forall a
      ensures Of(Ensure(v1, faults).vault.canonical, a)
              == if Of(v.canonical, a) == [] then [] else [Of(v.canonical, a)[0].(access := Target)]
    {
      assert Recoverable(v, v1, a);
      if v1.complete {
        AllMovedAt(v1, a);
      } else {
        RecoveredAt(v1, faults, a);
      }
    }
  }

  lemma AllMovedAt(v: Vault, a: string)
    requires AllMoved(v)
    ensures Of(v.staging, a) == []
    ensures |Of(v.canonical, a)| <= 1
    ensures Of(v.canonical, a) != [] ==> Of(v.canonical, a)[0].access == Target
  {
    OfMember(v.canonical, a);
  }

  lemma AllMovedStaging(v: Vault)
    requires AllMoved(v)
    ensures v.staging == []
  {
  }

  /** What interrupted runs leave of an account that started with at most one item. */
  ghost predicate Recoverable(v: Vault, v': Vault, a: string) {
    var c, s := Of(v'.canonical, a), Of(v'.staging, a);
    && Migratable(c, s)
    && (if Of(v.canonical, a) == [] then c == [] && s == []
        else (c != [] || s != []) && Survivor(c, s).(access := Target) == Of(v.canonical, a)[0].(access := Target))
  }

  lemma RecoverableAfter(v: Vault, runs: seq<Faults>, a: string)
    requires v.staging == [] && Migratable(Of(v.canonical, a), Of(v.staging, a))
    requires forall i :: 0 <= i < |runs| ==> Honest(runs[i])
    ensures Recoverable(v, AfterRuns(v, runs), a)
  {
    hide AfterRuns, Honest;
    if Of(v.canonical, a) == [] {
      NoAccountAppears(v, runs, a);
    } else {
      OfMember(v.canonical, a);
      HonestRunsAreFaithful(v, runs, Of(v.canonical, a)[0]);
    }
  }

  lemma RecoveredAt(v: Vault, faults: Faults, a: string)
    requires !v.complete && FineFrom(faults, v.ticks)
    requires forall b :: Migratable(Of(v.canonical, b), Of(v.staging, b))
    ensures var c, s := Of(v.canonical, a), Of(v.staging, a);
            Of(Ensure(v, faults).vault.canonical, a)
            == if c == [] && s == [] then [] else [Survivor(c, s).(access := Target)]
  {
    hide Ensure, MigrateAll, Migratable;
    var started, v', canonical, staged := EnsureUnfolds(v, faults);
    assert started by {
      forall b
        ensures |Of(v.canonical, b)| <= 1 && |Of(v.staging, b)| <= 1
      {
        MigratableSingle(Of(v.canonical, b), Of(v.staging, b));
      }
    }
    AccountListed(v, a);
    if a in AllAccounts(v) {
      FineRunFinishes(v, faults, v', canonical, staged);
    } else {
      MigrateAllTouches(v', faults, AllAccounts(v), canonical, staged, 0, a);
    }
  }

  lemma MigratableSingle(c: seq<Item>, s: seq<Item>)
    requires Migratable(c, s)
    ensures |c| <= 1 && |s| <= 1
  {
  }

  // ----- Where convergence stops

  lemma MigrateRefuses(v: Vault, faults: Faults, account: string, canonical: Option<Item>, staged: Option<Item>)
    requires Sees(v.canonical, account, canonical) && Sees(v.staging, account, staged)
    requires !Migratable(Of(v.canonical, account), Of(v.staging, account))
    ensures Migrate(v, faults, account, canonical, staged).result.Err?
    ensures Migrate(v, faults, account, canonical, staged).vault == v
  {
    hide Copy, Restore, Replace, Delete;
  }

  lemma {:induction false} MigrateAllRefuses(v: Vault, faults: Faults, accounts: seq<string>,
                                             canonical: map<string, Item>,
                                             staged: map<string, Item>, count: nat, a: string)
    requires Describes(v, accounts, canonical, staged) && !Migratable(Of(v.canonical, a), Of(v.staging, a))
    ensures SameAt(v, MigrateAll(v, faults, accounts, canonical, staged, count).vault, a)
    ensures a in accounts ==> MigrateAll(v, faults, accounts, canonical, staged, count).result.Err?
    decreases |accounts|
  {
    hide Migrate, Migratable;
    if accounts != [] {
      var c, s := Lookup(canonical, accounts[0]), Lookup(staged, accounts[0]);
      var one := Migrate(v, faults, accounts[0], c, s);
      MigrateTouches(v, faults, accounts[0], c, s);
      DescribesRest(v, one.vault, accounts, canonical, staged);
      if a == accounts[0] {
        MigrateRefuses(v, faults, a, c, s);
      } else if one.result.Ok? {
        MigrateAllRefuses(one.vault, faults, accounts[1..], canonical, staged, Tally(count, one.result.value), a);
      }
    }
  }

  lemma BlockedRunFails(v: Vault, faults: Faults, a: string)
    requires !v.complete && !Migratable(Of(v.canonical, a), Of(v.staging, a))
    ensures Ensure(v, faults).result.Err? && !Ensure(v, faults).vault.complete && SameAt(v, Ensure(v, faults).vault, a)
  {
    hide MigrateAll, Ensure;
    var started, v', canonical, staged := EnsureUnfolds(v, faults);
    AccountListed(v, a);
    if started {
      MigrateAllRefuses(v', faults, AllAccounts(v), canonical, staged, 0, a);
      FinishFlag(v', faults, AllAccounts(v), canonical, staged);
    }
  }

  /** An account that cannot be migrated stays as it is, and no run ever finishes, whatever the store does. */
  lemma {:induction false} BlockedForGood(v: Vault, runs: seq<Faults>, a: string)
    requires !v.complete && !Migratable(Of(v.canonical, a), Of(v.staging, a))
    ensures !AfterRuns(v, runs).complete && SameAt(v, AfterRuns(v, runs), a)
    decreases |runs|
  {
    hide Ensure, Migratable;
    if runs != [] {
      BlockedRunFails(v, runs[0], a);
      BlockedForGood(Ensure(v, runs[0]).vault, runs[1..], a);
    }
  }

  /**
   * A store that once garbles an addition can leave an account blocked for good:
   * its data is safe in staging, but the two copies disagree.
   */
  lemma GarbledWriteBlocksForGood()
    ensures exists v: Vault, faults: Faults, original: Item ::
              && v.canonical == [original] && v.staging == [] && !v.complete && original.access == Legacy
              && !Migratable(Of(Ensure(v, faults).vault.canonical, original.account),
                             Of(Ensure(v, faults).vault.staging, original.account))
  {
    var original := Item("seed", [1], Legacy, "", "");
    var v := Vault([original], [], false, 0);
    var faults: Faults := (n: nat) => if n == 5 then Garbled([2], Target, "") else Fine;
    GarbledExample(v, faults, original);
    assert v.canonical == [original];
  }

  lemma GarbledExample(v: Vault, faults: Faults, original: Item)
    requires original == Item("seed", [1], Legacy, "", "") && v == Vault([original], [], false, 0)
    requires forall n: nat :: faults(n) == if n == 5 then Garbled([2], Target, "") else Fine
    ensures Ensure(v, faults).vault.canonical == [original.(data := [2], access := Target)]
    ensures Ensure(v, faults).vault.staging == [original.(access := Target)]
    ensures !Migratable(Of(Ensure(v, faults).vault.canonical, original.account),
                        Of(Ensure(v, faults).vault.staging, original.account))
  {
    var copy := original.(access := Target);
    var bad := original.(data := [2], access := Target);
    FilterOne(original);
    FilterOne(copy);
    FilterOne(bad);
    var v2 := v.(ticks := 2);
    assert [] + [copy] == [copy] && [] + [bad] == [bad];
    var copied := Copy(v2, faults, Staging, original);
    assert copied == Done(Vault([original], [copy], false, 4), Ok(()));
    var deleted := Delete(copied.vault, faults, Canonical, "seed");
    assert deleted == Done(Vault([], [copy], false, 5), Ok(()));
    var again := Copy(deleted.vault, faults, Canonical, original);
    assert again.vault == Vault([bad], [copy], false, 7) && again.result.Err?;
    assert [original][..0] == [] && Index([]) == Ok(map[]);
    assert Index([original]) == Ok(map["seed" := original]);
    assert Migrate(v2, faults, "seed", Some(original), None).vault == Vault([bad], [copy], false, 7);
    assert Accounts(v.canonical) + Accounts(v.staging) == ["seed"];
    assert ["seed"][1..] == [] && SortedDistinct([]) == [];
    assert AllAccounts(v) == ["seed"];
  }

  lemma FilterOne(item: Item)
    requires item.account == "seed"
    ensures Of([item], "seed") == [item] && Filter([item], OfOther("seed")) == []
  {
    assert [item][1..] == [];
    assert OfAccount("seed")(item) && !OfOther("seed")(item);
    assert Filter([item], OfAccount("seed")) == [item] + Filter([], OfAccount("seed"));
    assert Filter([item], OfOther("seed")) == [] + Filter([], OfOther("seed"));
  }
}
