/**
 * The seeding script (banking-api/seedUsers.js): four fixed users inserted
 * one at a time, skipping any whose account number is already stored.
 */
module Seed {
  import opened Common
  import opened UserModel
  import opened AuthMiddleware
  import opened AuthRoutes

  /** One entry of the script's `users` array (its `email` is not a schema path and is dropped on save). */
  datatype SeedEntry = SeedEntry(fullName: string, idNumber: string, accountNumber: string, password: string, role: Role)

  const Seeds: seq<SeedEntry> := [
    SeedEntry("Thabo Mokoena", "1234567890123", "100000000001", "Password123", Employee),
    SeedEntry("Lerato Dlamini", "1234567890124", "100000000002", "Password123", Employee),
    SeedEntry("Itumeleng Ndlovu", "1234567890125", "200000000001", "Password123", Customer),
    SeedEntry("Ndelisiwe Khumalo", "1234567890126", "200000000002", "Password123", Customer)
  ]

  /** The account numbers of a list of entries. */
  function EntryAccounts(entries: seq<SeedEntry>): (r: set<string>)
    ensures forall a :: a in r <==> exists k :: 0 <= k < |entries| && entries[k].accountNumber == a
  {
    set k | 0 <= k < |entries| :: entries[k].accountNumber
  }

  /** The password the script hands to `new User`: `await bcrypt.hash(user.password, 10)`. */
  function SeedPassword(e: SeedEntry): (c: Credential)
    ensures BcryptCompare(e.password, c)
  {
    BcryptHash(Plain(e.password))
  }

  /** The intended password field: the plain text, which the pre-save hook hashes once. */
  function SeedPasswordCorrected(e: SeedEntry): (c: Credential)
    ensures CredentialPresent(c) <==> e.password != ""
  {
    Plain(e.password)
  }

  /** The stored user made from entry `e` under `id`, with the password field `field` hashed by the hook. */
  function EntryUser(e: SeedEntry, id: ObjectId, field: Credential): User {
    User(id, e.fullName, e.idNumber, e.accountNumber, BcryptHash(field), e.role)
  }

  /** Every seed entry has all four required paths. */
  lemma SeedsComplete(k: nat)
    requires k < |Seeds|
    ensures Seeds[k].fullName != "" && Seeds[k].idNumber != "" && Seeds[k].accountNumber != ""
    ensures Seeds[k].password != "" && CredentialPresent(SeedPassword(Seeds[k]))
  {
  }

  /** The account numbers of a collection with one more user. */
  lemma {:induction false} AccountsAppend(users: seq<User>, u: User)
    ensures Accounts(users + [u]) == Accounts(users) + {u.accountNumber}
  {
    assert forall v :: v in users + [u] <==> v in users || v == u;
  }

  /**
   * One turn of the loop: `continue` when the account number is stored,
   * otherwise `new User` with `credential` as the password field and `save()`.
   */
  method SeedOne(store: UserStore, e: SeedEntry, credential: Credential)
    requires store.Valid()
    requires e.fullName != "" && e.idNumber != "" && e.accountNumber != "" && CredentialPresent(credential)
    modifies store
    ensures store.Valid()
    ensures e.accountNumber in Accounts(old(store.users)) ==>
              store.users == old(store.users) && store.nextSerial == old(store.nextSerial)
    ensures e.accountNumber !in Accounts(old(store.users)) ==>
              store.users == old(store.users) + [EntryUser(e, ObjectId(old(store.nextSerial)), credential)]
  {
    if FindByAccount(store.users, e.accountNumber).Some? {
      return;
    }
    var doc := new UserDocument(e.fullName, e.idNumber, e.accountNumber, credential, e.role);
    var saved := store.Save(doc);
    assert saved.Ok?;
  }

  /** `u` is one of the first `n` entries, its password field hashed by the hook. */
  ghost predicate FromEntry(u: User, entries: seq<SeedEntry>, n: nat, credentialOf: SeedEntry -> Credential)
    requires n <= |entries|
  {
    exists k :: 0 <= k < n && u == EntryUser(entries[k], u.id, credentialOf(entries[k]))
  }

  /** Every user from position `start` on comes from one of the first `n` entries. */
  ghost predicate InsertedFrom(users: seq<User>, start: nat, entries: seq<SeedEntry>, n: nat, credentialOf: SeedEntry -> Credential)
    requires n <= |entries|
  {
    forall i :: start <= i < |users| ==> FromEntry(users[i], entries, n, credentialOf)
  }

  /** Allowing one more entry keeps the description true. */
  lemma {:induction false} InsertedWiden(users: seq<User>, start: nat, entries: seq<SeedEntry>, n: nat, credentialOf: SeedEntry -> Credential)
    requires n < |entries|
    requires InsertedFrom(users, start, entries, n, credentialOf)
    ensures InsertedFrom(users, start, entries, n + 1, credentialOf)
  {
    forall i | start <= i < |users| ensures FromEntry(users[i], entries, n + 1, credentialOf) {
      assert FromEntry(users[i], entries, n, credentialOf);
      var k :| 0 <= k < n && users[i] == EntryUser(entries[k], users[i].id, credentialOf(entries[k]));
      assert 0 <= k < n + 1;
    }
  }

  /** Appending the user made from entry `n` keeps the description true with one more entry. */
  lemma {:induction false} InsertedAppend(users: seq<User>, start: nat, entries: seq<SeedEntry>, n: nat,
      credentialOf: SeedEntry -> Credential, u: User)
    requires n < |entries| && start <= |users|
    requires InsertedFrom(users, start, entries, n, credentialOf)
    requires u == EntryUser(entries[n], u.id, credentialOf(entries[n]))
    ensures InsertedFrom(users + [u], start, entries, n + 1, credentialOf)
  {
    InsertedWiden(users, start, entries, n, credentialOf);
    var next := users + [u];
    forall i | start <= i < |next| ensures FromEntry(next[i], entries, n + 1, credentialOf) {
      if i < |users| {
        assert next[i] == users[i];
        assert FromEntry(users[i], entries, n + 1, credentialOf);
      } else {
        assert next[i] == u;
      }
    }
  }

  /** One more entry adds its account number to those of the prefix before it. */
  lemma {:induction false} EntryAccountsStep(entries: seq<SeedEntry>, n: nat)
    requires n < |entries|
    ensures EntryAccounts(entries[..n + 1]) == EntryAccounts(entries[..n]) + {entries[n].accountNumber}
    ensures entries[n].accountNumber in EntryAccounts(entries)
  {
    assert entries[..n + 1] == entries[..n] + [entries[n]];
  }

  /**
   * What the loop has achieved after the first `n` entries: the users stored
   * before are a prefix, the first `n` entries' account numbers are added,
   * every new user comes from one of those entries, and nothing changed when
   * every entry was already stored.
   */
  ghost predicate SeededUpTo(users: seq<User>, before: seq<User>, entries: seq<SeedEntry>, n: nat,
      credentialOf: SeedEntry -> Credential)
    requires n <= |entries|
  {
    && before <= users
    && Accounts(users) == Accounts(before) + EntryAccounts(entries[..n])
    && InsertedFrom(users, |before|, entries, n, credentialOf)
    && (EntryAccounts(entries) <= Accounts(before) ==> users == before)
  }

  /** One pass of the loop body: entry `n` is skipped or inserted, and the progress is carried one entry further. */
  method SeedStep(store: UserStore, entries: seq<SeedEntry>, n: nat, credentialOf: SeedEntry -> Credential,
      ghost before: seq<User>)
    requires n < |entries|
    requires store.Valid()
    requires entries[n].fullName != "" && entries[n].idNumber != "" && entries[n].accountNumber != ""
    requires CredentialPresent(credentialOf(entries[n]))
    requires SeededUpTo(store.users, before, entries, n, credentialOf)
    modifies store
    ensures store.Valid()
    ensures SeededUpTo(store.users, before, entries, n + 1, credentialOf)
  {
    var e := entries[n];
    ghost var prev := store.users;
    EntryAccountsStep(entries, n);
    SeedOne(store, e, credentialOf(e));
    if store.users == prev {
      InsertedWiden(prev, |before|, entries, n, credentialOf);
    } else {
      var u := EntryUser(e, store.users[|prev|].id, credentialOf(e));
      assert store.users == prev + [u];
      AccountsAppend(prev, u);
      InsertedAppend(prev, |before|, entries, n, credentialOf, u);
    }
  }

  /**
   * The `for ... of` loop with `continue` on an existing account number,
   * handing `credentialOf(entry)` to `new User` for the rest. Nothing already
   * stored changes, every listed account number ends up stored, and each
   * inserted user is an entry whose password field the hook hashed.
   */
  method SeedWith(store: UserStore, entries: seq<SeedEntry>, credentialOf: SeedEntry -> Credential)
    requires store.Valid()
    requires forall k :: 0 <= k < |entries| ==>
               entries[k].fullName != "" && entries[k].idNumber != "" && entries[k].accountNumber != ""
               && CredentialPresent(credentialOf(entries[k]))
    modifies store
    ensures store.Valid()
    ensures old(store.users) <= store.users
    ensures Accounts(store.users) == Accounts(old(store.users)) + EntryAccounts(entries)
    ensures InsertedFrom(store.users, |old(store.users)|, entries, |entries|, credentialOf)
    ensures EntryAccounts(entries) <= Accounts(old(store.users)) ==> store.users == old(store.users)
  {
    ghost var before := store.users;
    assert entries[..0] == [];
    for n := 0 to |entries|
      invariant store.Valid()
      invariant SeededUpTo(store.users, before, entries, n, credentialOf)
    {
      SeedStep(store, entries, n, credentialOf, before);
    }
    assert entries[..|entries|] == entries;
  }

  /** `seedUsers()` as written: the password is hashed by the script and again by the hook. */
  method SeedUsers(store: UserStore)
    requires store.Valid()
    modifies store
    ensures store.Valid()
    ensures old(store.users) <= store.users
    ensures Accounts(store.users) == Accounts(old(store.users)) + EntryAccounts(Seeds)
    ensures forall i :: |old(store.users)| <= i < |store.users| ==>
              store.users[i].password == BcryptHash(BcryptHash(Plain("Password123")))
    ensures InsertedFrom(store.users, |old(store.users)|, Seeds, |Seeds|, SeedPassword)
    ensures EntryAccounts(Seeds) <= Accounts(old(store.users)) ==> store.users == old(store.users)
  {
    forall k | 0 <= k < |Seeds| ensures CredentialPresent(SeedPassword(Seeds[k])) {
      SeedsComplete(k);
    }
    SeedWith(store, Seeds, SeedPassword);
  }

  /** `seedUsers()` with the password handed over as plain text, so the hook hashes it exactly once. */
  method SeedUsersCorrected(store: UserStore)
    requires store.Valid()
    modifies store
    ensures store.Valid()
    ensures old(store.users) <= store.users
    ensures Accounts(store.users) == Accounts(old(store.users)) + EntryAccounts(Seeds)
    ensures forall i :: |old(store.users)| <= i < |store.users| ==>
              store.users[i].password == BcryptHash(Plain("Password123"))
    ensures InsertedFrom(store.users, |old(store.users)|, Seeds, |Seeds|, SeedPasswordCorrected)
    ensures EntryAccounts(Seeds) <= Accounts(old(store.users)) ==> store.users == old(store.users)
  {
    forall k | 0 <= k < |Seeds| ensures CredentialPresent(SeedPasswordCorrected(Seeds[k])) {
      SeedsComplete(k);
    }
    SeedWith(store, Seeds, SeedPasswordCorrected);
  }

  /** The four seed account numbers: two employees' and two customers'. */
  lemma SeedAccounts()
    ensures EntryAccounts(Seeds) == {"100000000001", "100000000002", "200000000001", "200000000002"}
    ensures forall k :: 0 <= k < |Seeds| ==> (Seeds[k].role == Employee <==> k < 2)
  {
    assert Seeds[0].accountNumber == "100000000001";
    assert Seeds[1].accountNumber == "100000000002";
    assert Seeds[2].accountNumber == "200000000001";
    assert Seeds[3].accountNumber == "200000000002";
  }

  /** The employee entries are exactly those with the two 1000… account numbers. */
  lemma EntryRole(k: nat)
    requires k < |Seeds|
    ensures Seeds[k].role == Employee <==> Seeds[k].accountNumber in {"100000000001", "100000000002"}
  {
    assert Seeds[0].accountNumber == "100000000001";
    assert Seeds[1].accountNumber == "100000000002";
    assert Seeds[2].accountNumber == "200000000001";
    assert Seeds[3].accountNumber == "200000000002";
  }

  /**
   * A user the script inserted is an employee exactly when its account
   * number is 100000000001 or 100000000002, and a customer otherwise.
   */
  lemma {:induction false} SeededRoles(users: seq<User>, start: nat, credentialOf: SeedEntry -> Credential, i: nat)
    requires InsertedFrom(users, start, Seeds, |Seeds|, credentialOf)
    requires start <= i < |users|
    ensures users[i].role == Employee <==> users[i].accountNumber in {"100000000001", "100000000002"}
    ensures users[i].role != Employee ==> users[i].role == Customer
  {
    assert FromEntry(users[i], Seeds, |Seeds|, credentialOf);
    var k :| 0 <= k < |Seeds| && users[i] == EntryUser(Seeds[k], users[i].id, credentialOf(Seeds[k]));
    EntryRole(k);
  }

  /** A second run changes nothing: every seed account number is already stored after the first. */
  lemma {:induction false} SeedTwiceIsOnce(afterFirst: seq<User>, before: seq<User>)
    requires Accounts(afterFirst) == Accounts(before) + EntryAccounts(Seeds)
    ensures EntryAccounts(Seeds) <= Accounts(afterFirst)
  {
  }

  /**
   * Running the script twice: `afterFirst` is the collection after the first
   * run, and the second run leaves it exactly as it was.
   */
  method SeedUsersTwice(store: UserStore) returns (afterFirst: seq<User>)
    requires store.Valid()
    modifies store
    ensures store.Valid()
    ensures old(store.users) <= afterFirst
    ensures Accounts(afterFirst) == Accounts(old(store.users)) + EntryAccounts(Seeds)
    ensures store.users == afterFirst
  {
    SeedUsers(store);
    afterFirst := store.users;
    SeedTwiceIsOnce(afterFirst, old(store.users));
    SeedUsers(store);
  }

  /** With unique account numbers, each seed account number is stored exactly once after a run. */
  lemma {:induction false} SeedAccountsOnce(users: seq<User>, before: seq<User>, k: nat)
    requires UniqueAccounts(users)
    requires Accounts(users) == Accounts(before) + EntryAccounts(Seeds)
    requires k < |Seeds|
    ensures CountAccount(users, Seeds[k].accountNumber) == 1
  {
    UniqueMeansCountOne(users, Seeds[k].accountNumber);
  }

  /**
   * No seeded user can log in: the stored value is a hash of a hash, and no
   * typed password hashes to it.
   */
  lemma {:induction false} SeededUserLoginFails(users: seq<User>, e: SeedEntry, id: ObjectId, password: Option<string>,
      fullName: Option<string>, secret: Option<string>, nowMs: nat, sign: (Claims, string) -> string)
    requires FindByAccount(users, e.accountNumber) == Some(EntryUser(e, id, SeedPassword(e)))
    ensures !Login(Some(e.accountNumber), password, fullName, users, secret, nowMs, sign).Success?
  {
    if password.Some? {
      DoubleHashNeverMatches(Text.Trim(password.value), Plain(e.password));
    }
  }

  /** The seed password has no white space around it. */
  lemma SeedPasswordTrimmed(k: nat)
    requires k < |Seeds|
    ensures Text.Trim(Seeds[k].password) == Seeds[k].password
  {
    Text.TrimFixed(Seeds[k].password);
  }

  /** With the corrected password field a seeded user logs in with the seed's password. */
  lemma {:induction false} CorrectedSeedAllowsLogin(users: seq<User>, e: SeedEntry, id: ObjectId,
      secret: Option<string>, nowMs: nat, sign: (Claims, string) -> string)
    requires e.fullName != "" && e.accountNumber != "" && e.password != ""
    requires Text.Trim(e.password) == e.password
    requires FindByAccount(users, e.accountNumber) == Some(EntryUser(e, id, SeedPasswordCorrected(e)))
    requires Present(secret)
    ensures Login(Some(e.accountNumber), Some(e.password), Some(e.fullName), users, secret, nowMs, sign).Success?
  {
  }
}
