/**
 * The User schema (banking-api/models/User.js) and the user collection it is
 * saved into: the `role` enumeration with its default, the required fields,
 * the unique account number, and the pre-save hook that hashes the password.
 */
module UserModel {
  import opened Common

  datatype Role = Customer | Employee

  /**
   * A password value as the store sees it: the text a user typed, or a bcrypt
   * hash of another value. The salt is not modelled, so hashing is a constructor.
   */
  datatype Credential = Plain(text: string) | Hashed(of: Credential)

  /** A saved user document. */
  datatype User = User(
    id: ObjectId,
    fullName: string,
    idNumber: string,
    accountNumber: string,
    password: Credential,
    role: Role)

  /** `bcrypt.compare(raw, stored)`: true exactly when `stored` is the hash of the text `raw`. */
  predicate BcryptCompare(raw: string, stored: Credential) {
    stored.Hashed? && stored.of == Plain(raw)
  }

  /** `bcrypt.hash`: comparing against the hash accepts exactly the text that was hashed. */
  function BcryptHash(c: Credential): (h: Credential)
    ensures forall raw :: BcryptCompare(raw, h) <==> c == Plain(raw)
  {
    Hashed(c)
  }

  /** A hash of a hash never matches any typed text. */
  lemma DoubleHashNeverMatches(raw: string, c: Credential)
    ensures !BcryptCompare(raw, BcryptHash(BcryptHash(c)))
  {
  }

  /** Mongoose's `required` for a credential path: the empty string fails. */
  predicate CredentialPresent(c: Credential) {
    c != Plain("")
  }

  /** The four required paths are present. */
  predicate RequiredPresent(fullName: string, idNumber: string, accountNumber: string, password: Credential) {
    fullName != "" && idNumber != "" && accountNumber != "" && CredentialPresent(password)
  }

  /** No two users share an account number (the unique index on `accountNumber`). */
  ghost predicate UniqueAccounts(users: seq<User>) {
    forall i, j :: 0 <= i < j < |users| ==> users[i].accountNumber != users[j].accountNumber
  }

  /** No two users share an id. */
  ghost predicate UniqueIds(users: seq<User>) {
    forall i, j :: 0 <= i < j < |users| ==> users[i].id != users[j].id
  }

  /** `User.findOne({ accountNumber })`: the first user with that account number. */
  function FindByAccount(users: seq<User>, accountNumber: string): (r: Option<User>)
    ensures r.Some? ==> r.value in users && r.value.accountNumber == accountNumber
    ensures r.None? <==> forall u :: u in users ==> u.accountNumber != accountNumber
  {
    if users == [] then None
    else if users[0].accountNumber == accountNumber then Some(users[0])
    else FindByAccount(users[1..], accountNumber)
  }

  /** `User.findById(id)` */
  function FindById(users: seq<User>, id: ObjectId): (r: Option<User>)
    ensures r.Some? ==> r.value in users && r.value.id == id
    ensures r.None? <==> forall u :: u in users ==> u.id != id
  {
    if users == [] then None
    else if users[0].id == id then Some(users[0])
    else FindById(users[1..], id)
  }

  /** With unique account numbers, looking up a stored user's account number finds that user. */
  lemma {:induction false} FindByAccountFindsMember(users: seq<User>, k: nat)
    requires UniqueAccounts(users)
    requires k < |users|
    ensures FindByAccount(users, users[k].accountNumber) == Some(users[k])
  {
    if k > 0 {
      assert users[0].accountNumber != users[k].accountNumber;
      assert users[1..][k - 1] == users[k];
      FindByAccountFindsMember(users[1..], k - 1);
    }
  }

  /** With unique ids, looking up a stored user's id finds that user. */
  lemma {:induction false} FindByIdFindsMember(users: seq<User>, k: nat)
    requires UniqueIds(users)
    requires k < |users|
    ensures FindById(users, users[k].id) == Some(users[k])
  {
    if k > 0 {
      assert users[0].id != users[k].id;
      assert users[1..][k - 1] == users[k];
      FindByIdFindsMember(users[1..], k - 1);
    }
  }

  /** The set of account numbers in the collection. */
  function Accounts(users: seq<User>): (r: set<string>)
    ensures forall a :: a in r <==> exists u :: u in users && u.accountNumber == a
  {
    set u | u in users :: u.accountNumber
  }

  /** How many users carry `accountNumber`. */
  function CountAccount(users: seq<User>, accountNumber: string): nat {
    if users == [] then 0
    else (if users[0].accountNumber == accountNumber then 1 else 0) + CountAccount(users[1..], accountNumber)
  }

  /** In a collection with unique account numbers, every present account number occurs exactly once. */
  lemma {:induction false} UniqueMeansCountOne(users: seq<User>, accountNumber: string)
    requires UniqueAccounts(users)
    ensures CountAccount(users, accountNumber) == (if accountNumber in Accounts(users) then 1 else 0)
  {
    if users != [] {
      var tail := users[1..];
      assert UniqueAccounts(tail) by {
        forall i, j | 0 <= i < j < |tail| ensures tail[i].accountNumber != tail[j].accountNumber {
          assert tail[i] == users[i + 1] && tail[j] == users[j + 1];
        }
      }
      UniqueMeansCountOne(tail, accountNumber);
      if users[0].accountNumber == accountNumber {
        forall u | u in tail ensures u.accountNumber != accountNumber {
          var j :| 0 <= j < |tail| && tail[j] == u;
          assert users[j + 1] == u;
        }
      }
      assert Accounts(users) == {users[0].accountNumber} + Accounts(tail) by {
        assert users == [users[0]] + tail;
      }
    }
  }

  /**
   * A user document being built before `save()`. `passwordModified` is what
   * `this.isModified("password")` answers; a new document counts every path it
   * was given as modified.
   */
  class UserDocument {
    var fullName: string
    var idNumber: string
    var accountNumber: string
    var password: Credential
    var role: Role
    var passwordModified: bool

    /** `new User({ ... })` */
    constructor (fullName: string, idNumber: string, accountNumber: string, password: Credential, role: Role)
      ensures this.fullName == fullName && this.idNumber == idNumber && this.accountNumber == accountNumber
      ensures this.password == password && this.role == role
      ensures passwordModified
    {
      this.fullName := fullName;
      this.idNumber := idNumber;
      this.accountNumber := accountNumber;
      this.password := password;
      this.role := role;
      passwordModified := true;
    }

    /** The pre-save hook: hash the password when it was modified, otherwise leave it. */
    method PreSave()
      modifies this`password
      ensures passwordModified ==> password == BcryptHash(old(password))
      ensures !passwordModified ==> password == old(password)
    {
      if !passwordModified {
        return;
      }
      password := BcryptHash(password);
    }

    /** The document as it is stored under `id`. */
    function Snapshot(id: ObjectId): (u: User)
      reads this
      ensures u.id == id && u.fullName == fullName && u.idNumber == idNumber
      ensures u.accountNumber == accountNumber && u.password == password && u.role == role
    {
      User(id, fullName, idNumber, accountNumber, password, role)
    }
  }

  datatype SaveError = ValidationFailed | DuplicateKey

  /**
   * The `users` collection, in insertion order. `nextSerial` stands for the id
   * generator: every stored id is below it.
   */
  class UserStore {
    var users: seq<User>
    var nextSerial: nat

    ghost predicate Valid()
      reads this
    {
      && UniqueAccounts(users)
      && UniqueIds(users)
      && forall i :: 0 <= i < |users| ==> users[i].id.serial < nextSerial
    }

    constructor ()
      ensures Valid() && users == []
    {
      users := [];
      nextSerial := 0;
    }

    /**
     * `doc.save()`: validation of the required paths, then the pre-save hook,
     * then the insert, which the unique index refuses for a duplicate account
     * number. After a successful save the document has no modified paths.
     */
    method Save(doc: UserDocument) returns (r: Result<User, SaveError>)
      requires Valid()
      modifies this, doc
      ensures Valid()
      ensures doc.fullName == old(doc.fullName) && doc.idNumber == old(doc.idNumber)
      ensures doc.accountNumber == old(doc.accountNumber) && doc.role == old(doc.role)
      ensures !RequiredPresent(old(doc.fullName), old(doc.idNumber), old(doc.accountNumber), old(doc.password)) ==>
                r == Err(ValidationFailed) && users == old(users) && nextSerial == old(nextSerial)
                && doc.password == old(doc.password) && doc.passwordModified == old(doc.passwordModified)
      ensures RequiredPresent(old(doc.fullName), old(doc.idNumber), old(doc.accountNumber), old(doc.password)) ==>
                doc.password == (if old(doc.passwordModified) then BcryptHash(old(doc.password)) else old(doc.password))
      ensures RequiredPresent(old(doc.fullName), old(doc.idNumber), old(doc.accountNumber), old(doc.password))
              && old(doc.accountNumber) in Accounts(old(users)) ==>
                r == Err(DuplicateKey) && users == old(users) && nextSerial == old(nextSerial)
                && doc.passwordModified == old(doc.passwordModified)
      ensures RequiredPresent(old(doc.fullName), old(doc.idNumber), old(doc.accountNumber), old(doc.password))
              && old(doc.accountNumber) !in Accounts(old(users)) ==>
                r == Ok(User(ObjectId(old(nextSerial)), doc.fullName, doc.idNumber, doc.accountNumber, doc.password, doc.role))
                && users == old(users) + [r.value] && nextSerial == old(nextSerial) + 1 && !doc.passwordModified
    {
      if !RequiredPresent(doc.fullName, doc.idNumber, doc.accountNumber, doc.password) {
        return Err(ValidationFailed);
      }
      doc.PreSave();
      if FindByAccount(users, doc.accountNumber).Some? {
        return Err(DuplicateKey);
      }
      var u := doc.Snapshot(ObjectId(nextSerial));
      users := users + [u];
      nextSerial := nextSerial + 1;
      doc.passwordModified := false;
      r := Ok(u);
    }
  }
}
