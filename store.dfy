/**
 * The backend's tables, held in memory: users, the ids of the products that
 * exist, packages with their product links, and payments. Rows keep the order
 * of their ids, and ids are handed out from counters as the database does.
 */
module Store {
  import opened Wrappers
  import opened Domain
  import opened Lists

  /** HTTP status codes the handlers answer with. */
  const OK := 200
  const CREATED := 201
  const BAD_REQUEST := 400
  const UNAUTHORIZED := 401
  const NOT_FOUND := 404
  const SERVER_ERROR := 500

  /** A package row; `products` are the ids its product relation links to. */
  datatype PackageRow = PackageRow(
    id: int,
    name: string,
    description: Option<string>,
    payment_method: string,
    payment_amount: int,
    payment_months: Option<int>,
    products: set<int>)

  /** The columns of a payment besides its id. */
  datatype Payment = Payment(
    user_id: int,
    package_id: int,
    payment_date: string,
    amount: int,
    status: string,
    payment_start_date: string,
    payment_months: int)

  /** A row of the payments table. */
  datatype PaymentRow = PaymentRow(id: int, payment: Payment)

  /** A field of an update: left as it is (the request did not send it) or set. */
  datatype Patch<T> = Keep | SetTo(value: T) {
    function Apply(current: T): (r: T)
      ensures Keep? ==> r == current
      ensures SetTo? ==> r == value
    {
      if Keep? then current else value
    }
  }

  function UserIds(users: seq<User>): (r: seq<int>)
    ensures |r| == |users| && forall i :: 0 <= i < |users| ==> r[i] == users[i].id
  {
    seq(|users|, i requires 0 <= i < |users| => users[i].id)
  }

  function Usernames(users: seq<User>): (r: seq<string>)
    ensures |r| == |users| && forall i :: 0 <= i < |users| ==> r[i] == users[i].username
  {
    seq(|users|, i requires 0 <= i < |users| => users[i].username)
  }

  function PackageIds(packages: seq<PackageRow>): (r: seq<int>)
    ensures |r| == |packages| && forall i :: 0 <= i < |packages| ==> r[i] == packages[i].id
  {
    seq(|packages|, i requires 0 <= i < |packages| => packages[i].id)
  }

  function PaymentIds(payments: seq<PaymentRow>): (r: seq<int>)
    ensures |r| == |payments| && forall i :: 0 <= i < |payments| ==> r[i] == payments[i].id
  {
    seq(|payments|, i requires 0 <= i < |payments| => payments[i].id)
  }

  /** Ids strictly increase along the table and stay below the next id to hand out. */
  predicate IdsBelow(ids: seq<int>, next: int) {
    (forall i, j :: 0 <= i < j < |ids| ==> ids[i] < ids[j]) &&
    (forall i :: 0 <= i < |ids| ==> ids[i] < next)
  }

  lemma IdsBelowNoDup(ids: seq<int>, next: int)
    requires IdsBelow(ids, next)
    ensures NoDup(ids)
  {
  }

  /** Appending the next id keeps the ids increasing. */
  lemma {:induction false} IdsBelowAppend(ids: seq<int>, next: int)
    requires IdsBelow(ids, next)
    ensures IdsBelow(ids + [next], next + 1)
  {
    var s := ids + [next];
    forall i, j | 0 <= i < j < |s| ensures s[i] < s[j] {
      if j < |ids| { assert s[i] == ids[i] && s[j] == ids[j]; }
    }
  }

  /** `findUnique({ where: { id } })` on users: the row's position, if any. */
  function FindUser(users: seq<User>, id: int): (r: Option<nat>)
    ensures r.None? <==> forall i :: 0 <= i < |users| ==> users[i].id != id
    ensures r.Some? ==> r.value < |users| && users[r.value].id == id
  {
    var r := IndexOf(UserIds(users), id);
    assert r.Some? ==> UserIds(users)[r.value] == id;
    assert r.None? ==> forall i :: 0 <= i < |users| ==> UserIds(users)[i] != id;
    r
  }

  /** `findUnique({ where: { username } })`. */
  function FindUsername(users: seq<User>, username: string): (r: Option<nat>)
    ensures r.None? <==> forall i :: 0 <= i < |users| ==> users[i].username != username
    ensures r.Some? ==> r.value < |users| && users[r.value].username == username
  {
    var r := IndexOf(Usernames(users), username);
    assert r.Some? ==> Usernames(users)[r.value] == username;
    assert r.None? ==> forall i :: 0 <= i < |users| ==> Usernames(users)[i] != username;
    r
  }

  function FindPackageRow(packages: seq<PackageRow>, id: int): (r: Option<nat>)
    ensures r.None? <==> forall i :: 0 <= i < |packages| ==> packages[i].id != id
    ensures r.Some? ==> r.value < |packages| && packages[r.value].id == id
  {
    var r := IndexOf(PackageIds(packages), id);
    assert r.Some? ==> PackageIds(packages)[r.value] == id;
    assert r.None? ==> forall i :: 0 <= i < |packages| ==> PackageIds(packages)[i] != id;
    r
  }

  function FindPayment(payments: seq<PaymentRow>, id: int): (r: Option<nat>)
    ensures r.None? <==> forall i :: 0 <= i < |payments| ==> payments[i].id != id
    ensures r.Some? ==> r.value < |payments| && payments[r.value].id == id
  {
    var r := IndexOf(PaymentIds(payments), id);
    assert r.Some? ==> PaymentIds(payments)[r.value] == id;
    assert r.None? ==> forall i :: 0 <= i < |payments| ==> PaymentIds(payments)[i] != id;
    r
  }

  /** With distinct ids the lookup finds the one row holding the id. */
  lemma {:induction false} FindUserAt(users: seq<User>, i: nat)
    requires NoDup(UserIds(users)) && i < |users|
    ensures FindUser(users, users[i].id) == Some(i)
  {
    IndexOfNoDup(UserIds(users), i);
  }

  /** Replacing one user by a record with the same id keeps the id column as it was. */
  lemma {:induction false} ReplaceKeepsIds(users: seq<User>, i: nat, u: User)
    requires i < |users| && u.id == users[i].id
    ensures UserIds(users[i := u]) == UserIds(users)
  {
  }

  /** Renaming one user to a name no other user has keeps the usernames distinct. */
  lemma {:induction false} ReplaceKeepsUsernamesDistinct(users: seq<User>, i: nat, u: User)
    requires i < |users| && NoDup(Usernames(users))
    requires forall j :: 0 <= j < |users| && j != i ==> users[j].username != u.username
    ensures NoDup(Usernames(users[i := u]))
  {
    var t := users[i := u];
    forall a, b | 0 <= a < b < |t| ensures Usernames(t)[a] != Usernames(t)[b] {
      assert Usernames(t)[a] == t[a].username && Usernames(t)[b] == t[b].username;
      if a != i && b != i { assert Usernames(users)[a] != Usernames(users)[b]; }
    }
  }

  /** Deleting a row keeps ids increasing and usernames distinct. */
  lemma {:induction false} RemoveAtKeepsValid(users: seq<User>, i: nat, next: int)
    requires i < |users| && IdsBelow(UserIds(users), next) && NoDup(Usernames(users))
    ensures var t := users[..i] + users[i + 1..];
      IdsBelow(UserIds(t), next) && NoDup(Usernames(t))
  {
    var t := users[..i] + users[i + 1..];
    forall k | 0 <= k < |t| ensures t[k] == users[if k < i then k else k + 1] {
    }
    forall a, b | 0 <= a < b < |t| ensures t[a].id < t[b].id && t[a].username != t[b].username {
      var a', b' := if a < i then a else a + 1, if b < i then b else b + 1;
      assert UserIds(users)[a'] < UserIds(users)[b'];
      assert Usernames(users)[a'] != Usernames(users)[b'];
    }
  }

  /** Deleting one id keeps the rest increasing. */
  lemma {:induction false} IdsBelowRemove(ids: seq<int>, i: nat, next: int)
    requires i < |ids| && IdsBelow(ids, next)
    ensures IdsBelow(ids[..i] + ids[i + 1..], next)
  {
    var t := ids[..i] + ids[i + 1..];
    forall k | 0 <= k < |t| ensures t[k] == ids[if k < i then k else k + 1] {
    }
  }

  class Database {
    var users: seq<User>
    var productIds: set<int>
    var packages: seq<PackageRow>
    var payments: seq<PaymentRow>
    var nextUserId: int
    var nextPackageId: int
    var nextPaymentId: int

    /** Ids increase in every table and usernames are unique, as the schema requires. */
    ghost predicate Valid()
      reads this
    {
      IdsBelow(UserIds(users), nextUserId) &&
      NoDup(Usernames(users)) &&
      IdsBelow(PackageIds(packages), nextPackageId) &&
      IdsBelow(PaymentIds(payments), nextPaymentId)
    }

    constructor ()
      ensures Valid()
      ensures users == [] && productIds == {} && packages == [] && payments == []
    {
      users := [];
      productIds := {};
      packages := [];
      payments := [];
      nextUserId := 1;
      nextPackageId := 1;
      nextPaymentId := 1;
    }

    /** `prisma.user.create`: the row gets the next id; a taken username violates the unique constraint. */
    method InsertUser(u: User) returns (created: Option<User>)
      requires Valid()
      modifies this`users, this`nextUserId
      ensures Valid()
      ensures FindUsername(old(users), u.username).Some? <==> created.None?
      ensures created.None? ==> users == old(users) && nextUserId == old(nextUserId)
      ensures created.Some? ==> created.value == u.(id := old(nextUserId)) &&
                                users == old(users) + [created.value] &&
                                nextUserId == old(nextUserId) + 1
    {
      if FindUsername(users, u.username).Some? {
        return None;
      }
      var row := u.(id := nextUserId);
      IdsBelowAppend(UserIds(users), nextUserId);
      assert UserIds(users + [row]) == UserIds(users) + [nextUserId];
      assert Usernames(users + [row]) == Usernames(users) + [u.username];
      users := users + [row];
      nextUserId := nextUserId + 1;
      created := Some(row);
    }

    /** `prisma.user.update` of the row at position i, which keeps its id. */
    method ReplaceUser(i: nat, u: User)
      requires Valid() && i < |users| && u.id == users[i].id
      requires forall j :: 0 <= j < |users| && j != i ==> users[j].username != u.username
      modifies this`users
      ensures Valid() && users == old(users)[i := u]
    {
      ReplaceKeepsIds(users, i, u);
      ReplaceKeepsUsernamesDistinct(users, i, u);
      users := users[i := u];
    }

    /** Whether a renaming of the user at position i would clash with another user's name. */
    function UsernameTakenByOther(i: nat, username: string): (b: bool)
      reads this
      requires i < |users|
      ensures !b <==> forall j :: 0 <= j < |users| && j != i ==> users[j].username != username
    {
      exists j :: 0 <= j < |users| && j != i && users[j].username == username
    }

    /** `prisma.user.delete` of the row at position i. */
    method DeleteUser(i: nat)
      requires Valid() && i < |users|
      modifies this`users
      ensures Valid() && users == old(users)[..i] + old(users)[i + 1..]
    {
      RemoveAtKeepsValid(users, i, nextUserId);
      users := users[..i] + users[i + 1..];
    }

    /** `INSERT INTO payments`: the row gets the next id. */
    method InsertPayment(p: Payment) returns (row: PaymentRow)
      requires Valid()
      modifies this`payments, this`nextPaymentId
      ensures Valid()
      ensures row == PaymentRow(old(nextPaymentId), p)
      ensures payments == old(payments) + [row] && nextPaymentId == old(nextPaymentId) + 1
    {
      row := PaymentRow(nextPaymentId, p);
      IdsBelowAppend(PaymentIds(payments), nextPaymentId);
      assert PaymentIds(payments + [row]) == PaymentIds(payments) + [nextPaymentId];
      payments := payments + [row];
      nextPaymentId := nextPaymentId + 1;
    }

    /** An update of the payment row at position i that keeps its id. */
    method ReplacePayment(i: nat, row: PaymentRow)
      requires Valid() && i < |payments| && row.id == payments[i].id
      modifies this`payments
      ensures Valid() && payments == old(payments)[i := row]
    {
      assert PaymentIds(payments[i := row]) == PaymentIds(payments);
      payments := payments[i := row];
    }

    /** `prisma.package.create`: the row gets the next id. */
    method InsertPackage(row: PackageRow) returns (created: PackageRow)
      requires Valid()
      modifies this`packages, this`nextPackageId
      ensures Valid()
      ensures created == row.(id := old(nextPackageId))
      ensures packages == old(packages) + [created] && nextPackageId == old(nextPackageId) + 1
    {
      created := row.(id := nextPackageId);
      IdsBelowAppend(PackageIds(packages), nextPackageId);
      assert PackageIds(packages + [created]) == PackageIds(packages) + [nextPackageId];
      packages := packages + [created];
      nextPackageId := nextPackageId + 1;
    }

    /** An update of the package row at position i that keeps its id. */
    method ReplacePackage(i: nat, row: PackageRow)
      requires Valid() && i < |packages| && row.id == packages[i].id
      modifies this`packages
      ensures Valid() && packages == old(packages)[i := row]
    {
      assert PackageIds(packages[i := row]) == PackageIds(packages);
      packages := packages[i := row];
    }

    /** A statement that rewrites user rows without touching ids or usernames (an `updateMany`). */
    method SetUsers(next: seq<User>)
      requires Valid() && UserIds(next) == UserIds(users) && Usernames(next) == Usernames(users)
      modifies this`users
      ensures Valid() && users == next
    {
      users := next;
    }

    /** A statement that deletes payment rows (a `deleteMany`); the rows left keep increasing ids. */
    method SetPayments(next: seq<PaymentRow>)
      requires Valid() && IdsBelow(PaymentIds(next), nextPaymentId)
      modifies this`payments
      ensures Valid() && payments == next
    {
      payments := next;
    }

    /** `prisma.package.delete` of the row at position i. */
    method DeletePackageAt(i: nat)
      requires Valid() && i < |packages|
      modifies this`packages
      ensures Valid() && packages == old(packages)[..i] + old(packages)[i + 1..]
    {
      var t := packages[..i] + packages[i + 1..];
      assert PackageIds(t) == PackageIds(packages)[..i] + PackageIds(packages)[i + 1..];
      IdsBelowRemove(PackageIds(packages), i, nextPackageId);
      packages := t;
    }
  }
}
