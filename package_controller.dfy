/**
 * The package routes of the backend: create a package linked to products,
 * list packages with a name search and an id order, read one, replace its
 * fields and products, and delete it together with what refers to it.
 */
module PackageController {
  import opened Wrappers
  import opened Domain
  import opened Lists
  import opened Store
  import Text

  predicate Given(s: Option<string>) {
    s.Some? && s.value != ""
  }

  datatype CreateRequest = CreateRequest(
    name: Option<string>,
    description: Option<string>,
    payment_method: Option<string>,
    payment_amount: int,
    payment_months: Option<int>,
    productIds: Option<seq<int>>)

  /** `!name || !payment_method || !productIds?.length`. */
  predicate MissingFields(req: CreateRequest) {
    !Given(req.name) || !Given(req.payment_method) || req.productIds.None? || |req.productIds.value| == 0
  }

  /** `connect` needs every listed product to exist. */
  predicate AllProductsExist(ids: seq<int>, existing: set<int>) {
    forall k :: 0 <= k < |ids| ==> ids[k] in existing
  }

  /** The row `createPackage` stores (its id is assigned on insert), linked to exactly the listed products. */
  function CreatedRow(req: CreateRequest): (row: PackageRow)
    requires !MissingFields(req)
    ensures row.products == set k | 0 <= k < |req.productIds.value| :: req.productIds.value[k]
    ensures row.name == req.name.value && row.payment_method == req.payment_method.value
    ensures row.description == req.description && row.payment_amount == req.payment_amount
    ensures row.payment_months == req.payment_months
  {
    PackageRow(0, req.name.value, req.description, req.payment_method.value, req.payment_amount,
               req.payment_months, set k | 0 <= k < |req.productIds.value| :: req.productIds.value[k])
  }

  /**
   * `createPackage`: 400 and nothing created when a required field is
   * missing; 500 when a listed product does not exist; otherwise the new row (201).
   */
  method CreatePackage(db: Database, req: CreateRequest) returns (status: int, created: Option<PackageRow>)
    requires db.Valid()
    modifies db`packages, db`nextPackageId
    ensures db.Valid()
    ensures MissingFields(req) ==> status == BAD_REQUEST && created == None && db.packages == old(db.packages)
    ensures !MissingFields(req) && !AllProductsExist(req.productIds.value, db.productIds) ==>
      status == SERVER_ERROR && created == None && db.packages == old(db.packages)
    ensures !MissingFields(req) && AllProductsExist(req.productIds.value, db.productIds) ==>
      status == CREATED && created == Some(CreatedRow(req).(id := old(db.nextPackageId))) &&
      db.packages == old(db.packages) + [created.value]
  {
    if MissingFields(req) {
      return BAD_REQUEST, None;
    }
    if !AllProductsExist(req.productIds.value, db.productIds) {
      return SERVER_ERROR, None;
    }
    var row := db.InsertPackage(CreatedRow(req));
    return CREATED, Some(row);
  }

  /** An id belongs to the created package's links exactly when it was listed. */
  lemma CreatedLinksExactly(req: CreateRequest, x: int)
    requires !MissingFields(req)
    ensures x in CreatedRow(req).products <==> x in req.productIds.value
  {
    if x in req.productIds.value {
      var k :| 0 <= k < |req.productIds.value| && req.productIds.value[k] == x;
    }
  }

  // ---------------------------------------------------------------------------
  // Listing

  /** The `where` of `getAllPackages`: with a search, a case-insensitive match on the name. */
  predicate NameMatches(p: PackageRow, search: Option<string>) {
    Given(search) ==> Text.Contains(Text.Lower(p.name), Text.Lower(search.value))
  }

  predicate IncreasingIds(s: seq<PackageRow>) {
    forall i, j :: 0 <= i < j < |s| ==> s[i].id < s[j].id
  }

  /** In a table of increasing ids the first id is below every id of any selection from the rest. */
  lemma HeadBelowRest(packages: seq<PackageRow>, rest: seq<PackageRow>)
    requires packages != [] && forall p :: p in rest ==> p in packages[1..]
    ensures IncreasingIds(packages) ==> forall p :: p in rest ==> packages[0].id < p.id
  {
    if IncreasingIds(packages) {
      forall p | p in rest ensures packages[0].id < p.id {
        var k :| 0 <= k < |packages[1..]| && packages[1..][k] == p;
        assert packages[k + 1] == p;
      }
    }
  }

  function SearchPackages(packages: seq<PackageRow>, search: Option<string>): (r: seq<PackageRow>)
    ensures |r| <= |packages|
    ensures forall p :: p in r <==> p in packages && NameMatches(p, search)
    ensures IncreasingIds(packages) ==> IncreasingIds(r)
  {
    if packages == [] then []
    else if NameMatches(packages[0], search) then
      HeadBelowRest(packages, SearchPackages(packages[1..], search));
      [packages[0]] + SearchPackages(packages[1..], search)
    else SearchPackages(packages[1..], search)
  }

  function Reverse<T>(s: seq<T>): (r: seq<T>)
    ensures |r| == |s| && forall k :: 0 <= k < |s| ==> r[k] == s[|s| - 1 - k]
  {
    seq(|s|, k requires 0 <= k < |s| => s[|s| - 1 - k])
  }

  /**
   * `getAllPackages`: the packages whose name matches the search, by id
   * ascending when sort is "asc" and descending otherwise (the default).
   */
  method GetAllPackages(db: Database, search: Option<string>, sort: Option<string>) returns (status: int, result: seq<PackageRow>)
    requires db.Valid()
    ensures status == OK
    ensures forall p :: p in result <==> p in db.packages && NameMatches(p, search)
    ensures sort == Some("asc") ==> IncreasingIds(result)
    ensures sort != Some("asc") ==> forall i, j :: 0 <= i < j < |result| ==> result[i].id > result[j].id
  {
    assert IncreasingIds(db.packages) by {
      forall i, j | 0 <= i < j < |db.packages| ensures db.packages[i].id < db.packages[j].id {
        assert PackageIds(db.packages)[i] < PackageIds(db.packages)[j];
      }
    }
    var matching := SearchPackages(db.packages, search);
    if sort == Some("asc") {
      return OK, matching;
    }
    result := Reverse(matching);
    forall p ensures p in result <==> p in matching {
      if p in matching {
        var k :| 0 <= k < |matching| && matching[k] == p;
        assert result[|matching| - 1 - k] == p;
      }
    }
    return OK, result;
  }

  /** `getPackageById`: 404 for an unknown id, otherwise the row. */
  method GetPackageById(db: Database, id: int) returns (status: int, package: Option<PackageRow>)
    ensures FindPackageRow(db.packages, id).None? ==> status == NOT_FOUND && package == None
    ensures FindPackageRow(db.packages, id).Some? ==>
      status == OK && package == Some(db.packages[FindPackageRow(db.packages, id).value])
  {
    var found := FindPackageRow(db.packages, id);
    if found.None? {
      return NOT_FOUND, None;
    }
    return OK, Some(db.packages[found.value]);
  }

  // ---------------------------------------------------------------------------
  // Updating

  /** The body of the update that the router uses (the later definition in the file). */
  datatype UpdateRequest = UpdateRequest(
    name: Patch<string>,
    description: Patch<Option<string>>,
    payment_method: Patch<string>,
    payment_amount: Patch<int>,
    payment_months: Patch<Option<int>>,
    productIds: Option<seq<int>>)

  /** The updated row: the sent fields replaced, the product links set to exactly the listed ids. */
  function UpdatedRow(row: PackageRow, req: UpdateRequest): (r: PackageRow)
    requires req.productIds.Some?
    ensures r.id == row.id
    ensures forall x :: x in r.products <==> x in req.productIds.value
    ensures r.name == req.name.Apply(row.name) && r.payment_method == req.payment_method.Apply(row.payment_method)
    ensures r.description == req.description.Apply(row.description)
    ensures r.payment_amount == req.payment_amount.Apply(row.payment_amount)
    ensures r.payment_months == req.payment_months.Apply(row.payment_months)
  {
    var ids := req.productIds.value;
    var r := PackageRow(row.id, req.name.Apply(row.name), req.description.Apply(row.description),
                        req.payment_method.Apply(row.payment_method), req.payment_amount.Apply(row.payment_amount),
                        req.payment_months.Apply(row.payment_months), set k | 0 <= k < |ids| :: ids[k]);
    assert forall x :: x in ids ==> x in r.products by {
      forall x | x in ids ensures x in r.products {
        var k :| 0 <= k < |ids| && ids[k] == x;
      }
    }
    r
  }

  /**
   * `updatePackage`: without productIds the handler fails (500); an unknown
   * package or a missing product fails in the database (500); otherwise only
   * that row changes.
   */
  method UpdatePackage(db: Database, id: int, req: UpdateRequest) returns (status: int, updated: Option<PackageRow>)
    requires db.Valid()
    modifies db`packages
    ensures db.Valid()
    ensures req.productIds.None? || FindPackageRow(old(db.packages), id).None? ||
            !AllProductsExist(req.productIds.value, db.productIds) ==>
      status == SERVER_ERROR && updated == None && db.packages == old(db.packages)
    ensures req.productIds.Some? && FindPackageRow(old(db.packages), id).Some? &&
            AllProductsExist(req.productIds.value, db.productIds) ==>
      var i := FindPackageRow(old(db.packages), id).value;
      status == OK && updated == Some(UpdatedRow(old(db.packages)[i], req)) &&
      db.packages == old(db.packages)[i := updated.value]
  {
    if req.productIds.None? {
      return SERVER_ERROR, None;
    }
    var found := FindPackageRow(db.packages, id);
    if found.None? || !AllProductsExist(req.productIds.value, db.productIds) {
      return SERVER_ERROR, None;
    }
    var i := found.value;
    var row := UpdatedRow(db.packages[i], req);
    db.ReplacePackage(i, row);
    return OK, Some(row);
  }

  // ---------------------------------------------------------------------------
  // Deleting

  /** The users after `updateMany({ where: { package_id: id }, data: { package_id: null } })`. */
  function Unlinked(users: seq<User>, id: int): (r: seq<User>)
    ensures |r| == |users|
    ensures forall k :: 0 <= k < |users| ==> r[k].package_id != Some(id)
    ensures forall k :: 0 <= k < |users| && users[k].package_id != Some(id) ==> r[k] == users[k]
    ensures forall k :: 0 <= k < |users| && users[k].package_id == Some(id) ==> r[k] == users[k].(package_id := None)
  {
    seq(|users|, k requires 0 <= k < |users| =>
      if users[k].package_id == Some(id) then users[k].(package_id := None) else users[k])
  }

  /** The payments after `deleteMany({ where: { package_id: id } })`, in table order. */
  function Unreferenced(payments: seq<PaymentRow>, id: int): (r: seq<PaymentRow>)
    ensures |r| <= |payments|
    ensures forall x :: x in r <==> x in payments && x.payment.package_id != id
  {
    if payments == [] then []
    else if payments[0].payment.package_id != id then [payments[0]] + Unreferenced(payments[1..], id)
    else Unreferenced(payments[1..], id)
  }

  /** Row ids strictly increase and stay below `next`. */
  predicate RowsBelow(rows: seq<PaymentRow>, next: int) {
    (forall i, j :: 0 <= i < j < |rows| ==> rows[i].id < rows[j].id) &&
    (forall i :: 0 <= i < |rows| ==> rows[i].id < next)
  }

  /** Deleting payments keeps the remaining ids increasing and below the next id. */
  lemma {:induction false} UnreferencedKeepsIds(payments: seq<PaymentRow>, id: int, next: int)
    requires RowsBelow(payments, next)
    ensures RowsBelow(Unreferenced(payments, id), next)
  {
    if payments != [] {
      RowsBelowTail(payments, next);
      UnreferencedKeepsIds(payments[1..], id, next);
      if payments[0].payment.package_id != id {
        RowsBelowCons(payments[0], Unreferenced(payments[1..], id), next);
      }
    }
  }

  lemma RowsBelowTail(rows: seq<PaymentRow>, next: int)
    requires |rows| > 0 && RowsBelow(rows, next)
    ensures RowsBelow(rows[1..], next)
    ensures forall x :: x in rows[1..] ==> rows[0].id < x.id
  {
    var tail := rows[1..];
    forall i, j | 0 <= i < j < |tail| ensures tail[i].id < tail[j].id {
      assert tail[i] == rows[i + 1] && tail[j] == rows[j + 1];
    }
    forall i | 0 <= i < |tail| ensures tail[i].id < next && rows[0].id < tail[i].id {
      assert tail[i] == rows[i + 1];
    }
  }

  lemma RowsBelowCons(p: PaymentRow, rest: seq<PaymentRow>, next: int)
    requires RowsBelow(rest, next) && p.id < next && forall x :: x in rest ==> p.id < x.id
    ensures RowsBelow([p] + rest, next)
  {
    var r := [p] + rest;
    forall i, j | 0 <= i < j < |r| ensures r[i].id < r[j].id {
      assert r[j] == rest[j - 1];
      if i > 0 { assert r[i] == rest[i - 1]; }
    }
  }

  /**
   * `deletePackage`: an unknown id fails at the first step (500) and nothing
   * changes. Otherwise, in order: the product links are cleared, every user
   * on the package is set to no package, its payments are deleted, and the
   * package row is deleted; other users and other payments are untouched.
   */
  method DeletePackage(db: Database, id: int) returns (status: int)
    requires db.Valid()
    modifies db`packages, db`users, db`payments
    ensures db.Valid()
    ensures FindPackageRow(old(db.packages), id).None? ==>
      status == SERVER_ERROR && db.packages == old(db.packages) && db.users == old(db.users) &&
      db.payments == old(db.payments)
    ensures FindPackageRow(old(db.packages), id).Some? ==>
      var i := FindPackageRow(old(db.packages), id).value;
      status == OK &&
      db.packages == old(db.packages)[..i] + old(db.packages)[i + 1..] &&
      db.users == Unlinked(old(db.users), id) &&
      db.payments == Unreferenced(old(db.payments), id)
  {
    var found := FindPackageRow(db.packages, id);
    if found.None? {
      return SERVER_ERROR;
    }
    var i := found.value;
    db.ReplacePackage(i, db.packages[i].(products := {}));
    var users := Unlinked(db.users, id);
    assert UserIds(users) == UserIds(db.users) && Usernames(users) == Usernames(db.users);
    db.SetUsers(users);
    UnreferencedKeepsIds(db.payments, id, db.nextPaymentId);
    assert IdsBelow(PaymentIds(Unreferenced(db.payments, id)), db.nextPaymentId);
    db.SetPayments(Unreferenced(db.payments, id));
    db.DeletePackageAt(i);
    return OK;
  }

  /** After the cascade no row refers to the deleted package and the id is gone. */
  lemma {:induction false} NothingRefersToDeleted(packages: seq<PackageRow>, users: seq<User>, payments: seq<PaymentRow>,
                                                  i: nat, next: int)
    requires i < |packages| && IdsBelow(PackageIds(packages), next)
    ensures var id := packages[i].id;
      FindPackageRow(packages[..i] + packages[i + 1..], id).None? &&
      (forall k :: 0 <= k < |users| ==> Unlinked(users, id)[k].package_id != Some(id)) &&
      (forall x :: x in Unreferenced(payments, id) ==> x.payment.package_id != id)
  {
    var t := packages[..i] + packages[i + 1..];
    forall k | 0 <= k < |t| ensures t[k].id != packages[i].id {
      var k' := if k < i then k else k + 1;
      assert t[k] == packages[k'];
      assert PackageIds(packages)[k'] != PackageIds(packages)[i];
    }
  }
}
