/**
 * The payments table's handlers: recording one payment from a request,
 * inserting a batch, changing a payment's status, reading a status, and the
 * two listings joined with packages (and users), newest payment date first.
 */
module PaymentController {
  import opened Wrappers
  import opened Lists
  import opened Store
  import Domain
  import Text

  /** A request body; a field the client did not send is None. */
  datatype PaymentRequest = PaymentRequest(
    user_id: Option<int>,
    package_id: Option<int>,
    amount: Option<int>,
    payment_date: Option<string>,
    payment_start_date: Option<string>,
    payment_months: Option<int>)

  /** JavaScript truthiness of a number field: sent and not 0. */
  predicate GivenInt(x: Option<int>) {
    x.Some? && x.value != 0
  }

  predicate GivenText(x: Option<string>) {
    x.Some? && x.value != ""
  }

  /** All six fields of `handlePayment` are truthy; an amount of 0 counts as missing. */
  predicate Complete(req: PaymentRequest) {
    GivenInt(req.user_id) && GivenInt(req.package_id) && GivenInt(req.amount) &&
    GivenText(req.payment_date) && GivenText(req.payment_start_date) && GivenInt(req.payment_months)
  }

  /** The payment `handlePayment` builds: the request's fields with status "pending". */
  function PendingPayment(req: PaymentRequest): (p: Payment)
    requires Complete(req)
    ensures p.status == "pending"
    ensures p.user_id == req.user_id.value && p.package_id == req.package_id.value && p.amount == req.amount.value
    ensures p.payment_date == req.payment_date.value && p.payment_start_date == req.payment_start_date.value
    ensures p.payment_months == req.payment_months.value
  {
    Payment(req.user_id.value, req.package_id.value, req.payment_date.value, req.amount.value,
            "pending", req.payment_start_date.value, req.payment_months.value)
  }

  /**
   * `handlePayment`: 400 and no insert when a field is missing; otherwise
   * exactly one pending row is appended and the payment is sent back (201).
   */
  method HandlePayment(db: Database, req: PaymentRequest) returns (status: int, payment: Option<Payment>)
    requires db.Valid()
    modifies db`payments, db`nextPaymentId
    ensures db.Valid()
    ensures !Complete(req) ==> status == BAD_REQUEST && payment == None && db.payments == old(db.payments)
    ensures Complete(req) ==>
      status == CREATED && payment == Some(PendingPayment(req)) &&
      db.payments == old(db.payments) + [PaymentRow(old(db.nextPaymentId), PendingPayment(req))]
  {
    if !Complete(req) {
      return BAD_REQUEST, None;
    }
    var p := PendingPayment(req);
    var row := db.InsertPayment(p);
    return CREATED, Some(p);
  }

  /** The rows a batch insert appends: the payments in input order, ids counting up from `first`. */
  function BatchRows(input: seq<Payment>, first: int): (r: seq<PaymentRow>)
    ensures |r| == |input|
    ensures forall k :: 0 <= k < |input| ==> r[k] == PaymentRow(first + k, input[k])
  {
    seq(|input|, k requires 0 <= k < |input| => PaymentRow(first + k, input[k]))
  }

  /** `addBulkPayments`: one INSERT per payment, in input order; the input is returned. */
  method AddBulkPayments(db: Database, input: seq<Payment>) returns (result: seq<Payment>)
    requires db.Valid()
    modifies db`payments, db`nextPaymentId
    ensures db.Valid()
    ensures result == input
    ensures db.payments == old(db.payments) + BatchRows(input, old(db.nextPaymentId))
  {
    var k := 0;
    while k < |input|
      invariant 0 <= k <= |input| && db.Valid()
      invariant db.nextPaymentId == old(db.nextPaymentId) + k
      invariant db.payments == old(db.payments) + BatchRows(input[..k], old(db.nextPaymentId))
    {
      var row := db.InsertPayment(input[k]);
      assert BatchRows(input[..k + 1], old(db.nextPaymentId)) == BatchRows(input[..k], old(db.nextPaymentId)) + [row];
      k := k + 1;
    }
    assert input[..k] == input;
    return input;
  }

  /**
   * `updatePaymentStatus`: the row with that id gets the new status, whatever
   * it is, and is returned; other rows are untouched. An unknown id updates
   * nothing and reads back nothing.
   */
  method UpdatePaymentStatus(db: Database, id: int, status: string) returns (row: Option<PaymentRow>)
    requires db.Valid()
    modifies db`payments
    ensures db.Valid()
    ensures FindPayment(old(db.payments), id).None? ==> row == None && db.payments == old(db.payments)
    ensures FindPayment(old(db.payments), id).Some? ==>
      var i := FindPayment(old(db.payments), id).value;
      var r := old(db.payments)[i];
      row == Some(r.(payment := r.payment.(status := status))) &&
      db.payments == old(db.payments)[i := row.value]
  {
    var found := FindPayment(db.payments, id);
    if found.None? {
      return None;
    }
    var i := found.value;
    var r := db.payments[i];
    var updated := r.(payment := r.payment.(status := status));
    db.ReplacePayment(i, updated);
    return Some(updated);
  }

  /** After a status update a read of that id gives the new status. */
  lemma {:induction false} StatusReadsBack(payments: seq<PaymentRow>, i: nat, status: string, next: int)
    requires i < |payments| && IdsBelow(PaymentIds(payments), next)
    ensures var r := payments[i];
      var t := payments[i := r.(payment := r.payment.(status := status))];
      FindPayment(t, r.id) == Some(i) && t[i].payment.status == status
  {
    var r := payments[i];
    var t := payments[i := r.(payment := r.payment.(status := status))];
    assert PaymentIds(t) == PaymentIds(payments);
    IndexOfNoDup(PaymentIds(payments), i);
  }

  /** `getPaymentStatus`: 404 for an unknown id, otherwise the row's status (200). */
  method GetPaymentStatus(db: Database, id: int) returns (code: int, status: Option<string>)
    ensures FindPayment(db.payments, id).None? <==> code == NOT_FOUND
    ensures code == NOT_FOUND ==> status == None
    ensures code != NOT_FOUND ==> code == OK
    ensures code != NOT_FOUND ==> status == Some(db.payments[FindPayment(db.payments, id).value].payment.status)
  {
    var found := FindPayment(db.payments, id);
    if found.None? {
      return NOT_FOUND, None;
    }
    return OK, Some(db.payments[found.value].payment.status);
  }

  // ---------------------------------------------------------------------------
  // Listings

  /** A listed payment: the row with the joined package's name and, in the full listing, the user's name. */
  datatype PaymentView = PaymentView(row: PaymentRow, user_name: Option<string>, package_name: string)

  function DateOf(v: PaymentView): string {
    v.row.payment.payment_date
  }

  /** `ORDER BY payment_date DESC`, text compared character by character. */
  predicate SortedByDateDesc(s: seq<PaymentView>) {
    forall i, j :: 0 <= i < j < |s| ==> Text.LexLessEq(DateOf(s[j]), DateOf(s[i]))
  }

  /** Places v before the first view whose date is not later than v's. */
  function InsertByDate(v: PaymentView, s: seq<PaymentView>): (r: seq<PaymentView>)
    ensures multiset(r) == multiset(s) + multiset{v}
  {
    if s == [] then [v]
    else if Text.LexLessEq(DateOf(s[0]), DateOf(v)) then [v] + s
    else
      assert s == [s[0]] + s[1..];
      [s[0]] + InsertByDate(v, s[1..])
  }

  lemma {:induction false} InsertByDateSorted(v: PaymentView, s: seq<PaymentView>)
    requires SortedByDateDesc(s)
    ensures SortedByDateDesc(InsertByDate(v, s))
  {
    if s == [] {
    } else if Text.LexLessEq(DateOf(s[0]), DateOf(v)) {
      var r := [v] + s;
      forall i, j | 0 <= i < j < |r| ensures Text.LexLessEq(DateOf(r[j]), DateOf(r[i])) {
        if i == 0 {
          if j > 1 { Text.LexLessEqTransitive(DateOf(s[j - 1]), DateOf(s[0]), DateOf(v)); }
        } else {
          assert r[i] == s[i - 1] && r[j] == s[j - 1];
        }
      }
    } else {
      InsertByDateSorted(v, s[1..]);
      var tail := InsertByDate(v, s[1..]);
      var r := [s[0]] + tail;
      Text.LexLessEqTotal(DateOf(s[0]), DateOf(v));
      forall i, j | 0 <= i < j < |r| ensures Text.LexLessEq(DateOf(r[j]), DateOf(r[i])) {
        if i == 0 {
          var e := r[j];
          assert e in multiset(tail);
          assert e in multiset(s[1..]) + multiset{v};
          if e != v {
            assert e in s[1..];
            var k :| 0 <= k < |s[1..]| && s[1..][k] == e;
            assert s[k + 1] == e;
          }
        } else {
          assert r[i] == tail[i - 1] && r[j] == tail[j - 1];
        }
      }
    }
  }

  /** The database's sort, as an insertion sort. */
  function SortByDateDesc(s: seq<PaymentView>): (r: seq<PaymentView>)
    ensures multiset(r) == multiset(s)
  {
    if s == [] then []
    else
      assert s == [s[0]] + s[1..];
      InsertByDate(s[0], SortByDateDesc(s[1..]))
  }

  /** The listing comes out newest first. */
  lemma {:induction false} SortByDateDescSorted(s: seq<PaymentView>)
    ensures SortedByDateDesc(SortByDateDesc(s))
  {
    if s != [] {
      SortByDateDescSorted(s[1..]);
      InsertByDateSorted(s[0], SortByDateDesc(s[1..]));
    }
  }

  /** The inner join of one payment with its package: no row when the package is gone. */
  function JoinPackage(r: PaymentRow, packages: seq<PackageRow>, userName: Option<string>): (v: Option<PaymentView>)
    ensures v.None? <==> FindPackageRow(packages, r.payment.package_id).None?
    ensures v.Some? ==> v.value.row == r
    ensures v.Some? ==> v.value.package_name == packages[FindPackageRow(packages, r.payment.package_id).value].name
  {
    match FindPackageRow(packages, r.payment.package_id)
    case None => None
    case Some(k) => Some(PaymentView(r, userName, packages[k].name))
  }

  /** `WHERE p.user_id = ?` joined with packages, in table order (before sorting). */
  function UserPayments(payments: seq<PaymentRow>, packages: seq<PackageRow>, userId: int): (r: seq<PaymentView>)
    ensures |r| <= |payments|
    ensures forall k :: 0 <= k < |r| ==> r[k].row in payments && r[k].row.payment.user_id == userId && r[k].user_name == None
    ensures forall k :: 0 <= k < |payments| && payments[k].payment.user_id == userId &&
                        FindPackageRow(packages, payments[k].payment.package_id).Some? ==>
              JoinPackage(payments[k], packages, None).value in r
  {
    if payments == [] then []
    else
      var rest := UserPayments(payments[1..], packages, userId);
      var r0 := payments[0];
      assert payments == [r0] + payments[1..];
      var joined := JoinPackage(r0, packages, None);
      if r0.payment.user_id == userId && joined.Some? then [joined.value] + rest else rest
  }

  /**
   * `getPaymentsByUserId`: that user's payments that still have a package,
   * each with the package's name, newest payment date first.
   */
  method GetPaymentsByUserId(db: Database, userId: int) returns (result: seq<PaymentView>)
    ensures multiset(result) == multiset(UserPayments(db.payments, db.packages, userId))
    ensures SortedByDateDesc(result)
    ensures forall k :: 0 <= k < |result| ==> result[k].row in db.payments && result[k].row.payment.user_id == userId
  {
    var rows := UserPayments(db.payments, db.packages, userId);
    result := SortByDateDesc(rows);
    SortByDateDescSorted(rows);
    forall k | 0 <= k < |result|
      ensures result[k].row in db.payments && result[k].row.payment.user_id == userId
    {
      assert result[k] in multiset(rows);
    }
  }

  /** Every payment joined with its user and its package, in table order (before sorting). */
  function AllPayments(payments: seq<PaymentRow>, users: seq<Domain.User>, packages: seq<PackageRow>): (r: seq<PaymentView>)
    ensures |r| <= |payments|
    ensures forall k :: 0 <= k < |r| ==>
      (r[k].row in payments && FindUser(users, r[k].row.payment.user_id).Some? &&
       FindPackageRow(packages, r[k].row.payment.package_id).Some?)
    ensures forall k :: 0 <= k < |payments| && FindUser(users, payments[k].payment.user_id).Some? &&
                        FindPackageRow(packages, payments[k].payment.package_id).Some? ==>
              JoinPackage(payments[k], packages, Some(users[FindUser(users, payments[k].payment.user_id).value].name)).value in r
  {
    if payments == [] then []
    else
      var rest := AllPayments(payments[1..], users, packages);
      var r0 := payments[0];
      assert payments == [r0] + payments[1..];
      match FindUser(users, r0.payment.user_id)
      case None => rest
      case Some(u) =>
        match JoinPackage(r0, packages, Some(users[u].name))
        case None => rest
        case Some(v) => [v] + rest
  }

  /** `getAllPayments`: every payment whose user and package exist, newest first. */
  method GetAllPayments(db: Database) returns (result: seq<PaymentView>)
    ensures multiset(result) == multiset(AllPayments(db.payments, db.users, db.packages))
    ensures SortedByDateDesc(result)
  {
    var rows := AllPayments(db.payments, db.users, db.packages);
    result := SortByDateDesc(rows);
    SortByDateDescSorted(rows);
  }
}
