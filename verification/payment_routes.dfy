/** The driver payment routes: the paginated payment history with its
    totals, processing a payment for a ride, and the period summary.
    Amounts are exact reals; `toFixed` formatting is not part of this model. */
module PaymentRoutes {
  import opened Common
  import opened Tables
  import opened Query
  import Numbers

  const DefaultPage: int := 1
  const DefaultLimit: int := 10
  const DefaultCommissionRate: real := 0.15

  /** The inclusive row range `[from, to]` asked of the database for a page
      (numeric `page` and `limit`; defaults 1 and 10). */
  function Window(page: Option<int>, limit: Option<int>): (r: (int, int))
    ensures r.1 - r.0 + 1 == limit.GetOr(10)
    ensures page.GetOr(1) == 1 ==> r.0 == 0
  {
    var p := page.GetOr(DefaultPage);
    var l := limit.GetOr(DefaultLimit);
    var from := (p - 1) * l;
    (from, from + l - 1)
  }

  /** Consecutive pages tile the rows: each starts just after the last ends. */
  lemma WindowsTile(page: int, limit: int)
    ensures Window(Some(page + 1), Some(limit)).0 == Window(Some(page), Some(limit)).1 + 1
  {
  }

  /** `Math.ceil(count / limit)`; a zero limit yields a non-finite number,
      which the JSON reply carries as null (None). */
  function Pages(count: nat, limit: int): (r: Option<int>)
    ensures r.None? <==> limit == 0
    ensures limit > 0 ==> (r.value - 1) * limit < count <= r.value * limit
  {
    if limit == 0 then None
    else if limit > 0 then
      CeilDivisionBounds(count, limit);
      Some(Numbers.Ceil(count as real / limit as real))
    else Some(Numbers.Ceil(count as real / limit as real))
  }

  lemma CeilDivisionBounds(count: nat, limit: int)
    requires limit > 0
    ensures var c := Numbers.Ceil(count as real / limit as real);
      (c - 1) * limit < count <= c * limit
  {
    var l := limit as real;
    var q := count as real / l;
    var c := Numbers.Ceil(q);
    assert q * l == count as real;
    ScaleLe(q, c as real, l);
    ScaleLt((c - 1) as real, q, l);
    assert (c * limit) as real == c as real * l;
    assert ((c - 1) * limit) as real == (c - 1) as real * l;
  }

  lemma ScaleLe(a: real, b: real, k: real)
    requires a <= b && k > 0.0
    ensures a * k <= b * k
  {
  }

  lemma ScaleLt(a: real, b: real, k: real)
    requires a < b && k > 0.0
    ensures a * k < b * k
  {
  }

  /** `.range(from, to)` over the rows the query selects, clamped to them. */
  function RangeRows<T>(rows: seq<T>, from: int, to: int): (r: seq<T>)
    ensures from <= to ==> |r| <= to - from + 1
    ensures 0 <= from && from + |r| <= |rows| ==> r == rows[from..from + |r|]
    ensures 0 <= from <= to && to < |rows| ==> |r| == to - from + 1
    ensures 0 <= from < |rows| && from <= to && |rows| <= to ==> r == rows[from..]
    ensures from < 0 || from >= |rows| || to < from ==> r == []
  {
    if from < 0 || from >= |rows| || to < from then []
    else if to + 1 <= |rows| then rows[from..to + 1]
    else rows[from..]
  }

  function Earnings(rows: seq<Payment>): real {
    if rows == [] then 0.0 else Earnings(rows[..|rows| - 1]) + rows[|rows| - 1].amount
  }

  function Commission(rows: seq<Payment>): real {
    if rows == [] then 0.0
    else Commission(rows[..|rows| - 1]) + rows[|rows| - 1].amount * rows[|rows| - 1].commissionRate
  }

  /** The summary's running sum of `amount - amount * commission_rate`. */
  function NetOfEach(rows: seq<Payment>): real {
    if rows == [] then 0.0
    else
      var p := rows[|rows| - 1];
      NetOfEach(rows[..|rows| - 1]) + (p.amount - p.amount * p.commissionRate)
  }

  /** Net earnings are the same whether netted per payment or in total. */
  lemma {:induction false} NetOfEachIsTotalLessCommission(rows: seq<Payment>)
    ensures NetOfEach(rows) == Earnings(rows) - Commission(rows)
  {
    if rows != [] {
      NetOfEachIsTotalLessCommission(rows[..|rows| - 1]);
    }
  }

  datatype Totals = Totals(totalEarnings: real, totalCommission: real, netEarnings: real)
  datatype Pagination = Pagination(page: int, limit: int, total: nat, pages: Option<int>)
  datatype Listing = Listing(payments: seq<Payment>, summary: Totals, pagination: Pagination)

  predicate OwnedBy(p: Payment, driver: Id) {
    p.driverId == driver
  }

  /** GET /driver. `ordered` is the payments table newest first, as the
      database sorts it; the totals cover the returned page only. */
  function DriverPayments(ordered: seq<Payment>, caller: Id, page: Option<int>, limit: Option<int>): (r: Listing)
    ensures var mine := Filter(ordered, (p: Payment) => OwnedBy(p, caller));
      && r.payments == RangeRows(mine, Window(page, limit).0, Window(page, limit).1)
      && r.pagination.total == |mine|
      && r.pagination.pages == Pages(|mine|, limit.GetOr(10))
      && Subsequence(r.payments, mine)
      && (forall i :: 0 <= i < |r.payments| ==> r.payments[i].driverId == caller)
    ensures limit.GetOr(10) >= 0 ==> |r.payments| <= limit.GetOr(10)
    ensures r.summary.totalEarnings == Earnings(r.payments)
    ensures r.summary.totalCommission == Commission(r.payments)
    ensures r.summary.netEarnings == NetOfEach(r.payments)
  {
    var mine := Filter(ordered, (p: Payment) => OwnedBy(p, caller));
    var (from, to) := Window(page, limit);
    var rows := RangeRows(mine, from, to);
    RangeRowsIsSubsequence(mine, from, to);
    SubsequenceMembers(rows, mine);
    NetOfEachIsTotalLessCommission(rows);
    var earnings := Earnings(rows);
    var commission := Commission(rows);
    Listing(rows, Totals(earnings, commission, earnings - commission),
            Pagination(page.GetOr(DefaultPage), limit.GetOr(DefaultLimit), |mine|, Pages(|mine|, limit.GetOr(DefaultLimit))))
  }

  /** Page `page` of size `limit` holds the caller's payments from row
      (page - 1) * limit on: its k-th entry is the caller's payment at that
      offset plus k, whenever the caller has that many payments. */
  lemma DriverPaymentsPageRows(ordered: seq<Payment>, caller: Id, page: int, limit: int, k: int)
    requires page >= 1 && 0 <= k < limit
    requires (page - 1) * limit + k < |Filter(ordered, (p: Payment) => OwnedBy(p, caller))|
    ensures var mine := Filter(ordered, (p: Payment) => OwnedBy(p, caller));
      var listed := DriverPayments(ordered, caller, Some(page), Some(limit)).payments;
      k < |listed| && listed[k] == mine[(page - 1) * limit + k]
  {
    var mine := Filter(ordered, (p: Payment) => OwnedBy(p, caller));
    var (from, to) := Window(Some(page), Some(limit));
    assert from == (page - 1) * limit && to == from + limit - 1;
    assert 0 <= (page - 1) * limit by {
      assert page - 1 >= 0 && limit > 0;
    }
    var rows := RangeRows(mine, from, to);
    assert from + k < |mine|;
    if to < |mine| {
      assert |rows| == limit;
    } else {
      assert rows == mine[from..];
    }
  }

  lemma RangeRowsIsSubsequence<T>(rows: seq<T>, from: int, to: int)
    ensures Subsequence(RangeRows(rows, from, to), rows)
  {
    var r := RangeRows(rows, from, to);
    if r == [] {
      EmptySubsequence(rows);
    } else {
      assert r == rows[from..from + |r|];
      PrefixIsSubsequence(rows[from..], |r|);
      assert rows[from..][..|r|] == r;
      SuffixIsSubsequence(rows, from);
      SubsequenceTransitive(r, rows[from..], rows);
    }
  }

  function PaymentsFor(payments: map<Id, Payment>, rideId: Id): set<Id> {
    set id | id in payments && payments[id].rideId == rideId
  }

  /** At most one payment row per ride. */
  predicate OnePaymentPerRide(payments: map<Id, Payment>) {
    forall a, b | a in payments && b in payments :: payments[a].rideId == payments[b].rideId ==> a == b
  }

  /** POST /process. `.single()` finds an existing payment only when there
      is exactly one for the ride; `newId` is the id the database assigns. */
  function ProcessPayment(rides: map<Id, Ride>, payments: map<Id, Payment>, caller: Id, rideId: Option<Id>,
                          amount: Option<real>, commissionRate: Option<real>, newId: Id, now: Time): (r: (map<Id, Payment>, Reply<Payment>))
    requires newId !in payments
    ensures !Present(rideId) || !NonZero(amount) ==>
      r == (payments, Failure(400, "Ride ID and amount are required"))
    ensures (Present(rideId) && NonZero(amount)
             && (rideId.value !in rides || rides[rideId.value].driverId != Some(caller))) ==>
      r == (payments, Failure(404, "Ride not found"))
    ensures r.1.Success? ==>
      && Present(rideId) && NonZero(amount) && rideId.value in rides
      && rides[rideId.value].driverId == Some(caller)
      && |PaymentsFor(payments, rideId.value)| != 1
      && r.1.data == Payment(newId, caller, rideId.value, amount.value, commissionRate.GetOr(0.15), "paid", now)
      && r.0 == payments[newId := r.1.data]
    ensures Present(rideId) && NonZero(amount) && rideId.value in rides && rides[rideId.value].driverId == Some(caller)
            && |PaymentsFor(payments, rideId.value)| == 1 ==>
      r == (payments, Failure(400, "Payment already processed for this ride"))
    ensures r.1.Success? <==>
      Present(rideId) && NonZero(amount) && rideId.value in rides && rides[rideId.value].driverId == Some(caller)
      && |PaymentsFor(payments, rideId.value)| != 1
    ensures r.1.Failure? ==> r.0 == payments
  {
    if !Present(rideId) || !NonZero(amount) then
      (payments, Failure(BadRequest, "Ride ID and amount are required"))
    else if rideId.value !in rides || rides[rideId.value].driverId != Some(caller) then
      (payments, Failure(NotFound, "Ride not found"))
    else if |PaymentsFor(payments, rideId.value)| == 1 then
      (payments, Failure(BadRequest, "Payment already processed for this ride"))
    else
      var payment := Payment(newId, caller, rideId.value, amount.value,
                             commissionRate.GetOr(DefaultCommissionRate), "paid", now);
      (payments[newId := payment], Success(payment))
  }

  lemma OnePaymentMeansSingleton(payments: map<Id, Payment>, id: Id)
    requires OnePaymentPerRide(payments) && id in payments
    ensures PaymentsFor(payments, payments[id].rideId) == {id}
  {
  }

  /** Processing keeps at most one payment per ride. */
  lemma ProcessKeepsOnePaymentPerRide(rides: map<Id, Ride>, payments: map<Id, Payment>, caller: Id, rideId: Option<Id>,
                                      amount: Option<real>, commissionRate: Option<real>, newId: Id, now: Time)
    requires newId !in payments && OnePaymentPerRide(payments)
    ensures OnePaymentPerRide(ProcessPayment(rides, payments, caller, rideId, amount, commissionRate, newId, now).0)
  {
    var (payments', reply) := ProcessPayment(rides, payments, caller, rideId, amount, commissionRate, newId, now);
    if reply.Success? {
      forall id | id in payments ensures payments[id].rideId != rideId.value {
        OnePaymentMeansSingleton(payments, id);
      }
    }
  }

  /** A ride that already has its payment is refused and nothing is written. */
  lemma SecondPaymentRefused(rides: map<Id, Ride>, payments: map<Id, Payment>, caller: Id, rideId: Id,
                             amount: real, commissionRate: Option<real>, newId: Id, now: Time)
    requires newId !in payments && OnePaymentPerRide(payments)
    requires rideId != "" && amount != 0.0 && rideId in rides && rides[rideId].driverId == Some(caller)
    requires exists id | id in payments :: payments[id].rideId == rideId
    ensures ProcessPayment(rides, payments, caller, Some(rideId), Some(amount), commissionRate, newId, now)
         == (payments, Failure(400, "Payment already processed for this ride"))
  {
    var id :| id in payments && payments[id].rideId == rideId;
    OnePaymentMeansSingleton(payments, id);
  }

  datatype Summary = Summary(totalRides: nat, totalEarnings: real, totalCommission: real, netEarnings: real)

  /** GET /driver/summary, for the payments of the chosen period (which the
      database selects; the lookback date is not part of this model). */
  method PeriodSummary(payments: seq<Payment>) returns (s: Summary)
    ensures s.totalRides == |payments|
    ensures s.totalEarnings == Earnings(payments)
    ensures s.totalCommission == Commission(payments)
    ensures s.netEarnings == s.totalEarnings - s.totalCommission
  {
    s := Summary(|payments|, 0.0, 0.0, 0.0);
    var i := 0;
    while i < |payments|
      invariant 0 <= i <= |payments|
      invariant s.totalRides == |payments|
      invariant s.totalEarnings == Earnings(payments[..i])
      invariant s.totalCommission == Commission(payments[..i])
      invariant s.netEarnings == NetOfEach(payments[..i])
    {
      var amount := payments[i].amount;
      var commission := amount * payments[i].commissionRate;
      assert payments[..i + 1][..i] == payments[..i];
      s := s.(totalEarnings := s.totalEarnings + amount,
              totalCommission := s.totalCommission + commission,
              netEarnings := s.netEarnings + (amount - commission));
      i := i + 1;
    }
    assert payments[..i] == payments;
    NetOfEachIsTotalLessCommission(payments);
  }
}
