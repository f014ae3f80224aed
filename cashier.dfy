/**
 * The cashier dashboard: selecting services for a payment, pricing the selection, recording a
 * payment, charging a pending bill, and exporting the pending bills as CSV. The page keeps its
 * data in component state; here that state is the fields of `CashierDashboard`.
 */
module Cashier {
  import opened Wrappers
  import opened Js
  import CsvExport

  /** `number | string` ids, compared strictly (`1` and `"1"` are different ids). */
  datatype Id = NumId(n: int) | StrId(s: string)

  /** `String(id)` */
  function IdString(id: Id): string
  {
    match id
    case NumId(n) => IntToString(n)
    case StrId(s) => s
  }

  datatype Service = Service(id: Id, nombre: string, precio: int)

  datatype BillState = Pending | Paid | Overdue

  function StateName(e: BillState): string
  {
    match e
    case Pending => "pending"
    case Paid => "paid"
    case Overdue => "overdue"
  }

  datatype PendingBill = PendingBill(
    id: Id,
    paciente: string,
    fecha: string,
    servicios: seq<string>,
    total: int,
    estado: BillState)

  datatype PayMethod = Cash | Card | Transfer | Insurance

  datatype Transaction = Transaction(
    id: Id,
    paciente: string,
    servicios: seq<string>,
    monto: int,
    metodoPago: PayMethod,
    hora: string)

  datatype Stats = Stats(
    ingresosDiarios: int,
    pagosPendientes: int,
    transaccionesCompletadas: int,
    ingresosMensuales: int)

  // ----- Service selection

  /** `prev.filter((x) => x !== id)` */
  function Without(s: seq<Id>, id: Id): (r: seq<Id>)
    ensures id !in r
    ensures forall x :: x != id ==> multiset(r)[x] == multiset(s)[x]
  {
    if s == [] then []
    else
      assert s == [s[0]] + s[1..];
      (if s[0] == id then [] else [s[0]]) + Without(s[1..], id)
  }

  /** `toggleService`: a selected id is dropped (every occurrence of it), another is added at
      the end; the count of every other id stays the same. */
  function Toggle(s: seq<Id>, id: Id): (r: seq<Id>)
    ensures id in r <==> id !in s
    ensures forall x :: x != id ==> multiset(r)[x] == multiset(s)[x]
    ensures id !in s ==> r == s + [id]
  {
    if id in s then Without(s, id) else s + [id]
  }

  /** Filtering out an id that is not there changes nothing. */
  lemma {:induction false} WithoutAbsent(s: seq<Id>, id: Id)
    requires id !in s
    ensures Without(s, id) == s
  {
    if s != [] {
      assert id !in s[1..];
      WithoutAbsent(s[1..], id);
      assert [s[0]] + s[1..] == s;
    }
  }

  /** Filtering a concatenation filters each part. */
  lemma {:induction false} WithoutAppend(a: seq<Id>, b: seq<Id>, id: Id)
    ensures Without(a + b, id) == Without(a, id) + Without(b, id)
  {
    if a == [] {
      assert a + b == b;
    } else {
      assert (a + b)[0] == a[0];
      assert (a + b)[1..] == a[1..] + b;
      WithoutAppend(a[1..], b, id);
    }
  }

  /** Selecting an unselected service and then deselecting it restores the selection. */
  lemma ToggleTwice(s: seq<Id>, id: Id)
    requires id !in s
    ensures Toggle(Toggle(s, id), id) == s
  {
    WithoutAppend(s, [id], id);
    WithoutAbsent(s, id);
    assert Without([id], id) == [];
  }

  // ----- Pricing

  /** `services.find((x) => String(x.id) === String(id))` */
  function FindService(services: seq<Service>, id: Id): (r: Option<Service>)
    ensures r.Some? ==> IdString(r.value.id) == IdString(id)
  {
    if services == [] then None
    else if IdString(services[0].id) == IdString(id) then Some(services[0])
    else FindService(services[1..], id)
  }

  /** `find` answers a service of the list whose id prints the same, and answers nothing only
      when no service's id does. */
  lemma {:induction false} FindServiceMeaning(services: seq<Service>, id: Id)
    ensures FindService(services, id).Some? ==>
              FindService(services, id).value in services
              && IdString(FindService(services, id).value.id) == IdString(id)
    ensures FindService(services, id).None? <==> forall sv :: sv in services ==> IdString(sv.id) != IdString(id)
  {
    if services != [] {
      FindServiceMeaning(services[1..], id);
      assert services == [services[0]] + services[1..];
    }
  }

  /** `find` answers the first match: earlier services whose ids print differently are
      skipped. */
  lemma {:induction false} FindFirst(services: seq<Service>, id: Id, i: nat)
    requires i < |services| && IdString(services[i].id) == IdString(id)
    requires forall j :: 0 <= j < i ==> IdString(services[j].id) != IdString(id)
    ensures FindService(services, id) == Some(services[i])
    decreases i
  {
    if i > 0 {
      FindFirst(services[1..], id, i - 1);
    }
  }

  /** `s?.precio || 0`: an unknown id costs nothing. */
  function Price(services: seq<Service>, id: Id): (p: int)
    ensures FindService(services, id).None? ==> p == 0
  {
    match FindService(services, id)
    case None => 0
    case Some(sv) => sv.precio
  }

  /** Ids are matched by their string form, so `1` and `"1"` are priced alike. */
  lemma {:induction false} PriceByStringForm(services: seq<Service>, a: Id, b: Id)
    requires IdString(a) == IdString(b)
    ensures FindService(services, a) == FindService(services, b)
    ensures Price(services, a) == Price(services, b)
  {
    if services != [] && IdString(services[0].id) != IdString(a) {
      PriceByStringForm(services[1..], a, b);
    }
  }

  /** `calculateTotal`: the selection's `reduce`, left to right. */
  function Total(services: seq<Service>, selected: seq<Id>): (t: int)
    ensures selected == [] ==> t == 0
    ensures (forall i :: 0 <= i < |services| ==> services[i].precio >= 0) ==> t >= 0
    decreases |selected|
  {
    if selected == [] then 0
    else
      FindServiceMeaning(services, selected[|selected| - 1]);
      Total(services, selected[..|selected| - 1]) + Price(services, selected[|selected| - 1])
  }

  /** The total of two selections one after the other is the sum of their totals. */
  lemma {:induction false} TotalAppend(services: seq<Service>, a: seq<Id>, b: seq<Id>)
    ensures Total(services, a + b) == Total(services, a) + Total(services, b)
    decreases |b|
  {
    if b == [] {
      assert a + b == a;
    } else {
      var c := a + b;
      assert c[..|c| - 1] == a + b[..|b| - 1];
      assert c[|c| - 1] == b[|b| - 1];
      TotalAppend(services, a, b[..|b| - 1]);
    }
  }

  /** The total is the sum of the prices of the selected ids, one at a time from the front. */
  lemma TotalCons(services: seq<Service>, id: Id, rest: seq<Id>)
    ensures Total(services, [id] + rest) == Price(services, id) + Total(services, rest)
  {
    TotalAppend(services, [id], rest);
    assert [id][..0] == [];
  }

  lemma OneMore(c: int, p: int)
    ensures (c + 1) * p == c * p + p
  {
  }

  lemma CountCons(x: Id, rest: seq<Id>, id: Id)
    ensures multiset([x] + rest)[id] == multiset(rest)[id] + (if x == id then 1 else 0)
  {
  }

  lemma WithoutCons(x: Id, rest: seq<Id>, id: Id)
    ensures Without([x] + rest, id) == (if x == id then [] else [x]) + Without(rest, id)
  {
    assert ([x] + rest)[0] == x;
    assert ([x] + rest)[1..] == rest;
  }

  /** Filtering the first id and then the rest agrees with the total of the rest. */
  lemma TotalWithoutStep(services: seq<Service>, x: Id, rest: seq<Id>, id: Id)
    requires Total(services, Without(rest, id)) == Total(services, rest) - multiset(rest)[id] * Price(services, id)
    ensures Total(services, Without([x] + rest, id))
            == Total(services, [x] + rest) - multiset([x] + rest)[id] * Price(services, id)
  {
    var p := Price(services, id);
    var c := multiset(rest)[id];
    TotalCons(services, x, rest);
    CountCons(x, rest, id);
    WithoutCons(x, rest, id);
    if x == id {
      assert [] + Without(rest, id) == Without(rest, id);
      OneMore(c, p);
    } else {
      TotalCons(services, x, Without(rest, id));
    }
  }

  /** The total counts each selected id once per occurrence; filtering an id out takes away its
      price that many times. */
  lemma {:induction false} TotalWithout(services: seq<Service>, s: seq<Id>, id: Id)
    ensures Total(services, Without(s, id)) == Total(services, s) - multiset(s)[id] * Price(services, id)
  {
    if s != [] {
      TotalWithout(services, s[1..], id);
      TotalWithoutStep(services, s[0], s[1..], id);
      assert [s[0]] + s[1..] == s;
    }
  }

  /** Toggling an unselected id adds its price; toggling a selected one removes its price for
      every time it was selected. */
  lemma TotalToggle(services: seq<Service>, s: seq<Id>, id: Id)
    ensures id !in s ==> Total(services, Toggle(s, id)) == Total(services, s) + Price(services, id)
    ensures id in s ==> Total(services, Toggle(s, id))
                        == Total(services, s) - multiset(s)[id] * Price(services, id)
  {
    if id in s {
      TotalWithout(services, s, id);
    } else {
      TotalAppend(services, s, [id]);
      assert [id][..0] == [];
    }
  }

  /** A selection of ids that match no service totals zero. */
  lemma {:induction false} UnknownIdsCostNothing(services: seq<Service>, s: seq<Id>)
    requires forall i :: 0 <= i < |s| ==> FindService(services, s[i]).None?
    ensures Total(services, s) == 0
    decreases |s|
  {
    if s != [] {
      UnknownIdsCostNothing(services, s[..|s| - 1]);
    }
  }

  /** `selectedServices.map((id) => find(id)?.nombre).filter(Boolean)`: the names of the
      matched services, in selection order, without empty names. */
  function Names(services: seq<Service>, selected: seq<Id>): (r: seq<string>)
    ensures |r| <= |selected|
    ensures forall i :: 0 <= i < |r| ==> r[i] != ""
  {
    if selected == [] then []
    else
      var head := match FindService(services, selected[0])
                  case Some(sv) => if sv.nombre != "" then [sv.nombre] else []
                  case None => [];
      head + Names(services, selected[1..])
  }

  /** The names of one selected id: its service's name when it has one and it is not empty. */
  lemma NamesOfOne(services: seq<Service>, id: Id)
    ensures Names(services, [id]) == match FindService(services, id)
                                     case Some(sv) => if sv.nombre != "" then [sv.nombre] else []
                                     case None => []
  {
    assert [id][1..] == [];
  }

  /** Names follow the selection: the names of two selections one after the other are the names
      of the first followed by those of the second. With `NamesOfOne` this says every selected
      id with a named service contributes its name, in selection order. */
  lemma {:induction false} NamesAppend(services: seq<Service>, a: seq<Id>, b: seq<Id>)
    ensures Names(services, a + b) == Names(services, a) + Names(services, b)
    decreases |a|
  {
    if a == [] {
      assert a + b == b;
    } else {
      assert (a + b)[0] == a[0];
      assert (a + b)[1..] == a[1..] + b;
      NamesAppend(services, a[1..], b);
    }
  }

  /** Every listed name is the name of a service in the catalogue. */
  lemma {:induction false} NamesFromCatalogue(services: seq<Service>, selected: seq<Id>, i: nat)
    requires i < |Names(services, selected)|
    ensures exists sv :: sv in services && sv.nombre == Names(services, selected)[i]
    decreases |selected|
  {
    var f := FindService(services, selected[0]);
    if f.Some? && f.value.nombre != "" {
      if i == 0 {
        FindServiceMeaning(services, selected[0]);
        assert f.value in services;
      } else {
        NamesFromCatalogue(services, selected[1..], i - 1);
      }
    } else {
      NamesFromCatalogue(services, selected[1..], i);
    }
  }

  // ----- Bills and transactions

  /** The `reduce` of the loaded transactions: the sum of their amounts. */
  function Income(txs: seq<Transaction>): (r: int)
    ensures txs == [] ==> r == 0
    ensures (forall i :: 0 <= i < |txs| ==> txs[i].monto >= 0) ==> r >= 0
  {
    if txs == [] then 0 else txs[0].monto + Income(txs[1..])
  }

  /** `pend.filter((p) => p.estado !== 'paid').length` */
  function Unpaid(bills: seq<PendingBill>): (n: nat)
    ensures n <= |bills|
    ensures n == 0 <==> forall i :: 0 <= i < |bills| ==> bills[i].estado == Paid
    ensures n == |bills| <==> forall i :: 0 <= i < |bills| ==> bills[i].estado != Paid
  {
    if bills == [] then 0 else (if bills[0].estado != Paid then 1 else 0) + Unpaid(bills[1..])
  }

  /** `prev.map((b) => (b.id === bill.id ? { ...b, estado: 'paid' } : b))`: the bills with the
      id are paid, every other bill is left as it was. */
  function MarkPaid(bills: seq<PendingBill>, id: Id): (r: seq<PendingBill>)
    ensures |r| == |bills|
    ensures forall i :: 0 <= i < |r| ==> r[i] == if bills[i].id == id then bills[i].(estado := Paid) else bills[i]
  {
    if bills == [] then []
    else [if bills[0].id == id then bills[0].(estado := Paid) else bills[0]] + MarkPaid(bills[1..], id)
  }

  predicate UniqueIds(bills: seq<PendingBill>)
  {
    forall i, j :: 0 <= i < j < |bills| ==> bills[i].id != bills[j].id
  }

  /** Charging a listed, unpaid bill whose id no other bill shares leaves one unpaid bill fewer. */
  lemma {:induction false} UnpaidAfterCharge(bills: seq<PendingBill>, i: nat)
    requires i < |bills| && bills[i].estado != Paid && UniqueIds(bills)
    ensures Unpaid(MarkPaid(bills, bills[i].id)) == Unpaid(bills) - 1
    decreases |bills|
  {
    var id := bills[i].id;
    var r := MarkPaid(bills, id);
    assert r[1..] == MarkPaid(bills[1..], id);
    if i == 0 {
      assert forall k :: 0 <= k < |bills[1..]| ==> bills[1..][k].id != id by {
        forall k | 0 <= k < |bills[1..]|
          ensures bills[1..][k].id != id
        {
          assert bills[1..][k] == bills[k + 1];
        }
      }
      MarkPaidElsewhere(bills[1..], id);
    } else {
      assert UniqueIds(bills[1..]) by {
        forall a, b | 0 <= a < b < |bills[1..]|
          ensures bills[1..][a].id != bills[1..][b].id
        {
          assert bills[1..][a] == bills[a + 1] && bills[1..][b] == bills[b + 1];
        }
      }
      assert bills[1..][i - 1] == bills[i];
      UnpaidAfterCharge(bills[1..], i - 1);
    }
  }

  /** Marking an id that no bill carries changes nothing. */
  lemma {:induction false} MarkPaidElsewhere(bills: seq<PendingBill>, id: Id)
    requires forall k :: 0 <= k < |bills| ==> bills[k].id != id
    ensures MarkPaid(bills, id) == bills
  {
    var r := MarkPaid(bills, id);
    assert forall k :: 0 <= k < |r| ==> r[k] == bills[k];
  }

  /** The transaction recorded for a charged bill: paid in cash, for the bill's total, with an
      id built from the bill's id and the time in milliseconds. */
  function ChargeTransaction(bill: PendingBill, now: int, hora: string): (t: Transaction)
    ensures t.monto == bill.total && t.paciente == bill.paciente && t.servicios == bill.servicios
    ensures t.metodoPago == Cash
  {
    Transaction(ChargeId(bill.id, now), bill.paciente, bill.servicios, bill.total, Cash, hora)
  }

  /** `` `tx-${bill.id}-${Date.now()}` `` */
  function ChargeId(billId: Id, now: int): Id
  {
    StrId("tx-" + IdString(billId) + "-" + IntToString(now))
  }

  lemma IncomeCons(t: Transaction, txs: seq<Transaction>)
    ensures Income([t] + txs) == t.monto + Income(txs)
  {
    assert ([t] + txs)[1..] == txs;
  }

  /** The counters summarise the lists: income is the sum of the amounts, the count is the
      number of transactions and the pending count is the number of unpaid bills. */
  predicate Agrees(st: Stats, bills: seq<PendingBill>, txs: seq<Transaction>)
  {
    st.ingresosDiarios == Income(txs) && st.ingresosMensuales == Income(txs)
    && st.transaccionesCompletadas == |txs| && st.pagosPendientes == Unpaid(bills)
  }

  /** The counters after a payment of `t` is recorded. */
  function AfterPayment(st: Stats, t: Transaction): Stats
  {
    st.(ingresosDiarios := st.ingresosDiarios + t.monto,
        transaccionesCompletadas := st.transaccionesCompletadas + 1,
        ingresosMensuales := st.ingresosMensuales + t.monto)
  }

  /** `Math.max(0, s.pagosPendientes - 1)` */
  function OneLessPending(st: Stats): (r: Stats)
    ensures r.pagosPendientes >= 0
    ensures st.pagosPendientes >= 1 ==> r.pagosPendientes == st.pagosPendientes - 1
  {
    st.(pagosPendientes := if st.pagosPendientes - 1 > 0 then st.pagosPendientes - 1 else 0)
  }

  /** Recording a payment keeps the counters in agreement with the lists. */
  lemma PaymentAgrees(st: Stats, bills: seq<PendingBill>, txs: seq<Transaction>, t: Transaction)
    requires Agrees(st, bills, txs)
    ensures Agrees(AfterPayment(st, t), bills, [t] + txs)
  {
    IncomeCons(t, txs);
  }

  /** Charging a listed unpaid bill whose id is its own keeps the counters in agreement with the
      lists; the clamp at zero never comes into play. */
  lemma ChargeAgrees(st: Stats, bills: seq<PendingBill>, txs: seq<Transaction>, i: nat, t: Transaction)
    requires Agrees(st, bills, txs)
    requires i < |bills| && bills[i].estado != Paid && UniqueIds(bills)
    ensures Agrees(AfterPayment(OneLessPending(st), t), MarkPaid(bills, bills[i].id), [t] + txs)
  {
    ChargePendingAgrees(st, bills, txs, i);
    PaymentAgrees(OneLessPending(st), MarkPaid(bills, bills[i].id), txs, t);
  }

  /** Marking a listed unpaid bill with its own id paid and lowering the pending count by one
      keeps the count equal to the number of unpaid bills. */
  lemma ChargePendingAgrees(st: Stats, bills: seq<PendingBill>, txs: seq<Transaction>, i: nat)
    requires Agrees(st, bills, txs)
    requires i < |bills| && bills[i].estado != Paid && UniqueIds(bills)
    ensures Agrees(OneLessPending(st), MarkPaid(bills, bills[i].id), txs)
  {
    UnpaidAfterCharge(bills, i);
  }

  // ----- CSV export

  const Header: seq<string> := ["ID", "Paciente", "Fecha", "Servicios", "Total", "Estado"]

  /** One bill's cells: `[p.id, p.paciente, p.fecha, p.servicios.join(' | '), p.total, p.estado]`,
      each through `String`. */
  function BillCells(b: PendingBill): (cells: seq<string>)
    ensures |cells| == 6
  {
    [IdString(b.id), b.paciente, b.fecha, Join(b.servicios, " | "), IntToString(b.total), StateName(b.estado)]
  }

  function BillRows(bills: seq<PendingBill>): (rows: seq<seq<string>>)
    ensures |rows| == |bills|
    ensures forall i :: 0 <= i < |rows| ==> rows[i] == BillCells(bills[i])
  {
    if bills == [] then [] else [BillCells(bills[0])] + BillRows(bills[1..])
  }

  /** The header and each bill's row all have cells. */
  lemma ExportRowsNonEmpty(bills: seq<PendingBill>)
    ensures forall i :: 0 <= i < |[Header] + BillRows(bills)| ==> ([Header] + BillRows(bills))[i] != []
  {
    var rows := [Header] + BillRows(bills);
    forall i | 0 <= i < |rows|
      ensures rows[i] != []
    {
      if i > 0 {
        assert rows[i] == BillRows(bills)[i - 1];
      }
    }
  }

  /** `handleExportPendingCSV`'s text: the header row, then one row per bill. It reads back as
      the header followed by each bill's six cells, in order. */
  function PendingCsv(bills: seq<PendingBill>): (r: string)
    ensures CsvExport.ParseRows(r) == Some([Header] + BillRows(bills))
  {
    ExportRowsNonEmpty(bills);
    CsvExport.CsvRoundTrip([Header] + BillRows(bills));
    CsvExport.Csv([Header] + BillRows(bills))
  }

  // ----- Page state

  class CashierDashboard {
    var services: seq<Service>
    var pendingBills: seq<PendingBill>
    var transactions: seq<Transaction>
    var stats: Stats
    var selectedServices: seq<Id>
    var selectedPatient: string
    /** `''` is no method chosen. */
    var paymentMethod: Option<PayMethod>

    /** The counters agree with the lists they summarise, as they do right after loading. */
    ghost predicate Consistent()
      reads this
    {
      Agrees(stats, pendingBills, transactions)
    }

    /** The initial load: the lists as fetched, the counters computed from them, an empty form. */
    constructor(svc: seq<Service>, pend: seq<PendingBill>, txs: seq<Transaction>)
      ensures services == svc && pendingBills == pend && transactions == txs
      ensures stats == Stats(Income(txs), Unpaid(pend), |txs|, Income(txs))
      ensures selectedServices == [] && selectedPatient == "" && paymentMethod == None
      ensures Consistent()
    {
      services := svc;
      pendingBills := pend;
      transactions := txs;
      stats := Stats(Income(txs), Unpaid(pend), |txs|, Income(txs));
      selectedServices := [];
      selectedPatient := "";
      paymentMethod := None;
    }

    /** `toggleService` */
    method ToggleService(id: Id)
      modifies this`selectedServices
      ensures selectedServices == Toggle(old(selectedServices), id)
    {
      selectedServices := Toggle(selectedServices, id);
    }

    /** The guard of `handleProcessPayment`. */
    ghost predicate ReadyToPay()
      reads this
    {
      selectedPatient != "" && Total(services, selectedServices) > 0 && paymentMethod.Some?
    }

    /** `handleProcessPayment`, with `Date.now()` as `now` and the clock's `HH:MM` as `hora`:
        nothing happens unless a patient is entered, the total is positive and a method is
        chosen; otherwise the payment is recorded first in the list, the income and the count
        rise by the total and by one, and the form is cleared. */
    method ProcessPayment(now: int, hora: string)
      modifies this
      ensures services == old(services) && pendingBills == old(pendingBills)
      ensures !old(ReadyToPay()) ==> transactions == old(transactions) && stats == old(stats)
                                     && selectedServices == old(selectedServices)
                                     && selectedPatient == old(selectedPatient)
                                     && paymentMethod == old(paymentMethod)
      ensures old(ReadyToPay()) ==>
                var created := Transaction(NumId(now), old(selectedPatient), Names(old(services), old(selectedServices)),
                                           Total(old(services), old(selectedServices)), old(paymentMethod).value, hora);
                transactions == [created] + old(transactions)
                && stats == AfterPayment(old(stats), created)
                && selectedServices == [] && selectedPatient == "" && paymentMethod == None
      ensures old(Consistent()) ==> Consistent()
    {
      var total := Total(services, selectedServices);
      if selectedPatient == "" || total <= 0 || paymentMethod.None? {
        return;
      }
      var created := Transaction(NumId(now), selectedPatient, Names(services, selectedServices), total, paymentMethod.value, hora);
      if Consistent() {
        PaymentAgrees(stats, pendingBills, transactions, created);
      }
      transactions := [created] + transactions;
      stats := AfterPayment(stats, created);
      selectedServices := [];
      selectedPatient := "";
      paymentMethod := None;
    }

    /** `handleChargeBill`: the bills with the bill's id are marked paid, the pending count
        drops by one but not below zero, a cash transaction for the bill's total is recorded
        first, and the income and the count rise by that total and by one. A listed unpaid
        bill with its own id keeps the counters in agreement with the lists. */
    method ChargeBill(bill: PendingBill, now: int, hora: string)
      modifies this`pendingBills, this`transactions, this`stats
      ensures pendingBills == MarkPaid(old(pendingBills), bill.id)
      ensures transactions == [ChargeTransaction(bill, now, hora)] + old(transactions)
      ensures stats == AfterPayment(OneLessPending(old(stats)), ChargeTransaction(bill, now, hora))
      ensures old(Consistent()) && bill in old(pendingBills) && bill.estado != Paid && UniqueIds(old(pendingBills))
              ==> Consistent()
    {
      var tx := ChargeTransaction(bill, now, hora);
      if Consistent() && bill in pendingBills && bill.estado != Paid && UniqueIds(pendingBills) {
        var i :| 0 <= i < |pendingBills| && pendingBills[i] == bill;
        ChargeAgrees(stats, pendingBills, transactions, i, tx);
      }
      pendingBills := MarkPaid(pendingBills, bill.id);
      stats := OneLessPending(stats);
      transactions := [tx] + transactions;
      stats := AfterPayment(stats, tx);
    }
  }
}
