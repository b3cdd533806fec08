/**
 * The daily cash reconciliation ("cuadre"): the day's takings by payment
 * method, the day's expenses, the cash that should be in the till, the
 * snapshot stored per day key and the one-week history shown to admins.
 */
module Cuadre {
  import opened Wrappers
  import opened Invoices
  import Agenda

  /** An expense ("gasto") as `registrarGasto` stores it. */
  datatype Expense = Expense(
    id: string,
    fecha: int,
    descripcion: string,
    monto: real,
    metodo: PayMethod,
    proveedor: string,
    registradoPor: string)

  // ---------------------------------------------------------------------
  // The day's sums
  // ---------------------------------------------------------------------

  /** `facturas.flatMap(f => f.pagos)`. */
  function AllPayments(facturas: seq<Invoice>): seq<Payment> {
    if facturas == [] then []
    else AllPayments(facturas[..|facturas| - 1]) + facturas[|facturas| - 1].pagos
  }

  /** The payments whose timestamp falls on the day starting at `day`, in order. */
  function OnDay(pagos: seq<Payment>, day: int): (r: seq<Payment>)
    ensures forall p :: p in r <==> p in pagos && Agenda.DayStart(p.fecha) == day
  {
    if pagos == [] then []
    else
      var init := pagos[..|pagos| - 1];
      var p := pagos[|pagos| - 1];
      assert forall x :: x in pagos <==> x in init || x == p;
      OnDay(init, day) + (if Agenda.DayStart(p.fecha) == day then [p] else [])
  }

  /** The filter keeps each element it selects as often as it occurs, and nothing else. */
  lemma {:induction false} OnDayCounts(xs: seq<Payment>, day: int)
    ensures forall x :: multiset(OnDay(xs, day))[x] == if Agenda.DayStart(x.fecha) == day then multiset(xs)[x] else 0
    decreases |xs|
  {
    if xs != [] {
      assert xs == xs[..|xs| - 1] + [xs[|xs| - 1]];
      OnDayCounts(xs[..|xs| - 1], day);
    }
  }

  function DayPayments(facturas: seq<Invoice>, day: int): seq<Payment> {
    OnDay(AllPayments(facturas), day)
  }

  /** Σ monto over the payments made with method `m`. */
  function SumMethod(pagos: seq<Payment>, m: PayMethod): real {
    if pagos == [] then 0.0
    else
      var p := pagos[|pagos| - 1];
      SumMethod(pagos[..|pagos| - 1], m) + (if p.metodo == m then p.monto else 0.0)
  }

  /** Every payment is in exactly one method's sum, so the three sums add up to the whole. */
  lemma {:induction false} MethodsPartition(pagos: seq<Payment>)
    ensures SumMethod(pagos, Efectivo) + SumMethod(pagos, Tarjeta) + SumMethod(pagos, Transferencia) == Paid(pagos)
  {
    if pagos != [] {
      MethodsPartition(pagos[..|pagos| - 1]);
    }
  }

  lemma {:induction false} PaidConcat(a: seq<Payment>, b: seq<Payment>)
    ensures Paid(a + b) == Paid(a) + Paid(b)
  {
    if b != [] {
      assert (a + b)[..|a + b| - 1] == a + b[..|b| - 1];
      PaidConcat(a, b[..|b| - 1]);
    } else {
      assert a + b == a;
    }
  }

  lemma {:induction false} OnDayConcat(a: seq<Payment>, b: seq<Payment>, day: int)
    ensures OnDay(a + b, day) == OnDay(a, day) + OnDay(b, day)
  {
    if b != [] {
      assert (a + b)[..|a + b| - 1] == a + b[..|b| - 1];
      OnDayConcat(a, b[..|b| - 1], day);
    } else {
      assert a + b == a;
    }
  }

  lemma {:induction false} AllPaymentsConcat(a: seq<Invoice>, b: seq<Invoice>)
    ensures AllPayments(a + b) == AllPayments(a) + AllPayments(b)
  {
    if b == [] {
      assert a + b == a;
    } else {
      assert (a + b)[..|a + b| - 1] == a + b[..|b| - 1];
      AllPaymentsConcat(a, b[..|b| - 1]);
    }
  }

  /** The day's takings of `a + b` are those of `a` plus those of `b`. */
  lemma DayPaidConcat(a: seq<Invoice>, b: seq<Invoice>, day: int)
    ensures Paid(DayPayments(a + b, day)) == Paid(DayPayments(a, day)) + Paid(DayPayments(b, day))
  {
    AllPaymentsConcat(a, b);
    OnDayConcat(AllPayments(a), AllPayments(b), day);
    PaidConcat(OnDay(AllPayments(a), day), OnDay(AllPayments(b), day));
  }

  /** One more payment on a list of payments adds its amount when it falls on the day. */
  lemma OnDayPaidSnoc(pagos: seq<Payment>, p: Payment, day: int)
    ensures Paid(OnDay(pagos + [p], day)) == Paid(OnDay(pagos, day)) + (if Agenda.DayStart(p.fecha) == day then p.monto else 0.0)
  {
    OnDayConcat(pagos, [p], day);
    PaidConcat(OnDay(pagos, day), OnDay([p], day));
    assert [p][..0] == [];
  }

  /** The day's takings of a single invoice are those of its own payments. */
  lemma DayPaidSingle(f: Invoice, day: int)
    ensures Paid(DayPayments([f], day)) == Paid(OnDay(f.pagos, day))
  {
    assert [f][..0] == [];
    assert AllPayments([f]) == [] + f.pagos == f.pagos;
  }

  /** What the day's takings gain when one invoice gets one more payment. */
  lemma PaymentRaisesDayIncome(facturas: seq<Invoice>, i: nat, g: Invoice, p: Payment, day: int)
    requires i < |facturas|
    requires g.pagos == facturas[i].pagos + [p]
    ensures Paid(DayPayments(facturas[i := g], day))
            == Paid(DayPayments(facturas, day)) + (if Agenda.DayStart(p.fecha) == day then p.monto else 0.0)
  {
    var before, after := facturas[..i], facturas[i + 1..];
    assert facturas == before + [facturas[i]] + after;
    assert facturas[i := g] == before + [g] + after;
    DayPaidConcat(before + [facturas[i]], after, day);
    DayPaidConcat(before, [facturas[i]], day);
    DayPaidConcat(before + [g], after, day);
    DayPaidConcat(before, [g], day);
    DayPaidSingle(facturas[i], day);
    DayPaidSingle(g, day);
    OnDayPaidSnoc(facturas[i].pagos, p, day);
  }

  /** Σ monto over the expenses of the day, of any method or only of `m`. */
  function DayExpenses(gastos: seq<Expense>, day: int, m: Option<PayMethod>): real {
    if gastos == [] then 0.0
    else
      var g := gastos[|gastos| - 1];
      DayExpenses(gastos[..|gastos| - 1], day, m)
        + (if Agenda.DayStart(g.fecha) == day && (m.None? || g.metodo == m.value) then g.monto else 0.0)
  }

  /** When expenses are not negative, the cash expenses are part of all expenses. */
  lemma {:induction false} CashExpensesWithinExpenses(gastos: seq<Expense>, day: int)
    requires forall k :: 0 <= k < |gastos| ==> gastos[k].monto >= 0.0
    ensures 0.0 <= DayExpenses(gastos, day, Some(Efectivo)) <= DayExpenses(gastos, day, None)
  {
    if gastos != [] {
      CashExpensesWithinExpenses(gastos[..|gastos| - 1], day);
    }
  }

  /** The snapshot of one day. `fecha` is the day key. */
  datatype DailyCuadre = DailyCuadre(
    fecha: int,
    efectivoInicial: real,
    efectivo: real,
    tarjeta: real,
    transferencia: real,
    totalIngresos: real,
    gastos: real,
    gastosEfectivo: real,
    balance: real,
    efectivoCaja: real)

  /**
   * The computation of `updateCuadreTab` for the day starting at `day`. An
   * opening cash amount that is missing or not a number counts as 0.
   */
  function ComputeCuadre(facturas: seq<Invoice>, gastos: seq<Expense>, day: int, efectivoInicial: Option<real>)
    : (c: DailyCuadre)
    ensures c.fecha == day
    ensures c.efectivo == SumMethod(DayPayments(facturas, day), Efectivo)
    ensures c.tarjeta == SumMethod(DayPayments(facturas, day), Tarjeta)
    ensures c.transferencia == SumMethod(DayPayments(facturas, day), Transferencia)
    ensures c.totalIngresos == c.efectivo + c.tarjeta + c.transferencia
    ensures c.totalIngresos == Paid(DayPayments(facturas, day))
    ensures c.gastos == DayExpenses(gastos, day, None)
    ensures c.gastosEfectivo == DayExpenses(gastos, day, Some(Efectivo))
    ensures c.balance == c.totalIngresos - c.gastos
    ensures c.efectivoCaja == c.efectivoInicial + c.efectivo - c.gastosEfectivo
    ensures c.efectivoInicial == efectivoInicial.GetOr(0.0)
  {
    var pagos := DayPayments(facturas, day);
    var efectivo := SumMethod(pagos, Efectivo);
    var tarjeta := SumMethod(pagos, Tarjeta);
    var transferencia := SumMethod(pagos, Transferencia);
    var total := efectivo + tarjeta + transferencia;
    var gastosHoy := DayExpenses(gastos, day, None);
    var gastosEfectivo := DayExpenses(gastos, day, Some(Efectivo));
    var inicial := efectivoInicial.GetOr(0.0);
    MethodsPartition(pagos);
    DailyCuadre(day, inicial, efectivo, tarjeta, transferencia, total, gastosHoy, gastosEfectivo,
                total - gastosHoy, inicial + efectivo - gastosEfectivo)
  }

  /** A snapshot is written only for a day with takings or expenses. */
  predicate HasActivity(c: DailyCuadre) {
    c.totalIngresos > 0.0 || c.gastos > 0.0
  }

  // ---------------------------------------------------------------------
  // Stored snapshots, keyed by day
  // ---------------------------------------------------------------------

  /** One entry of the `cuadresDiarios` object, in the object's insertion order. */
  datatype DayEntry = DayEntry(key: int, cuadre: DailyCuadre)

  predicate KeysUnique(entries: seq<DayEntry>) {
    forall i, j :: 0 <= i < j < |entries| ==> entries[i].key != entries[j].key
  }

  function Lookup(entries: seq<DayEntry>, key: int): (r: Option<DailyCuadre>)
    ensures r.Some? <==> exists i :: 0 <= i < |entries| && entries[i].key == key
    ensures r.Some? ==> DayEntry(key, r.value) in entries
  {
    if entries == [] then None
    else if entries[0].key == key then Some(entries[0].cuadre)
    else
      var r := Lookup(entries[1..], key);
      assert forall i :: 1 <= i < |entries| ==> entries[i] == entries[1..][i - 1];
      r
  }

  lemma LookupUnique(entries: seq<DayEntry>, i: nat)
    requires KeysUnique(entries)
    requires i < |entries|
    ensures Lookup(entries, entries[i].key) == Some(entries[i].cuadre)
  {
    if i > 0 {
      assert KeysUnique(entries[1..]);
      assert entries[1..][i - 1] == entries[i];
      LookupUnique(entries[1..], i - 1);
    }
  }

  /** The fields `guardarCuadreDiario` compares before overwriting. */
  predicate SameKeyFields(a: DailyCuadre, b: DailyCuadre) {
    a.totalIngresos == b.totalIngresos && a.gastos == b.gastos && a.efectivoInicial == b.efectivoInicial
  }

  lemma TailLacksHeadKey(entries: seq<DayEntry>)
    requires KeysUnique(entries) && entries != []
    ensures Lookup(entries[1..], entries[0].key).None?
  {
    forall i | 0 <= i < |entries[1..]| ensures entries[1..][i].key != entries[0].key {
      assert entries[1..][i] == entries[i + 1];
    }
  }

  /** Writing `c` under `key`: an existing entry keeps its place, a new one goes last. */
  function Put(entries: seq<DayEntry>, key: int, c: DailyCuadre): seq<DayEntry> {
    if entries == [] then [DayEntry(key, c)]
    else if entries[0].key == key then [DayEntry(key, c)] + entries[1..]
    else [entries[0]] + Put(entries[1..], key, c)
  }

  /** After `Put`, `key` maps to `c` and every other key maps to what it did. */
  lemma {:induction false} PutLookup(entries: seq<DayEntry>, key: int, c: DailyCuadre)
    ensures Lookup(Put(entries, key, c), key) == Some(c)
    ensures forall k :: k != key ==> Lookup(Put(entries, key, c), k) == Lookup(entries, k)
  {
    if entries != [] {
      var r := Put(entries, key, c);
      if entries[0].key != key {
        PutLookup(entries[1..], key, c);
        assert r[1..] == Put(entries[1..], key, c);
      } else {
        assert r[1..] == entries[1..];
      }
    }
  }

  /** `Put` keeps distinct keys distinct. */
  lemma {:induction false} PutUnique(entries: seq<DayEntry>, key: int, c: DailyCuadre)
    requires KeysUnique(entries)
    ensures KeysUnique(Put(entries, key, c))
  {
    if entries != [] {
      var r := Put(entries, key, c);
      var rest := if entries[0].key == key then entries[1..] else Put(entries[1..], key, c);
      assert r == [r[0]] + rest;
      assert KeysUnique(entries[1..]);
      TailLacksHeadKey(entries);
      if entries[0].key != key {
        PutUnique(entries[1..], key, c);
        PutLookup(entries[1..], key, c);
      }
      ConsUnique(r[0], rest);
    }
  }

  /** `Put` grows the list only for a key not yet stored. */
  lemma {:induction false} PutLength(entries: seq<DayEntry>, key: int, c: DailyCuadre)
    ensures |Put(entries, key, c)| == if Lookup(entries, key).Some? then |entries| else |entries| + 1
  {
    if entries != [] && entries[0].key != key {
      PutLength(entries[1..], key, c);
    }
  }

  lemma ConsUnique(x: DayEntry, s: seq<DayEntry>)
    requires KeysUnique(s) && Lookup(s, x.key).None?
    ensures KeysUnique([x] + s)
  {
    var r := [x] + s;
    forall i, j | 0 <= i < j < |r| ensures r[i].key != r[j].key {
      assert r[j] == s[j - 1];
      if i > 0 {
        assert r[i] == s[i - 1];
      }
    }
  }

  /**
   * `guardarCuadreDiario`: nothing is written (and nothing saved) when the
   * stored snapshot for `key` has the same takings, expenses and opening
   * cash; otherwise `c` is stored. The flag says whether a save happens.
   */
  function Store(entries: seq<DayEntry>, key: int, c: DailyCuadre): (r: (seq<DayEntry>, bool))
    ensures !r.1 <==> Lookup(entries, key).Some? && SameKeyFields(Lookup(entries, key).value, c)
    ensures !r.1 ==> r.0 == entries
    ensures r.1 ==> Lookup(r.0, key) == Some(c)
    ensures forall k :: k != key ==> Lookup(r.0, k) == Lookup(entries, k)
    ensures KeysUnique(entries) ==> KeysUnique(r.0)
  {
    var existente := Lookup(entries, key);
    if existente.Some? && SameKeyFields(existente.value, c) then (entries, false)
    else
      PutLookup(entries, key, c);
      assert KeysUnique(entries) ==> KeysUnique(Put(entries, key, c)) by {
        if KeysUnique(entries) {
          PutUnique(entries, key, c);
        }
      }
      (Put(entries, key, c), true)
  }

  /** Storing the same snapshot twice: the second call changes nothing and saves nothing. */
  lemma StoreIdempotent(entries: seq<DayEntry>, key: int, c: DailyCuadre)
    ensures Store(Store(entries, key, c).0, key, c) == (Store(entries, key, c).0, false)
  {
  }

  /** The save step of `updateCuadreTab`: the snapshot is stored only when the day had activity. */
  function SaveIfActive(entries: seq<DayEntry>, c: DailyCuadre): (r: (seq<DayEntry>, bool))
    ensures !HasActivity(c) ==> r == (entries, false)
    ensures HasActivity(c) ==> r == Store(entries, c.fecha, c)
  {
    if HasActivity(c) then Store(entries, c.fecha, c) else (entries, false)
  }

  /** Refreshing the tab again with the same ledger writes nothing. */
  lemma RefreshIsIdempotent(entries: seq<DayEntry>, facturas: seq<Invoice>, gastos: seq<Expense>, day: int, inicial: Option<real>)
    ensures var c := ComputeCuadre(facturas, gastos, day, inicial);
            SaveIfActive(SaveIfActive(entries, c).0, c) == (SaveIfActive(entries, c).0, false)
  {
    var c := ComputeCuadre(facturas, gastos, day, inicial);
    StoreIdempotent(entries, c.fecha, c);
  }

  // ---------------------------------------------------------------------
  // The one-week history
  // ---------------------------------------------------------------------

  /** The days `mostrarHistorialCuadres` shows: the seven before today, today excluded. */
  predicate InWindow(key: int, hoy: int) {
    hoy - 7 * Agenda.MsPerDay <= key < hoy
  }

  function InWindowEntries(entries: seq<DayEntry>, hoy: int): (r: seq<DayEntry>)
    ensures forall e :: e in r <==> e in entries && InWindow(e.key, hoy)
    ensures multiset(r) <= multiset(entries)
  {
    if entries == [] then []
    else
      var rest := InWindowEntries(entries[1..], hoy);
      assert entries == [entries[0]] + entries[1..];
      if InWindow(entries[0].key, hoy) then [entries[0]] + rest else rest
  }

  /** The filter keeps each element it selects as often as it occurs, and nothing else. */
  lemma {:induction false} InWindowEntriesCounts(xs: seq<DayEntry>, hoy: int)
    ensures forall x :: multiset(InWindowEntries(xs, hoy))[x] == if InWindow(x.key, hoy) then multiset(xs)[x] else 0
    decreases |xs|
  {
    if xs != [] {
      assert xs == [xs[0]] + xs[1..];
      InWindowEntriesCounts(xs[1..], hoy);
    }
  }

  /** The filter keeps list order: filtering `a + b` filters `a`, then `b`. */
  lemma {:induction false} InWindowEntriesConcat(a: seq<DayEntry>, b: seq<DayEntry>, hoy: int)
    ensures InWindowEntries(a + b, hoy) == InWindowEntries(a, hoy) + InWindowEntries(b, hoy)
    decreases |a|
  {
    if a == [] {
      assert a + b == b;
    } else {
      assert (a + b)[1..] == a[1..] + b;
      InWindowEntriesConcat(a[1..], b, hoy);
    }
  }

  predicate SortedByKeyDesc(s: seq<DayEntry>) {
    forall i, j :: 0 <= i < j < |s| ==> s[i].key >= s[j].key
  }

  /** Inserting one entry into a most-recent-first list. */
  lemma ConsSorted(x: DayEntry, s: seq<DayEntry>)
    requires SortedByKeyDesc(s)
    requires forall y :: y in s ==> y.key <= x.key
    ensures SortedByKeyDesc([x] + s)
  {
    var r := [x] + s;
    forall i, j | 0 <= i < j < |r| ensures r[i].key >= r[j].key {
      assert r[j] == s[j - 1];
      if i > 0 {
        assert r[i] == s[i - 1];
      }
    }
  }

  function InsertDesc(e: DayEntry, s: seq<DayEntry>): (r: seq<DayEntry>)
    requires SortedByKeyDesc(s)
    ensures SortedByKeyDesc(r)
    ensures forall x :: x in r <==> x in s || x == e
    ensures multiset(r) == multiset(s) + multiset{e}
  {
    if s == [] || e.key >= s[0].key then
      ConsSorted(e, s);
      [e] + s
    else
      assert s == [s[0]] + s[1..];
      var rest := InsertDesc(e, s[1..]);
      ConsSorted(s[0], rest);
      [s[0]] + rest
  }

  function SortDesc(s: seq<DayEntry>): (r: seq<DayEntry>)
    ensures SortedByKeyDesc(r)
    ensures multiset(r) == multiset(s)
  {
    if s == [] then []
    else
      assert s == [s[0]] + s[1..];
      InsertDesc(s[0], SortDesc(s[1..]))
  }

  /** The history: exactly the stored days of the last week, most recent first. */
  function History(entries: seq<DayEntry>, hoy: int): (r: seq<DayEntry>)
    ensures forall e :: e in r <==> e in entries && InWindow(e.key, hoy)
    ensures SortedByKeyDesc(r)
    ensures multiset(r) <= multiset(entries)
  {
    var w := InWindowEntries(entries, hoy);
    var r := SortDesc(w);
    assert forall e :: e in r <==> e in multiset(w);
    r
  }

  /** Day keys are unique in the store, so the history lists each day once, strictly newest first. */
  lemma HistoryStrictlyDescending(entries: seq<DayEntry>, hoy: int)
    requires KeysUnique(entries)
    ensures var r := History(entries, hoy);
            forall i, j :: 0 <= i < j < |r| ==> r[i].key > r[j].key
  {
    var r := History(entries, hoy);
    HistoryStrict(entries, r, r);
  }

  /** With unique keys a sorted sub-multiset has strictly decreasing keys. */
  lemma HistoryStrict(entries: seq<DayEntry>, w: seq<DayEntry>, r: seq<DayEntry>)
    requires KeysUnique(entries)
    requires multiset(w) <= multiset(entries)
    requires multiset(r) == multiset(w)
    requires SortedByKeyDesc(r)
    ensures forall i, j :: 0 <= i < j < |r| ==> r[i].key > r[j].key
  {
    forall i, j | 0 <= i < j < |r| ensures r[i].key > r[j].key {
      if r[i].key == r[j].key {
        assert r[i] in multiset(r) && r[j] in multiset(r);
        KeysUniqueEqualKeyEntries(entries, r[i], r[j]);
        assert r[i] == r[j];
        assert r == r[..i] + [r[i]] + r[i + 1..j] + [r[j]] + r[j + 1..];
        assert multiset(r)[r[i]] >= 2;
        assert multiset(entries)[r[i]] >= 2;
        CountTwoBreaksUnique(entries, r[i]);
      }
    }
  }

  lemma KeysUniqueEqualKeyEntries(entries: seq<DayEntry>, a: DayEntry, b: DayEntry)
    requires KeysUnique(entries)
    requires a in entries && b in entries && a.key == b.key
    ensures a == b
  {
  }

  lemma CountTwoBreaksUnique(entries: seq<DayEntry>, e: DayEntry)
    requires KeysUnique(entries)
    ensures multiset(entries)[e] <= 1
  {
    if entries != [] {
      assert entries == [entries[0]] + entries[1..];
      assert KeysUnique(entries[1..]);
      CountTwoBreaksUnique(entries[1..], e);
      if entries[0] == e {
        assert e !in entries[1..];
      }
    }
  }
}
