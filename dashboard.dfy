/**
 * The constructora dashboard (src/pages/ConstructoraDashboard.tsx): it loads
 * the tenant, its obras, residentes, payments and the plan catalogue, maps
 * them to view entities, sums the spend of the active obras, and derives
 * the summary cards: active counts, the total budget, the spent percentage
 * and the colour of the spend bar.
 */
module Dashboard {
  import opened Wire
  import opened Text
  import opened Lists
  import opened Types
  import opened Rows
  import opened Mappers

  const DefaultPlan: string := "basico"

  /** `pl.id === c.plan_id`. */
  function PlanMatches(planId: Option<string>): PlanRow -> bool {
    (pl: PlanRow) => Some(pl.id) == planId
  }

  /**
   * The plan name: the name of the first plan whose id is the constructora's
   * `plan_id`, lower-cased, or "basico" when there is no such plan or it has
   * no name.
   */
  function PlanName(plans: seq<PlanRow>, planId: Option<string>): (name: string)
    ensures forall k :: 0 <= k < |name| ==> !('A' <= name[k] <= 'Z')
  {
    var first := FirstIndex(plans, PlanMatches(planId));
    ToLower(if first < |plans| then Or(plans[first].name, DefaultPlan) else DefaultPlan)
  }

  /** Without a plan of that id, or with no plan id at all, the plan is "basico". */
  lemma PlanNameWithoutMatch(plans: seq<PlanRow>, planId: Option<string>)
    requires forall k :: 0 <= k < |plans| ==> Some(plans[k].id) != planId
    ensures PlanName(plans, planId) == DefaultPlan
  {
    ToLowerKeepsLowerCase(DefaultPlan);
  }

  /** The first plan with that id decides: its name lower-cased, or "basico" when it has none. */
  lemma PlanNameFromFirstMatch(plans: seq<PlanRow>, planId: Option<string>, i: nat)
    requires i < |plans| && Some(plans[i].id) == planId
    requires forall k :: 0 <= k < i ==> Some(plans[k].id) != planId
    ensures PlanName(plans, planId) == if Truthy(plans[i].name) then ToLower(plans[i].name.value) else DefaultPlan
  {
    var first := FirstIndex(plans, PlanMatches(planId));
    assert PlanMatches(planId)(plans[i]);
    assert first == i;
    ToLowerKeepsLowerCase(DefaultPlan);
  }

  /** The tenant row as the view entity; `now` stands for `new Date().toISOString()`. */
  function MapConstructora(c: ConstructoraRow, plans: seq<PlanRow>, now: string): (r: Constructora)
    ensures r.id == c.id && r.plan == PlanName(plans, c.planId)
    ensures r.name != "" && (Truthy(c.nombreEmpresa) ==> r.name == c.nombreEmpresa.value)
    ensures r.name == Or(c.nombreEmpresa, "Constructora")
    ensures r.rfc == Or(c.rfc, "") && r.email == Or(c.email, "")
    ensures r.phone == Or(c.telefono, "") && r.address == Or(c.direccion, "")
    ensures r.montoMinimo.None? <==> c.montoMinimo.Absent?
    ensures r.montoMaximo.None? <==> c.montoMaximo.Absent?
    ensures r.montoMinimo.Some? ==> r.montoMinimo.value == Amount(c.montoMinimo)
    ensures r.montoMaximo.Some? ==> r.montoMaximo.value == Amount(c.montoMaximo)
    ensures Truthy(c.subscriptionEndDate) || r.planExpiry == now
    ensures Truthy(c.createdAt) || r.createdAt == now
    ensures r.planExpiry == Or(c.subscriptionEndDate, now) && r.createdAt == Or(c.createdAt, now)
  {
    Constructora(
      id := c.id,
      name := Or(c.nombreEmpresa, "Constructora"),
      rfc := Or(c.rfc, ""),
      email := Or(c.email, ""),
      phone := Or(c.telefono, ""),
      address := Or(c.direccion, ""),
      plan := PlanName(plans, c.planId),
      planExpiry := Or(c.subscriptionEndDate, now),
      montoMinimo := OptionalAmount(c.montoMinimo),
      montoMaximo := OptionalAmount(c.montoMaximo),
      createdAt := Or(c.createdAt, now))
  }

  /** The dashboard's obra mapping: no responsable is resolved here. */
  function MapObra(ob: ObraRow): (o: Obra)
    ensures o.id == ob.id && o.name == ob.nombre && o.constructoraId == ob.constructoraId
    ensures o.status == EnProgreso <==> ob.isActive
    ensures o.status == Pausada <==> !ob.isActive
    ensures o.budget == Amount(ob.presupuesto)
    ensures o.address == Or(ob.direccion, "") && o.description == Or(ob.descripcion, "")
    ensures o.startDate == Or(ob.fechaInicio, "") && o.estimatedEndDate == Or(ob.fechaFinEstimada, "")
    ensures o.responsable == ""
  {
    ObraFromRow(ob, "")
  }

  /** A residente row as the dashboard shows it: display name, no obra, position "Residente". */
  function MapResidente(rr: ResidenteRow, now: string): (r: Residente)
    ensures r.id == rr.id && r.constructoraId == rr.constructoraId
    ensures r.name == DisplayName(rr.nombre, rr.apellidos)
    ensures r.obraId == "" && r.position == "Residente"
    ensures r.status == Activo <==> rr.isActive
    ensures Truthy(rr.createdAt) || r.createdAt == now
    ensures Truthy(rr.email) || r.email == ""
    ensures r.email == Or(rr.email, "") && r.phone == Or(rr.telefono, "")
    ensures r.createdAt == Or(rr.createdAt, now)
  {
    Residente(
      id := rr.id,
      name := DisplayName(rr.nombre, rr.apellidos),
      email := Or(rr.email, ""),
      phone := Or(rr.telefono, ""),
      obraId := "",
      constructoraId := rr.constructoraId,
      position := "Residente",
      createdAt := Or(rr.createdAt, now),
      status := ResidenteStatusOf(rr.isActive))
  }

  /** A payment row as a view entity; a missing status reads "pendiente", a missing method "tarjeta". */
  function MapPayment(pp: PagoRow, now: string): (r: Payment)
    ensures r.id == pp.id && r.constructoraId == pp.constructoraId
    ensures r.amount == Amount(pp.monto)
    ensures !Truthy(pp.status) ==> r.status == Pendiente
    ensures Truthy(pp.status) ==> PaymentStatusText(r.status) == pp.status.value
    ensures !Truthy(pp.metodoPago) ==> r.paymentMethod == Tarjeta
    ensures Truthy(pp.metodoPago) ==> PaymentMethodText(r.paymentMethod) == pp.metodoPago.value
    ensures r.concept != "" && r.concept == Or(pp.concepto, "Suscripción")
    ensures Truthy(pp.fechaPago) || r.date == now
    ensures r.date == Or(pp.fechaPago, now) && r.reference == Or(pp.referenciaPago, "")
  {
    PaymentCastsKeepText(Or(pp.status, "pendiente"), Or(pp.metodoPago, "tarjeta"));
    Payment(
      id := pp.id,
      constructoraId := pp.constructoraId,
      amount := Amount(pp.monto),
      date := Or(pp.fechaPago, now),
      status := PaymentStatusOf(Or(pp.status, "pendiente")),
      paymentMethod := PaymentMethodOf(Or(pp.metodoPago, "tarjeta")),
      concept := Or(pp.concepto, "Suscripción"),
      reference := Or(pp.referenciaPago, ""))
  }

  /** The two sample payments shown when the tenant has none; `monthAgo` is now minus 30 days. */
  function DemoPayments(constructoraId: string, now: string, monthAgo: string): (ps: seq<Payment>)
    ensures |ps| == 2 && ps[0].id != ps[1].id
    ensures forall k :: 0 <= k < 2 ==> ps[k].constructoraId == constructoraId && ps[k].amount == 999.0
  {
    [ Payment("pay_demo_1", constructoraId, 999.0, now, Completado, Tarjeta, "Suscripción mensual", "REF-DEM-001"),
      Payment("pay_demo_2", constructoraId, 999.0, monthAgo, Pendiente, Paypal, "Suscripción mensual", "REF-DEM-002") ]
  }

  /** Maps the payment rows, then falls back to the sample payments when there are none. */
  method MapPaymentsWithDemo(pagos: seq<PagoRow>, constructoraId: string, now: string, monthAgo: string)
    returns (payments: seq<Payment>)
    ensures pagos == [] ==> payments == DemoPayments(constructoraId, now, monthAgo)
    ensures pagos != [] ==> |payments| == |pagos| && forall k :: 0 <= k < |pagos| ==> payments[k] == MapPayment(pagos[k], now)
  {
    payments := Map(pagos, (pp: PagoRow) => MapPayment(pp, now));
    if |payments| == 0 {
      payments := DemoPayments(constructoraId, now, monthAgo);
    }
  }

  predicate IsActiveObra(o: Obra) { o.status == EnProgreso }
  predicate IsInactiveObra(o: Obra) { o.status != EnProgreso }
  predicate IsActiveResidente(r: Residente) { r.status == Activo }

  /** "Obras activas": how many obras are in progress; all of them exactly when every one is. */
  function ActiveObras(obras: seq<Obra>): (n: nat)
    ensures n <= |obras|
    ensures n == |obras| <==> forall k :: 0 <= k < |obras| ==> obras[k].status == EnProgreso
  {
    FilterFull(obras, IsActiveObra);
    Count(obras, IsActiveObra)
  }

  /** "Residentes activos": how many residentes are active; all of them exactly when every one is. */
  function ActiveResidentes(residentes: seq<Residente>): (n: nat)
    ensures n <= |residentes|
    ensures n == |residentes| <==> forall k :: 0 <= k < |residentes| ==> residentes[k].status == Activo
  {
    FilterFull(residentes, IsActiveResidente);
    Count(residentes, IsActiveResidente)
  }

  function BudgetOf(o: Obra): real { o.budget }

  /**
   * "Presupuesto total": the budgets of every obra, whatever its status, so
   * the in-progress obras' budget plus every other obra's budget.
   */
  function TotalBudget(obras: seq<Obra>): (total: real)
    ensures total == Sum(Filter(obras, IsActiveObra), BudgetOf) + Sum(Filter(obras, IsInactiveObra), BudgetOf)
  {
    var any := (o: Obra) => true;
    FilterKeepsAll(obras, any);
    SumFilterSplit(obras, BudgetOf, any, IsActiveObra, IsInactiveObra);
    Sum(obras, BudgetOf)
  }

  /** Budgets that are never negative add up to a total that is never negative. */
  lemma TotalBudgetNonNegative(obras: seq<Obra>)
    requires forall k :: 0 <= k < |obras| ==> obras[k].budget >= 0.0
    ensures TotalBudget(obras) >= 0.0
  {
    SumNonNegative(obras, BudgetOf);
  }

  /** The ids of the obras in progress, in list order. */
  function ActiveObraIds(obras: seq<Obra>): (ids: seq<string>)
    ensures forall id :: id in ids <==> exists k :: 0 <= k < |obras| && obras[k].status == EnProgreso && obras[k].id == id
  {
    var active := Filter(obras, IsActiveObra);
    FilterMembership(obras, IsActiveObra);
    var ids := Map(active, ObraId);
    assert forall id :: id in ids <==> exists k :: 0 <= k < |obras| && obras[k].status == EnProgreso && obras[k].id == id by {
      forall id
        ensures id in ids <==> exists k :: 0 <= k < |obras| && obras[k].status == EnProgreso && obras[k].id == id
      {
        if id in ids {
          var j :| 0 <= j < |ids| && ids[j] == id;
          assert active[j] in obras;
          var k :| 0 <= k < |obras| && obras[k] == active[j];
        }
        if exists k :: 0 <= k < |obras| && obras[k].status == EnProgreso && obras[k].id == id {
          var k :| 0 <= k < |obras| && obras[k].status == EnProgreso && obras[k].id == id;
          assert obras[k] in active;
          var j :| 0 <= j < |active| && active[j] == obras[k];
          assert ids[j] == id;
        }
      }
    }
    ids
  }

  /** `listGastosObra({ obra_id })`: the spend rows of one obra. */
  function OfObra(obraId: string): GastoRow -> bool {
    (g: GastoRow) => g.obraId == obraId
  }

  /** The spend rows of any of the given obras. */
  function InObras(ids: seq<string>): GastoRow -> bool {
    (g: GastoRow) => g.obraId in ids
  }

  /** The per-obra spend lists, one request per id, flattened in id order. */
  function GastosOfObras(ids: seq<string>, gastos: seq<GastoRow>): (r: seq<GastoRow>)
    ensures forall g :: g in r <==> g in gastos && g.obraId in ids
  {
    if ids == [] then []
    else
      FilterMembership(gastos, OfObra(ids[0]));
      Filter(gastos, OfObra(ids[0])) + GastosOfObras(ids[1..], gastos)
  }

  /** `Number(monto_total ?? 0)`. */
  function GastoAmount(g: GastoRow): real { Amount(g.montoTotal) }

  /** The accumulated spend of the obras in progress. */
  function TotalSpent(obras: seq<Obra>, gastos: seq<GastoRow>): (spent: real)
    ensures (forall k :: 0 <= k < |gastos| ==> GastoAmount(gastos[k]) >= 0.0) ==> spent >= 0.0
  {
    var rows := GastosOfObras(ActiveObraIds(obras), gastos);
    if forall k :: 0 <= k < |gastos| ==> GastoAmount(gastos[k]) >= 0.0 then
      assert forall k :: 0 <= k < |rows| ==> rows[k] in gastos;
      SumNonNegative(rows, GastoAmount);
      Sum(rows, GastoAmount)
    else
      Sum(rows, GastoAmount)
  }

  /** One request per distinct id sums each spend row of those obras exactly once. */
  lemma {:induction false} SpentOverIds(ids: seq<string>, gastos: seq<GastoRow>)
    requires NoDuplicates(ids)
    ensures Sum(GastosOfObras(ids, gastos), GastoAmount) == Sum(Filter(gastos, InObras(ids)), GastoAmount)
  {
    if ids == [] {
      FilterDropsAll(gastos, InObras(ids));
    } else {
      var rest := ids[1..];
      assert NoDuplicates(rest);
      SpentOverIds(rest, gastos);
      SumConcat(Filter(gastos, OfObra(ids[0])), GastosOfObras(rest, gastos), GastoAmount);
      assert forall id :: id in ids <==> id == ids[0] || id in rest;
      assert ids[0] !in rest;
      SumFilterSplit(gastos, GastoAmount, InObras(ids), OfObra(ids[0]), InObras(rest));
    }
  }

  /**
   * When obra ids are unique, the accumulated spend is the sum over exactly
   * the spend rows whose obra is in progress.
   */
  lemma TotalSpentIsActiveSpend(obras: seq<Obra>, gastos: seq<GastoRow>)
    requires UniqueIds(obras, ObraId)
    ensures TotalSpent(obras, gastos) == Sum(Filter(gastos, InObras(ActiveObraIds(obras))), GastoAmount)
  {
    FilterKeepsUnique(obras, ObraId, IsActiveObra);
    IdsOfUniqueHaveNoDuplicates(Filter(obras, IsActiveObra), ObraId);
    SpentOverIds(ActiveObraIds(obras), gastos);
  }

  /** With no obra in progress nothing is spent. */
  lemma NoActiveObraSpendsNothing(obras: seq<Obra>, gastos: seq<GastoRow>)
    requires forall k :: 0 <= k < |obras| ==> obras[k].status != EnProgreso
    ensures TotalSpent(obras, gastos) == 0.0
  {
    FilterDropsAll(obras, IsActiveObra);
  }

  function Min(a: real, b: real): real { if a <= b then a else b }
  function Max(a: real, b: real): real { if a >= b then a else b }

  /** The width of the spend bar: spend over budget as a percentage, clamped to [0, 100]. */
  function SpentPercent(spent: real, budget: real): (p: real)
    ensures 0.0 <= p <= 100.0
    ensures budget <= 0.0 ==> p == 0.0
    ensures budget > 0.0 && 0.0 <= spent <= budget ==> p == spent / budget * 100.0
    ensures budget > 0.0 && spent >= budget ==> p == 100.0
    ensures budget > 0.0 && spent <= 0.0 ==> p == 0.0
  {
    if budget > 0.0 then
      var ratio := spent / budget;
      assert 0.0 <= spent ==> 0.0 <= ratio;
      assert spent <= budget ==> ratio <= 1.0;
      assert spent >= budget ==> ratio >= 1.0;
      Min(100.0, Max(0.0, ratio * 100.0))
    else 0.0
  }

  /** Spending 450 000 of a 3 000 000 budget fills 15 % of the bar. */
  lemma SpentPercentExample()
    ensures SpentPercent(450000.0, 3000000.0) == 15.0
  {
  }

  /** The spend bar's colour class. */
  datatype BarColor = Success | Warning | Destructive

  /** Severity: success, then warning, then destructive. */
  function Rank(c: BarColor): nat {
    match c
    case Success => 0
    case Warning => 1
    case Destructive => 2
  }

  /** Red from 90 % of the maximum, else amber from the minimum, else green; an unset or zero threshold is ignored. */
  function ProgressColor(min: Option<real>, max: Option<real>, spent: real): (c: BarColor)
    ensures c == Destructive <==> IsSet(max) && spent >= 0.9 * max.value
    ensures c == Warning <==> !(IsSet(max) && spent >= 0.9 * max.value) && IsSet(min) && spent >= min.value
    ensures c == Success <==> !(IsSet(max) && spent >= 0.9 * max.value) && !(IsSet(min) && spent >= min.value)
  {
    if IsSet(max) && spent >= 0.9 * max.value then Destructive
    else if IsSet(min) && spent >= min.value then Warning
    else Success
  }

  /** Without thresholds (missing or zero) the bar is always green. */
  lemma NoThresholdsIsSuccess(min: Option<real>, max: Option<real>, spent: real)
    requires !IsSet(min) && !IsSet(max)
    ensures ProgressColor(min, max, spent) == Success
  {
  }

  /** Spending more never makes the bar less severe, whatever the thresholds. */
  lemma ColorMonotone(min: Option<real>, max: Option<real>, s1: real, s2: real)
    requires s1 <= s2
    ensures Rank(ProgressColor(min, max, s1)) <= Rank(ProgressColor(min, max, s2))
  {
  }

  /** Nothing spent with positive (or no) thresholds is green. */
  lemma ZeroSpendIsSuccess(min: Option<real>, max: Option<real>)
    requires !IsSet(min) || min.value > 0.0
    requires !IsSet(max) || max.value > 0.0
    ensures ProgressColor(min, max, 0.0) == Success
  {
  }

  /** Everything the dashboard fetches in its first batch of requests. */
  datatype DashboardData = DashboardData(
    constructora: ConstructoraRow,
    obras: seq<ObraRow>,
    residentes: seq<ResidenteRow>,
    pagos: seq<PagoRow>,
    plans: seq<PlanRow>)

  /** The payment the "Pagar" button records. */
  function NewPayment(payMethod: PaymentMethod, payAmount: real, constructoraId: Option<string>,
                      id: string, now: string, reference: string): (p: Payment)
    ensures p.status == Completado && p.amount == payAmount && p.paymentMethod == payMethod
    ensures p.constructoraId == if Truthy(constructoraId) then constructoraId.value else "demo"
  {
    Payment(id, Or(constructoraId, "demo"), payAmount, now, Completado, payMethod, "Suscripción mensual", reference)
  }

  /**
   * The spend step of the load: 0 without obras in progress, otherwise the
   * sum of their spend rows, or the previous total when those requests fail.
   */
  method SpentAfterLoad(obras: seq<Obra>, gastos: Response<seq<GastoRow>>, previous: real) returns (spent: real)
    ensures spent == if ActiveObraIds(obras) == [] then 0.0
                     else if gastos.Ok? then TotalSpent(obras, gastos.value)
                     else previous
  {
    var activeIds := ActiveObraIds(obras);
    spent := previous;
    if |activeIds| > 0 {
      if gastos.Ok? {
        spent := Sum(GastosOfObras(activeIds, gastos.value), GastoAmount);
      }
    } else {
      spent := 0.0;
    }
  }

  /** The dashboard page's state. */
  class ConstructoraDashboard {
    var constructora: Option<Constructora>
    var obras: seq<Obra>
    var residentes: seq<Residente>
    var payments: seq<Payment>
    var totalSpent: real

    constructor ()
      ensures constructora == None && obras == [] && residentes == [] && payments == [] && totalSpent == 0.0
    {
      constructora := None;
      obras := [];
      residentes := [];
      payments := [];
      totalSpent := 0.0;
    }

    /**
     * The load effect.  Without a tenant id, or when one of the first
     * requests fails, nothing changes.  Otherwise the mapped data is shown;
     * the spend is 0 without obras in progress, the sum of their spend rows
     * when those requests succeed, and left as it was when one fails.
     */
    method Load(constructoraId: Option<string>, fetched: Response<DashboardData>,
                gastos: Response<seq<GastoRow>>, now: string, monthAgo: string)
      modifies this
      ensures !Truthy(constructoraId) || fetched.Failed? ==>
                constructora == old(constructora) && obras == old(obras) && residentes == old(residentes)
                && payments == old(payments) && totalSpent == old(totalSpent)
      ensures Truthy(constructoraId) && fetched.Ok? ==>
                var d := fetched.value;
                && constructora == Some(MapConstructora(d.constructora, d.plans, now))
                && obras == Map(d.obras, MapObra)
                && |residentes| == |d.residentes|
                && (forall k :: 0 <= k < |d.residentes| ==> residentes[k] == MapResidente(d.residentes[k], now))
                && (d.pagos == [] ==> payments == DemoPayments(constructoraId.value, now, monthAgo))
                && (d.pagos != [] ==>
                      |payments| == |d.pagos| && forall k :: 0 <= k < |d.pagos| ==> payments[k] == MapPayment(d.pagos[k], now))
                && totalSpent == (if ActiveObraIds(obras) == [] then 0.0
                                  else if gastos.Ok? then TotalSpent(obras, gastos.value)
                                  else old(totalSpent))
    {
      if !Truthy(constructoraId) || fetched.Failed? {
        return;
      }
      var d := fetched.value;
      var mappedPayments := MapPaymentsWithDemo(d.pagos, constructoraId.value, now, monthAgo);
      var mappedObras := Map(d.obras, MapObra);
      var spent := SpentAfterLoad(mappedObras, gastos, totalSpent);
      constructora := Some(MapConstructora(d.constructora, d.plans, now));
      obras := mappedObras;
      residentes := Map(d.residentes, (rr: ResidenteRow) => MapResidente(rr, now));
      payments := mappedPayments;
      totalSpent := spent;
    }

    /** The "Pagar" button: the new payment goes first, nothing else changes. */
    method Pay(payMethod: PaymentMethod, payAmount: real, constructoraId: Option<string>,
               id: string, now: string, reference: string)
      modifies this
      ensures payments == [NewPayment(payMethod, payAmount, constructoraId, id, now, reference)] + old(payments)
      ensures constructora == old(constructora) && obras == old(obras)
      ensures residentes == old(residentes) && totalSpent == old(totalSpent)
    {
      payments := [NewPayment(payMethod, payAmount, constructoraId, id, now, reference)] + payments;
    }
  }
}
