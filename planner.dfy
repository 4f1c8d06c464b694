/**
 * The annual profit planner: a list of villas edited in a table, the per-row
 * and total EBITDA and net profit, scenario presets, the marketing ramp and the
 * 5/10/15-year return of each scenario.
 *
 * Money and ratios are exact `real` values in euros; villa ids are abstract
 * values standing for freshly generated UUIDs.
 */
module Planner {
  import opened Common

  type VillaId = nat

  datatype Villa = Villa(id: VillaId, name: string, dailyFee: real, occupancy: real, costPct: real)

  /** The fields an edit may set; absent fields keep their value. */
  datatype Patch = Patch(name: Option<string>, dailyFee: Option<real>,
                         occupancy: Option<real>, costPct: Option<real>)

  predicate DistinctIds(vs: seq<Villa>) {
    forall i, j :: 0 <= i < j < |vs| ==> vs[i].id != vs[j].id
  }

  predicate RatiosInRange(v: Villa) {
    0.0 <= v.occupancy <= 1.0 && 0.0 <= v.costPct <= 1.0
  }

  predicate AllRatiosInRange(vs: seq<Villa>) {
    forall i :: 0 <= i < |vs| ==> RatiosInRange(vs[i])
  }

  /* ---------- Table rows and totals ---------- */

  datatype Row = Row(villa: Villa, ebitdaEUR: real, netEUR: real)

  /** A villa's row: EBITDA is a year of its fee at its occupancy; net keeps what the cost share leaves. */
  function RowOf(v: Villa): (r: Row)
    ensures r.villa == v
    ensures r.ebitdaEUR == v.dailyFee * 365.0 * v.occupancy
    ensures r.ebitdaEUR - r.netEUR == r.ebitdaEUR * v.costPct
  {
    var ebitdaEUR := v.dailyFee * 365.0 * v.occupancy;
    Row(v, ebitdaEUR, ebitdaEUR * (1.0 - v.costPct))
  }

  /** With ratios in range and a non-negative fee, net profit lies between 0 and EBITDA. */
  lemma RowBounds(v: Villa)
    requires RatiosInRange(v) && v.dailyFee >= 0.0
    ensures 0.0 <= RowOf(v).netEUR <= RowOf(v).ebitdaEUR
    ensures v.occupancy == 0.0 ==> RowOf(v).netEUR == 0.0
  {
    var e := v.dailyFee * 365.0 * v.occupancy;
    MulNonNegative(v.dailyFee * 365.0, v.occupancy);
    MulNonNegative(e, v.costPct);
    assert RowOf(v).ebitdaEUR == e;
    assert RowOf(v).netEUR == e - e * v.costPct;
    assert e - e * v.costPct == e * (1.0 - v.costPct);
    MulNonNegative(e, 1.0 - v.costPct);
  }

  lemma MulNonNegative(a: real, b: real)
    requires a >= 0.0 && b >= 0.0
    ensures a * b >= 0.0
  {
  }

  /** One row per villa, in the villas' order. */
  function Rows(vs: seq<Villa>): (rows: seq<Row>)
    ensures |rows| == |vs|
    ensures forall i :: 0 <= i < |vs| ==> rows[i].villa == vs[i] && rows[i] == RowOf(vs[i])
  {
    seq(|vs|, i requires 0 <= i < |vs| => RowOf(vs[i]))
  }

  function EbitdaColumn(rows: seq<Row>): (col: seq<real>)
    ensures |col| == |rows|
    ensures forall i :: 0 <= i < |rows| ==> col[i] == rows[i].ebitdaEUR
  {
    seq(|rows|, i requires 0 <= i < |rows| => rows[i].ebitdaEUR)
  }

  function NetColumn(rows: seq<Row>): (col: seq<real>)
    ensures |col| == |rows|
    ensures forall i :: 0 <= i < |rows| ==> col[i] == rows[i].netEUR
  {
    seq(|rows|, i requires 0 <= i < |rows| => rows[i].netEUR)
  }

  /** `xs.reduce((a, x) => a + x, acc)`. */
  function FoldSum(acc: real, xs: seq<real>): real
    decreases |xs|
  {
    if xs == [] then acc else FoldSum(acc + xs[0], xs[1..])
  }

  /** The mathematical sum, as a reference for the fold. */
  function Sum(xs: seq<real>): real
    decreases |xs|
  {
    if xs == [] then 0.0 else xs[0] + Sum(xs[1..])
  }

  lemma {:induction false} FoldIsSum(acc: real, xs: seq<real>)
    ensures FoldSum(acc, xs) == acc + Sum(xs)
    decreases |xs|
  {
    if xs != [] {
      FoldIsSum(acc + xs[0], xs[1..]);
    }
  }

  lemma {:induction false} SumAppend(xs: seq<real>, x: real)
    ensures Sum(xs + [x]) == Sum(xs) + x
    decreases |xs|
  {
    if xs != [] {
      assert (xs + [x])[1..] == xs[1..] + [x];
      SumAppend(xs[1..], x);
    } else {
      assert [] + [x] == [x];
    }
  }

  datatype Totals = Totals(ebitdaEUR: real, netEUR: real)

  /** The footer: the two `reduce` folds, which are exactly the column sums. */
  function TotalsOf(rows: seq<Row>): (t: Totals)
    ensures t.ebitdaEUR == Sum(EbitdaColumn(rows))
    ensures t.netEUR == Sum(NetColumn(rows))
  {
    FoldIsSum(0.0, EbitdaColumn(rows));
    FoldIsSum(0.0, NetColumn(rows));
    Totals(FoldSum(0.0, EbitdaColumn(rows)), FoldSum(0.0, NetColumn(rows)))
  }

  /** Adding a villa adds exactly its row to both totals. */
  lemma TotalsAppend(vs: seq<Villa>, v: Villa)
    ensures TotalsOf(Rows(vs + [v])).ebitdaEUR == TotalsOf(Rows(vs)).ebitdaEUR + RowOf(v).ebitdaEUR
    ensures TotalsOf(Rows(vs + [v])).netEUR == TotalsOf(Rows(vs)).netEUR + RowOf(v).netEUR
  {
    var before, after := Rows(vs), Rows(vs + [v]);
    assert EbitdaColumn(after) == EbitdaColumn(before) + [RowOf(v).ebitdaEUR];
    assert NetColumn(after) == NetColumn(before) + [RowOf(v).netEUR];
    SumAppend(EbitdaColumn(before), RowOf(v).ebitdaEUR);
    SumAppend(NetColumn(before), RowOf(v).netEUR);
  }

  /* ---------- Marketing ramp and per-row return ---------- */

  const MARKETING_RAMP_YEARS: nat := 2

  /** The first two years earn nothing because of marketing costs. */
  function EffectiveYears(y: int): (e: nat)
    ensures y <= MARKETING_RAMP_YEARS ==> e == 0
    ensures y >= MARKETING_RAMP_YEARS ==> e + MARKETING_RAMP_YEARS == y
  {
    Max0(y - MARKETING_RAMP_YEARS)
  }

  /** A 5Y/10Y/15Y cell, in a row or in the footer: the yearly net over the years past the ramp. */
  function Roi(net: real, y: int): (roi: real)
    ensures y <= MARKETING_RAMP_YEARS ==> roi == 0.0
    ensures y >= MARKETING_RAMP_YEARS ==> roi == net * (y - MARKETING_RAMP_YEARS) as real
  {
    net * EffectiveYears(y) as real
  }

  function RoiColumn(rows: seq<Row>, y: int): (col: seq<real>)
    ensures |col| == |rows|
    ensures forall i :: 0 <= i < |rows| ==> col[i] == Roi(rows[i].netEUR, y)
  {
    seq(|rows|, i requires 0 <= i < |rows| => Roi(rows[i].netEUR, y))
  }

  lemma {:induction false} SumScale(xs: seq<real>, ys: seq<real>, k: real)
    requires |xs| == |ys|
    requires forall i :: 0 <= i < |xs| ==> ys[i] == xs[i] * k
    ensures Sum(ys) == Sum(xs) * k
    decreases |xs|
  {
    if xs != [] {
      SumScale(xs[1..], ys[1..], k);
    }
  }

  /** The footer's return cells are the sums of the rows' return cells. */
  lemma TotalsRoiIsSumOfRows(rows: seq<Row>, y: int)
    ensures Roi(TotalsOf(rows).netEUR, y) == Sum(RoiColumn(rows, y))
  {
    SumScale(NetColumn(rows), RoiColumn(rows, y), EffectiveYears(y) as real);
  }

  /* ---------- Editing the list ---------- */

  function Patched(v: Villa, p: Patch): (w: Villa)
    ensures w.id == v.id
    ensures w.name == p.name.GetOr(v.name) && w.dailyFee == p.dailyFee.GetOr(v.dailyFee)
    ensures w.occupancy == p.occupancy.GetOr(v.occupancy) && w.costPct == p.costPct.GetOr(v.costPct)
    ensures p == Patch(None, None, None, None) ==> w == v
  {
    Villa(v.id, p.name.GetOr(v.name), p.dailyFee.GetOr(v.dailyFee),
          p.occupancy.GetOr(v.occupancy), p.costPct.GetOr(v.costPct))
  }

  /** An edit applies to the villas with the given id and to no other. */
  function Updated(vs: seq<Villa>, id: VillaId, p: Patch): (ws: seq<Villa>)
    ensures |ws| == |vs|
    ensures forall i :: 0 <= i < |vs| ==> ws[i].id == vs[i].id
    ensures forall i :: 0 <= i < |vs| && vs[i].id != id ==> ws[i] == vs[i]
    ensures forall i :: 0 <= i < |vs| && vs[i].id == id ==> ws[i] == Patched(vs[i], p)
    ensures DistinctIds(vs) ==> DistinctIds(ws)
  {
    seq(|vs|, i requires 0 <= i < |vs| => if vs[i].id == id then Patched(vs[i], p) else vs[i])
  }

  predicate PatchInRange(p: Patch) {
    (p.occupancy.Some? ==> 0.0 <= p.occupancy.value <= 1.0) &&
    (p.costPct.Some? ==> 0.0 <= p.costPct.value <= 1.0)
  }

  lemma UpdatedKeepsRatios(vs: seq<Villa>, id: VillaId, p: Patch)
    requires AllRatiosInRange(vs) && PatchInRange(p)
    ensures AllRatiosInRange(Updated(vs, id, p))
  {
  }

  /** A percentage field: clamped to 0..100, then stored as a ratio. */
  function ClampPercent(x: real): (r: real)
    ensures 0.0 <= r <= 1.0
    ensures 0.0 <= x <= 100.0 ==> r * 100.0 == x
    ensures x < 0.0 ==> r == 0.0
    ensures x > 100.0 ==> r == 1.0
  {
    var c := if x < 0.0 then 0.0 else x;
    (if c > 100.0 then 100.0 else c) / 100.0
  }

  function NamePatch(text: string): Patch {
    Patch(Some(text), None, None, None)
  }

  /** A blank fee field reads as 0. */
  function FeePatch(input: Option<real>): Patch {
    Patch(None, Some(input.GetOr(0.0)), None, None)
  }

  function OccupancyPatch(x: real): Patch {
    Patch(None, None, Some(ClampPercent(x)), None)
  }

  function CostPatch(x: real): Patch {
    Patch(None, None, None, Some(ClampPercent(x)))
  }

  /** Every edit the table's inputs make keeps the ratios in range. */
  lemma TableEditsInRange(text: string, fee: Option<real>, x: real)
    ensures PatchInRange(NamePatch(text)) && PatchInRange(FeePatch(fee))
    ensures PatchInRange(OccupancyPatch(x)) && PatchInRange(CostPatch(x))
  {
  }

  /** The default villa added to a table of `count` villas: named `Villa ` and then its 1-based position in decimal. */
  function NewVilla(id: VillaId, count: nat): (v: Villa)
    ensures v.id == id && |v.name| > 6 && v.name[..6] == "Villa "
    ensures v.name[6..] == DecimalString(count + 1)
    ensures AllDigits(v.name[6..]) && DecimalValue(v.name[6..]) == count + 1 && v.name[6] != '0'
    ensures v.dailyFee == 600.0 && v.occupancy == 0.6 && v.costPct == 0.35 && RatiosInRange(v)
  {
    Villa(id, "Villa " + DecimalString(count + 1), 600.0, 0.6, 0.35)
  }

  /** Adding appends one default villa and leaves the earlier ones as they were. */
  function Appended(vs: seq<Villa>, freshId: VillaId): (ws: seq<Villa>)
    ensures |ws| == |vs| + 1 && ws[..|vs|] == vs
    ensures ws[|vs|].id == freshId && ws[|vs|].name == "Villa " + DecimalString(|vs| + 1)
    ensures ws[|vs|].dailyFee == 600.0 && ws[|vs|].occupancy == 0.6 && ws[|vs|].costPct == 0.35
    ensures DistinctIds(vs) && (forall i :: 0 <= i < |vs| ==> vs[i].id != freshId) ==> DistinctIds(ws)
  {
    vs + [NewVilla(freshId, |vs|)]
  }

  /** `vs.filter(v => v.id !== id)`. */
  function Removed(vs: seq<Villa>, id: VillaId): (ws: seq<Villa>)
    ensures |ws| <= |vs|
    ensures forall k :: 0 <= k < |ws| ==> ws[k].id != id
    decreases |vs|
  {
    if vs == [] then []
    else if vs[0].id == id then Removed(vs[1..], id)
    else [vs[0]] + Removed(vs[1..], id)
  }

  /** Removing keeps exactly the villas with another id. */
  lemma {:induction false} RemovedMembers(vs: seq<Villa>, id: VillaId)
    ensures forall v :: v in Removed(vs, id) <==> v in vs && v.id != id
    decreases |vs|
  {
    if vs != [] {
      RemovedMembers(vs[1..], id);
      assert forall v :: v in vs <==> v == vs[0] || v in vs[1..];
    }
  }

  /** Removing an id no villa has changes nothing. */
  lemma {:induction false} RemovedAbsent(vs: seq<Villa>, id: VillaId)
    requires forall i :: 0 <= i < |vs| ==> vs[i].id != id
    ensures Removed(vs, id) == vs
    decreases |vs|
  {
    if vs != [] {
      assert vs[0].id != id;
      forall i | 0 <= i < |vs[1..]| ensures vs[1..][i].id != id {
        assert vs[1..][i] == vs[i + 1];
      }
      RemovedAbsent(vs[1..], id);
      assert vs == [vs[0]] + vs[1..];
    }
  }

  lemma {:induction false} RemovedKeepsDistinct(vs: seq<Villa>, id: VillaId)
    requires DistinctIds(vs)
    ensures DistinctIds(Removed(vs, id))
    decreases |vs|
  {
    if vs != [] {
      var tail := vs[1..];
      DistinctTail(vs);
      RemovedKeepsDistinct(tail, id);
      if vs[0].id != id {
        var rest := Removed(tail, id);
        RemovedMembers(tail, id);
        forall k | 0 <= k < |rest| ensures rest[k].id != vs[0].id {
          assert rest[k] in tail;
          var j :| 0 <= j < |tail| && tail[j] == rest[k];
          assert tail[j] == vs[j + 1];
        }
        var ws := [vs[0]] + rest;
        forall i, j | 0 <= i < j < |ws| ensures ws[i].id != ws[j].id {
          assert ws[j] == rest[j - 1];
          if i > 0 { assert ws[i] == rest[i - 1]; }
        }
      }
    }
  }

  lemma DistinctTail(vs: seq<Villa>)
    requires DistinctIds(vs) && vs != []
    ensures DistinctIds(vs[1..])
    ensures forall i :: 1 <= i < |vs| ==> vs[i].id != vs[0].id
  {
  }

  lemma RemovedKeepsRatios(vs: seq<Villa>, id: VillaId)
    requires AllRatiosInRange(vs)
    ensures AllRatiosInRange(Removed(vs, id))
  {
    RemovedMembers(vs, id);
  }

  /** With distinct ids, removing the villa at index k drops that one entry only. */
  lemma {:induction false} RemovedAt(vs: seq<Villa>, k: nat)
    requires DistinctIds(vs) && k < |vs|
    ensures Removed(vs, vs[k].id) == vs[..k] + vs[k + 1..]
    decreases |vs|
  {
    var id := vs[k].id;
    var tail := vs[1..];
    DistinctTail(vs);
    if k == 0 {
      forall i | 0 <= i < |tail| ensures tail[i].id != id {
        assert tail[i] == vs[i + 1];
      }
      RemovedAbsent(tail, id);
      assert Removed(vs, id) == Removed(tail, id);
      assert vs[..0] + vs[1..] == tail;
    } else {
      assert tail[k - 1] == vs[k];
      assert vs[0].id != id;
      assert Removed(vs, id) == [vs[0]] + Removed(tail, id);
      RemovedAt(tail, k - 1);
      assert tail[..k - 1] == vs[1..k];
      assert tail[k..] == vs[k + 1..];
      assert [vs[0]] + vs[1..k] == vs[..k];
    }
  }

  /* ---------- Scenarios ---------- */

  datatype Scenario = Pessimistic | Base | Optimistic

  /** The daily fees a scenario sets for the first two villas. */
  function ScenarioFees(scn: Scenario): (fees: seq<real>)
    ensures |fees| == 2
    ensures fees[0] > 0.0 && fees[1] > 0.0
    ensures scn == Pessimistic ==> fees == [400.0, 350.0]
    ensures scn == Base ==> fees == [700.0, 550.0]
    ensures scn == Optimistic ==> fees == [1000.0, 800.0]
  {
    match scn
    case Pessimistic => [400.0, 350.0]
    case Base => [700.0, 550.0]
    case Optimistic => [1000.0, 800.0]
  }

  function ScenarioCost(scn: Scenario): (c: real)
    ensures 0.0 <= c <= 1.0
    ensures scn == Pessimistic ==> c == 0.40
    ensures scn == Base ==> c == 0.35
    ensures scn == Optimistic ==> c == 0.30
  {
    match scn
    case Pessimistic => 0.40
    case Base => 0.35
    case Optimistic => 0.30
  }

  const SCENARIO_OCCUPANCY: real := 0.60

  /** `fees[scn][i]`, which is undefined past the table's end. */
  function FeeAt(scn: Scenario, i: nat): (r: Option<real>)
    ensures r.Some? <==> i < 2
    ensures i < 2 ==> r.value == ScenarioFees(scn)[i]
  {
    if i < |ScenarioFees(scn)| then Some(ScenarioFees(scn)[i]) else None
  }

  /** Villa `i` after a preset: the first two are renamed and repriced, every one gets the preset's ratios. */
  function ScenarioVilla(v: Villa, i: nat, scn: Scenario): (w: Villa)
    ensures w.id == v.id && RatiosInRange(w)
    ensures w.occupancy == SCENARIO_OCCUPANCY && w.costPct == ScenarioCost(scn)
    ensures i < 2 ==> w.dailyFee == ScenarioFees(scn)[i] && w.name == ["ALYA", "ZEHRA"][i]
    ensures i >= 2 ==> w.dailyFee == v.dailyFee && w.name == v.name
  {
    v.(name := if i == 0 then "ALYA" else if i == 1 then "ZEHRA" else v.name,
       dailyFee := FeeAt(scn, i).GetOr(v.dailyFee),
       occupancy := SCENARIO_OCCUPANCY,
       costPct := ScenarioCost(scn))
  }

  /** Applying a preset renames and reprices the first two villas and resets every villa's ratios. */
  function WithScenario(vs: seq<Villa>, scn: Scenario): (ws: seq<Villa>)
    ensures |ws| == |vs|
    ensures forall i :: 0 <= i < |vs| ==> ws[i].id == vs[i].id
    ensures forall i :: 0 <= i < |vs| ==> ws[i].occupancy == 0.60 && ws[i].costPct == ScenarioCost(scn)
    ensures |vs| > 0 ==> ws[0].name == "ALYA" && ws[0].dailyFee == ScenarioFees(scn)[0]
    ensures |vs| > 1 ==> ws[1].name == "ZEHRA" && ws[1].dailyFee == ScenarioFees(scn)[1]
    ensures forall i :: 2 <= i < |vs| ==> ws[i].name == vs[i].name && ws[i].dailyFee == vs[i].dailyFee
    ensures DistinctIds(vs) ==> DistinctIds(ws)
    ensures AllRatiosInRange(ws)
  {
    seq(|vs|, i requires 0 <= i < |vs| => ScenarioVilla(vs[i], i, scn))
  }

  /** Applying the same preset twice is the same as applying it once. */
  lemma WithScenarioIdempotent(vs: seq<Villa>, scn: Scenario)
    ensures WithScenario(WithScenario(vs, scn), scn) == WithScenario(vs, scn)
  {
  }

  /** Net profit of slot i under a scenario; slots past the table use the first villa's fee. */
  function ScenarioSlotNet(scn: Scenario, i: nat): (net: real)
    ensures net == ScenarioFees(scn)[if i == 1 then 1 else 0] * 365.0 * SCENARIO_OCCUPANCY * (1.0 - ScenarioCost(scn))
    ensures net >= 0.0
  {
    var daily := FeeAt(scn, i).GetOr(ScenarioFees(scn)[0]);
    var ebitda := daily * 365.0 * SCENARIO_OCCUPANCY;
    ebitda * (1.0 - ScenarioCost(scn))
  }

  /** The scenario's annual net profit of `count` villas: the sum over slots 0 .. count-1. */
  function AnnualNet(count: nat, scn: Scenario): (total: real)
    ensures total >= 0.0
    ensures count > 0 ==> total >= ScenarioSlotNet(scn, 0)
  {
    if count == 0 then 0.0 else AnnualNet(count - 1, scn) + ScenarioSlotNet(scn, count - 1)
  }

  /** Closed form: every slot but the second earns the first villa's scenario net. */
  lemma {:induction false} AnnualNetClosedForm(count: nat, scn: Scenario)
    ensures AnnualNet(count, scn) ==
      if count == 0 then 0.0
      else if count == 1 then ScenarioSlotNet(scn, 0)
      else ScenarioSlotNet(scn, 1) + (count - 1) as real * ScenarioSlotNet(scn, 0)
  {
    if count > 2 {
      AnnualNetClosedForm(count - 1, scn);
      assert ScenarioSlotNet(scn, count - 1) == ScenarioSlotNet(scn, 0);
    }
  }

  /** The base scenario for the two villas: 99,645 + 78,292.5 a year. */
  lemma BaseScenarioExample()
    ensures ScenarioSlotNet(Base, 0) == 99645.0
    ensures ScenarioSlotNet(Base, 1) == 78292.5
    ensures AnnualNet(2, Base) == 177937.5
    ensures AnnualNet(2, Base) * EffectiveYears(10) as real == 1423500.0
  {
  }

  /**
   * With at most two villas, the table's net total right after a preset is the
   * scenario's annual net used for the projection.
   */
  lemma PresetTableMatchesProjection(vs: seq<Villa>, scn: Scenario)
    requires |vs| <= 2
    ensures TotalsOf(Rows(WithScenario(vs, scn))).netEUR == AnnualNet(|vs|, scn)
  {
    var col := NetColumn(Rows(WithScenario(vs, scn)));
    forall i | 0 <= i < |vs| ensures col[i] == ScenarioSlotNet(scn, i) {
      PresetRowNet(vs[i], i, scn);
    }
    if |vs| == 1 {
      assert col[1..] == [];
      assert Sum(col) == col[0];
    } else if |vs| == 2 {
      assert col[1..][1..] == [];
      assert Sum(col[1..]) == col[1];
      assert Sum(col) == col[0] + col[1];
      assert AnnualNet(2, scn) == ScenarioSlotNet(scn, 0) + ScenarioSlotNet(scn, 1);
    }
  }

  lemma PresetRowNet(v: Villa, i: nat, scn: Scenario)
    requires i < 2
    ensures RowOf(ScenarioVilla(v, i, scn)).netEUR == ScenarioSlotNet(scn, i)
  {
  }

  datatype RoiRow = RoiRow(year: nat, pessimistic: real, base: real, optimistic: real)

  function RoiRowAt(count: nat, year: nat): RoiRow {
    RoiRow(year,
           AnnualNet(count, Pessimistic) * EffectiveYears(year) as real,
           AnnualNet(count, Base) * EffectiveYears(year) as real,
           AnnualNet(count, Optimistic) * EffectiveYears(year) as real)
  }

  /** The 5, 10 and 15-year rows: three, eight and thirteen years of annual net. */
  function RoiRows(count: nat): (rows: seq<RoiRow>)
    ensures var p, m, o := AnnualNet(count, Pessimistic), AnnualNet(count, Base), AnnualNet(count, Optimistic);
      rows == [RoiRow(5, p * 3.0, m * 3.0, o * 3.0),
               RoiRow(10, p * 8.0, m * 8.0, o * 8.0),
               RoiRow(15, p * 13.0, m * 13.0, o * 13.0)]
  {
    assert EffectiveYears(5) == 3 && EffectiveYears(10) == 8 && EffectiveYears(15) == 13;
    [RoiRowAt(count, 5), RoiRowAt(count, 10), RoiRowAt(count, 15)]
  }

  /* ---------- The planner's state ---------- */

  class PlannerState {
    var villas: seq<Villa>

    ghost predicate Valid()
      reads this
    {
      DistinctIds(villas) && AllRatiosInRange(villas)
    }

    /** The two villas the page starts with. */
    constructor (idA: VillaId, idB: VillaId)
      requires idA != idB
      ensures Valid()
      ensures villas == [Villa(idA, "ALYA", 700.0, 0.60, 0.35), Villa(idB, "ZEHRA", 550.0, 0.60, 0.35)]
    {
      villas := [Villa(idA, "ALYA", 700.0, 0.60, 0.35), Villa(idB, "ZEHRA", 550.0, 0.60, 0.35)];
    }

    function RowsNow(): seq<Row>
      reads this
    {
      Rows(villas)
    }

    function TotalsNow(): Totals
      reads this
    {
      TotalsOf(Rows(villas))
    }

    method Update(id: VillaId, p: Patch)
      requires Valid()
      modifies this
      ensures villas == Updated(old(villas), id, p)
      ensures DistinctIds(villas)
      ensures PatchInRange(p) ==> Valid()
    {
      if PatchInRange(p) {
        UpdatedKeepsRatios(villas, id, p);
      }
      villas := Updated(villas, id, p);
    }

    method AddVilla(freshId: VillaId)
      requires Valid()
      requires forall i :: 0 <= i < |villas| ==> villas[i].id != freshId
      modifies this
      ensures Valid()
      ensures villas == Appended(old(villas), freshId)
    {
      villas := Appended(villas, freshId);
    }

    method RemoveVilla(id: VillaId)
      requires Valid()
      modifies this
      ensures Valid()
      ensures villas == Removed(old(villas), id)
    {
      RemovedKeepsDistinct(villas, id);
      RemovedKeepsRatios(villas, id);
      villas := Removed(villas, id);
    }

    method ApplyScenario(scn: Scenario)
      requires Valid()
      modifies this
      ensures Valid()
      ensures villas == WithScenario(old(villas), scn)
    {
      villas := WithScenario(villas, scn);
    }

    /** Uses only how many villas there are, never their live fees or ratios. */
    method ScenarioAnnualNet(scn: Scenario) returns (totalNet: real)
      ensures totalNet == AnnualNet(|villas|, scn)
    {
      var fees := ScenarioFees(scn);
      var costPct := ScenarioCost(scn);
      var occ := 0.60;
      totalNet := 0.0;
      var i := 0;
      while i < |villas|
        invariant 0 <= i <= |villas|
        invariant totalNet == AnnualNet(i, scn)
      {
        var daily := if i < |fees| then fees[i] else fees[0];
        var ebitda := daily * 365.0 * occ;
        var net := ebitda * (1.0 - costPct);
        totalNet := totalNet + net;
        i := i + 1;
      }
    }

    /** The chart's data: each scenario's annual net times the effective years. */
    method RoiTable() returns (rows: seq<RoiRow>)
      ensures rows == RoiRows(|villas|)
    {
      var p := ScenarioAnnualNet(Pessimistic);
      var m := ScenarioAnnualNet(Base);
      var o := ScenarioAnnualNet(Optimistic);
      var y5, y10, y15 := EffectiveYears(5) as real, EffectiveYears(10) as real, EffectiveYears(15) as real;
      rows := [RoiRow(5, p * y5, m * y5, o * y5),
               RoiRow(10, p * y10, m * y10, o * y10),
               RoiRow(15, p * y15, m * y15, o * y15)];
      assert rows[0] == RoiRowAt(|villas|, 5);
      assert rows[1] == RoiRowAt(|villas|, 10);
      assert rows[2] == RoiRowAt(|villas|, 15);
    }
  }
}
