/** The indicators screen (`Dashboard.tsx`): counts of planos per status over the whole
    table and the integer percentage of each. */
module Dashboard {
  import opened Common
  import opened Rows
  import opened Store

  /** The `stats` state record. */
  datatype Stats = Stats(total: nat, planejado: nat, emAndamento: nat, concluido: nat, atrasado: nat)

  const ZeroStats := Stats(0, 0, 0, 0, 0)

  /** `data.filter(p => p.status === status).length`. */
  function Count(statuses: seq<string>, status: string): (n: nat)
    ensures n <= |statuses|
  {
    if statuses == [] then 0
    else (if statuses[0] == status then 1 else 0) + Count(statuses[1..], status)
  }

  /** A bucket is the number of occurrences of its status among the fetched rows. */
  lemma {:induction false} CountIsMultiplicity(statuses: seq<string>, status: string)
    ensures Count(statuses, status) == multiset(statuses)[status]
  {
    if statuses != [] {
      CountIsMultiplicity(statuses[1..], status);
      assert statuses == [statuses[0]] + statuses[1..];
    }
  }

  /** A bucket is empty exactly when no row has its status. */
  lemma {:induction false} CountZeroIffAbsent(statuses: seq<string>, status: string)
    ensures Count(statuses, status) == 0 <==> status !in statuses
    decreases |statuses|
  {
    if statuses != [] {
      CountZeroIffAbsent(statuses[1..], status);
      assert statuses == [statuses[0]] + statuses[1..];
    }
  }

  /** A bucket holds every row exactly when every row has its status. */
  lemma {:induction false} CountAllIffUniform(statuses: seq<string>, status: string)
    ensures Count(statuses, status) == |statuses| <==> forall i :: 0 <= i < |statuses| ==> statuses[i] == status
    decreases |statuses|
  {
    if statuses != [] {
      CountAllIffUniform(statuses[1..], status);
      if Count(statuses, status) == |statuses| {
        forall i | 0 <= i < |statuses| ensures statuses[i] == status {
          if i > 0 { assert statuses[i] == statuses[1..][i - 1]; }
        }
      }
      if forall i :: 0 <= i < |statuses| ==> statuses[i] == status {
        assert forall i :: 0 <= i < |statuses[1..]| ==> statuses[1..][i] == statuses[i + 1];
      }
    }
  }

  /** The record `loadStats` builds from the fetched `status` column (lines 35 to 41). */
  function ComputeStats(statuses: seq<string>): Stats {
    Stats(|statuses|,
          Count(statuses, Planejado),
          Count(statuses, EmAndamento),
          Count(statuses, Concluido),
          Count(statuses, Atrasado))
  }

  function BucketSum(s: Stats): nat {
    s.planejado + s.emAndamento + s.concluido + s.atrasado
  }

  predicate IsKnownStatus(s: string) {
    s == Planejado || s == EmAndamento || s == Concluido || s == Atrasado
  }

  /** `total` counts every fetched row and each bucket the rows with exactly its status;
      a row with any other status is in the total and in no bucket, so the buckets add up
      to the total exactly when every status is one of the four. */
  lemma {:induction false} StatsOfRows(statuses: seq<string>)
    ensures ComputeStats(statuses).total == |statuses|
    ensures ComputeStats(statuses).planejado == Count(statuses, Planejado)
    ensures ComputeStats(statuses).emAndamento == Count(statuses, EmAndamento)
    ensures ComputeStats(statuses).concluido == Count(statuses, Concluido)
    ensures ComputeStats(statuses).atrasado == Count(statuses, Atrasado)
    ensures BucketSum(ComputeStats(statuses)) <= |statuses|
    ensures BucketSum(ComputeStats(statuses)) == |statuses| <==> forall i :: 0 <= i < |statuses| ==> IsKnownStatus(statuses[i])
    decreases |statuses|
  {
    if statuses != [] {
      var tail := statuses[1..];
      StatsOfRows(tail);
      assert BucketSum(ComputeStats(statuses)) == BucketSum(ComputeStats(tail)) + (if IsKnownStatus(statuses[0]) then 1 else 0);
      assert forall i :: 0 <= i < |tail| ==> tail[i] == statuses[i + 1];
    }
  }

  /** `getPercentage`: 0 for an empty table (no division), otherwise
      `Math.round(value / total * 100)` in exact integer arithmetic: for non-negative
      operands `Math.round` rounds halves up, which is `(200 * value + total) / (2 * total)`. */
  function Percentage(value: nat, total: nat): (p: int)
    ensures total == 0 ==> p == 0
    ensures total > 0 ==> 200 * value - total < 2 * total * p <= 200 * value + total
  {
    if total == 0 then 0 else (200 * value + total) / (2 * total)
  }

  /** Multiplying by a non-negative number keeps an inequality. */
  lemma MulMonotone(c: int, a: int, b: int)
    requires c >= 0
    ensures a <= b ==> c * a <= c * b
  {
    assert c * b - c * a == c * (b - a);
  }

  /** The rounding is well defined: exactly one integer `q` has 100 * value / total in
      the half-open interval (q - 1/2, q + 1/2], written over the common denominator 2 * total. */
  lemma PercentageUnique(value: nat, total: nat, q: int)
    requires total > 0
    requires 200 * value - total < 2 * total * q <= 200 * value + total
    ensures q == Percentage(value, total)
  {
    var p := Percentage(value, total);
    var m := 2 * total;
    assert m * (q + 1) == m * q + m;
    assert m * (p + 1) == m * p + m;
    MulMonotone(m, q + 1, p);
    MulMonotone(m, p + 1, q);
  }

  /** For a bucket of a non-empty table the percentage lies in 0..100 and hits both ends. */
  lemma PercentageBounds(value: nat, total: nat)
    requires 0 < total && value <= total
    ensures 0 <= Percentage(value, total) <= 100
    ensures value == total ==> Percentage(value, total) == 100
    ensures value == 0 ==> Percentage(value, total) == 0
  {
    var p := Percentage(value, total);
    var m := 2 * total;
    assert 200 * value - total < m * p <= 200 * value + total;
    MulMonotone(m, 101, p);
    MulMonotone(m, p, -1);
    MulMonotone(m, p, 99);
    MulMonotone(m, 1, p);
  }

  /** `Count` over a row list with one row more at the front. */
  lemma CountCons(x: string, rest: seq<string>, status: string)
    ensures Count([x] + rest, status) == (if x == status then 1 else 0) + Count(rest, status)
  {
    assert ([x] + rest)[1..] == rest;
  }

  /** Percentages are rounded independently, so they need not add up to 100: three rows
      with three different statuses show 33% three times. */
  lemma PercentagesNeedNotSumTo100()
    ensures var s := ComputeStats([Planejado, EmAndamento, Concluido]);
            Percentage(s.planejado, s.total) + Percentage(s.emAndamento, s.total)
            + Percentage(s.concluido, s.total) + Percentage(s.atrasado, s.total) == 99
  {
    var rows := [Planejado, EmAndamento, Concluido];
    forall status | IsKnownStatus(status) ensures Count(rows, status) == (if status == Atrasado then 0 else 1) {
      CountCons(Concluido, [], status);
      CountCons(EmAndamento, [Concluido], status);
      CountCons(Planejado, [EmAndamento, Concluido], status);
      assert rows == [Planejado] + [EmAndamento, Concluido];
    }
    assert ComputeStats(rows) == Stats(3, 1, 1, 1, 0);
    assert Percentage(1, 3) == 33;
  }

  /** Four rows `Planejado, Planejado, Em andamento, Concluído` show a total of 4 and
      2 (50%), 1 (25%), 1 (25%) and 0 (0%). */
  lemma FourRowScenario()
    ensures var s := ComputeStats([Planejado, Planejado, EmAndamento, Concluido]);
            && s == Stats(4, 2, 1, 1, 0)
            && Percentage(s.planejado, s.total) == 50 && Percentage(s.emAndamento, s.total) == 25
            && Percentage(s.concluido, s.total) == 25 && Percentage(s.atrasado, s.total) == 0
  {
    var rows := [Planejado, Planejado, EmAndamento, Concluido];
    forall status | IsKnownStatus(status)
      ensures Count(rows, status) == if status == Planejado then 2 else if status == Atrasado then 0 else 1
    {
      CountCons(Concluido, [], status);
      CountCons(EmAndamento, [Concluido], status);
      CountCons(Planejado, [EmAndamento, Concluido], status);
      CountCons(Planejado, [Planejado, EmAndamento, Concluido], status);
      assert [Planejado] + [EmAndamento, Concluido] == [Planejado, EmAndamento, Concluido];
      assert rows == [Planejado] + [Planejado, EmAndamento, Concluido];
    }
    assert ComputeStats(rows) == Stats(4, 2, 1, 1, 0);
  }

  /** The dashboard's state: `stats` and `loading`. */
  class DashboardScreen {
    const store: Store
    var stats: Stats
    var loading: bool
    /** The status column of the last successful fetch, and the plano each entry came from. */
    ghost var fetched: seq<string>
    ghost var fetchedIds: seq<Id>

    /** The first render: all counts zero and `loading` set. */
    constructor (store: Store)
      ensures this.store == store && stats == ZeroStats && loading && fetched == [] && fetchedIds == []
    {
      this.store := store;
      stats := ZeroStats;
      loading := true;
      fetched, fetchedIds := [], [];
    }

    /** `loadStats`: on success `stats` is rebuilt from the fetched rows, which are one per
        stored plano; on failure it keeps its previous value; `loading` ends false either way. */
    method LoadStats(outcome: Outcome)
      modifies this`stats, this`loading, this`fetched, this`fetchedIds, store`log
      ensures !loading
      ensures store.log == old(store.log) + [Sent(Select(PlanoAnual, StatusOnly, []), old(loading))]
      ensures outcome == Ok ==>
                && stats == ComputeStats(fetched)
                && Enumerates(fetchedIds, store.planos) && |fetched| == |fetchedIds| == |store.planos|
                && forall i :: 0 <= i < |fetched| ==> fetched[i] == store.planos[fetchedIds[i]].status
      ensures outcome == Err ==> stats == old(stats) && fetched == old(fetched) && fetchedIds == old(fetchedIds)
    {
      var r, ids := store.SelectStatuses(outcome, loading);
      if r.Success? {
        EnumerationLength(ids, store.planos);
        fetched, fetchedIds := r.value, ids;
        stats := ComputeStats(r.value);
      }
      loading := false;
    }

    /** `getPercentage(value)` against the current total. */
    function GetPercentage(value: nat): (p: int)
      reads this
      ensures stats.total == 0 ==> p == 0
      ensures value <= stats.total ==> 0 <= p <= 100
    {
      if 0 < stats.total && value <= stats.total then
        PercentageBounds(value, stats.total);
        Percentage(value, stats.total)
      else
        Percentage(value, stats.total)
    }
  }
}
