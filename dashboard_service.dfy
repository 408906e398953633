/** The `{type, count}` to `{name, value}` mapping of
    `getMovementsByTypeStats` in src/app/features/dashboard/dashboard.service.ts. */
module Dashboard {
  import opened Text

  /** One entry of the backend's movements-by-type statistics. */
  datatype TypeCount = TypeCount(movementType: string, count: int)

  /** One entry of the chart data. */
  datatype ChartEntry = ChartEntry(name: string, value: int)

  /** `t.charAt(0).toUpperCase() + t.slice(1).toLowerCase()`. */
  function Capitalize(t: string): (name: string)
    ensures |name| == |t|
    ensures |t| > 0 ==> name[0] == UpperChar(t[0])
    ensures forall i :: 0 < i < |t| ==> name[i] == LowerChar(t[i])
  {
    if t == [] then "" else [UpperChar(t[0])] + ToLower(t[1..])
  }

  /** Capitalising a second time changes nothing. */
  lemma CapitalizeIdempotent(t: string)
    ensures Capitalize(Capitalize(t)) == Capitalize(t)
  {
  }

  /** The backend's type name ENTRADA becomes the chart label "Entrada". */
  lemma CapitalizeEntrada()
    ensures Capitalize("ENTRADA") == "Entrada"
  {
    assert ToLower("NTRADA") == "ntrada";
  }

  /** `backendStats.map(stat => ({name: Capitalize(stat.type), value: stat.count}))`. */
  function MovementTypeStats(backendStats: seq<TypeCount>): (chart: seq<ChartEntry>)
    ensures |chart| == |backendStats|
    ensures forall i :: 0 <= i < |chart| ==>
      chart[i].value == backendStats[i].count &&
      |chart[i].name| == |backendStats[i].movementType|
  {
    if backendStats == [] then []
    else
      var stat := backendStats[0];
      [ChartEntry(Capitalize(stat.movementType), stat.count)] + MovementTypeStats(backendStats[1..])
  }

  /** Entry i of the chart is the capitalised type of backend entry i. */
  lemma {:induction false} MovementTypeStatsNames(backendStats: seq<TypeCount>, i: nat)
    requires i < |backendStats|
    ensures MovementTypeStats(backendStats)[i].name == Capitalize(backendStats[i].movementType)
  {
    if i > 0 {
      MovementTypeStatsNames(backendStats[1..], i - 1);
    }
  }

  /** The mapping distributes over concatenation, so the chart keeps the
      backend's order. */
  lemma {:induction false} MovementTypeStatsAppend(a: seq<TypeCount>, b: seq<TypeCount>)
    ensures MovementTypeStats(a + b) == MovementTypeStats(a) + MovementTypeStats(b)
  {
    if a == [] {
      assert a + b == b;
    } else {
      assert (a + b)[1..] == a[1..] + b;
      MovementTypeStatsAppend(a[1..], b);
    }
  }
}
