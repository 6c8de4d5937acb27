// The chart's value list and the summary table's rows (src/visualizacao.py), without
// the drawing, the grid rendering and the one-decimal formatting: a value cell holds
// the exact percentage it would print.
module Visualization {
  import opened Records
  import Config
  import Aggregation
  import Storage

  /** The column (and bar) order: a label list of its own, not the aggregation one. */
  const Columns: seq<string> := ["raiva", "alegria", "frustracao", "ironia", "neutro"]

  /** The row order of the summary table. */
  const PhaseOrder: seq<string> := ["pre_jogo", "durante_jogo", "pos_jogo"]

  const Headers: seq<string> :=
    ["Etapa", "Raiva", "Alegria", "Frustração", "Ironia", "Neutro", "Predominante"]

  /** nomes_etapas.get(etapa, etapa). */
  function DisplayName(phase: string): string {
    if phase == "pre_jogo" then "Pré-jogo"
    else if phase == "durante_jogo" then "Durante o jogo"
    else if phase == "pos_jogo" then "Pós-jogo"
    else phase
  }

  /** gerar_grafico_barras's bar heights: each column's value, 0 when missing. */
  function ChartValues(d: Dist): (vs: seq<real>)
    ensures |vs| == |Columns|
    ensures forall i :: 0 <= i < |vs| ==> vs[i] == Get(d, Columns[i], 0.0)
  {
    seq(|Columns|, i requires 0 <= i < |Columns| => Get(d, Columns[i], 0.0))
  }

  /** The entry max(d.items(), key=value) picks: a maximal value, and the earliest
      such entry in insertion order. */
  function ArgMax(d: Dist): (k: nat)
    requires d != []
    ensures k < |d|
    ensures forall j :: 0 <= j < |d| ==> d[j].1 <= d[k].1
    ensures forall j :: 0 <= j < k ==> d[j].1 < d[k].1
  {
    if |d| == 1 then 0
    else
      var k := ArgMax(d[..|d| - 1]);
      if d[|d| - 1].1 > d[k].1 then |d| - 1 else k
  }

  /** The predominant label of a phase: "-" for an empty dictionary. */
  function Predominant(d: Dist): string {
    if d == [] then "-" else d[ArgMax(d)].0
  }

  /** One table cell: text, or a percentage before formatting. */
  datatype Cell = Label(text: string) | Share(value: real)

  /** percentuais_etapas.get(etapa, {}). */
  function PhaseDist(phases: map<string, Dist>, phase: string): Dist {
    if phase in phases then phases[phase] else []
  }

  function ValueCells(d: Dist): seq<Cell> {
    seq(|Columns|, j requires 0 <= j < |Columns| => Share(Get(d, Columns[j], 0.0)))
  }

  function SummaryRow(phases: map<string, Dist>, phase: string): seq<Cell> {
    var d := PhaseDist(phases, phase);
    [Label(DisplayName(phase))] + ValueCells(d) + [Label(Predominant(d))]
  }

  function SummaryRows(phases: map<string, Dist>): seq<seq<Cell>> {
    seq(|PhaseOrder|, i requires 0 <= i < |PhaseOrder| => SummaryRow(phases, PhaseOrder[i]))
  }

  /** gerar_tabela_resumo's table: one row per phase in the fixed order, each row built
      cell by cell. */
  method SummaryTable(phases: map<string, Dist>) returns (table: seq<seq<Cell>>)
    ensures table == SummaryRows(phases)
  {
    table := [];
    for i := 0 to |PhaseOrder|
      invariant table == SummaryRows(phases)[..i]
    {
      var phase := PhaseOrder[i];
      var perc := if phase in phases then phases[phase] else [];
      var predominant := if perc != [] then perc[ArgMax(perc)].0 else "-";
      var row := [Label(DisplayName(phase))];
      for j := 0 to |Columns|
        invariant row == [Label(DisplayName(phase))] + ValueCells(perc)[..j]
      {
        row := row + [Share(Get(perc, Columns[j], 0.0))];
      }
      row := row + [Label(predominant)];
      assert row == SummaryRow(phases, phase);
      table := table + [row];
    }
  }

  /** Whatever the input: three rows in the order pre_jogo, durante_jogo, pos_jogo, each
      with as many cells as there are headers — the display name, the five column
      values and the predominant label; a missing or empty phase gives zeros and "-". */
  lemma {:induction false} SummaryShape(phases: map<string, Dist>)
    ensures var rows := SummaryRows(phases);
      && |rows| == 3
      && rows[0][0] == Label("Pré-jogo")
      && rows[1][0] == Label("Durante o jogo")
      && rows[2][0] == Label("Pós-jogo")
      && forall i :: 0 <= i < 3 ==>
        && |rows[i]| == |Headers|
        && (forall j :: 1 <= j <= 5 ==> rows[i][j] == Share(Get(PhaseDist(phases, PhaseOrder[i]), Columns[j - 1], 0.0)))
        && rows[i][6] == Label(Predominant(PhaseDist(phases, PhaseOrder[i])))
        && (PhaseDist(phases, PhaseOrder[i]) == [] ==>
              rows[i][6] == Label("-") && forall j :: 1 <= j <= 5 ==> rows[i][j] == Share(0.0))
  {
    var rows := SummaryRows(phases);
    forall i | 0 <= i < 3
      ensures rows[i] == SummaryRow(phases, PhaseOrder[i])
    {
    }
    SummaryRowShape(PhaseDist(phases, PhaseOrder[0]), DisplayName(PhaseOrder[0]));
    SummaryRowShape(PhaseDist(phases, PhaseOrder[1]), DisplayName(PhaseOrder[1]));
    SummaryRowShape(PhaseDist(phases, PhaseOrder[2]), DisplayName(PhaseOrder[2]));
  }

  /** One row: its name, the five column values of d, then d's predominant label. */
  lemma {:induction false} SummaryRowShape(d: Dist, name: string)
    ensures var row := [Label(name)] + ValueCells(d) + [Label(Predominant(d))];
      && |row| == |Headers|
      && row[0] == Label(name)
      && (forall j :: 1 <= j <= 5 ==> row[j] == Share(Get(d, Columns[j - 1], 0.0)))
      && row[6] == Label(Predominant(d))
      && (d == [] ==> row[6] == Label("-") && forall j :: 1 <= j <= 5 ==> row[j] == Share(0.0))
  {
    var row := [Label(name)] + ValueCells(d) + [Label(Predominant(d))];
    forall j | 1 <= j <= 5
      ensures row[j] == Share(Get(d, Columns[j - 1], 0.0))
    {
      assert row[j] == ValueCells(d)[j - 1];
    }
  }

  /** One bar of the chart over aggregation output: the column's share when the
      column is an aggregation label and the batch is not empty, 0 otherwise. */
  lemma {:induction false} ChartColumn(posts: seq<Post>, i: nat)
    requires Aggregation.Classified(posts) && i < |Columns|
    ensures ChartValues(Aggregation.Percentages(posts))[i]
         == if posts == [] || Columns[i] !in Config.Emotions then 0.0
            else Aggregation.Percent(Aggregation.CountLabel(posts, Columns[i]), |posts|)
  {
    var d := Aggregation.Percentages(posts);
    if posts == [] {
      GetAbsent(d, Columns[i], 0.0);
    } else {
      Aggregation.PercentagesLookup(posts, Columns[i], 0.0);
    }
  }

  /** With aggregation output, the frustracao, ironia and neutro columns are always 0,
      the raiva and alegria columns are those labels' shares, and an empty batch gives
      all zeros. */
  lemma {:induction false} ChartOfAggregation(posts: seq<Post>)
    requires Aggregation.Classified(posts)
    ensures var vs := ChartValues(Aggregation.Percentages(posts));
      && vs[2] == 0.0 && vs[3] == 0.0 && vs[4] == 0.0
      && (posts == [] ==> vs == [0.0, 0.0, 0.0, 0.0, 0.0])
      && (posts != [] ==>
            && vs[0] == Aggregation.Percent(Aggregation.CountLabel(posts, "raiva"), |posts|)
            && vs[1] == Aggregation.Percent(Aggregation.CountLabel(posts, "alegria"), |posts|))
  {
    var vs := ChartValues(Aggregation.Percentages(posts));
    ChartColumn(posts, 0);
    ChartColumn(posts, 1);
    ChartColumn(posts, 2);
    ChartColumn(posts, 3);
    ChartColumn(posts, 4);
    assert Columns[0] in Config.Emotions && Columns[1] in Config.Emotions;
    assert Columns[2] !in Config.Emotions && Columns[3] !in Config.Emotions && Columns[4] !in Config.Emotions;
    if posts == [] {
      assert vs == [vs[0], vs[1], vs[2], vs[3], vs[4]];
    }
  }

  /** With aggregation output the predominant label is "-" for an empty batch and
      otherwise an aggregation label with the largest share — which may be tristeza,
      surpresa or medo, none of which has a column. */
  lemma {:induction false} PredominantOfAggregation(posts: seq<Post>)
    requires Aggregation.Classified(posts)
    ensures var d := Aggregation.Percentages(posts);
      var p := Predominant(d);
      && (posts == [] ==> p == "-")
      && (posts != [] ==> p in Config.Emotions)
      && (posts != [] ==> forall e :: e in Config.Emotions ==>
            Aggregation.CountLabel(posts, e) <= Aggregation.CountLabel(posts, p))
  {
    var d := Aggregation.Percentages(posts);
    if posts != [] {
      var k := ArgMax(d);
      assert Keys(d)[k] == d[k].0;
      forall e | e in Config.Emotions
        ensures Aggregation.CountLabel(posts, e) <= Aggregation.CountLabel(posts, d[k].0)
      {
        var j :| 0 <= j < |Config.Emotions| && Config.Emotions[j] == e;
        assert Keys(d)[j] == d[j].0;
        assert d[j].1 <= d[k].1;
        PercentMonotone(Aggregation.CountLabel(posts, e), Aggregation.CountLabel(posts, d[k].0), |posts|);
      }
    }
  }

  /** Percentages over one total order as their counts do. */
  lemma {:induction false} PercentMonotone(a: nat, b: nat, total: nat)
    requires total > 0
    requires Aggregation.Percent(a, total) <= Aggregation.Percent(b, total)
    ensures a <= b
  {
    var x, y, t := a as real, b as real, total as real;
    assert x / t * t == x && y / t * t == y;
  }

  lemma {:induction false} CountLabelUniform(posts: seq<Post>, e: string, other: string)
    requires forall i :: 0 <= i < |posts| ==> posts[i].emotion == Some(e)
    ensures Aggregation.CountLabel(posts, e) == |posts|
    ensures other != e ==> Aggregation.CountLabel(posts, other) == 0
  {
    if posts != [] {
      CountLabelUniform(posts[1..], e, other);
    }
  }

  /** The mismatch between the two label lists made concrete: for a non-empty batch
      classified entirely as tristeza, the table names tristeza as predominant while
      every one of its five value columns is 0. */
  lemma {:induction false} AllSadRow(posts: seq<Post>)
    requires posts != []
    requires forall i :: 0 <= i < |posts| ==> posts[i].emotion == Some("tristeza")
    ensures var phases := map["pre_jogo" := Aggregation.Percentages(posts)];
      var row := SummaryRows(phases)[0];
      && row[6] == Label("tristeza")
      && forall j :: 1 <= j <= 5 ==> row[j] == Share(0.0)
  {
    var phases := map["pre_jogo" := Aggregation.Percentages(posts)];
    var d := Aggregation.Percentages(posts);
    var row := SummaryRows(phases)[0];
    assert PhaseDist(phases, PhaseOrder[0]) == d;
    assert row == [Label(DisplayName("pre_jogo"))] + ValueCells(d) + [Label(Predominant(d))];
    AllSadPredominant(posts);
    AllSadChart(posts);
    forall j | 1 <= j <= 5
      ensures row[j] == Share(0.0)
    {
      assert row[j] == ValueCells(d)[j - 1] == Share(ChartValues(d)[j - 1]);
    }
  }

  lemma {:induction false} AllSadPredominant(posts: seq<Post>)
    requires posts != []
    requires forall i :: 0 <= i < |posts| ==> posts[i].emotion == Some("tristeza")
    ensures Predominant(Aggregation.Percentages(posts)) == "tristeza"
  {
    var p := Predominant(Aggregation.Percentages(posts));
    CountLabelUniform(posts, "tristeza", p);
    PredominantOfAggregation(posts);
  }

  lemma {:induction false} AllSadChart(posts: seq<Post>)
    requires posts != []
    requires forall i :: 0 <= i < |posts| ==> posts[i].emotion == Some("tristeza")
    ensures forall i :: 0 <= i < |Columns| ==> ChartValues(Aggregation.Percentages(posts))[i] == 0.0
  {
    ChartOfAggregation(posts);
    CountLabelUniform(posts, "tristeza", "raiva");
    CountLabelUniform(posts, "tristeza", "alegria");
    Aggregation.PercentBounds(0, |posts|);
  }

  /** The chart and table files: grafico_emocoes_<id>.png and tabela_resumo_<id>.txt. */
  function ChartPath(folder: string, id: string): string {
    Storage.Join(folder, "grafico_emocoes_" + id + ".png")
  }

  function TablePath(folder: string, id: string): string {
    Storage.Join(folder, "tabela_resumo_" + id + ".txt")
  }

  /** The chart never overwrites the table, nor the table the chart, in the same folder. */
  lemma {:induction false} ChartAndTableDistinct(folder: string, id1: string, id2: string)
    ensures ChartPath(folder, id1) != TablePath(folder, id2)
  {
    var c := "grafico_emocoes_" + id1 + ".png";
    var t := "tabela_resumo_" + id2 + ".txt";
    if ChartPath(folder, id1) == TablePath(folder, id2) {
      assert c[0] == 'g' && t[0] == 't';
      Storage.JoinInjective(folder, c, t);
    }
  }

  /** A file named prefix + id + suffix in a folder determines the id. */
  lemma {:induction false} NamedFileInjective(folder: string, prefix: string, suffix: string, id1: string, id2: string)
    requires prefix != [] && prefix[0] != '/'
    requires Storage.Join(folder, prefix + id1 + suffix) == Storage.Join(folder, prefix + id2 + suffix)
    ensures id1 == id2
  {
    var n1, n2 := prefix + id1 + suffix, prefix + id2 + suffix;
    assert n1[0] == prefix[0] && n2[0] == prefix[0];
    assert n1[|prefix|..|n1| - |suffix|] == id1;
    assert n2[|prefix|..|n2| - |suffix|] == id2;
    Storage.JoinInjective(folder, n1, n2);
  }

  /** Distinct identifiers give distinct chart files, and distinct table files. */
  lemma {:induction false} OutputPathsInjective(folder: string, id1: string, id2: string)
    requires id1 != id2
    ensures ChartPath(folder, id1) != ChartPath(folder, id2)
    ensures TablePath(folder, id1) != TablePath(folder, id2)
  {
    if ChartPath(folder, id1) == ChartPath(folder, id2) {
      NamedFileInjective(folder, "grafico_emocoes_", ".png", id1, id2);
    }
    if TablePath(folder, id1) == TablePath(folder, id2) {
      NamedFileInjective(folder, "tabela_resumo_", ".txt", id1, id2);
    }
  }
}
