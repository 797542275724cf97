/**
 * The experimental_syns_con strategy of
 * connectome_tools/s2f_recipe/experimental_syns_con.py: the measured mean
 * number of synapses per connection, for the pathways of the table whose
 * two mtypes are in the circuit.
 */
module ExperimentalSynsCon {
  import opened Common
  import opened LastWins
  import opened Dataset

  /** A table cell as a recipe value: an empty cell is NaN. */
  function MeanValue(mean: Option<real>): (v: Value)
    ensures mean.Some? <==> v.Num?
    ensures mean.Some? ==> v.r == mean.value
  {
    if mean.Some? then Num(mean.value) else NonFinite
  }

  /** The entry the comprehension builds for one row. */
  function RowEntry(row: NsynRow): map<Pathway, ParamMap>
  {
    map[(row.from, row.to) := map[MeanSynsConnection := MeanValue(row.mean)]]
  }

  function RowEntries(rows: seq<NsynRow>): (r: seq<map<Pathway, ParamMap>>)
    ensures |r| == |rows|
    ensures forall i :: 0 <= i < |rows| ==> r[i] == RowEntry(rows[i])
  {
    seq(|rows|, i requires 0 <= i < |rows| => RowEntry(rows[i]))
  }

  /**
   * `execute(circuit, bio_data)`: the dict comprehension over the rows of
   * `read_nsyn(bio_data, mtypes)`, a later row overwriting an earlier one.
   */
  function Execute(mtypes: set<string>, table: seq<NsynRow>): map<Pathway, ParamMap>
  {
    Merge(RowEntries(ReadNsyn(table, Some(mtypes)).rows))
  }

  /**
   * `read_nsyn` keeps a row joining `p` iff the table has one and both
   * mtypes of `p` are circuit mtypes.
   */
  lemma KeptJoin(mtypes: set<string>, table: seq<NsynRow>, p: Pathway)
    ensures var rows := ReadNsyn(table, Some(mtypes)).rows;
      (exists k :: 0 <= k < |rows| && (rows[k].from, rows[k].to) == p) <==>
      p.0 in mtypes && p.1 in mtypes && exists i :: 0 <= i < |table| && (table[i].from, table[i].to) == p
  {
    var rows := ReadNsyn(table, Some(mtypes)).rows;
    if p.0 in mtypes && p.1 in mtypes && exists i :: 0 <= i < |table| && (table[i].from, table[i].to) == p {
      var i :| 0 <= i < |table| && (table[i].from, table[i].to) == p;
      assert table[i] in rows;
    }
    if exists k :: 0 <= k < |rows| && (rows[k].from, rows[k].to) == p {
      var k :| 0 <= k < |rows| && (rows[k].from, rows[k].to) == p;
      assert rows[k] in rows;
      assert rows[k] in table;
    }
  }

  /**
   * A pathway is in the merge of the row entries iff some row joins its
   * two mtypes; its value is the mean of the last such row.
   */
  lemma RowsMergeAt(rows: seq<NsynRow>, p: Pathway)
    ensures p in Merge(RowEntries(rows)) <==> exists k :: 0 <= k < |rows| && (rows[k].from, rows[k].to) == p
    ensures p in Merge(RowEntries(rows)) ==>
      var j := LastWith(RowEntries(rows), p);
      0 <= j < |rows| && (rows[j].from, rows[j].to) == p
      && Merge(RowEntries(rows))[p] == map[MeanSynsConnection := MeanValue(rows[j].mean)]
      && forall i :: j < i < |rows| ==> (rows[i].from, rows[i].to) != p
  {
    var entries := RowEntries(rows);
    MergeAt(entries, p);
    MergeKeys(entries, p);
    assert forall k :: 0 <= k < |rows| ==> (p in entries[k] <==> (rows[k].from, rows[k].to) == p);
  }

  /**
   * A pathway is in the result iff some row of the table joins its two
   * mtypes and both are circuit mtypes; its value is the mean of the last
   * such row, the only parameter set.
   */
  lemma ExecuteAt(mtypes: set<string>, table: seq<NsynRow>, p: Pathway)
    ensures p in Execute(mtypes, table) <==>
      p.0 in mtypes && p.1 in mtypes && exists i :: 0 <= i < |table| && (table[i].from, table[i].to) == p
    ensures p in Execute(mtypes, table) ==>
      var rows := ReadNsyn(table, Some(mtypes)).rows;
      var j := LastWith(RowEntries(rows), p);
      0 <= j < |rows| && (rows[j].from, rows[j].to) == p
      && Execute(mtypes, table)[p] == map[MeanSynsConnection := MeanValue(rows[j].mean)]
      && forall i :: j < i < |rows| ==> (rows[i].from, rows[i].to) != p
  {
    RowsMergeAt(ReadNsyn(table, Some(mtypes)).rows, p);
    KeptJoin(mtypes, table, p);
  }

  /** Two rows of distinct pathways give both pathways with their means. */
  lemma TwoRows(r0: NsynRow, r1: NsynRow)
    requires (r0.from, r0.to) != (r1.from, r1.to)
    ensures Merge(RowEntries([r0, r1]))
         == map[(r0.from, r0.to) := map[MeanSynsConnection := MeanValue(r0.mean)],
                (r1.from, r1.to) := map[MeanSynsConnection := MeanValue(r1.mean)]]
  {
    var e0, e1 := RowEntry(r0), RowEntry(r1);
    assert RowEntries([r0, r1]) == [] + [e0] + [e1];
    MergeAppend([], e0);
    MergeAppend([e0], e1);
    assert [] + [e0] == [e0];
  }

  /**
   * The test of the strategy: with the circuit mtypes SLM_PPA and SP_AA the
   * row towards SO_BP is dropped and the two others give their means.
   */
  lemma ExecuteCase()
    ensures Execute({"SLM_PPA", "SP_AA"}, [NsynRow("SLM_PPA", "SLM_PPA", Some(16.2)), NsynRow("SLM_PPA", "SO_BP", None),
                                           NsynRow("SLM_PPA", "SP_AA", Some(3.0))])
         == map[("SLM_PPA", "SLM_PPA") := map[MeanSynsConnection := Num(16.2)],
                ("SLM_PPA", "SP_AA") := map[MeanSynsConnection := Num(3.0)]]
  {
    var r0, r2 := NsynRow("SLM_PPA", "SLM_PPA", Some(16.2)), NsynRow("SLM_PPA", "SP_AA", Some(3.0));
    var table := [r0, NsynRow("SLM_PPA", "SO_BP", None), r2];
    var merged := Merge(RowEntries([r0, r2]));
    assert merged == map[("SLM_PPA", "SLM_PPA") := map[MeanSynsConnection := Num(16.2)],
                         ("SLM_PPA", "SP_AA") := map[MeanSynsConnection := Num(3.0)]] by {
      assert "SLM_PPA" != "SP_AA" by { assert "SLM_PPA"[1] != "SP_AA"[1]; }
      TwoRows(r0, r2);
    }
    assert Execute({"SLM_PPA", "SP_AA"}, table) == merged by {
      ReadNsynDropsUnknownTarget(16.2, 3.0);
    }
  }
}
