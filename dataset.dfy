/**
 * The row filters of connectome_tools/dataset.py.  A table is the
 * sequence of its parsed rows, in file order; an empty `mean` cell (NaN
 * once parsed) is `None`.
 */
module Dataset {
  import opened Common

  /** A row of a bouton density table. */
  datatype BoutonRow = BoutonRow(mtype: string, mean: Option<real>)

  /** A row of a synapses-per-connection table. */
  datatype NsynRow = NsynRow(from: string, to: string, mean: Option<real>)

  /** A filtered table, and whether the "Unused mtypes" warning was logged. */
  datatype Filtered<R> = Filtered(rows: seq<R>, warned: bool)

  /** `a` is `b` with some elements left out and the others in their order. */
  predicate SubsequenceOf<T(==)>(a: seq<T>, b: seq<T>)
    decreases |b|
  {
    if a == [] then true
    else if b == [] then false
    else (a[0] == b[0] && SubsequenceOf(a[1..], b[1..])) || SubsequenceOf(a, b[1..])
  }

  lemma {:induction false} SubsequenceReflexive<T>(a: seq<T>)
    ensures SubsequenceOf(a, a)
    decreases |a|
  {
    if a != [] {
      SubsequenceReflexive(a[1..]);
    }
  }

  /**
   * Boolean-mask selection `table[mask]`: the rows that `keep`, in order,
   * each as many times as the table holds it.
   */
  function Kept<R(!new)>(rows: seq<R>, keep: R -> bool): (r: seq<R>)
    ensures forall x :: x in r <==> x in rows && keep(x)
    ensures forall x :: multiset(r)[x] == if keep(x) then multiset(rows)[x] else 0
    ensures SubsequenceOf(r, rows)
    ensures |r| <= |rows|
    ensures |r| == |rows| <==> forall i :: 0 <= i < |rows| ==> keep(rows[i])
  {
    if rows == [] then []
    else
      var rest := Kept(rows[1..], keep);
      assert forall x :: x in rows <==> x == rows[0] || x in rows[1..];
      assert (forall i :: 0 <= i < |rows| ==> keep(rows[i]))
         <==> keep(rows[0]) && forall i :: 0 <= i < |rows| - 1 ==> keep(rows[1..][i]);
      KeptMultiset(rows, keep, rest);
      if keep(rows[0]) then
        assert ([rows[0]] + rest)[1..] == rest;
        [rows[0]] + rest
      else
        rest
  }

  /** The step of `Kept` on multiplicities: the first row counts iff it is kept. */
  lemma KeptMultiset<R>(rows: seq<R>, keep: R -> bool, rest: seq<R>)
    requires rows != []
    requires forall x :: multiset(rest)[x] == if keep(x) then multiset(rows[1..])[x] else 0
    ensures forall x :: multiset(if keep(rows[0]) then [rows[0]] + rest else rest)[x]
                     == if keep(x) then multiset(rows)[x] else 0
  {
    assert rows == [rows[0]] + rows[1..];
    assert multiset(rows) == multiset{rows[0]} + multiset(rows[1..]);
  }

  /** The mask of `read_bouton_density`. */
  predicate BoutonMtypeIn(mtypes: set<string>, row: BoutonRow)
  {
    row.mtype in mtypes
  }

  /** The mask of `read_nsyn`: both ends are known mtypes. */
  predicate NsynMtypesIn(mtypes: set<string>, row: NsynRow)
  {
    row.from in mtypes && row.to in mtypes
  }

  function NsynMask(mtypes: set<string>): NsynRow -> bool
  {
    row => NsynMtypesIn(mtypes, row)
  }

  /** `read_bouton_density(filepath, mtypes)` on the rows parsed from the file. */
  function ReadBoutonDensity(rows: seq<BoutonRow>, mtypes: Option<set<string>>): (r: Filtered<BoutonRow>)
    ensures mtypes.None? ==> r == Filtered(rows, false)
    ensures mtypes.Some? ==> forall x :: x in r.rows <==> x in rows && x.mtype in mtypes.value
    ensures mtypes.Some? ==> forall x :: multiset(r.rows)[x] == if x.mtype in mtypes.value then multiset(rows)[x] else 0
    ensures SubsequenceOf(r.rows, rows)
    ensures r.warned <==> |r.rows| < |rows|
    ensures r.warned <==> mtypes.Some? && exists i :: 0 <= i < |rows| && rows[i].mtype !in mtypes.value
  {
    if mtypes.None? then
      SubsequenceReflexive(rows);
      Filtered(rows, false)
    else
      var kept := Kept(rows, row => BoutonMtypeIn(mtypes.value, row));
      Filtered(kept, exists i :: 0 <= i < |rows| && rows[i].mtype !in mtypes.value)
  }

  /** `read_nsyn(filepath, mtypes)` on the rows parsed from the file. */
  function ReadNsyn(rows: seq<NsynRow>, mtypes: Option<set<string>>): (r: Filtered<NsynRow>)
    ensures mtypes.None? ==> r == Filtered(rows, false)
    ensures mtypes.Some? ==> forall x :: x in r.rows <==> x in rows && x.from in mtypes.value && x.to in mtypes.value
    ensures mtypes.Some? ==>
      forall x :: multiset(r.rows)[x] == if x.from in mtypes.value && x.to in mtypes.value then multiset(rows)[x] else 0
    ensures SubsequenceOf(r.rows, rows)
    ensures r.warned <==> |r.rows| < |rows|
    ensures r.warned <==> mtypes.Some? && exists i :: 0 <= i < |rows| && !NsynMtypesIn(mtypes.value, rows[i])
  {
    if mtypes.None? then
      SubsequenceReflexive(rows);
      Filtered(rows, false)
    else
      var kept := Kept(rows, NsynMask(mtypes.value));
      Filtered(kept, exists i :: 0 <= i < |rows| && !NsynMtypesIn(mtypes.value, rows[i]))
  }

  /** A sub-sequence is never longer and adds no element. */
  lemma {:induction false} SubsequenceBounds<T(!new)>(a: seq<T>, b: seq<T>)
    requires SubsequenceOf(a, b)
    ensures |a| <= |b|
    ensures forall x :: x in a ==> x in b
    decreases |b|
  {
    if a != [] {
      if a[0] == b[0] && SubsequenceOf(a[1..], b[1..]) {
        SubsequenceBounds(a[1..], b[1..]);
        assert forall x :: x in a ==> x == a[0] || x in a[1..];
      } else {
        SubsequenceBounds(a, b[1..]);
      }
    }
  }

  /** Of three rows, a mask that drops only the middle one keeps the outer two. */
  lemma KeptDropsMiddle<R(!new)>(a: R, b: R, c: R, keep: R -> bool)
    requires keep(a) && !keep(b) && keep(c)
    ensures Kept([a, b, c], keep) == [a, c]
  {
    assert [a, b, c][1..] == [b, c];
    assert [b, c][1..] == [c];
    assert [c][1..] == [];
  }

  /** The filtered table of the test of `read_nsyn`: the row towards an unknown mtype goes. */
  lemma ReadNsynDropsUnknownTarget(mean1: real, mean2: real)
    ensures var rows := [NsynRow("SLM_PPA", "SLM_PPA", Some(mean1)), NsynRow("SLM_PPA", "SO_BP", None),
                         NsynRow("SLM_PPA", "SP_AA", Some(mean2))];
      ReadNsyn(rows, Some({"SLM_PPA", "SP_AA"}))
      == Filtered([NsynRow("SLM_PPA", "SLM_PPA", Some(mean1)), NsynRow("SLM_PPA", "SP_AA", Some(mean2))], true)
  {
    var mtypes := {"SLM_PPA", "SP_AA"};
    var rows := [NsynRow("SLM_PPA", "SLM_PPA", Some(mean1)), NsynRow("SLM_PPA", "SO_BP", None),
                 NsynRow("SLM_PPA", "SP_AA", Some(mean2))];
    assert !NsynMtypesIn(mtypes, rows[1]) by {
      assert "SO_BP" != "SLM_PPA" by { assert "SO_BP"[1] != "SLM_PPA"[1]; }
      assert "SO_BP" != "SP_AA" by { assert "SO_BP"[1] != "SP_AA"[1]; }
    }
    KeptDropsMiddle(rows[0], rows[1], rows[2], NsynMask(mtypes));
  }
}
