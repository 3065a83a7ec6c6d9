/** What a released decision model can be, and what it decides. */
module RuleLaws {
  import opened Common
  import opened Rules

  predicate Permutation(i: nat, t: nat, o: nat) {
    {i, t, o} == {0, 1, 2}
  }

  /** The two edges, in either order, are input to table and table to output. */
  predicate IsPath(m: Model, i: nat, t: nat, o: nat)
    requires |m.nodes| == 3 && |m.edges| == 2 && i < 3 && t < 3 && o < 3
  {
    var first, second := Edge(m.nodes[i].id, m.nodes[t].id), Edge(m.nodes[t].id, m.nodes[o].id);
    && m.nodes[i].kind == INPUT && m.nodes[t].kind == TABLE && m.nodes[o].kind == OUTPUT
    && (m.edges == [first, second] || m.edges == [second, first])
  }

  predicate DistinctColumns(t: Table) {
    var flag, severity, owner := ColumnFor(t.outputs, "flag"), ColumnFor(t.outputs, "severity"),
      ColumnFor(t.outputs, "owner_role");
    && |t.inputs| == 1
    && t.inputs[0].id !in {flag, severity, owner}
    && flag != severity && flag != owner && severity != owner
    && (set i | 0 <= i < |t.outputs| :: t.outputs[i].id) == {flag, severity, owner}
  }

  lemma {:induction false} ThreeColumns(o: seq<Column>)
    requires |o| == 3 && o[0].field != o[1].field && o[0].field != o[2].field && o[1].field != o[2].field
    ensures forall i :: 0 <= i < 3 ==> ColumnFor(o, o[i].field) == o[i].id
  {
    assert o[..2][..1] == o[..1];
    assert ColumnFor(o, o[1].field) == ColumnFor(o[..2], o[1].field);
    assert ColumnFor(o, o[0].field) == ColumnFor(o[..2], o[0].field) == ColumnFor(o[..1], o[0].field);
  }

  lemma {:induction false} OutputColumns(o: seq<Column>)
    requires OutputsOk(o)
    ensures forall i :: 0 <= i < 3 ==> ColumnFor(o, o[i].field) == o[i].id
    ensures {o[0].id, o[1].id, o[2].id} == {ColumnFor(o, "flag"), ColumnFor(o, "severity"), ColumnFor(o, "owner_role")}
  {
    hide ColumnFor;
    OutputFields(o);
    assert o[0].field != o[1].field && o[0].field != o[2].field && o[1].field != o[2].field;
    ThreeColumns(o);
    assert "flag" in FIELDS && "severity" in FIELDS && "owner_role" in FIELDS;
  }

  /** Within an accepted table the input column and the three output columns have pairwise distinct ids. */
  lemma {:induction false} ColumnsAreDistinct(t: Table)
    requires TableOk(t)
    ensures DistinctColumns(t)
  {
    hide ColumnFor;
    OutputColumns(t.outputs);
    var o := t.outputs;
    assert (set i | 0 <= i < |o| :: o[i].id) == {o[0].id, o[1].id, o[2].id};
    DistinctNames();
    assert RowOk(t, t.rules[0], "true") && RowOk(t, t.rules[1], "");
  }

  /** No name is both a severity and an owner, and neither "true", "false" nor "" is quoted. */
  lemma {:induction false} DistinctNames()
    ensures forall cell :: !(Quoted(cell, SEVERITIES) && Quoted(cell, OWNERS))
    ensures forall cell, names :: Quoted(cell, names) ==> cell !in {"true", "false", ""}
    ensures "true" !in {"", "false"} && "" !in {"true", "false"}
  {
  }

  lemma {:induction false} NodeOfKind(nodes: seq<Node>, id: string) returns (i: nat)
    requires KindOf(nodes, id) != ""
    ensures i < |nodes| && nodes[i].id == id && nodes[i].kind == KindOf(nodes, id)
  {
    var n := |nodes| - 1;
    if nodes[n].id == id {
      i := n;
    } else {
      i := NodeOfKind(nodes[..n], id);
    }
  }

  /** Every accepted model is exactly the path input, decision table, output, over three distinct column groups. */
  lemma {:induction false} AcceptedIsPath(m: Model) returns (i: nat, t: nat, o: nat)
    requires Accepts(m)
    ensures Permutation(i, t, o) && i < 3 && t < 3 && o < 3 && IsPath(m, i, t, o)
    ensures m.nodes[t].content.Some? && TableOf(m.nodes) == m.nodes[t].content
    ensures DistinctColumns(m.nodes[t].content.value)
  {
    hide TableOk, KindOf;
    var a :| 0 <= a < |m.edges| && KindOf(m.nodes, m.edges[a].source) == INPUT
      && KindOf(m.nodes, m.edges[a].target) == TABLE;
    var b :| 0 <= b < |m.edges| && KindOf(m.nodes, m.edges[b].source) == TABLE
      && KindOf(m.nodes, m.edges[b].target) == OUTPUT;
    i := NodeOfKind(m.nodes, m.edges[a].source);
    t := NodeOfKind(m.nodes, m.edges[a].target);
    var t' := NodeOfKind(m.nodes, m.edges[b].source);
    o := NodeOfKind(m.nodes, m.edges[b].target);
    assert INPUT != TABLE && TABLE != OUTPUT && INPUT != OUTPUT;
    assert t == t';
    assert a != b;
    OnlyTable(m.nodes, t);
    ColumnsAreDistinct(m.nodes[t].content.value);
  }

  lemma {:induction false} OnlyTable(nodes: seq<Node>, t: nat)
    requires t < |nodes| && nodes[t].kind == TABLE
    requires forall k :: 0 <= k < |nodes| && nodes[k].kind == TABLE ==> k == t
    ensures TableOf(nodes) == nodes[t].content
  {
    var n := |nodes| - 1;
    if nodes[n].kind != TABLE {
      assert nodes[..n][t] == nodes[t];
      assert forall k :: 0 <= k < n ==> nodes[..n][k] == nodes[k];
      OnlyTable(nodes[..n], t);
    }
  }

  /**
   An accepted model decides every value of `qualifies`, of whatever type, with
   a severity and an owner the system knows: the value true by its first row,
   and every other value by its second, catch-all row.
   */
  lemma {:induction false} AcceptedEvaluates(m: Model, qualifies: Given)
    requires Accepts(m)
    ensures Evaluate(m, qualifies).Some?
    ensures Evaluate(m, qualifies).value.severity in {"low", "medium", "high", "critical"}
    ensures Evaluate(m, qualifies).value.owner in {"auditor", "audit_manager"}
    ensures qualifies != Boolean(true) ==> Evaluate(m, qualifies) == Evaluate(m, Null)
  {
    var i, t, o := AcceptedIsPath(m);
    assert NodeOk(m.nodes[t]);
    var table := TableOf(m.nodes).value;
    assert TableOk(table);
    assert "true" != "";
    assert FirstHit(table, qualifies, 1) == Some(table.rules[1]);
    assert FirstHit(table, qualifies, 0) == Some(if qualifies == Boolean(true) then table.rules[0] else table.rules[1]);
    assert FirstHit(table, Null, 1) == FirstHit(table, Null, 0) == Some(table.rules[1]);
  }

  /**
   A model is releasable if and only if the guard accepts it and it flags, of
   all values that `qualifies` may have, exactly the value true.  The fixtures
   try three values only; the guard makes them speak for numbers, texts and
   compound values too.
   */
  lemma {:induction false} ReleasedFlagsQualifying(m: Model)
    ensures Releasable(m) <==>
      Accepts(m) && forall q: Given :: Evaluate(m, q).Some? && (Evaluate(m, q).value.flag <==> q == Boolean(true))
  {
    hide Accepts, Evaluate;
    if Releasable(m) {
      forall q: Given
        ensures Evaluate(m, q).Some? && (Evaluate(m, q).value.flag <==> q == Boolean(true))
      {
        AcceptedEvaluates(m, q);
      }
    }
    if Accepts(m) && forall q: Given :: Evaluate(m, q).Some? && (Evaluate(m, q).value.flag <==> q == Boolean(true)) {
      assert Passes(m, Boolean(true), true) && Passes(m, Boolean(false), false) && Passes(m, Null, false);
    }
  }
}
