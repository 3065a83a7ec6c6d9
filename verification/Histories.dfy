/** What holds over every history of transactions on the findings. */
module Histories {
  import opened Common
  import opened Identity
  import opened Lifecycle
  import opened ReviewCase
  import opened Ledger
  import opened FindingLaws
  import opened RunLaws

  /** One committed transaction, or none. */
  ghost predicate Changes(l: Tables, m: Tables) {
    l == m || exists op :: Commits(l, op, m)
  }

  ghost predicate StepAt(b: seq<Tables>, i: int)
    requires 0 <= i < |b| - 1
  {
    Changes(b[i], b[i + 1])
  }

  /** The contents of the tables over time, from the empty tables on. */
  ghost predicate Behaviour(b: seq<Tables>) {
    b != [] && b[0] == EMPTY && forall i :: 0 <= i < |b| - 1 ==> StepAt(b, i)
  }

  lemma {:induction false} StepEvolves(b: seq<Tables>, i: nat, key: Key)
    requires Behaviour(b) && i < |b| - 1 && TablesOk(b[i])
    ensures TablesOk(b[i + 1]) && Evolves(At(b[i], key), At(b[i + 1], key))
  {
    hide TablesOk, Commits, At, Evolves;
    assert StepAt(b, i);
    if b[i + 1] == b[i] {
      EvolvesReflexive(At(b[i], key));
    } else {
      var op :| Commits(b[i], op, b[i + 1]);
      CommitKeepsOk(b[i], op, b[i + 1]);
      CommitEvolves(b[i], op, b[i + 1], key);
    }
  }

  lemma {:induction false} EvolvesReflexive(s: Slice)
    ensures Evolves(s, s)
  {
  }

  lemma {:induction false} EmptyOk()
    ensures TablesOk(EMPTY)
  {
    forall key
      ensures SliceOk(EMPTY.workflows, key, At(EMPTY, key))
    {
      assert At(EMPTY, key) == Slice(None, [], None, []);
    }
  }

  lemma {:induction false} AlwaysOk(b: seq<Tables>, n: nat)
    requires Behaviour(b) && n < |b|
    ensures TablesOk(b[n])
  {
    if n == 0 {
      EmptyOk();
    } else {
      AlwaysOk(b, n - 1);
      StepEvolves(b, n - 1, Blank);
    }
  }

  /**
   In every reachable state a finding's trail replays to its stored state: it
   is empty exactly without a row, starts from the empty state, each row
   continues from the state and the hash the row before it left, and the last
   row leaves the stored state.
   */
  lemma {:induction false} TrailReplays(b: seq<Tables>, n: nat, key: Key)
    requires Behaviour(b) && n < |b|
    ensures var h := EventsOf(b[n].trail, key);
      && (h == [] <==> key !in b[n].findings)
      && (h != [] ==> h[0].from == Absent && h[0].previous == Blank && h[|h| - 1].to == b[n].findings[key].state)
      && (forall i :: 1 <= i < |h| ==> h[i].from == h[i - 1].to && h[i].previous == h[i - 1].hash)
  {
    hide CaseReplays, Keyed, CaseEventsOf;
    AlwaysOk(b, n);
    var s := At(b[n], key);
    assert SliceOk(b[n].workflows, key, s);
    TrailStarted(b, n, key);
    var h := EventsOf(b[n].trail, key);
    if h != [] {
      assert Linked(key, h, 0);
    }
    forall i | 1 <= i < |h|
      ensures h[i].from == h[i - 1].to && h[i].previous == h[i - 1].hash
    {
      assert Linked(key, h, i);
      assert h[..i][|h[..i]| - 1] == h[i - 1];
    }
  }

  lemma {:induction false} TrailStarted(b: seq<Tables>, n: nat, key: Key)
    requires Behaviour(b) && n < |b|
    ensures At(b[n], key).finding.None? ==> At(b[n], key).trail == []
  {
    hide TablesOk, CaseEventsOf;
    if n > 0 {
      TrailStarted(b, n - 1, key);
      AlwaysOk(b, n - 1);
      StepEvolves(b, n - 1, key);
    }
  }

  /** Equal head hashes mean equal whole histories: the chain commits to everything before it. */
  lemma {:induction false} HeadHashCommits(key: Key, g: seq<Event>, h: seq<Event>)
    requires Chained(key, g) && Chained(key, h)
    ensures HeadHash(g) == HeadHash(h) <==> g == h
  {
    if g != [] { assert Linked(key, g, |g| - 1); }
    if h != [] { assert Linked(key, h, |h| - 1); }
    if HeadHash(g) == HeadHash(h) && g != [] && h != [] {
      var a, c := g[|g| - 1], h[|h| - 1];
      assert Hashed(a) == Hashed(c);
      LabelInjective(a.from, c.from);
      LabelInjective(a.to, c.to);
      var x, y := [a.actor, a.action, a.reason, Label(a.from), Label(a.to)],
        [c.actor, c.action, c.reason, Label(c.from), Label(c.to)];
      assert x == y;
      assert x[0] == y[0] && x[1] == y[1] && x[2] == y[2] && x[3] == y[3] && x[4] == y[4];
      ChainedPrefix(key, g);
      ChainedPrefix(key, h);
      HeadHashCommits(key, g[..|g| - 1], h[..|h| - 1]);
      assert g == g[..|g| - 1] + [a] && h == h[..|h| - 1] + [c];
    }
  }

  lemma {:induction false} ChainedPrefix(key: Key, h: seq<Event>)
    requires Chained(key, h) && h != []
    ensures Chained(key, h[..|h| - 1])
  {
    var g := h[..|h| - 1];
    forall i | 0 <= i < |g|
      ensures Linked(key, g, i)
    {
      assert Linked(key, h, i) && g[..i] == h[..i];
    }
  }

  /**
   In every reachable state a closed case's finding is accepted or dismissed,
   its history contains a completion of every step by a holder of the step's
   role since the latest opening, and every case's revision counts its events.
   */
  lemma {:induction false} CasesAreReviewed(b: seq<Tables>, n: nat, key: Key)
    requires Behaviour(b) && n < |b| && key in b[n].cases
    ensures var c, h := b[n].cases[key], CaseEventsOf(b[n].caseTrail, key);
      && 1 <= c.workflow <= |b[n].workflows|
      && (var w := b[n].workflows[c.workflow - 1];
        && c.step < |w.steps| && c.revision == 1 + |h|
        && (c.status == Ongoing ==> c.step == Position(h))
        && (c.status == Closed ==>
             && key in b[n].findings && b[n].findings[key].state in {Accepted, Dismissed}
             && forall i :: 0 <= i < |w.steps| ==> CompletedInRole(w, h, i)))
  {
    hide Chained, Keyed, Replay, Position, Opening, CompletedInRole;
    AlwaysOk(b, n);
    var s := At(b[n], key);
    assert SliceOk(b[n].workflows, key, s);
    var c := b[n].cases[key];
    var w := b[n].workflows[c.workflow - 1];
    assert Valid(w);
    Accounting(w, c.workflow, s.caseTrail);
    if c.status == Closed {
      ClosedMeansReviewed(w, c.workflow, s.caseTrail);
    }
  }

  /** No run ever takes the branch of `syncCase` that reopens a closed case. */
  lemma {:induction false} SystemReopenUnreachable(b: seq<Tables>, n: nat, key: Key)
    requires Behaviour(b) && n < |b|
    ensures BySystem !in CaseEventsOf(b[n].caseTrail, key)
  {
    hide TablesOk, EventsOf;
    if n > 0 {
      SystemReopenUnreachable(b, n - 1, key);
      AlwaysOk(b, n - 1);
      StepEvolves(b, n - 1, key);
    }
  }

  lemma {:induction false} SuppressedHasExpiry(l: Tables, key: Key)
    requires TablesOk(l) && key in l.findings && l.findings[key].state == Suppressed
    ensures l.findings[key].expiry.Some?
  {
    hide Chained, CaseReplays, Keyed;
    assert SliceOk(l.workflows, key, At(l, key));
    assert At(l, key).State() == Suppressed;
  }

  /** While a finding stays suppressed, its expiry is set and neither it nor the consumed hash changes. */
  lemma {:induction false} SuppressionKept(b: seq<Tables>, i: nat, j: nat, key: Key)
    requires Behaviour(b) && i <= j < |b|
    requires forall n :: i <= n <= j ==> key in b[n].findings && b[n].findings[key].state == Suppressed
    ensures b[j].findings[key].expiry.Some?
    ensures b[j].findings[key].expiry == b[i].findings[key].expiry
    ensures b[j].findings[key].consumed == b[i].findings[key].consumed
  {
    hide TablesOk, Chained, CaseReplays, Keyed, EventsOf, CaseEventsOf;
    AlwaysOk(b, j);
    SuppressedHasExpiry(b[j], key);
    if i < j {
      SuppressionKept(b, i, j - 1, key);
      AlwaysOk(b, j - 1);
      StepEvolves(b, j - 1, key);
    }
  }

  /**
   What identifies a finding and what was recorded when it was first seen is
   never rewritten; its trail only grows; and whenever its row changes its
   revision rises, so that rows of the same revision are the same.
   */
  lemma {:induction false} EvidenceIsImmutable(b: seq<Tables>, i: nat, j: nat, key: Key)
    requires Behaviour(b) && i <= j < |b|
    ensures key in b[i].findings ==> key in b[j].findings && Succeeds(b[i].findings[key], b[j].findings[key])
    ensures EventsOf(b[i].trail, key) <= EventsOf(b[j].trail, key)
  {
    hide TablesOk, Behaviour, StepAt, EventsOf, CaseEventsOf;
    if i < j {
      EvidenceIsImmutable(b, i, j - 1, key);
      AlwaysOk(b, j - 1);
      StepEvolves(b, j - 1, key);
    }
  }
}
