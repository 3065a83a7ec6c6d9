/**
 The review-case state machine (internal/storage/workflows.go): a published
 workflow, one case pinned to it, and the history of the calls it accepted.
 */
module ReviewCase {
  import opened Common
  import opened Strings
  import opened Lifecycle

  const ROLES := {"admin", "implementer", "rule_engineer", "auditor", "audit_manager"}
  const MANAGER := "audit_manager"

  datatype Error = Invalid | Conflict | NotFound

  datatype Step = Step(name: string, role: string, differentActor: bool)

  datatype Workflow = Workflow(name: string, steps: seq<Step>)

  predicate ValidStep(s: Step) {
    1 <= |TrimSpace(s.name)| && |s.name| <= 80 && s.role in ROLES && s.role != "admin"
  }

  predicate Valid(w: Workflow) {
    && 1 <= |TrimSpace(w.name)| && |w.name| <= 100
    && 2 <= |w.steps| <= 20
    && (forall i :: 0 <= i < |w.steps| ==> ValidStep(w.steps[i]))
    && (forall i, j :: 0 <= i < j < |w.steps| ==> w.steps[i].name != w.steps[j].name)
    && !w.steps[0].differentActor
  }

  method Validate(w: Workflow) returns (ok: bool)
    ensures ok <==> Valid(w)
  {
    if |TrimSpace(w.name)| < 1 || |w.name| > 100 || |w.steps| < 2 || |w.steps| > 20 {
      return false;
    }
    var names := {};
    for i := 0 to |w.steps|
      invariant names == set k | 0 <= k < i :: w.steps[k].name
      invariant forall k :: 0 <= k < i ==> ValidStep(w.steps[k])
      invariant forall j, k :: 0 <= j < k < i ==> w.steps[j].name != w.steps[k].name
      invariant i > 0 ==> !w.steps[0].differentActor
    {
      var s := w.steps[i];
      if |TrimSpace(s.name)| < 1 || |s.name| > 80 || s.name in names {
        return false;
      }
      names := names + {s.name};
      if s.role !in ROLES || s.role == "admin" {
        return false;
      }
      if i == 0 && s.differentActor {
        return false;
      }
    }
    return true;
  }

  datatype Status = Ongoing | Closed

  datatype Case = Case(workflow: nat, step: nat, status: Status, assignee: string, lastActor: string, revision: int)

  /** The row a case is created with. */
  function Opened(workflow: nat): Case {
    Case(workflow, 0, Ongoing, "", "", 1)
  }

  datatype Kind = Assign | Advance | Return | Reopen | Unknown

  /**
   One call of `ActOnCase`.  `qualified` is the directory's answer: the named
   assignee exists, is enabled and holds the current step's role.
   */
  datatype Call = Call(actor: string, roles: set<string>, kind: Kind, note: string, assignee: string,
                       resolution: string, revision: int, qualified: bool)

  /** The new case row and, when the finding changes, its new state. */
  datatype Move = Move(after: Case, finding: Option<State>)

  predicate NoteOk(note: string) {
    3 <= |TrimSpace(note)| && |note| <= 4000
  }

  function Act(w: Workflow, c: Case, a: Call): Result<Move, Error> {
    if !NoteOk(a.note) then Err(Invalid)
    else if c.revision != a.revision then Err(Conflict)
    else if c.step >= |w.steps| then Err(Invalid)
    else if a.kind == Reopen then
      if c.status != Closed || MANAGER !in a.roles then Err(Invalid)
      else Ok(Move(Case(c.workflow, 0, Ongoing, "", "", c.revision + 1), Some(InReview)))
    else if c.status != Ongoing then Err(Invalid)
    else match a.kind
      case Assign =>
        if MANAGER !in a.roles && w.steps[c.step].role !in a.roles then Err(Invalid)
        else if MANAGER !in a.roles && (a.assignee != a.actor || (c.assignee != "" && c.assignee != a.actor))
          then Err(Invalid)
        else if a.assignee != "" && !a.qualified then Err(Invalid)
        else Ok(Move(c.(assignee := a.assignee, revision := c.revision + 1), None))
      case Return =>
        if w.steps[c.step].role !in a.roles || (c.assignee != "" && c.assignee != a.actor) then Err(Invalid)
        else if c.step == 0 then Err(Invalid)
        else Ok(Move(c.(step := c.step - 1, assignee := "", revision := c.revision + 1), None))
      case Advance =>
        if w.steps[c.step].role !in a.roles || (c.assignee != "" && c.assignee != a.actor) then Err(Invalid)
        else if w.steps[c.step].differentActor && c.lastActor == a.actor then Err(Invalid)
        else if c.step < |w.steps| - 1 then
          Ok(Move(c.(step := c.step + 1, lastActor := a.actor, assignee := "", revision := c.revision + 1), None))
        else if a.resolution != "accepted" && a.resolution != "dismissed" then Err(Invalid)
        else Ok(Move(c.(status := Closed, lastActor := a.actor, assignee := "", revision := c.revision + 1),
                     Some(if a.resolution == "accepted" then Accepted else Dismissed)))
      case _ => Err(Invalid)
  }

  /** A row of the case history: an accepted call, or the reopening by a run. */
  datatype CaseEvent = ByUser(call: Call) | BySystem

  /** The reopening inside `syncCase`; it applies to closed cases only. */
  function SystemReopen(c: Case): Case {
    Case(c.workflow, 0, Ongoing, "", "", c.revision + 1)
  }

  function After(w: Workflow, c: Case, e: CaseEvent): Option<Case> {
    match e
    case ByUser(call) => (match Act(w, c, call) case Ok(m) => Some(m.after) case Err(_) => None)
    case BySystem => if c.status == Closed then Some(SystemReopen(c)) else None
  }

  /** The case row after a whole history, if every event of it is accepted. */
  function Replay(w: Workflow, revision: nat, h: seq<CaseEvent>): Option<Case> {
    if h == [] then Some(Opened(revision))
    else
      var before := Replay(w, revision, h[..|h| - 1]);
      if before.None? then None else After(w, before.value, h[|h| - 1])
  }

  predicate Is(e: CaseEvent, kind: Kind) {
    e.ByUser? && e.call.kind == kind
  }

  predicate Opens(e: CaseEvent) {
    e.BySystem? || Is(e, Reopen)
  }

  /** Where the latest (re)opening starts. */
  function Opening(h: seq<CaseEvent>): (n: nat)
    ensures n <= |h|
  {
    if h == [] then 0
    else if Opens(h[|h| - 1]) then |h|
    else Opening(h[..|h| - 1])
  }

  /** The step reached since the latest (re)opening. */
  function Position(h: seq<CaseEvent>): int {
    if h == [] || Opens(h[|h| - 1]) then 0
    else Position(h[..|h| - 1])
         + (if Is(h[|h| - 1], Advance) then 1 else if Is(h[|h| - 1], Return) then -1 else 0)
  }

  function Tally(h: seq<CaseEvent>, kind: Kind): nat {
    if h == [] then 0
    else Tally(h[..|h| - 1], kind) + if Is(h[|h| - 1], kind) then 1 else 0
  }

  /** The position is the number of advances minus the number of returns since the latest (re)opening. */
  lemma {:induction false} PositionCounts(h: seq<CaseEvent>)
    ensures var since := h[Opening(h)..]; Position(h) == Tally(since, Advance) - Tally(since, Return)
  {
    if h != [] && !Opens(h[|h| - 1]) {
      var g := h[..|h| - 1];
      PositionCounts(g);
      var since := h[Opening(h)..];
      assert since[..|since| - 1] == g[Opening(g)..];
    }
  }

  lemma {:induction false} PositionStep(h: seq<CaseEvent>, e: CaseEvent)
    ensures Opening(h + [e]) == if Opens(e) then |h| + 1 else Opening(h)
    ensures Position(h + [e]) ==
      if Opens(e) then 0
      else Position(h) + (if Is(e, Advance) then 1 else 0) - (if Is(e, Return) then 1 else 0)
  {
    assert (h + [e])[..|h + [e]| - 1] == h;
  }

  /** The stored step, status and revision are determined by the history's counts. */
  lemma {:induction false} Accounting(w: Workflow, revision: nat, h: seq<CaseEvent>)
    requires Valid(w) && Replay(w, revision, h).Some?
    ensures var c := Replay(w, revision, h).value;
      && c.workflow == revision
      && c.revision == 1 + |h|
      && 0 <= c.step < |w.steps|
      && (c.status == Ongoing ==> c.step == Position(h))
      && (c.status == Closed ==> c.step == |w.steps| - 1 && Position(h) == |w.steps|)
  {
    if h != [] {
      var g, e := h[..|h| - 1], h[|h| - 1];
      Accounting(w, revision, g);
      assert h == g + [e];
      PositionStep(g, e);
    }
  }

  /** Event `k`, since the latest opening, completed step `i`. */
  predicate Completes(h: seq<CaseEvent>, k: int, i: int) {
    Opening(h) <= k < |h| && Is(h[k], Advance) && Position(h[..k]) == i
  }

  /** Step `i` was completed since the latest opening by a holder of its role. */
  ghost predicate CompletedInRole(w: Workflow, h: seq<CaseEvent>, i: int)
    requires 0 <= i < |w.steps|
  {
    exists k :: Completes(h, k, i) && w.steps[i].role in h[k].call.roles
  }

  predicate LatestCompletion(h: seq<CaseEvent>, k: int, i: int) {
    Completes(h, k, i) && forall m :: k < m < |h| ==> !Completes(h, m, i)
  }

  lemma {:induction false} CompletesStep(h: seq<CaseEvent>, e: CaseEvent, k: int, i: int)
    requires !Opens(e)
    ensures Completes(h + [e], k, i) <==> Completes(h, k, i) || (k == |h| && Is(e, Advance) && Position(h) == i)
  {
    PositionStep(h, e);
    if 0 <= k < |h| {
      assert (h + [e])[..k] == h[..k];
    } else if k == |h| {
      assert (h + [e])[..k] == h;
    }
  }

  lemma {:induction false} CompletedStaysCompleted(w: Workflow, g: seq<CaseEvent>, e: CaseEvent, i: int)
    requires 0 <= i < |w.steps| && !Opens(e) && CompletedInRole(w, g, i)
    ensures CompletedInRole(w, g + [e], i)
  {
    var k :| Completes(g, k, i) && w.steps[i].role in g[k].call.roles;
    CompletesStep(g, e, k, i);
    assert (g + [e])[k] == g[k];
  }

  /** Every step below the current position has been completed in its role. */
  lemma {:induction false} StepsBelowCompleted(w: Workflow, revision: nat, h: seq<CaseEvent>)
    requires Valid(w) && Replay(w, revision, h).Some?
    ensures Position(h) <= |w.steps|
    ensures forall i :: 0 <= i < Position(h) ==> CompletedInRole(w, h, i)
  {
    Accounting(w, revision, h);
    if h != [] {
      var g, e := h[..|h| - 1], h[|h| - 1];
      assert h == g + [e];
      PositionStep(g, e);
      if !Opens(e) {
        StepsBelowCompleted(w, revision, g);
        Accounting(w, revision, g);
        forall i | 0 <= i < Position(h)
          ensures CompletedInRole(w, h, i)
        {
          if i < Position(g) {
            CompletedStaysCompleted(w, g, e, i);
          } else {
            CompletesStep(g, e, |g|, i);
            assert Completes(h, |g|, i) && w.steps[i].role in h[|g|].call.roles;
          }
        }
      }
    }
  }

  /** The latest advance or return since the latest opening. */
  function LastMove(h: seq<CaseEvent>): (m: Option<nat>)
    ensures m.Some? ==> m.value < |h|
  {
    if h == [] || Opens(h[|h| - 1]) then None
    else if Is(h[|h| - 1], Advance) || Is(h[|h| - 1], Return) then Some(|h| - 1)
    else LastMove(h[..|h| - 1])
  }

  lemma {:induction false} LatestStaysLatest(g: seq<CaseEvent>, e: CaseEvent, k: int, i: int)
    requires !Opens(e) && LatestCompletion(g, k, i)
    requires Is(e, Advance) ==> Position(g) != i
    ensures LatestCompletion(g + [e], k, i) && (g + [e])[k] == g[k]
  {
    forall m | k <= m <= |g|
      ensures Completes(g + [e], m, i) <==> m == k
    {
      CompletesStep(g, e, m, i);
    }
  }

  lemma {:induction false} NewlyCompleted(g: seq<CaseEvent>, e: CaseEvent)
    requires Is(e, Advance)
    ensures LatestCompletion(g + [e], |g|, Position(g))
  {
    CompletesStep(g, e, |g|, Position(g));
  }

  /** When the latest move is an advance, its author is the stored last actor. */
  lemma {:induction false} LastMoveFacts(w: Workflow, revision: nat, h: seq<CaseEvent>)
    requires Valid(w) && Replay(w, revision, h).Some?
    ensures LastMove(h).None? ==> Position(h) == 0
    ensures LastMove(h).Some? && Is(h[LastMove(h).value], Advance) ==>
      && LatestCompletion(h, LastMove(h).value, Position(h) - 1)
      && Replay(w, revision, h).value.lastActor == h[LastMove(h).value].call.actor
    ensures LastMove(h).Some? && !Is(h[LastMove(h).value], Advance) ==> Position(h) <= |w.steps| - 2
  {
    hide NoteOk, LatestCompletion, Completes, ValidStep, TrimSpace;
    if h != [] {
      var g, e := h[..|h| - 1], h[|h| - 1];
      assert h == g + [e];
      PositionStep(g, e);
      if !Opens(e) {
        LastMoveFacts(w, revision, g);
        Accounting(w, revision, g);
        if Is(e, Advance) {
          NewlyCompleted(g, e);
        } else if LastMove(g).Some? && Is(g[LastMove(g).value], Advance) {
          LatestStaysLatest(g, e, LastMove(g).value, Position(g) - 1);
        }
      }
    }
  }

  /**
   A case closes only after every step was completed in its role since the
   latest opening, by an advance of the last step that names a resolution; and
   when the last step asks for a different actor, the closer is not the author
   of the latest completion of the step before it.
   */
  lemma {:induction false} ClosedMeansReviewed(w: Workflow, revision: nat, h: seq<CaseEvent>)
    requires Valid(w) && Replay(w, revision, h).Some? && Replay(w, revision, h).value.status == Closed
    ensures forall i :: 0 <= i < |w.steps| ==> CompletedInRole(w, h, i)
    ensures h != [] && Completes(h, |h| - 1, |w.steps| - 1)
    ensures w.steps[|w.steps| - 1].role in h[|h| - 1].call.roles
    ensures h[|h| - 1].call.resolution in {"accepted", "dismissed"}
    ensures w.steps[|w.steps| - 1].differentActor ==>
      exists k :: LatestCompletion(h, k, |w.steps| - 2) && h[k].call.actor != h[|h| - 1].call.actor
  {
    Accounting(w, revision, h);
    StepsBelowCompleted(w, revision, h);
    var g, e := h[..|h| - 1], h[|h| - 1];
    assert h == g + [e];
    PositionStep(g, e);
    Accounting(w, revision, g);
    LastMoveFacts(w, revision, g);
    CompletesStep(g, e, |g|, |w.steps| - 1);
    LatestStaysLatest(g, e, LastMove(g).value, |w.steps| - 2);
  }

  /** The history's last event completed step `i` by the author of the latest completion of step `i - 1`. */
  ghost predicate SelfApproval(w: Workflow, revision: nat, h: seq<CaseEvent>, i: int) {
    && h != [] && Replay(w, revision, h).Some?
    && Completes(h, |h| - 1, i)
    && exists k :: LatestCompletion(h, k, i - 1) && h[k].call.actor == h[|h| - 1].call.actor
  }

  function AdvanceBy(w: Workflow, k: nat, actor: string, revision: int, note: string): CaseEvent
    requires k < |w.steps|
  {
    ByUser(Call(actor, {w.steps[k].role}, Advance, note, "", "", revision, false))
  }

  function ReturnBy(w: Workflow, k: nat, actor: string, revision: int, note: string): CaseEvent
    requires k < |w.steps|
  {
    ByUser(Call(actor, {w.steps[k].role}, Return, note, "", "", revision, false))
  }

  /** Completes steps `0 .. n`; `p` and `q` take turns, and `p` completes step `n - 1`. */
  function Climb(w: Workflow, n: nat, p: string, q: string, note: string): seq<CaseEvent>
    requires n < |w.steps|
  {
    if n == 0 then [] else Climb(w, n - 1, q, p, note) + [AdvanceBy(w, n - 1, p, n, note)]
  }

  lemma {:induction false} ReplayNothing(w: Workflow, revision: nat)
    ensures Replay(w, revision, []) == Some(Opened(revision))
  {
  }

  lemma {:induction false} ReplayStep(w: Workflow, revision: nat, g: seq<CaseEvent>, e: CaseEvent)
    requires Replay(w, revision, g).Some?
    ensures Replay(w, revision, g + [e]) == After(w, Replay(w, revision, g).value, e)
  {
    var h := g + [e];
    assert h[..|h| - 1] == g;
  }

  lemma {:induction false} AdvanceByAccepted(w: Workflow, c: Case, actor: string, note: string)
    requires c.step < |w.steps| - 1 && c.status == Ongoing && c.assignee == "" && c.lastActor != actor
    requires NoteOk(note)
    ensures After(w, c, AdvanceBy(w, c.step, actor, c.revision, note)) ==
      Some(c.(step := c.step + 1, lastActor := actor, revision := c.revision + 1))
  {
  }

  lemma {:induction false} ReturnByAccepted(w: Workflow, c: Case, actor: string, note: string)
    requires 0 < c.step < |w.steps| && c.status == Ongoing && c.assignee == ""
    requires NoteOk(note)
    ensures After(w, c, ReturnBy(w, c.step, actor, c.revision, note)) ==
      Some(c.(step := c.step - 1, revision := c.revision + 1))
  {
  }

  lemma {:induction false} ClimbAccepted(w: Workflow, revision: nat, n: nat, p: string, q: string, note: string)
    requires n < |w.steps| && p != "" && q != "" && p != q && NoteOk(note)
    ensures Replay(w, revision, Climb(w, n, p, q, note)) ==
      Some(Case(revision, n, Ongoing, "", if n == 0 then "" else p, n + 1))
  {
    hide Replay, After, NoteOk;
    ReplayNothing(w, revision);
    if n > 0 {
      var g, c := Climb(w, n - 1, q, p, note), Case(revision, n - 1, Ongoing, "", if n == 1 then "" else q, n);
      ClimbAccepted(w, revision, n - 1, q, p, note);
      ReplayStep(w, revision, g, AdvanceBy(w, n - 1, p, n, note));
      AdvanceByAccepted(w, c, p, note);
    }
  }

  lemma {:induction false} ClimbPosition(w: Workflow, n: nat, p: string, q: string, note: string)
    requires n < |w.steps|
    ensures var h := Climb(w, n, p, q, note); |h| == n && Opening(h) == 0 && Position(h) == n
  {
    if n > 0 {
      ClimbPosition(w, n - 1, q, p, note);
      PositionStep(Climb(w, n - 1, q, p, note), AdvanceBy(w, n - 1, p, n, note));
    }
  }

  /** `p` completes step `i - 1`, `q` step `i`, somebody sends the case back, and `p` completes step `i`. */
  function ReturnedRun(w: Workflow, i: nat, p: string, q: string, note: string): seq<CaseEvent>
    requires 1 <= i < |w.steps| - 1
  {
    Climb(w, i, p, q, note)
    + [AdvanceBy(w, i, q, i + 1, note)]
    + [ReturnBy(w, i + 1, q, i + 2, note)]
    + [AdvanceBy(w, i, p, i + 3, note)]
  }

  lemma {:induction false} ReturnedRunAccepted(w: Workflow, revision: nat, i: nat, p: string, q: string, note: string)
    requires 1 <= i < |w.steps| - 1 && p != "" && q != "" && p != q && NoteOk(note)
    ensures Replay(w, revision, ReturnedRun(w, i, p, q, note)).Some?
  {
    hide Replay, After, Climb, NoteOk, AdvanceBy, ReturnBy;
    ClimbAccepted(w, revision, i, p, q, note);
    var g, c := Climb(w, i, p, q, note), Case(revision, i, Ongoing, "", p, i + 1);
    var a, r, b := AdvanceBy(w, i, q, i + 1, note), ReturnBy(w, i + 1, q, i + 2, note), AdvanceBy(w, i, p, i + 3, note);
    ReplayStep(w, revision, g, a);
    AdvanceByAccepted(w, c, q, note);
    ReplayStep(w, revision, g + [a], r);
    ReturnByAccepted(w, Case(revision, i + 1, Ongoing, "", q, i + 2), q, note);
    ReplayStep(w, revision, g + [a] + [r], b);
    AdvanceByAccepted(w, Case(revision, i, Ongoing, "", q, i + 3), p, note);
  }

  lemma {:induction false} ReturnedRunPositions(w: Workflow, i: nat, p: string, q: string, note: string)
    requires 1 <= i < |w.steps| - 1
    ensures var h := ReturnedRun(w, i, p, q, note);
      && |h| == i + 3 && Opening(h) == 0
      && h[i - 1] == AdvanceBy(w, i - 1, p, i, note)
      && h[i] == AdvanceBy(w, i, q, i + 1, note)
      && Is(h[i + 1], Return)
      && Is(h[i + 2], Advance) && h[i + 2].call.actor == p
      && Position(h[..i - 1]) == i - 1 && Position(h[..i]) == i
      && Position(h[..i + 1]) == i + 1 && Position(h[..i + 2]) == i
  {
    ClimbPosition(w, i, p, q, note);
    ClimbPosition(w, i - 1, q, p, note);
    var h, g := ReturnedRun(w, i, p, q, note), Climb(w, i, p, q, note);
    assert g == Climb(w, i - 1, q, p, note) + [AdvanceBy(w, i - 1, p, i, note)];
    PositionStep(g, h[i]);
    PositionStep(g + [h[i]], h[i + 1]);
    PositionStep(g + [h[i]] + [h[i + 1]], h[i + 2]);
    assert h[..i - 1] == Climb(w, i - 1, q, p, note);
    assert h[..i] == g;
    assert h[..i + 1] == g + [h[i]];
    assert h[..i + 2] == g + [h[i]] + [h[i + 1]];
    assert h == g + [h[i]] + [h[i + 1]] + [h[i + 2]];
  }

  /** Any two people can bring it about. */
  lemma {:induction false} ReturnAllowsSelfApproval(w: Workflow, revision: nat, i: nat, p: string, q: string,
      note: string)
    requires 1 <= i < |w.steps| - 1 && p != "" && q != "" && p != q && NoteOk(note)
    ensures SelfApproval(w, revision, ReturnedRun(w, i, p, q, note), i)
  {
    ReturnedRunAccepted(w, revision, i, p, q, note);
    ReturnedRunPositions(w, i, p, q, note);
    var h := ReturnedRun(w, i, p, q, note);
    assert LatestCompletion(h, i - 1, i - 1);
    assert Completes(h, |h| - 1, i);
  }

  /**
   "A different person from the previous step" is kept by every accepted
   history of a workflow exactly when the step that asks for it is the last.
   */
  lemma {:induction false} DifferentActorKeptIffLast(w: Workflow, revision: nat, i: nat)
    requires Valid(w) && 1 <= i < |w.steps| && w.steps[i].differentActor
    ensures (forall h :: !SelfApproval(w, revision, h, i)) <==> i == |w.steps| - 1
  {
    hide SelfApproval, ReturnedRun, NoteOk;
    if i < |w.steps| - 1 {
      NoteReviewed();
      ReturnAllowsSelfApproval(w, revision, i, "p", "q", "reviewed");
    } else {
      forall h
        ensures !SelfApproval(w, revision, h, i)
      {
        NeverAtTheEnd(w, revision, h);
      }
    }
  }

  lemma {:induction false} NoteReviewed()
    ensures NoteOk("reviewed")
  {
    assert TrimSpace("reviewed") == "reviewed";
  }

  lemma {:induction false} NeverAtTheEnd(w: Workflow, revision: nat, h: seq<CaseEvent>)
    requires Valid(w) && w.steps[|w.steps| - 1].differentActor
    ensures !SelfApproval(w, revision, h, |w.steps| - 1)
  {
    hide Replay, LatestCompletion, Completes;
    if SelfApproval(w, revision, h, |w.steps| - 1) {
      LastStepSeparated(w, revision, h);
    }
  }

  lemma {:induction false} LastStepSeparated(w: Workflow, revision: nat, h: seq<CaseEvent>)
    requires Valid(w) && w.steps[|w.steps| - 1].differentActor
    requires h != [] && Replay(w, revision, h).Some? && Completes(h, |h| - 1, |w.steps| - 1)
    ensures forall k :: LatestCompletion(h, k, |w.steps| - 2) ==> h[k].call.actor != h[|h| - 1].call.actor
  {
    var g, e := h[..|h| - 1], h[|h| - 1];
    assert h == g + [e];
    Accounting(w, revision, g);
    PositionStep(g, e);
    Accounting(w, revision, h);
    ClosedMeansReviewed(w, revision, h);
  }
}
