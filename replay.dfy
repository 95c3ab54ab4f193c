/**
  Runs of successive requests against one project, each already admitted by
  its handler's access check, and what any such run does to the history.
*/
module Replay {
  import opened Projects

  /** A request that reached one project record. */
  datatype Edit =
    | Committed(message: string, at: Timestamp)
    | Pushed(newCode: string, message: string, at: Timestamp)
    | Reverted(index: int)
    | LiveEdited(newCode: string)
    | CollaboratorAdded(username: Username, role: string)

  /** Commits and pushes are the requests that record a snapshot. */
  predicate Records(e: Edit) {
    e.Committed? || e.Pushed?
  }

  /** One request's effect; the ones the handler answers with a 400 leave the record as it was. */
  function Apply(p: Project, e: Edit): (q: Project) {
    match e
    case Committed(message, at) => Commit(p, message, at)
    case Pushed(newCode, message, at) => Push(p, newCode, message, at)
    case Reverted(index) => if 0 <= index < |p.history| then Revert(p, index) else p
    case LiveEdited(newCode) => LiveEdit(p, newCode)
    case CollaboratorAdded(username, role) =>
      if ValidRole(role) && !HasCollaborator(p.collaborators, username) then AddCollaborator(p, username, role) else p
  }

  function Run(p: Project, edits: seq<Edit>): (q: Project)
    decreases |edits|
  {
    if edits == [] then p else Run(Apply(p, edits[0]), edits[1..])
  }

  /** How many requests of a run record a snapshot. */
  function RecordCount(edits: seq<Edit>): (n: nat)
    decreases |edits|
  {
    if edits == [] then 0 else (if Records(edits[0]) then 1 else 0) + RecordCount(edits[1..])
  }

  lemma {:induction false} RunConcat(p: Project, a: seq<Edit>, b: seq<Edit>)
    ensures Run(p, a + b) == Run(Run(p, a), b)
    decreases |a|
  {
    if a == [] {
      assert a + b == b;
    } else {
      assert (a + b)[0] == a[0];
      assert (a + b)[1..] == a[1..] + b;
      RunConcat(Apply(p, a[0]), a[1..], b);
    }
  }

  /** One request never removes, reorders or rewrites a snapshot, and adds one exactly when it records. */
  lemma ApplyAppendsOnly(p: Project, e: Edit)
    ensures var q := Apply(p, e);
      && |q.history| == |p.history| + (if Records(e) then 1 else 0)
      && q.history[..|p.history|] == p.history
      && q.owner == p.owner && q.name == p.name
  {
  }

  /**
    History is append-only: after any run the old history is a prefix of the
    new one, which has grown by one snapshot per commit or push.
  */
  lemma {:induction false} HistoryOnlyGrows(p: Project, edits: seq<Edit>)
    ensures |Run(p, edits).history| == |p.history| + RecordCount(edits)
    ensures Run(p, edits).history[..|p.history|] == p.history
    ensures Run(p, edits).owner == p.owner
    decreases |edits|
  {
    if edits != [] {
      var q := Apply(p, edits[0]);
      ApplyAppendsOnly(p, edits[0]);
      HistoryOnlyGrows(q, edits[1..]);
      var h := Run(q, edits[1..]).history;
      assert h[..|p.history|] == h[..|q.history|][..|p.history|];
    }
  }

  /**
    The snapshot recorded by the k-th request of a run holds the code that
    was current just before that request, and it stays at its position
    however the run continues: commits keep the code current at their time,
    pushes the code they replaced.
  */
  lemma {:induction false} SnapshotKeepsCodeOfItsTime(p: Project, edits: seq<Edit>, k: nat)
    requires k < |edits| && Records(edits[k])
    ensures var before := Run(p, edits[..k]);
      && |before.history| < |Run(p, edits).history|
      && Run(p, edits).history[|before.history|] == Snapshot(before.code, edits[k].message, edits[k].at)
  {
    var before := Run(p, edits[..k]);
    var after := Apply(before, edits[k]);
    assert edits == edits[..k] + ([edits[k]] + edits[k + 1..]);
    RunConcat(p, edits[..k], [edits[k]] + edits[k + 1..]);
    RunConcat(before, [edits[k]], edits[k + 1..]);
    assert Run(before, [edits[k]]) == after;
    assert after.history[|before.history|] == Snapshot(before.code, edits[k].message, edits[k].at);
    HistoryOnlyGrows(after, edits[k + 1..]);
    var h := Run(after, edits[k + 1..]).history;
    assert h[|before.history|] == h[..|after.history|][|before.history|];
  }

  /** A run of commits alone records one snapshot of the unchanged code per commit. */
  lemma {:induction false} CommitsOnly(p: Project, edits: seq<Edit>)
    requires forall i | 0 <= i < |edits| :: edits[i].Committed?
    ensures Run(p, edits).code == p.code
    ensures |Run(p, edits).history| == |p.history| + |edits|
    ensures forall i | 0 <= i < |edits| ::
      Run(p, edits).history[|p.history| + i] == Snapshot(p.code, edits[i].message, edits[i].at)
    decreases |edits|
  {
    if edits != [] {
      var q := Apply(p, edits[0]);
      CommitsOnly(q, edits[1..]);
      var h := Run(q, edits[1..]).history;
      HistoryOnlyGrows(q, edits[1..]);
      assert h[|p.history|] == h[..|q.history|][|p.history|];
      forall i | 0 <= i < |edits|
        ensures h[|p.history| + i] == Snapshot(p.code, edits[i].message, edits[i].at)
      {
        if i > 0 {
          assert edits[1..][i - 1] == edits[i];
        }
      }
    }
  }

  /** Every record reachable from a well-formed one by admitted requests is well formed. */
  lemma {:induction false} RunKeepsWellFormed(p: Project, edits: seq<Edit>)
    requires WellFormed(p)
    ensures WellFormed(Run(p, edits))
    decreases |edits|
  {
    if edits != [] {
      var e := edits[0];
      if e.CollaboratorAdded? && ValidRole(e.role) && !HasCollaborator(p.collaborators, e.username) {
        AddCollaboratorKeepsWellFormed(p, e.username, e.role);
      }
      RunKeepsWellFormed(Apply(p, e), edits[1..]);
    }
  }
}
