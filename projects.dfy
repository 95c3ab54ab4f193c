/**
  Project records as the store keeps them, and the pure rules the HTTP
  handlers apply to one record: who may touch it, and what commit, push,
  revert, live edit and adding a collaborator do to it.
*/
module Projects {

  type ProjectId = nat
  type Username = string
  /** The server stamps snapshots with the wall clock; here the time is an input. */
  type Timestamp = int

  /** One entry of a project's `collaborators` array: `{ username, role }`. */
  datatype Collaborator = Collaborator(username: Username, role: string)

  /** One entry of a project's `history` array: `{ code, message, timestamp }`. */
  datatype Snapshot = Snapshot(code: string, message: string, timestamp: Timestamp)

  datatype Project = Project(
    name: string,
    owner: Username,
    collaborators: seq<Collaborator>,
    code: string,
    history: seq<Snapshot>)

  // ---------------------------------------------------------------------
  // Access rules
  // ---------------------------------------------------------------------

  /** The only roles the validated collaborator handler admits. */
  predicate ValidRole(role: string) {
    role == "editor" || role == "viewer"
  }

  /** Some collaborator entry carries this username (matched on the `username` field). */
  predicate HasCollaborator(collaborators: seq<Collaborator>, user: Username) {
    exists i | 0 <= i < |collaborators| :: collaborators[i].username == user
  }

  /**
    Owner or collaborator: the test that guards reading and committing, and
    the filter of the project listing. The role of the entry is not consulted.
  */
  predicate IsMember(p: Project, user: Username) {
    p.owner == user || HasCollaborator(p.collaborators, user)
  }

  /** Revert and adding collaborators are for the owner alone. */
  predicate IsOwner(p: Project, user: Username) {
    p.owner == user
  }

  predicate UniqueUsernames(collaborators: seq<Collaborator>) {
    forall i, j | 0 <= i < j < |collaborators| :: collaborators[i].username != collaborators[j].username
  }

  /** What the validated collaborator handler keeps true of every stored record. */
  predicate WellFormed(p: Project) {
    && UniqueUsernames(p.collaborators)
    && forall i | 0 <= i < |p.collaborators| :: ValidRole(p.collaborators[i].role)
  }

  // ---------------------------------------------------------------------
  // The effect of each successful handler on one record
  // ---------------------------------------------------------------------

  function NewProject(name: string, owner: Username): (q: Project) {
    Project(name, owner, [], "", [])
  }

  function Commit(p: Project, message: string, now: Timestamp): (q: Project) {
    p.(history := p.history + [Snapshot(p.code, message, now)])
  }

  /** Save the code as it was before the push, then replace it. */
  function Push(p: Project, newCode: string, message: string, now: Timestamp): (q: Project) {
    var saved := p.(history := p.history + [Snapshot(p.code, message, now)]);
    saved.(code := newCode)
  }

  function Revert(p: Project, index: nat): (q: Project)
    requires index < |p.history|
  {
    p.(code := p.history[index].code)
  }

  function AddCollaborator(p: Project, username: Username, role: string): (q: Project) {
    p.(collaborators := p.collaborators + [Collaborator(username, role)])
  }

  function LiveEdit(p: Project, newCode: string): (q: Project) {
    p.(code := newCode)
  }

  // ---------------------------------------------------------------------
  // Properties
  // ---------------------------------------------------------------------

  /** A new project is empty and only its creator may open it. */
  lemma NewProjectIsPrivate(name: string, owner: Username, user: Username)
    ensures NewProject(name, owner).code == "" && NewProject(name, owner).history == []
    ensures NewProject(name, owner).collaborators == [] && WellFormed(NewProject(name, owner))
    ensures IsOwner(NewProject(name, owner), owner)
    ensures IsMember(NewProject(name, owner), user) <==> user == owner
  {
  }

  /** A commit appends one snapshot of the current code and changes nothing else. */
  lemma CommitRecordsCurrentCode(p: Project, message: string, now: Timestamp)
    ensures var q := Commit(p, message, now);
      && |q.history| == |p.history| + 1
      && q.history[..|p.history|] == p.history
      && q.history[|p.history|] == Snapshot(p.code, message, now)
      && q.code == p.code && q.collaborators == p.collaborators
      && q.owner == p.owner && q.name == p.name
  {
  }

  /**
    A push appends one snapshot holding the code from before the push and
    then makes the pushed code current; collaborators are untouched.
  */
  lemma PushSavesThenReplaces(p: Project, newCode: string, message: string, now: Timestamp)
    ensures var q := Push(p, newCode, message, now);
      && |q.history| == |p.history| + 1
      && q.history[..|p.history|] == p.history
      && q.history[|p.history|] == Snapshot(p.code, message, now)
      && q.code == newCode && q.collaborators == p.collaborators
      && q.owner == p.owner && q.name == p.name
  {
  }

  /** Pushing the code that is already current still records a snapshot. */
  lemma PushOfSameCodeStillAppends(p: Project, message: string, now: Timestamp)
    ensures Push(p, p.code, message, now) != p
    ensures Push(p, p.code, message, now).code == p.code
  {
  }

  /** A revert makes the chosen snapshot's code current and leaves the history alone. */
  lemma RevertRestoresSnapshot(p: Project, index: nat)
    requires index < |p.history|
    ensures Revert(p, index).code == p.history[index].code
    ensures Revert(p, index).history == p.history
    ensures Revert(p, index).collaborators == p.collaborators && Revert(p, index).owner == p.owner
  {
  }

  /** Reverting twice to the same snapshot is the same as reverting once. */
  lemma RevertIsIdempotent(p: Project, index: nat)
    requires index < |p.history|
    ensures Revert(Revert(p, index), index) == Revert(p, index)
  {
  }

  /**
    Reverting to the snapshot a push has just saved gives back the code from
    before the push: the two together are exactly a commit.
  */
  lemma RevertUndoesPush(p: Project, newCode: string, message: string, now: Timestamp)
    ensures |p.history| < |Push(p, newCode, message, now).history|
    ensures Revert(Push(p, newCode, message, now), |p.history|) == Commit(p, message, now)
  {
  }

  /** A live edit replaces the code and records nothing. */
  lemma LiveEditRecordsNothing(p: Project, newCode: string)
    ensures LiveEdit(p, newCode).code == newCode
    ensures LiveEdit(p, newCode).history == p.history
    ensures LiveEdit(p, newCode).collaborators == p.collaborators
  {
  }

  /** After adding a collaborator, exactly the old members and the new name have access. */
  lemma AddCollaboratorGrantsAccess(p: Project, username: Username, role: string, user: Username)
    ensures IsMember(AddCollaborator(p, username, role), user) <==> IsMember(p, user) || user == username
  {
    var c := AddCollaborator(p, username, role).collaborators;
    if HasCollaborator(p.collaborators, user) {
      var i :| 0 <= i < |p.collaborators| && p.collaborators[i].username == user;
      assert c[i] == p.collaborators[i];
    }
    if user == username {
      assert c[|p.collaborators|].username == user;
    }
    if HasCollaborator(c, user) && user != username {
      var i :| 0 <= i < |c| && c[i].username == user;
      assert i < |p.collaborators| && p.collaborators[i].username == user;
    }
  }

  /**
    The validated handler only appends a name that is not there yet with a
    valid role, so stored records stay well formed.
  */
  lemma AddCollaboratorKeepsWellFormed(p: Project, username: Username, role: string)
    requires WellFormed(p)
    requires ValidRole(role) && !HasCollaborator(p.collaborators, username)
    ensures WellFormed(AddCollaborator(p, username, role))
    ensures |AddCollaborator(p, username, role).collaborators| == |p.collaborators| + 1
  {
  }

  /** A role is checked when it is stored and never read again: viewers get what editors get. */
  lemma ViewerAndEditorAlike(p: Project, username: Username, user: Username)
    ensures IsMember(AddCollaborator(p, username, "viewer"), user)
        <==> IsMember(AddCollaborator(p, username, "editor"), user)
  {
    AddCollaboratorGrantsAccess(p, username, "viewer", user);
    AddCollaboratorGrantsAccess(p, username, "editor", user);
  }

  // ---------------------------------------------------------------------
  // The membership test as written at the read and commit handlers
  // ---------------------------------------------------------------------

  /**
    The text a `{ username, role }` subdocument turns into when it is
    compared with `==` against a string: its printed object literal. The
    real text also carries the subdocument's `_id`; all that matters below is
    that it starts with a brace.
  */
  function PrintedForm(c: Collaborator): (text: string) {
    "{ username: '" + c.username + "', role: '" + c.role + "' }"
  }

  /** `collaborators.includes(user)`: some entry is loosely equal to the string. */
  predicate IncludesAsWritten(collaborators: seq<Collaborator>, user: Username) {
    exists i | 0 <= i < |collaborators| :: PrintedForm(collaborators[i]) == user
  }

  /** The guard of the read and commit handlers, read literally. */
  predicate IsMemberAsWritten(p: Project, user: Username) {
    p.owner == user || IncludesAsWritten(p.collaborators, user)
  }

  /** No ordinary username (one not starting with a brace) is ever found by the literal test. */
  lemma IncludesAsWrittenMissesNames(collaborators: seq<Collaborator>, user: Username)
    requires user == [] || user[0] != '{'
    ensures !IncludesAsWritten(collaborators, user)
  {
  }

  /**
    A collaborator added through the validated handler is listed (the listing
    matches on the username field) but refused by the literal guard.
  */
  lemma AsWrittenDeniesListedCollaborator()
    ensures var p := AddCollaborator(NewProject("Demo", "alice"), "bob", "editor");
      && IsMember(p, "bob")
      && !IsMemberAsWritten(p, "bob")
  {
    var p := AddCollaborator(NewProject("Demo", "alice"), "bob", "editor");
    assert p.collaborators[0].username == "bob";
    IncludesAsWrittenMissesNames(p.collaborators, "bob");
  }
}
