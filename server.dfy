/**
  The server's shared state and its handlers: the project store behind the
  HTTP routes and the room map behind the socket events. Each handler runs
  as one atomic step; the requesting user is the name the authentication
  layer decoded from the request's token.
*/
module Server {
  import opened Projects
  import opened Rooms

  /** How a handler answers: 200 with a body, 403, 404, or one of the two kinds of 400. */
  datatype Outcome<+T> = Ok(value: T) | AccessDenied | NotFound | InvalidInput | AlreadyExists

  datatype Option<+T> = None | Some(value: T)

  /** Socket events the server emits; cursor data is passed through as opaque text. */
  datatype Event = CodeUpdate(code: string) | CursorUpdate(cursor: string)

  /** One emit to a room, with the sessions it reaches. */
  datatype Emission = Emission(room: ProjectId, event: Event, recipients: set<SessionId>)

  /** The body of a successful pull. */
  datatype PullResult = PullResult(code: string, history: seq<Snapshot>)

  class CollabServer {
    /** The project collection: id to the stored record. */
    var projects: map<ProjectId, Project>
    /** Socket rooms, one per project id a client has joined. */
    var rooms: RoomMap
    /** Source of fresh project ids. */
    var nextId: nat

    ghost predicate Valid()
      reads this
    {
      forall id | id in projects :: id < nextId && WellFormed(projects[id])
    }

    constructor ()
      ensures Valid()
      ensures projects == map[] && rooms == map[]
    {
      projects := map[];
      rooms := map[];
      nextId := 0;
    }

    /** POST /projects: a new, empty project owned by the requester under a fresh id. */
    method CreateProject(name: string, user: Username) returns (id: ProjectId, project: Project)
      requires Valid()
      modifies this
      ensures Valid()
      ensures id !in old(projects) && project == NewProject(name, user)
      ensures projects == old(projects)[id := project]
      ensures rooms == old(rooms)
    {
      id := nextId;
      nextId := nextId + 1;
      project := Project(name, user, [], "", []);
      projects := projects[id := project];
    }

    /** GET /projects: every project the user owns or has a collaborator entry in. */
    method ListProjects(user: Username) returns (r: map<ProjectId, Project>)
      ensures forall id :: id in r <==> id in projects && IsMember(projects[id], user)
      ensures forall id | id in r :: r[id] == projects[id]
    {
      r := map id | id in projects && (projects[id].owner == user || HasCollaborator(projects[id].collaborators, user))
                  :: projects[id];
    }

    /** GET /projects/:id: the record, for its owner and collaborators; a missing id is also refused. */
    method GetProject(id: ProjectId, user: Username) returns (r: Outcome<Project>)
      ensures r.Ok? <==> id in projects && IsMember(projects[id], user)
      ensures r.Ok? ==> r.value == projects[id]
      ensures !r.Ok? ==> r == AccessDenied
    {
      if id !in projects || (!HasCollaborator(projects[id].collaborators, user) && projects[id].owner != user) {
        return AccessDenied;
      }
      r := Ok(projects[id]);
    }

    /** POST /projects/:id/commit: record the current code, for owner and collaborators. */
    method Commit(id: ProjectId, user: Username, message: string, now: Timestamp) returns (r: Outcome<()>)
      requires Valid()
      modifies this
      ensures Valid() && rooms == old(rooms) && nextId == old(nextId)
      ensures r.Ok? <==> id in old(projects) && IsMember(old(projects)[id], user)
      ensures r.Ok? ==> projects == old(projects)[id := Projects.Commit(old(projects)[id], message, now)]
      ensures !r.Ok? ==> r == AccessDenied && projects == old(projects)
    {
      if id !in projects || (projects[id].owner != user && !HasCollaborator(projects[id].collaborators, user)) {
        return AccessDenied;
      }
      var project := projects[id];
      project := project.(history := project.history + [Snapshot(project.code, message, now)]);
      projects := projects[id := project];
      r := Ok(());
    }

    /**
      POST /projects/:id/revert: the owner makes an earlier snapshot's code
      current and the whole room is told the new code.
    */
    method Revert(id: ProjectId, user: Username, versionIndex: int) returns (r: Outcome<()>, sent: Option<Emission>)
      requires Valid()
      modifies this
      ensures Valid() && rooms == old(rooms) && nextId == old(nextId)
      ensures id !in old(projects) || !IsOwner(old(projects)[id], user) ==>
        r == AccessDenied && projects == old(projects) && sent == None
      ensures id in old(projects) && IsOwner(old(projects)[id], user) && !(0 <= versionIndex < |old(projects)[id].history|) ==>
        r == InvalidInput && projects == old(projects) && sent == None
      ensures id in old(projects) && IsOwner(old(projects)[id], user) && 0 <= versionIndex < |old(projects)[id].history| ==>
        && r == Ok(())
        && projects == old(projects)[id := Projects.Revert(old(projects)[id], versionIndex)]
        && sent == Some(Emission(id, CodeUpdate(old(projects)[id].history[versionIndex].code), Recipients(rooms, id, WholeRoom)))
    {
      if id !in projects || projects[id].owner != user {
        return AccessDenied, None;
      }
      var project := projects[id];
      if versionIndex < 0 || versionIndex >= |project.history| {
        return InvalidInput, None;
      }
      project := project.(code := project.history[versionIndex].code);
      projects := projects[id := project];
      sent := Some(Emission(id, CodeUpdate(project.code), Recipients(rooms, id, WholeRoom)));
      r := Ok(());
    }

    /**
      POST /projects/:id/collaborators (the validated handler): the role is
      checked first, then ownership, then that the name is not already there.
    */
    method AddCollaborator(id: ProjectId, user: Username, username: Username, role: string) returns (r: Outcome<()>)
      requires Valid()
      modifies this
      ensures Valid() && rooms == old(rooms) && nextId == old(nextId)
      ensures !ValidRole(role) ==> r == InvalidInput && projects == old(projects)
      ensures ValidRole(role) && (id !in old(projects) || !IsOwner(old(projects)[id], user)) ==>
        r == AccessDenied && projects == old(projects)
      ensures ValidRole(role) && id in old(projects) && IsOwner(old(projects)[id], user)
              && HasCollaborator(old(projects)[id].collaborators, username) ==>
        r == AlreadyExists && projects == old(projects)
      ensures ValidRole(role) && id in old(projects) && IsOwner(old(projects)[id], user)
              && !HasCollaborator(old(projects)[id].collaborators, username) ==>
        r == Ok(()) && projects == old(projects)[id := Projects.AddCollaborator(old(projects)[id], username, role)]
    {
      if !(role == "editor" || role == "viewer") {
        return InvalidInput;
      }
      if id !in projects || projects[id].owner != user {
        return AccessDenied;
      }
      var project := projects[id];
      if HasCollaborator(project.collaborators, username) {
        return AlreadyExists;
      }
      AddCollaboratorKeepsWellFormed(project, username, role);
      project := project.(collaborators := project.collaborators + [Collaborator(username, role)]);
      projects := projects[id := project];
      r := Ok(());
    }

    /** GET /projects/:id/pull: current code and history, for any authenticated user. */
    method Pull(id: ProjectId) returns (r: Outcome<PullResult>)
      ensures r.Ok? <==> id in projects
      ensures r.Ok? ==> r.value == PullResult(projects[id].code, projects[id].history)
      ensures !r.Ok? ==> r == NotFound
    {
      if id !in projects {
        return NotFound;
      }
      r := Ok(PullResult(projects[id].code, projects[id].history));
    }

    /**
      POST /projects/:id/push, for any authenticated user: save the old code
      as a snapshot, then replace it, then tell the whole room.
    */
    method Push(id: ProjectId, newCode: string, message: string, now: Timestamp) returns (r: Outcome<()>, sent: Option<Emission>)
      requires Valid()
      modifies this
      ensures Valid() && rooms == old(rooms) && nextId == old(nextId)
      ensures id !in old(projects) ==> r == NotFound && projects == old(projects) && sent == None
      ensures id in old(projects) ==>
        && r == Ok(())
        && projects == old(projects)[id := Projects.Push(old(projects)[id], newCode, message, now)]
        && sent == Some(Emission(id, CodeUpdate(newCode), Recipients(rooms, id, WholeRoom)))
    {
      if id !in projects {
        return NotFound, None;
      }
      var project := projects[id];
      project := project.(history := project.history + [Snapshot(project.code, message, now)]);
      project := project.(code := newCode);
      projects := projects[id := project];
      sent := Some(Emission(id, CodeUpdate(newCode), Recipients(rooms, id, WholeRoom)));
      r := Ok(());
    }

    /** GET /projects/:id/history: the snapshots in the order they were recorded. */
    method History(id: ProjectId) returns (r: Outcome<seq<Snapshot>>)
      ensures r.Ok? <==> id in projects
      ensures r.Ok? ==> r.value == projects[id].history
      ensures !r.Ok? ==> r == NotFound
    {
      if id !in projects {
        return NotFound;
      }
      r := Ok(projects[id].history);
    }

    /** Socket `joinProject`: any session may join any room, known project or not. */
    method OnJoinProject(session: SessionId, room: ProjectId)
      requires Valid()
      modifies this
      ensures Valid()
      ensures rooms == Join(old(rooms), room, session)
      ensures projects == old(projects) && nextId == old(nextId)
    {
      rooms := Join(rooms, room, session);
    }

    /**
      Socket `codeUpdate`: a live edit. An unknown project is ignored without
      an emit; otherwise the code is replaced and the whole room, sender
      included, receives it.
    */
    method OnCodeUpdate(session: SessionId, room: ProjectId, newCode: string) returns (sent: Option<Emission>)
      requires Valid()
      modifies this
      ensures Valid() && rooms == old(rooms) && nextId == old(nextId)
      ensures room !in old(projects) ==> projects == old(projects) && sent == None
      ensures room in old(projects) ==>
        && projects == old(projects)[room := LiveEdit(old(projects)[room], newCode)]
        && sent == Some(Emission(room, CodeUpdate(newCode), Recipients(rooms, room, WholeRoom)))
    {
      if room !in projects {
        return None;
      }
      var project := projects[room];
      project := project.(code := newCode);
      projects := projects[room := project];
      sent := Some(Emission(room, CodeUpdate(newCode), Recipients(rooms, room, WholeRoom)));
    }

    /** Socket `cursorUpdate`: relayed to the rest of the room; nothing is looked up or stored. */
    method OnCursorUpdate(session: SessionId, room: ProjectId, cursor: string) returns (sent: Emission)
      ensures sent.room == room && sent.event == CursorUpdate(cursor)
      ensures sent.recipients == Members(rooms, room) - {session}
      ensures session !in sent.recipients
    {
      sent := Emission(room, CursorUpdate(cursor), Recipients(rooms, room, AllBut(session)));
    }
  }

  /**
    The project tests: create, commit, push new code, then pull. Commit,
    push and pull all succeed; the pull returns the pushed code, and the
    history holds the commit of the empty code followed by the push's
    snapshot of that same empty code.
  */
  method PushThenPullScenario(newCode: string, t0: Timestamp, t1: Timestamp)
    returns (committed: Outcome<()>, pushed: Outcome<()>, pulled: Outcome<PullResult>)
    ensures committed.Ok? && pushed.Ok? && pulled.Ok?
    ensures pulled.value.code == newCode
    ensures pulled.value.history == [Snapshot("", "Initial commit", t0), Snapshot("", "Updated code", t1)]
  {
    var s := new CollabServer();
    var id, _ := s.CreateProject("Test Project", "testuser");
    committed := s.Commit(id, "testuser", "Initial commit", t0);
    var sentOnPush;
    pushed, sentOnPush := s.Push(id, newCode, "Updated code", t1);
    pulled := s.Pull(id);
  }

  /**
    Create "Demo", commit, push new code, then the owner reverts to the first
    snapshot: the code is empty again, both snapshots remain, and the room
    is sent the restored code.
  */
  method PushThenRevertScenario(t0: Timestamp, t1: Timestamp) returns (code: string, historyLength: nat, sent: Option<Emission>)
    ensures code == "" && historyLength == 2
    ensures sent.Some? && sent.value.event == CodeUpdate("")
  {
    var s := new CollabServer();
    var id, _ := s.CreateProject("Demo", "alice");
    var committed := s.Commit(id, "alice", "init", t0);
    var pushed, _ := s.Push(id, "print(1)", "add print", t1);
    var reverted;
    reverted, sent := s.Revert(id, "alice", 0);
    assert committed.Ok? && pushed.Ok? && reverted.Ok?;
    var pulled := s.Pull(id);
    code := pulled.value.code;
    historyLength := |pulled.value.history|;
  }

  /**
    Two sessions in one room: a live edit from the first reaches both with
    the new code, a cursor move from the first reaches only the second with
    the cursor data.
  */
  method TwoSessionScenario(newCode: string, cursor: string) returns (edit: Emission, move: Emission)
    ensures edit.event == CodeUpdate(newCode) && edit.recipients == {1, 2}
    ensures move.event == CursorUpdate(cursor) && move.recipients == {2}
  {
    var s := new CollabServer();
    var id, _ := s.CreateProject("Shared", "alice");
    s.OnJoinProject(1, id);
    s.OnJoinProject(2, id);
    var sent := s.OnCodeUpdate(1, id, newCode);
    edit := sent.value;
    move := s.OnCursorUpdate(1, id, cursor);
  }
}
