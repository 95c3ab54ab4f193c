# Collaborative editor: project store and rooms

This is a Dafny model of the backend of a small collaborative code editor.
The backend is an Express and socket.io server (`backend/server.js`). It keeps one
record per project: its owner, its current code, a list of collaborators
(`{ username, role }` entries) and an append-only history of snapshots
(`{ code, message, timestamp }`). HTTP handlers create, list and read projects.
They commit the current code, push new code (saving the old code first) and
revert to an earlier snapshot. They also add collaborators, and pull the code
and history. Socket handlers let a session join a project's room, send live
edits that replace the stored code and reach the whole room, and relay cursor
moves to everyone else in the room.

Files:

- `projects.dfy` (module `Projects`) holds the record types. It also holds the access
  rules (`IsMember`, `IsOwner`, `ValidRole`), the effect of each successful
  handler on one record as a pure function, and the lemmas about them.
- `rooms.dfy` (module `Rooms`) holds the room map, `Join`, and the recipients of the two
  forms of emit: `io.to(room)` reaches the whole room (`WholeRoom`) and
  `socket.to(room)` reaches the room minus the sender (`AllBut(sender)`).
- `server.dfy` (module `Server`) holds the class `CollabServer`. Its fields are
  `projects` (id to record), `rooms` and a fresh-id counter. There is one method
  per handler, and each returns an `Outcome`: `Ok`, `AccessDenied`, `NotFound`,
  `InvalidInput` or `AlreadyExists`. Handlers that emit also return the
  `Emission` with its recipients. Three client methods replay end-to-end
  scenarios.
- `replay.dfy` (module `Replay`) covers runs of admitted requests against one
  record. It proves that the history is append-only and that every snapshot
  keeps the code of its own time.

Each handler is one atomic step. The requester is the username the
authentication layer decoded from the token, and timestamps are inputs.
A handler fetches the record, changes a local copy in the source's order
(for push: append the snapshot of the old code, then replace the code), and
stores it back. This matches how the source loads a document, mutates it
and saves it.

Membership reading. The read and commit guards (`backend/server.js:99`,
`:106`) call `collaborators.includes(username)`, but the entries are
`{ username, role }` records, not strings. The listing query (`:82`) and the
duplicate check (`:209`) match on the `username` field instead. The model uses
the username-field reading for every handler (`Projects.IsMember`). The literal
test is modelled as `Projects.IsMemberAsWritten`, and the finding below shows
how the two differ.

Some behaviours of `backend/server.js` are easy to miss:

- Push, pull and history check only that the project exists. They do not check
  membership. Push's failure is `NotFound`.
- Get, commit, revert and add-collaborator answer a missing project with
  `AccessDenied` (403), not `NotFound`.
- Roles are validated when stored and never read again. A viewer can commit
  and push exactly like an editor (`Projects.ViewerAndEditorAlike`).
- Nothing stops the owner from adding themselves as a collaborator. The only
  invariant the validated handler keeps is unique usernames with valid roles
  (`Projects.WellFormed`).
- The socket handlers check neither room membership nor role. A live edit
  needs only an existing project.
- Revert does not record a snapshot, so the code it replaces is lost unless it
  was committed.
- A live edit naming a well-formed id that no project holds is dropped
  without an emit (`Server.CollabServer.OnCodeUpdate`).
- `backend/tests/socket.test.js` runs against a bare socket.io server without
  these handlers. Its id `"testProject123"` is not a valid object id, so under
  `server.js` the lookup at line 142 would throw before the missing-project
  check at line 143 is reached.

## Model

The per-record functions `Projects.NewProject`, `Projects.Commit`,
`Projects.Push`, `Projects.Revert`, `Projects.AddCollaborator` and
`Projects.LiveEdit` model lines 71, 108, 167-168, 119, 213 and 145 of
`backend/server.js`. The handler rows below and the lemmas about them
cover these functions.

| member | source | states |
|---|---|---|
| `Projects.NewProjectIsPrivate` | backend/server.js:70-74 | a new project has empty code, no history, no collaborators, is owned by the requester, and nobody else passes the membership test |
| `Projects.CommitRecordsCurrentCode` | backend/server.js:103-111 | a commit grows the history by exactly one, keeps the old snapshots as a prefix, records the current code with the message and time, and leaves code, collaborators and owner unchanged |
| `Projects.PushSavesThenReplaces` | backend/server.js:162-173 | a push grows the history by exactly one, and the new last snapshot holds the code from before the push; the pushed code then becomes current, and collaborators and owner are unchanged |
| `Projects.PushOfSameCodeStillAppends` | backend/server.js:167-168 | pushing the code that is already current still changes the record (a snapshot is added) and leaves the code as it was |
| `Projects.RevertRestoresSnapshot` | backend/server.js:118-119 | a revert to an index inside the history makes that snapshot's code current and leaves the history (and its length) and the collaborators unchanged |
| `Projects.RevertIsIdempotent` | backend/server.js:119 | reverting twice to the same snapshot equals reverting once |
| `Projects.RevertUndoesPush` | backend/server.js:113-173 | reverting to the snapshot a push just saved gives back the pre-push code; push followed by that revert is exactly a commit |
| `Projects.LiveEditRecordsNothing` | backend/server.js:141-148 | a live edit makes the new code current and leaves history and collaborators untouched |
| `Projects.AddCollaboratorGrantsAccess` | backend/server.js:202-216 | after a collaborator is added, a user passes the membership test iff they passed it before or are the added name |
| `Projects.AddCollaboratorKeepsWellFormed` | backend/server.js:203-213 | appending a valid-role entry whose name is absent keeps usernames unique and all roles valid, and adds exactly one entry |
| `Projects.ViewerAndEditorAlike` | backend/server.js:204 | the stored role never affects access: a viewer and an editor entry for the same name grant the same access |
| `Projects.IncludesAsWrittenMissesNames` | backend/server.js:99 | the literal `collaborators.includes(username)` never finds a username that does not start with a brace, whatever the entries |
| `Projects.AsWrittenDeniesListedCollaborator` | backend/server.js:79-106 | a collaborator added by the validated handler is listed by the username-field query but refused by the literal guard of the read and commit handlers |
| `Rooms.Join` | backend/server.js:137-139 | joining adds the session to that room's members and changes no other room |
| `Rooms.Recipients` | backend/server.js:141-152 | an emit reaches only members of its room; a whole-room emit reaches every member, and an all-but-sender emit reaches every member except the sender, never the sender |
| `Rooms.FanOut` | backend/server.js:141-152 | with the sender in a room of n sessions, a whole-room emit reaches n sessions and an all-but-sender emit reaches n - 1 |
| `Rooms.JoinedSessionHears` | backend/server.js:137-152 | a session that joined a room receives whole-room emits there but not its own relays |
| `Rooms.JoinIsolatesRooms` | backend/server.js:137-139 | joining one room leaves the recipients of every other room's emits unchanged |
| `Server.CollabServer.CreateProject` | backend/server.js:70-74 | the new project gets a fresh id and is the empty project owned by the requester; no other project and no room changes |
| `Server.CollabServer.ListProjects` | backend/server.js:76-95 | the listing holds exactly the projects the user owns or has a collaborator entry in, each as stored |
| `Server.CollabServer.GetProject` | backend/server.js:97-101 | the record is returned iff the project exists and the user is its owner or a collaborator; otherwise the answer is AccessDenied, also for a missing id |
| `Server.CollabServer.Commit` | backend/server.js:103-111 | a missing project or a non-member gets AccessDenied and nothing changes; otherwise the record becomes its commit (one snapshot of the current code appended) and no room changes |
| `Server.CollabServer.Revert` | backend/server.js:113-124 | a missing project or a non-owner gets AccessDenied; an index below 0 or at or past the history length gets InvalidInput; in both cases nothing changes and nothing is emitted; otherwise the code becomes that snapshot's code and the whole room is sent it |
| `Server.CollabServer.AddCollaborator` | backend/server.js:202-216 | a role other than editor or viewer gets InvalidInput before the project is looked up; then a missing project or a non-owner gets AccessDenied; then a name already present gets AlreadyExists; otherwise one entry is appended at the end; the store stays well formed |
| `Server.CollabServer.Pull` | backend/server.js:155-160 | an existing project's current code and history are returned as stored; a missing one gets NotFound |
| `Server.CollabServer.Push` | backend/server.js:162-173 | a missing project gets NotFound and nothing changes; otherwise, with no membership check, the record becomes its push (old code saved, new code current) and the whole room is sent the new code |
| `Server.CollabServer.History` | backend/server.js:175-180 | an existing project's snapshots are returned in recorded order; a missing one gets NotFound |
| `Server.CollabServer.OnJoinProject` | backend/server.js:137-139 | the session joins the room with no access check; projects and other rooms are unchanged |
| `Server.CollabServer.OnCodeUpdate` | backend/server.js:141-148 | an unknown project is ignored with no emit; otherwise only the code changes and the whole room, sender included, is sent the new code |
| `Server.CollabServer.OnCursorUpdate` | backend/server.js:150-152 | the cursor data goes to the room minus the sender; no project is read or changed |
| `Server.PushThenPullScenario` | backend/tests/api.test.js:48-85 | after create, commit and push succeed, a pull succeeds and returns the pushed code and a two-snapshot history: the commit of the empty code, then the push's snapshot of that same empty pre-push code |
| `Server.PushThenRevertScenario` | backend/server.js:113-173 | going beyond the project tests: after create, commit and push, the owner's revert to snapshot 0 makes the code empty again, keeps both snapshots, and sends the room the restored empty code |
| `Server.TwoSessionScenario` | backend/tests/socket.test.js:24-34 | with two sessions in a room, a live edit from the first reaches both, the second included, carrying the new code; going beyond the test, after the cursor relay of backend/server.js:150-152, the first session's cursor move reaches only the second, carrying the cursor data |
| `Replay.ApplyAppendsOnly` | backend/server.js:103-173 | no admitted request removes, reorders or rewrites a snapshot; commit and push add exactly one, every other request adds none |
| `Replay.HistoryOnlyGrows` | backend/server.js:103-173 | after any run of requests the old history is a prefix of the new one, which has grown by the number of commits and pushes in the run |
| `Replay.SnapshotKeepsCodeOfItsTime` | backend/server.js:103-173 | the snapshot a commit or push records holds the code current just before that request, and it stays at that position whatever follows |
| `Replay.CommitsOnly` | backend/server.js:103-111 | after N commits the history has grown by N, each new snapshot holds the unchanged current code with its own message and time, in order |
| `Replay.RunKeepsWellFormed` | backend/server.js:202-216 | any run of admitted requests keeps collaborator usernames unique and roles valid |

## Findings

| source | as written | input that shows it | evidently intended | confidence | as-written member | corrected member |
|---|---|---|---|---|---|---|
| backend/server.js:99 | `collaborators.includes(username)` compares the username string with `{ username, role }` subdocuments, which never equal a plain name (the same test guards commit at line 106) | project owned by alice with collaborator `{ username: "bob", role: "editor" }`; bob reads or commits: 403, although the listing shows him the project | match on the `username` field, as the listing query (line 82) and the duplicate check (line 209) do | medium (depends on how the document array compares entries with a string), not executed | `Projects.AsWrittenDeniesListedCollaborator` | `Projects.AddCollaboratorGrantsAccess` |

## Left out

- Registration, login and the token middleware (`backend/server.js:35-67`) rely on bcrypt and JWT. The model takes the requester's username as an input.
- Share-link creation and resolution (`backend/server.js:182-200`) rely on signed tokens and a 24-hour wall-clock expiry.
- The first `POST /projects/:id/collaborators` handler (`backend/server.js:126-133`) is left out. It pushes the bare `username` with no role or duplicate check. Express registers it first and it never passes control on, so as written it answers every such request and the validated handler at lines 202-216 is never reached. The model treats the validated handler as the operation.
- The database connection and persistence are replaced by the in-memory `projects` map. Save failures are not modelled, so every admitted handler succeeds.
- Mongo's object ids are replaced by a counter (`nextId`). Socket room names and URL ids are the same natural-number ids.
- Malformed ids are not modelled. In the source, an id that is not a valid object id makes `findById` reject in every handler (`backend/server.js:98`, `:105`, `:115`, `:142`, `:156`, `:164`, `:176`, `:206`). The handler then gives no 403 or 404 answer, and in the socket listener the rejection goes unhandled. Model ids are always well formed, so a missing project always gets the handler's own answer.
- socket.io delivery is left out: ordering, transport and cleanup of rooms on disconnect. A broadcast is modelled as its set of recipients. There is no leave operation, because the source has none.
- Interleaving of the asynchronous handlers and per-project locking are left out. Each handler is one atomic step.
- The `new Date()` timestamps become an input.
- Request bodies are typed: `versionIndex` is an integer, and message, code and role are strings. A missing or non-numeric index passes both range tests at line 118. The handler then throws a TypeError at `history[versionIndex].code` (line 119) instead of answering 400, and this path is not modelled. Cursor data is opaque text.
- `Server.CollabServer.ListProjects` returns the matching projects as a map from id to record. The source returns them as an array in the database's order. The source's 404 branch for a falsy result is unreachable, because the query returns an array, and it is not modelled.
- The frontend (React pages and the auth context) is not part of this model.
