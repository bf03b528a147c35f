/** current.json, schema 2: what the parser accepts and how each writer derives the next document. */
module CurrentState {
  import opened Wrappers
  import opened Ordering

  datatype ApplicationState = ApplicationState(
    revision: string, manifest: string, images: map<string, string>, deployment: string)

  datatype DatabaseState = DatabaseState(
    heads: seq<string>, schemaRelease: string, lastMigration: Option<string>,
    contract: Option<string>, compatible: seq<string>)

  datatype Current = Current(application: ApplicationState, database: DatabaseState, updatedAt: string)

  ghost predicate AcceptedDatabase(raw: DatabaseState) {
    && raw.heads != [] && SortedUnique(raw.heads)
    && (raw.lastMigration.None? <==> raw.contract.None?)
    && raw.compatible != [] && SortedUnique(raw.compatible)
    && raw.schemaRelease in raw.compatible
  }

  function ParseDatabase(raw: DatabaseState): Option<DatabaseState> {
    if raw.heads == [] || !SortedUnique(raw.heads) then None
    else if raw.lastMigration.None? != raw.contract.None? then None
    else if raw.compatible == [] || !SortedUnique(raw.compatible) then None
    else if raw.schemaRelease !in raw.compatible then None
    else Some(raw)
  }

  function Parse(raw: Current): Option<Current> {
    var database := ParseDatabase(raw.database);
    if database.None? then None
    else if raw.application.revision !in database.value.compatible then None
    else Some(Current(raw.application, database.value, raw.updatedAt))
  }

  ghost predicate Accepted(state: Current) {
    AcceptedDatabase(state.database) && state.application.revision in state.database.compatible
  }

  function HeadSet(state: Current): set<string> {
    Elements(state.database.heads)
  }

  function Envelope(state: Current): set<string> {
    Elements(state.database.compatible)
  }

  // ---------------------------------------------------------------- writers

  function BootstrapDatabase(heads: set<string>, revision: string): Option<DatabaseState> {
    if heads == {} then None
    else Some(DatabaseState(SortedOf(heads), revision, None, None, [revision]))
  }

  function AfterMigration(previous: DatabaseState, target: string, heads: set<string>,
                                id: string, contract: string): Option<DatabaseState>
  {
    if heads == {} then None
    else
      var envelope := Elements(previous.compatible) + {previous.schemaRelease} + {target};
      Some(DatabaseState(SortedOf(heads), target, Some(id), Some(contract), SortedOf(envelope)))
  }

  function AfterAppCommit(previous: DatabaseState, target: string, sourceHeads: set<string>): Option<DatabaseState> {
    if sourceHeads == Elements(previous.heads) then
      Some(previous.(compatible := SortedOf(Elements(previous.compatible) + {target})))
    else if target in previous.compatible then Some(previous)
    else None
  }

  function Commit(application: ApplicationState, database: DatabaseState, at: string): Option<Current> {
    if application.revision in database.compatible then Some(Current(application, database, at)) else None
  }

  datatype Event =
    | AppCommit(application: ApplicationState, sourceHeads: set<string>, at: string)
    | Migration(target: string, heads: set<string>, id: string, contract: string, at: string)

  // The document an event publishes, or None when the writer raises and nothing is written.
  function Publish(state: Current, event: Event): Option<Current> {
    match event
    case AppCommit(application, sourceHeads, at) =>
      var database := AfterAppCommit(state.database, application.revision, sourceHeads);
      if database.None? then None else Commit(application, database.value, at)
    case Migration(target, heads, id, contract, at) =>
      var database := AfterMigration(state.database, target, heads, id, contract);
      if database.None? then None else Commit(state.application, database.value, at)
  }

  lemma SortedNonEmpty(s: set<string>, x: string)
    requires x in s
    ensures x in SortedOf(s) && SortedOf(s) != []
  {
    assert x in Elements(SortedOf(s));
  }

  /** A migration never raises over a non-empty head set, and its document carries what was asked for. */
  lemma MigrationPublishes(state: Current, target: string, heads: set<string>, id: string, contract: string, at: string)
    requires Accepted(state) && heads != {}
    ensures var next := Publish(state, Migration(target, heads, id, contract, at));
            && next.Some? && Accepted(next.value)
            && HeadSet(next.value) == heads
            && next.value.database.lastMigration == Some(id)
            && next.value.database.contract == Some(contract) && next.value.updatedAt == at
            && next.value.database.schemaRelease == target
            && next.value.application == state.application
            && Envelope(next.value) == Envelope(state) + {target}
  {
    var h :| h in heads;
    SortedNonEmpty(heads, h);
    var envelope := Elements(state.database.compatible) + {state.database.schemaRelease} + {target};
    SortedNonEmpty(envelope, target);
    SortedNonEmpty(envelope, state.application.revision);
    assert envelope == Envelope(state) + {target};
  }

  /** An application commit raises exactly outside the envelope and never changes the heads. */
  lemma AppCommitPublishes(state: Current, application: ApplicationState, sourceHeads: set<string>, at: string)
    requires Accepted(state)
    ensures var next := Publish(state, AppCommit(application, sourceHeads, at));
            && (next.None? <==> sourceHeads != HeadSet(state) && application.revision !in Envelope(state))
            && (next.Some? ==>
                  && Accepted(next.value)
                  && next.value.database.heads == state.database.heads
                  && next.value.database.lastMigration == state.database.lastMigration
                  && next.value.database.contract == state.database.contract
                  && next.value.database.schemaRelease == state.database.schemaRelease
                  && next.value.application == application && next.value.updatedAt == at
                  && Envelope(next.value) == Envelope(state) + {application.revision})
  {
    var envelope := Elements(state.database.compatible) + {application.revision};
    SortedNonEmpty(envelope, application.revision);
    SortedNonEmpty(envelope, state.database.schemaRelease);
    if application.revision in state.database.compatible {
      assert envelope == Elements(state.database.compatible);
    }
  }

  ghost predicate Step(before: Current, after: Current) {
    exists event :: Publish(before, event) == Some(after)
  }

  ghost predicate Bootstrapped(state: Current) {
    exists heads: set<string>, application: ApplicationState, at: string ::
      BootstrapDatabase(heads, application.revision).Some? &&
      Commit(application, BootstrapDatabase(heads, application.revision).value, at) == Some(state)
  }

  ghost predicate IsHistory(history: seq<Current>) {
    && history != [] && Bootstrapped(history[0])
    && forall i :: 0 < i < |history| ==> Step(history[i - 1], history[i])
  }

  lemma StepKeeps(before: Current, after: Current)
    requires Accepted(before) && Step(before, after)
    ensures Accepted(after) && Envelope(before) <= Envelope(after)
  {
    var event :| Publish(before, event) == Some(after);
    match event
    case AppCommit(application, sourceHeads, at) => AppCommitPublishes(before, application, sourceHeads, at);
    case Migration(target, heads, id, contract, at) => MigrationPublishes(before, target, heads, id, contract, at);
  }

  lemma HistoryStep(history: seq<Current>, i: nat)
    requires IsHistory(history) && 0 < i < |history|
    ensures Step(history[i - 1], history[i])
  {
    hide Step, Bootstrapped;
  }

  /** Over every history each document parses back to itself, and the compatibility envelope only grows. */
  lemma {:induction false} HistorySound(history: seq<Current>, i: nat)
    requires IsHistory(history) && i < |history|
    ensures Parse(history[i]) == Some(history[i])
    ensures history[i].database.schemaRelease in Envelope(history[i])
    ensures history[i].application.revision in Envelope(history[i])
    ensures forall j :: 0 <= j <= i ==> Envelope(history[j]) <= Envelope(history[i])
  {
    AcceptedAlways(history, i);
    ParseIsAccepted(history[i]);
    forall j | 0 <= j <= i ensures Envelope(history[j]) <= Envelope(history[i]) {
      EnvelopeGrows(history, j, i);
    }
  }

  lemma {:induction false} AcceptedAlways(history: seq<Current>, i: nat)
    requires IsHistory(history) && i < |history|
    ensures Accepted(history[i])
  {
    if i == 0 {
      var heads: set<string>, application: ApplicationState, at: string :|
        BootstrapDatabase(heads, application.revision).Some? &&
        Commit(application, BootstrapDatabase(heads, application.revision).value, at) == Some(history[0]);
      var h :| h in heads;
      SortedNonEmpty(heads, h);
    } else {
      hide Step, Accepted;
      AcceptedAlways(history, i - 1);
      HistoryStep(history, i);
      StepKeeps(history[i - 1], history[i]);
    }
  }

  lemma {:induction false} EnvelopeGrows(history: seq<Current>, j: nat, i: nat)
    requires IsHistory(history) && j <= i < |history|
    ensures Envelope(history[j]) <= Envelope(history[i])
  {
    hide *;
    if j < i {
      EnvelopeGrows(history, j, i - 1);
      AcceptedAlways(history, i - 1);
      HistoryStep(history, i);
      StepKeeps(history[i - 1], history[i]);
    }
  }

  // ---------------------------------------------------------------- every accepted document is written by some history

  lemma HistoryGoesOn(history: seq<Current>, next: Current)
    requires IsHistory(history) && Step(history[|history| - 1], next)
    ensures IsHistory(history + [next])
  {
    hide Step, Bootstrapped;
    var more := history + [next];
    forall i | 0 < i < |more| ensures Step(more[i - 1], more[i]) {
      if i < |history| { assert more[i] == history[i] && more[i - 1] == history[i - 1]; }
    }
  }

  // A history that starts at a schema release and ends with given heads and last migration.
  lemma Beginning(heads: seq<string>, release: string, migration: Option<(string, string)>) returns (history: seq<Current>)
    requires heads != [] && SortedUnique(heads)
    ensures IsHistory(history)
    ensures var last := history[|history| - 1];
            && last.database.heads == heads && last.database.schemaRelease == release && last.database.compatible == [release]
            && last.database.lastMigration == (if migration.Some? then Some(migration.value.0) else None)
            && last.database.contract == (if migration.Some? then Some(migration.value.1) else None)
  {
    var application := ApplicationState(release, "", map[], "");
    var headSet := Elements(heads);
    assert heads[0] in headSet;
    SortedIsUnique(SortedOf(headSet), heads);
    var database := BootstrapDatabase(headSet, release).value;
    var first := Commit(application, database, "").value;
    assert Bootstrapped(first);
    history := [first];
    if migration.Some? {
      var event := Migration(release, headSet, migration.value.0, migration.value.1, "");
      var envelope := Elements([release]) + {release} + {release};
      assert [release][0] in [release];
      assert envelope == Elements([release]);
      SortedIsUnique(SortedOf(envelope), [release]);
      var next := Publish(first, event).value;
      assert Step(first, next);
      HistoryGoesOn(history, next);
      history := history + [next];
    }
  }

  // Committing an application adds its revision to the envelope and leaves the rest of the database alone.
  lemma Commits(history: seq<Current>, application: ApplicationState, at: string) returns (more: seq<Current>)
    requires IsHistory(history)
    ensures IsHistory(more)
    ensures var was, last := history[|history| - 1], more[|more| - 1];
            && last.database == was.database.(compatible := last.database.compatible)
            && Elements(last.database.compatible) == Elements(was.database.compatible) + {application.revision}
            && SortedUnique(last.database.compatible)
            && last.application == application && last.updatedAt == at
  {
    var was := history[|history| - 1];
    AcceptedAlways(history, |history| - 1);
    var event := AppCommit(application, HeadSet(was), at);
    AppCommitPublishes(was, application, HeadSet(was), at);
    var next := Publish(was, event).value;
    assert Step(was, next);
    HistoryGoesOn(history, next);
    more := history + [next];
  }

  lemma {:induction false} EnvelopeReached(history: seq<Current>, revisions: set<string>) returns (more: seq<Current>)
    requires IsHistory(history)
    ensures IsHistory(more)
    ensures var was, last := history[|history| - 1], more[|more| - 1];
            && last.database == was.database.(compatible := last.database.compatible)
            && Elements(last.database.compatible) == Elements(was.database.compatible) + revisions
  {
    hide Bootstrapped, Step, Elements;
    if revisions == {} {
      more := history;
      assert Elements(history[|history| - 1].database.compatible) + {} == Elements(history[|history| - 1].database.compatible);
    } else {
      var r :| r in revisions;
      var some := EnvelopeReached(history, revisions - {r});
      more := Commits(some, ApplicationState(r, "", map[], ""), "");
      assert revisions == revisions - {r} + {r};
    }
  }

  /** The parser accepts exactly the documents that some history of bootstrap, application commits and migrations
      ends in: it refuses nothing the writers can produce, and accepts nothing they cannot. */
  lemma AcceptedIffReached(state: Current)
    ensures Parse(state).Some? <==> exists history :: IsHistory(history) && history[|history| - 1] == state
  {
    if Parse(state).Some? {
      var db := state.database;
      var migration := if db.lastMigration.Some? then Some((db.lastMigration.value, db.contract.value)) else None;
      var start := Beginning(db.heads, db.schemaRelease, migration);
      var grown := EnvelopeReached(start, Elements(db.compatible));
      var history := Commits(grown, state.application, state.updatedAt);
      var last := history[|history| - 1];
      assert Elements([db.schemaRelease]) == {db.schemaRelease} by { assert [db.schemaRelease][0] == db.schemaRelease; }
      assert Elements(last.database.compatible) == Elements(db.compatible);
      SortedIsUnique(last.database.compatible, db.compatible);
      assert last == state;
    }
    if history :| IsHistory(history) && history[|history| - 1] == state {
      AcceptedAlways(history, |history| - 1);
      ParseIsAccepted(state);
    }
  }

  // The invariant of the writers is what the parser tests.
  lemma ParseIsAccepted(state: Current)
    ensures Parse(state) == if Accepted(state) then Some(state) else None
  {
  }
}
