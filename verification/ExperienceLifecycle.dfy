/** The trusted-experience tables: CHECK constraints in three-valued logic, uniqueness, and the
    triggers that guard updates and deletes. A statement is applied whole or not at all. */
module ExperienceLifecycle {
  import opened Results
  import opened ThreeValuedLogic

  const PENDING := "PENDING_REVIEW"
  const TRUSTED := "TRUSTED"
  const REJECTED := "REJECTED"
  const REVOKED := "REVOKED"

  // ---------------------------------------------------------------- rows

  /** The columns copied from the source when an experience is proposed. */
  datatype Projection = Projection(
    workspaceId: string,
    contractVersion: string,
    fingerprints: (string, string, string),
    quality: (string, string, string),
    intents: (string, string, string, string),
    adapterId: Option<string>,
    modelId: Option<string>,
    profileId: Option<string>,
    sourceRevisionCount: int,
    createdAt: int)

  datatype Root = Root(id: string, source: Projection, state: string, revision: int, updatedAt: int)

  datatype Event = Event(
    id: string,
    experienceId: string,
    sequence: int,
    eventType: string,
    fromState: Option<string>,
    toState: string,
    actor: string,
    comment: Option<string>,
    createdAt: int)

  // ---------------------------------------------------------------- CHECK constraints

  function InStates(s: Option<string>): Truth {
    Or(Equal(s, Some(PENDING)), Or(Equal(s, Some(TRUSTED)), Or(Equal(s, Some(REJECTED)), Equal(s, Some(REVOKED)))))
  }

  function ProjectionCheck(p: Projection): Truth {
    And(Or(Is(p.workspaceId, "personal"), Is(p.workspaceId, "company")),
    And(Is(p.contractVersion, "1"),
    And(Known(|p.fingerprints.0| == 64 && |p.fingerprints.1| == 64 && |p.fingerprints.2| == 64),
    And(Known(p.quality == ("verified_success", "verified_success", "verified_success")),
        Known(0 <= p.sourceRevisionCount <= 1)))))
  }

  function RevisionCheck(r: Root): Truth {
    Or(And(Is(r.state, PENDING), Known(r.revision == 1)),
    Or(And(Or(Is(r.state, TRUSTED), Is(r.state, REJECTED)), Known(r.revision == 2)),
       And(Is(r.state, REVOKED), Known(r.revision == 3))))
  }

  predicate RootAdmitted(r: Root) {
    Admits(ProjectionCheck(r.source)) && Admits(InStates(Some(r.state))) && Admits(RevisionCheck(r))
  }

  /** SQL's `trim`. */
  type Trim = string -> string

  function CommentCheck(trim: Trim, e: Event): Truth {
    Or(IsNull(e.comment),
        if e.comment.None? then Unknown else Known(|trim(e.comment.value)| > 0 && |e.comment.value| <= 2000))
  }

  function DecisionShape(e: Event, eventType: string, fromState: string, toState: string): Truth {
    And(Is(e.eventType, eventType), And(Equal(e.fromState, Some(fromState)), And(Is(e.toState, toState),
    And(Is(e.actor, "OWNER"), IsNotNull(e.comment)))))
  }

  function TransitionCheck(e: Event): Truth {
    Or(And(Is(e.eventType, "PROPOSED"), And(Known(e.sequence == 1), And(IsNull(e.fromState),
       And(Is(e.toState, PENDING), And(Is(e.actor, "SYSTEM"), IsNull(e.comment)))))),
    Or(DecisionShape(e, "APPROVED", PENDING, TRUSTED),
    Or(DecisionShape(e, "REJECTED", PENDING, REJECTED),
       DecisionShape(e, "REVOKED", TRUSTED, REVOKED))))
  }

  predicate EventAdmitted(trim: Trim, e: Event) {
    && e.sequence >= 1
    && (e.eventType == "PROPOSED" || e.eventType == "APPROVED" || e.eventType == "REJECTED" || e.eventType == "REVOKED")
    && Admits(Or(IsNull(e.fromState), InStates(e.fromState)))
    && Admits(InStates(Some(e.toState)))
    && (e.actor == "SYSTEM" || e.actor == "OWNER")
    && Admits(CommentCheck(trim, e))
    && Admits(TransitionCheck(e))
  }

  // ---------------------------------------------------------------- triggers

  /** The update guard of the roots. */
  predicate GuardAllows(before: Root, after: Root) {
    && after.id == before.id && after.source == before.source
    && ((before.state == PENDING && (after.state == TRUSTED || after.state == REJECTED) &&
        after.revision == before.revision + 1)
        || (before.state == TRUSTED && after.state == REVOKED && after.revision == before.revision + 1))
  }

  // ---------------------------------------------------------------- statements

  datatype Tables = Tables(roots: map<string, Root>, events: map<string, Event>)

  datatype Schema = Schema(trim: Trim, foreignKeys: bool)

  /** An UPDATE names the new version of every row it matches; a DELETE the rows it matches. */
  datatype Statement =
    | InsertRoot(root: Root)
    | UpdateRoots(changes: map<string, Root>)
    | DeleteRoots(ids: set<string>)
    | InsertEvent(event: Event)
    | UpdateEvents(eventIds: set<string>)
    | DeleteEvents(deletedIds: set<string>)

  predicate Accepted(schema: Schema, t: Tables, s: Statement) {
    match s
    case InsertRoot(root) => root.id !in t.roots && RootAdmitted(root)
    case UpdateRoots(changes) =>
      forall id | id in changes && id in t.roots :: GuardAllows(t.roots[id], changes[id]) && RootAdmitted(changes[id])
    case DeleteRoots(ids) => forall id | id in ids :: id !in t.roots
    case InsertEvent(event) =>
      && event.id !in t.events
      && (forall id | id in t.events ::
            t.events[id].experienceId != event.experienceId || t.events[id].sequence != event.sequence)
      && (schema.foreignKeys ==> event.experienceId in t.roots)
      && EventAdmitted(schema.trim, event)
    case UpdateEvents(ids) => forall id | id in ids :: id !in t.events
    case DeleteEvents(ids) => forall id | id in ids :: id !in t.events
  }

  function Apply(schema: Schema, t: Tables, s: Statement): Tables {
    if !Accepted(schema, t, s) then t
    else
      match s
      case InsertRoot(root) => t.(roots := t.roots[root.id := root])
      case UpdateRoots(changes) => t.(roots := map id | id in t.roots ::
          if id in changes then changes[id] else t.roots[id])
      case InsertEvent(event) => t.(events := t.events[event.id := event])
      case _ => t
  }

  function RunAll(schema: Schema, t: Tables, statements: seq<Statement>): Tables
    decreases |statements|
  {
    if statements == [] then t else RunAll(schema, Apply(schema, t, statements[0]), statements[1..])
  }

  /** How many statements of a run rewrite the root `id`. */
  function Updates(schema: Schema, t: Tables, statements: seq<Statement>, id: string): nat
    decreases |statements|
  {
    if statements == [] then 0
    else
      (if statements[0].UpdateRoots? && Accepted(schema, t, statements[0]) && id in statements[0].changes &&
          id in t.roots then 1 else 0)
      + Updates(schema, Apply(schema, t, statements[0]), statements[1..], id)
  }

  // ---------------------------------------------------------------- what every run keeps

  ghost predicate Consistent(schema: Schema, t: Tables) {
    && (forall id | id in t.roots :: t.roots[id].id == id && RootAdmitted(t.roots[id]))
    && (forall id | id in t.events :: EventAdmitted(schema.trim, t.events[id]))
    && (forall a, b | a in t.events && b in t.events && a != b ::
          t.events[a].experienceId != t.events[b].experienceId || t.events[a].sequence != t.events[b].sequence)
  }

  /** From one state to a later one. */
  predicate Leads(before: string, after: string) {
    || after == before
    || (before == PENDING && (after == TRUSTED || after == REJECTED || after == REVOKED))
    || (before == TRUSTED && after == REVOKED)
  }

  /** Nothing disappears: events are unchanged, roots keep their source and only move on. */
  ghost predicate Extends(before: Tables, after: Tables) {
    && (forall id | id in before.events :: id in after.events && after.events[id] == before.events[id])
    && (forall id | id in before.roots ::
          && id in after.roots
          && after.roots[id].source == before.roots[id].source
          && Leads(before.roots[id].state, after.roots[id].state))
  }

  lemma {:induction false} StatesDiffer()
    ensures PENDING != TRUSTED && PENDING != REJECTED && PENDING != REVOKED
    ensures TRUSTED != REJECTED && TRUSTED != REVOKED && REJECTED != REVOKED
  {
    assert |PENDING| == 14 && |REJECTED| == 8 && |TRUSTED| == 7 && |REVOKED| == 7;
    assert TRUSTED[0] != REVOKED[0];
  }

  /** A row the table admits has the revision of its state, and no other state. */
  lemma {:induction false} RevisionOfState(r: Root)
    ensures Admits(RevisionCheck(r)) <==>
      || (r.state == PENDING && r.revision == 1)
      || ((r.state == TRUSTED || r.state == REJECTED) && r.revision == 2)
      || (r.state == REVOKED && r.revision == 3)
  {}

  /** Exactly which rows the table of roots holds. */
  lemma {:induction false} RootAdmittedExactly(r: Root)
    ensures RootAdmitted(r) <==>
      && (r.source.workspaceId == "personal" || r.source.workspaceId == "company") && r.source.contractVersion == "1"
      && |r.source.fingerprints.0| == |r.source.fingerprints.1| == |r.source.fingerprints.2| == 64
      && r.source.quality == ("verified_success", "verified_success", "verified_success")
      && (r.source.sourceRevisionCount == 0 || r.source.sourceRevisionCount == 1)
      && (|| (r.state == "PENDING_REVIEW" && r.revision == 1) || (r.state == "TRUSTED" && r.revision == 2)
          || (r.state == "REJECTED" && r.revision == 2) || (r.state == "REVOKED" && r.revision == 3))
  {
    RevisionOfState(r);
  }

  /** A single update of a stored root is accepted exactly when it keeps the identity and the source,
      counts the revision up by one, and approves or rejects a pending root or revokes a trusted
      one. */
  lemma {:induction false} UpdateAccepted(schema: Schema, t: Tables, id: string, after: Root)
    requires Consistent(schema, t) && id in t.roots
    ensures Accepted(schema, t, UpdateRoots(map[id := after])) <==>
      var before := t.roots[id];
      && after.id == before.id && after.source == before.source && after.revision == before.revision + 1
      && (|| (before.state == "PENDING_REVIEW" && after.state == "TRUSTED")
          || (before.state == "PENDING_REVIEW" && after.state == "REJECTED")
          || (before.state == "TRUSTED" && after.state == "REVOKED"))
  {
    StatesDiffer();
    RootAdmittedExactly(t.roots[id]);
    RootAdmittedExactly(after);
    hide RootAdmitted, EventAdmitted;
    var changes := map[id := after];
    assert id in changes && changes[id] == after;
    assert RootAdmitted(t.roots[id]);
  }

  /** A root is inserted exactly when its identifier is new and the table holds such rows; a stored
      root and a stored event cannot be deleted, nor an event updated. */
  lemma {:induction false} OtherStatements(schema: Schema, t: Tables, root: Root, ids: set<string>)
    ensures Accepted(schema, t, InsertRoot(root)) <==> root.id !in t.roots && RootAdmitted(root)
    ensures Accepted(schema, t, DeleteRoots(ids)) <==> ids !! t.roots.Keys
    ensures Accepted(schema, t, UpdateEvents(ids)) <==> ids !! t.events.Keys
    ensures Accepted(schema, t, DeleteEvents(ids)) <==> ids !! t.events.Keys
  {
    hide RootAdmitted, EventAdmitted;
    assert forall id :: id in ids && id in t.roots ==> id in ids * t.roots.Keys;
    assert forall id :: id in ids && id in t.events ==> id in ids * t.events.Keys;
  }

  lemma {:induction false} ApplyKeeps(schema: Schema, t: Tables, s: Statement)
    requires Consistent(schema, t)
    ensures Consistent(schema, Apply(schema, t, s)) && Extends(t, Apply(schema, t, s))
  {
    hide RootAdmitted, EventAdmitted;
  }

  lemma {:induction false} ExtendsTransitive(a: Tables, b: Tables, c: Tables)
    requires Extends(a, b) && Extends(b, c)
    ensures Extends(a, c)
  {
    StatesDiffer();
    hide PENDING, TRUSTED, REJECTED, REVOKED;
  }

  /** Over every run no root or event disappears, no source projection and no event changes, and
      states move only forward. */
  lemma {:induction false} RunKeeps(schema: Schema, t: Tables, statements: seq<Statement>)
    requires Consistent(schema, t)
    ensures Consistent(schema, RunAll(schema, t, statements)) && Extends(t, RunAll(schema, t, statements))
    decreases |statements|
  {
    hide RootAdmitted, EventAdmitted, Accepted, Apply, Consistent;
    if statements != [] {
      var t' := Apply(schema, t, statements[0]);
      ApplyKeeps(schema, t, statements[0]);
      RunKeeps(schema, t', statements[1..]);
      ExtendsTransitive(t, t', RunAll(schema, t, statements));
    }
  }

  lemma {:induction false} ApplyCounts(schema: Schema, t: Tables, s: Statement, id: string)
    requires Consistent(schema, t) && id in t.roots
    ensures id in Apply(schema, t, s).roots
    ensures Apply(schema, t, s).roots[id].revision ==
      t.roots[id].revision + if s.UpdateRoots? && Accepted(schema, t, s) && id in s.changes then 1 else 0
  {
    hide RootAdmitted, EventAdmitted;
  }

  /** A root's revision counts the updates it took, so no root is ever updated more than twice:
      at most 3 minus its revision at the start of the run. */
  lemma {:induction false} RevisionCountsUpdates(schema: Schema, t: Tables, statements: seq<Statement>, id: string)
    requires Consistent(schema, t) && id in t.roots
    ensures id in RunAll(schema, t, statements).roots
    ensures RunAll(schema, t, statements).roots[id].revision ==
        t.roots[id].revision + Updates(schema, t, statements, id)
    ensures Updates(schema, t, statements, id) <= 3 - t.roots[id].revision <= 2
    decreases |statements|
  {
    hide Accepted, Apply;
    if statements == [] {
      RevisionOfState(t.roots[id]);
    } else {
      ApplyCounts(schema, t, statements[0], id);
      ApplyKeeps(schema, t, statements[0]);
      RevisionCountsUpdates(schema, Apply(schema, t, statements[0]), statements[1..], id);
      RevisionOfState(t.roots[id]);
    }
  }

  /** Each experience has at most one PROPOSED event, and it is the first of its events. */
  lemma {:induction false} OneProposal(schema: Schema, t: Tables, a: string, b: string)
    requires Consistent(schema, t) && a in t.events && b in t.events
    requires t.events[a].experienceId == t.events[b].experienceId && t.events[a].eventType == "PROPOSED"
    ensures t.events[b].eventType == "PROPOSED" ==> a == b
    ensures a != b ==> t.events[a].sequence < t.events[b].sequence
  {
    hide InStates, CommentCheck, RootAdmitted;
    ProposedIsFirst(t.events[a]);
    if t.events[b].eventType == "PROPOSED" { ProposedIsFirst(t.events[b]); }
    assert EventAdmitted(schema.trim, t.events[a]) && EventAdmitted(schema.trim, t.events[b]);
  }

  lemma {:induction false} ProposedIsFirst(e: Event)
    requires Admits(TransitionCheck(e)) && e.eventType == "PROPOSED"
    ensures e.sequence == 1 && e.fromState.None? && e.toState == PENDING && e.actor == "SYSTEM" && e.comment.None?
  {
    EventTypesDiffer();
  }

  lemma {:induction false} EventTypesDiffer()
    ensures "PROPOSED" != "APPROVED" && "PROPOSED" != "REJECTED" && "PROPOSED" != "REVOKED"
    ensures "APPROVED" != "REJECTED" && "APPROVED" != "REVOKED" && "REJECTED" != "REVOKED"
  {
    assert "PROPOSED"[0] != "APPROVED"[0] && "PROPOSED"[0] != "REJECTED"[0] && "APPROVED"[0] != "REJECTED"[0];
    assert |"REVOKED"| == 7 && |"PROPOSED"| == 8 && |"APPROVED"| == 8 && |"REJECTED"| == 8;
  }

  /** Exactly what the transition CHECK asks of a decision: its target state, actor and comment,
      and its source state unless that is NULL, where the CHECK is unknown and lets it pass. */
  lemma {:induction false} DecisionExact(e: Event)
    requires e.eventType == "APPROVED" || e.eventType == "REJECTED" || e.eventType == "REVOKED"
    ensures Admits(TransitionCheck(e)) <==>
      && e.actor == "OWNER" && e.comment.Some?
      && (e.eventType == "APPROVED" ==> e.toState == TRUSTED && (e.fromState.None? || e.fromState.value == PENDING))
      && (e.eventType == "REJECTED" ==> e.toState == REJECTED && (e.fromState.None? || e.fromState.value == PENDING))
      && (e.eventType == "REVOKED" ==> e.toState == REVOKED && (e.fromState.None? || e.fromState.value == TRUSTED))
  {
    EventTypesDiffer();
  }

  /** Exactly which events the table holds: a proposal by the system, or a decision of the owner with
      a comment, each with its states, the source state of a decision possibly NULL. */
  lemma {:induction false} EventAdmittedExactly(trim: Trim, e: Event)
    ensures EventAdmitted(trim, e) <==>
      && e.sequence >= 1
      && (|| (e.eventType == "PROPOSED" && e.sequence == 1 && e.fromState.None? && e.toState == "PENDING_REVIEW"
              && e.actor == "SYSTEM" && e.comment.None?)
          || (&& e.actor == "OWNER" && e.comment.Some? && 0 < |trim(e.comment.value)| && |e.comment.value| <= 2000
              && (|| (e.eventType == "APPROVED" && e.toState == "TRUSTED")
                  || (e.eventType == "REJECTED" && e.toState == "REJECTED")
                  || (e.eventType == "REVOKED" && e.toState == "REVOKED"))
              && (e.fromState.Some? ==>
                    e.fromState.value == if e.eventType == "REVOKED" then "TRUSTED" else "PENDING_REVIEW")))
  {
    EventTypesDiffer();
    StatesDiffer();
    if e.eventType == "APPROVED" || e.eventType == "REJECTED" || e.eventType == "REVOKED" {
      DecisionExact(e);
      hide TransitionCheck;
    } else if e.eventType == "PROPOSED" {
      ProposedExactly(e);
      hide TransitionCheck;
    }
  }

  lemma {:induction false} ProposedExactly(e: Event)
    requires e.eventType == "PROPOSED"
    ensures Admits(TransitionCheck(e)) <==>
      e.sequence == 1 && e.fromState.None? && e.toState == PENDING && e.actor == "SYSTEM" && e.comment.None?
  {
    EventTypesDiffer();
  }

  /** So an approval without a source state is stored. */
  lemma {:induction false} NullSourceStateIsStored(trim: Trim, e: Event)
    requires e.eventType == "APPROVED" && e.toState == TRUSTED && e.actor == "OWNER" && e.fromState.None?
    requires e.sequence >= 1 && e.comment.Some? && |trim(e.comment.value)| > 0 && |e.comment.value| <= 2000
    ensures EventAdmitted(trim, e) && TransitionCheck(e).Unknown?
  {
    EventTypesDiffer();
    StatesDiffer();
  }

  // ---------------------------------------------------------------- the store

  /** The two tables as they are changed in place. */
  class ExperienceStore {
    const schema: Schema
    var roots: map<string, Root>
    var events: map<string, Event>

    constructor (schema: Schema)
      ensures this.schema == schema && Current() == Tables(map[], map[]) && Valid()
    {
      this.schema := schema;
      roots, events := map[], map[];
    }

    ghost function Current(): Tables
      reads this
    {
      Tables(roots, events)
    }

    ghost predicate Valid()
      reads this
    {
      Consistent(schema, Current())
    }

    /** The guard runs for each row; one refused row refuses the statement. */
    method ChangeRoots(changes: map<string, Root>) returns (ok: bool)
      modifies this`roots
      ensures ok == Accepted(schema, old(Current()), UpdateRoots(changes))
      ensures Current() == Apply(schema, old(Current()), UpdateRoots(changes))
    {
      hide GuardAllows, RootAdmitted;
      var remaining, updated := changes.Keys, roots;
      while remaining != {}
        invariant remaining <= changes.Keys
        invariant forall id | id in changes && id !in remaining && id in roots ::
          GuardAllows(roots[id], changes[id]) && RootAdmitted(changes[id])
        invariant updated == map id | id in roots ::
            if id in changes && id !in remaining then changes[id] else roots[id]
        decreases |remaining|
      {
        var id :| id in remaining;
        remaining := remaining - {id};
        if id in roots {
          if !GuardAllows(roots[id], changes[id]) || !RootAdmitted(changes[id]) { return false; }
          updated := updated[id := changes[id]];
        }
      }
      roots := updated;
      ok := true;
    }

    /** One statement: it is applied, or refused and nothing changes; either way the tables stay
        consistent and nothing in them is lost. */
    method Execute(s: Statement) returns (ok: bool)
      requires Valid()
      modifies this
      ensures ok == Accepted(schema, old(Current()), s) && Current() == Apply(schema, old(Current()), s)
      ensures Valid() && Extends(old(Current()), Current())
      ensures !ok ==> Current() == old(Current())
    {
      hide RootAdmitted, EventAdmitted, GuardAllows;
      ApplyKeeps(schema, Current(), s);
      match s
      case InsertRoot(root) =>
        ok := root.id !in roots && RootAdmitted(root);
        if ok { roots := roots[root.id := root]; }
      case UpdateRoots(changes) => ok := ChangeRoots(changes);
      case DeleteRoots(ids) => ok := forall id | id in ids :: id !in roots;
      case InsertEvent(event) =>
        ok := event.id !in events
           && (forall id | id in events ::
                 events[id].experienceId != event.experienceId || events[id].sequence != event.sequence)
           && (schema.foreignKeys ==> event.experienceId in roots)
           && EventAdmitted(schema.trim, event);
        if ok { events := events[event.id := event]; }
      case UpdateEvents(ids) => ok := forall id | id in ids :: id !in events;
      case DeleteEvents(ids) => ok := forall id | id in ids :: id !in events;
    }

    /** Any sequence of statements: no row is lost, no source projection or event changes, states
        only move forward, and a root's revision counts the updates it took, two at most. */
    method Session(statements: seq<Statement>)
      requires Valid()
      modifies this
      ensures Current() == RunAll(schema, old(Current()), statements)
      ensures Valid() && Extends(old(Current()), Current())
      ensures forall id | id in old(roots) ::
        && id in roots
        && roots[id].revision == old(roots)[id].revision + Updates(schema, old(Current()), statements, id)
        && Updates(schema, old(Current()), statements, id) <= 2
    {
      hide Apply, Accepted, RunAll;
      ghost var start := Current();
      RunKeeps(schema, start, statements);
      forall id | id in start.roots
        ensures id in RunAll(schema, start, statements).roots
        ensures RunAll(schema, start, statements).roots[id].revision ==
            start.roots[id].revision + Updates(schema, start, statements, id)
        ensures Updates(schema, start, statements, id) <= 2
      {
        RevisionCountsUpdates(schema, start, statements, id);
      }
      assert statements[0..] == statements;
      for i := 0 to |statements|
        invariant Valid()
        invariant RunAll(schema, start, statements) == RunAll(schema, Current(), statements[i..])
      {
        RunAllStep(schema, Current(), statements, i);
        var ok := Execute(statements[i]);
      }
      RunAllDone(schema, Current(), statements);
    }
  }

  lemma {:induction false} RunAllStep(schema: Schema, t: Tables, statements: seq<Statement>, i: nat)
    requires i < |statements|
    ensures RunAll(schema, t, statements[i..]) == RunAll(schema, Apply(schema, t, statements[i]), statements[i + 1..])
  {
    assert statements[i..][0] == statements[i] && statements[i..][1..] == statements[i + 1..];
  }

  lemma {:induction false} RunAllDone(schema: Schema, t: Tables, statements: seq<Statement>)
    ensures RunAll(schema, t, statements[|statements|..]) == t
  {}
}
