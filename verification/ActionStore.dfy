/** Durable remediation actions: one record per action digest, one audit row per revision, one transaction for both. */
module ActionStore {
  import opened Records
  import opened Policy

  datatype ActionState = Proposed | Approved | Executing | Succeeded | Failed | Unknown

  datatype Approval = Approval(subject: string, digest: ActionId, approvedAt: int, expiresAt: int)

  datatype EffectReceipt = EffectReceipt(succeeded: bool, uid: string, previous: string)

  datatype ActionRecord = ActionRecord(id: ActionId, proposal: Action, proposer: string, state: ActionState,
                                       revision: nat, createdAt: int, updatedAt: int, approval: Option<Approval>,
                                       result: Option<EffectReceipt>)

  datatype Why = PolicyReviewed | HumanApproved | Dispatch | AuthorityDenied | ResultUnknown | ExecutorResult

  datatype AuditEvent = AuditEvent(id: ActionId, revision: nat, state: ActionState, actor: string, reason: Why,
                                   recordedAt: int)

  predicate ValidApproval(r: ActionRecord, a: Approval) {
    a.subject != r.proposer && a.digest == r.id && 0 < a.expiresAt - a.approvedAt <= 300 * SECOND
  }

  /** `ActionRecord.consistent`. */
  predicate Consistent(r: ActionRecord) {
    && r.id == DigestOf(r.proposal)
    && (r.state == Proposed <==> r.approval.None?)
    && (r.approval.Some? ==> ValidApproval(r, r.approval.value))
    && (if r.state in {Succeeded, Failed}
        then r.result.Some? && r.result.value.succeeded == (r.state == Succeeded)
             && (r.result.value.uid, r.result.value.previous) == (r.proposal.uid, r.proposal.version)
        else r.result.None?)
  }

  /** `TRANSITIONS`. */
  function Allowed(s: ActionState): set<ActionState> {
    match s
    case Proposed => {Approved}
    case Approved => {Executing}
    case Executing => {Succeeded, Failed, Unknown}
    case _ => {}
  }

  /** The two tables; both primary keys are enforced by the database. */
  datatype Tables = Tables(actions: map<ActionId, ActionRecord>, audit: map<(ActionId, nat), AuditEvent>)

  datatype StoreReply = Stored(record: ActionRecord) | Conflict | Invalid | Missing | Denied | Duplicate

  function EventOf(r: ActionRecord, actor: string, reason: Why): AuditEvent {
    AuditEvent(r.id, r.revision, r.state, actor, reason, r.updatedAt)
  }

  function Recorded(t: Tables, r: ActionRecord, actor: string, reason: Why): Tables {
    Tables(t.actions[r.id := r], t.audit[(r.id, r.revision) := EventOf(r, actor, reason)])
  }

  function CreateReply(t: Tables, r: ActionRecord): StoreReply {
    if r.state != Proposed || r.revision != 0 then Invalid
    else if r.id !in t.actions && (r.id, 0) !in t.audit then Stored(r)
    else if r.id !in t.actions then Missing
    else if t.actions[r.id].proposer != r.proposer || t.actions[r.id].proposal != r.proposal then Denied
    else Stored(t.actions[r.id])
  }

  function Created(t: Tables, r: ActionRecord): Tables {
    if CreateReply(t, r).Stored? && r.id !in t.actions then Recorded(t, r, r.proposer, PolicyReviewed) else t
  }

  /** What a transition asks for, beside the record it starts from. */
  datatype Change = Change(state: ActionState, actor: string, reason: Why, approval: Option<Approval>,
                           result: Option<EffectReceipt>)

  function After(before: ActionRecord, c: Change, now: int): ActionRecord {
    before.(state := c.state, revision := before.revision + 1, updatedAt := now,
            approval := if c.approval.Some? then c.approval else before.approval, result := c.result)
  }

  function TransitionReply(t: Tables, before: ActionRecord, c: Change, now: int): StoreReply {
    var after := After(before, c, now);
    if c.state !in Allowed(before.state) then Conflict
    else if !Consistent(after) then Invalid
    else if before.id !in t.actions || t.actions[before.id] != before then Conflict
    else if (after.id, after.revision) in t.audit then Duplicate
    else Stored(after)
  }

  function Transitioned(t: Tables, before: ActionRecord, c: Change, now: int): Tables {
    if TransitionReply(t, before, c, now).Stored? then Recorded(t, After(before, c, now), c.actor, c.reason) else t
  }

  // ----- the history of one action

  /** All audit rows of one action, in revision order. */
  ghost predicate Listed(t: Tables, id: ActionId, events: seq<AuditEvent>) {
    && (forall i :: 0 <= i < |events| ==>
          (id, events[i].revision) in t.audit && t.audit[(id, events[i].revision)] == events[i])
    && (forall i, j :: 0 <= i < j < |events| ==> events[i].revision < events[j].revision)
    && (forall k: nat :: (id, k) in t.audit ==> exists i :: 0 <= i < |events| && events[i].revision == k)
  }

  function Revisions(t: Tables, id: ActionId): set<nat> {
    set k | k in t.audit && k.0 == id :: k.1
  }

  /** The audit rows of an action are revisions 0..n, a path through TRANSITIONS that ends in the stored state. */
  ghost predicate Audited(t: Tables, r: ActionRecord) {
    && (forall k: nat :: (r.id, k) in t.audit <==> k <= r.revision)
    && t.audit[(r.id, 0)].state == Proposed
    && t.audit[(r.id, r.revision)].state == r.state
    && (forall k: nat :: k <= r.revision ==> t.audit[(r.id, k)].id == r.id && t.audit[(r.id, k)].revision == k)
    && (forall k: nat :: k < r.revision ==> t.audit[(r.id, k + 1)].state in Allowed(t.audit[(r.id, k)].state))
  }

  ghost predicate GoodTables(t: Tables) {
    && (forall id :: id in t.actions ==>
          t.actions[id].id == id && Consistent(t.actions[id]) && Audited(t, t.actions[id]))
    && (forall id: ActionId, k: nat :: (id, k) in t.audit ==> id in t.actions)
  }

  /** A later version of the same action: the proposal is fixed, an approval once given stays. */
  ghost predicate Continues(before: ActionRecord, after: ActionRecord) {
    && after.id == before.id && after.proposal == before.proposal && after.proposer == before.proposer
    && before.revision <= after.revision
    && (before.approval.Some? ==> after.approval == before.approval)
    && (before.result.Some? ==> after.result == before.result)
    && (before.state != Proposed ==> after.state != Proposed)
    && (before.state in {Succeeded, Failed, Unknown} ==> after == before)
    && (before.state == Executing ==> after.state in {Executing, Succeeded, Failed, Unknown})
  }

  ghost predicate TablesContinue(t: Tables, t2: Tables) {
    && (forall id :: id in t.actions ==> id in t2.actions && Continues(t.actions[id], t2.actions[id]))
    && (forall k :: k in t.audit ==> k in t2.audit && t2.audit[k] == t.audit[k])
  }

  lemma ContinuesTransitive(a: ActionRecord, b: ActionRecord, c: ActionRecord)
    requires Continues(a, b) && Continues(b, c)
    ensures Continues(a, c)
  {
  }

  lemma TablesContinueTransitive(a: Tables, b: Tables, c: Tables)
    requires TablesContinue(a, b) && TablesContinue(b, c)
    ensures TablesContinue(a, c)
  {
    hide Continues;
    forall id | id in a.actions ensures id in c.actions && Continues(a.actions[id], c.actions[id]) {
      ContinuesTransitive(a.actions[id], b.actions[id], c.actions[id]);
    }
  }

  lemma ContinuesReflexive(t: Tables)
    ensures TablesContinue(t, t)
  {
  }

  /** Creation never touches an existing action. */
  lemma CreateKeeps(t: Tables, r: ActionRecord)
    requires GoodTables(t) && Consistent(r)
    ensures GoodTables(Created(t, r)) && TablesContinue(t, Created(t, r))
    ensures CreateReply(t, r).Stored? ==>
      r.id in Created(t, r).actions && Created(t, r).actions[r.id] == CreateReply(t, r).record
  {
    ContinuesReflexive(t);
    if CreateReply(t, r).Stored? && r.id !in t.actions {
      var t2 := Created(t, r);
      forall id | id in t2.actions
        ensures t2.actions[id].id == id && Consistent(t2.actions[id]) && Audited(t2, t2.actions[id])
      {
        if id != r.id {
          assert Audited(t, t.actions[id]);
        }
      }
    }
  }

  lemma AuditedAfter(t: Tables, before: ActionRecord, c: Change, now: int)
    requires Audited(t, before) && TransitionReply(t, before, c, now).Stored?
    ensures Audited(Transitioned(t, before, c, now), After(before, c, now))
  {
    hide Consistent;
    var t2, after := Transitioned(t, before, c, now), After(before, c, now);
    forall k: nat ensures (after.id, k) in t2.audit <==> k <= after.revision {
      assert (before.id, k) in t.audit <==> k <= before.revision;
    }
    forall k: nat | k < after.revision
      ensures t2.audit[(after.id, k + 1)].state in Allowed(t2.audit[(after.id, k)].state)
    {
      assert k < before.revision ==> t.audit[(before.id, k + 1)].state in Allowed(t.audit[(before.id, k)].state);
    }
  }

  lemma TransitionContinues(before: ActionRecord, c: Change, now: int)
    requires Consistent(before) && Consistent(After(before, c, now)) && c.state in Allowed(before.state)
    requires before.approval.Some? ==> c.approval.None?
    ensures Continues(before, After(before, c, now))
  {
  }

  /** A transition writes the record and its audit row together, or changes nothing. */
  lemma TransitionKeeps(t: Tables, before: ActionRecord, c: Change, now: int)
    requires GoodTables(t) && (before.approval.Some? ==> c.approval.None?)
    ensures GoodTables(Transitioned(t, before, c, now)) && TablesContinue(t, Transitioned(t, before, c, now))
    ensures TransitionReply(t, before, c, now) != Duplicate
  {
    hide Consistent, Continues, Audited, Allowed;
    ContinuesReflexive(t);
    if before.id in t.actions && t.actions[before.id] == before {
      NoDuplicate(t, before, c, now);
    }
    if TransitionReply(t, before, c, now).Stored? {
      var t2, after := Transitioned(t, before, c, now), After(before, c, now);
      AuditedAfter(t, before, c, now);
      TransitionContinues(before, c, now);
      forall id | id in t2.actions
        ensures t2.actions[id].id == id && Consistent(t2.actions[id]) && Audited(t2, t2.actions[id])
      {
        if id != before.id {
          OthersAudited(t, t2, t.actions[id]);
        }
      }
      forall id | id in t.actions ensures Continues(t.actions[id], t2.actions[id]) {
        if id != before.id {
          SameContinues(t.actions[id]);
        }
      }
      assert (after.id, after.revision) !in t.audit;
    }
  }

  lemma NoDuplicate(t: Tables, before: ActionRecord, c: Change, now: int)
    requires Audited(t, before)
    ensures (before.id, After(before, c, now).revision) !in t.audit
  {
  }

  lemma OthersAudited(t: Tables, t2: Tables, r: ActionRecord)
    requires Audited(t, r)
    requires forall k: nat :: (r.id, k) in t2.audit <==> (r.id, k) in t.audit
    requires forall k: nat :: (r.id, k) in t.audit ==> t2.audit[(r.id, k)] == t.audit[(r.id, k)]
    ensures Audited(t2, r)
  {
  }

  lemma SameContinues(r: ActionRecord)
    ensures Continues(r, r)
  {
  }

  lemma {:induction false} AscendingFromZero(events: seq<AuditEvent>, i: nat)
    requires i < |events| && forall i, j :: 0 <= i < j < |events| ==> events[i].revision < events[j].revision
    ensures i <= events[i].revision
  {
    if i > 0 {
      AscendingFromZero(events, i - 1);
    }
  }

  lemma {:induction false} ListedFrom(t: Tables, r: ActionRecord, events: seq<AuditEvent>, k: nat)
    requires Audited(t, r) && Listed(t, r.id, events) && k <= r.revision
    ensures k < |events| && events[k] == t.audit[(r.id, k)] && events[k].revision == k
  {
    forall a, b | 0 <= a <= b < |events| ensures events[a].revision <= events[b].revision {
    }
    if k > 0 {
      ListedFrom(t, r, events, k - 1);
    }
    assert (r.id, k) in t.audit;
    var i :| 0 <= i < |events| && events[i].revision == k;
    AscendingFromZero(events, i);
  }

  lemma NothingBeyond(t: Tables, r: ActionRecord, events: seq<AuditEvent>)
    requires Audited(t, r) && Listed(t, r.id, events)
    ensures |events| <= r.revision + 1
  {
    if events != [] {
      var last := |events| - 1;
      AscendingFromZero(events, last);
      assert (r.id, events[last].revision) in t.audit;
    }
  }

  /** The history of a stored action is every revision once, in order. */
  lemma HistoryIsComplete(t: Tables, r: ActionRecord, events: seq<AuditEvent>)
    requires Audited(t, r) && Listed(t, r.id, events)
    ensures |events| == r.revision + 1
    ensures forall k :: 0 <= k < |events| ==> events[k] == t.audit[(r.id, k)] && events[k].revision == k
  {
    hide Listed;
    forall k: nat | k <= r.revision ensures k < |events| && events[k] == t.audit[(r.id, k)] && events[k].revision == k {
      ListedFrom(t, r, events, k);
    }
    NothingBeyond(t, r, events);
  }

  lemma LeastRevision(revisions: set<nat>) returns (k: nat)
    requires revisions != {}
    ensures k in revisions && forall j :: j in revisions ==> k <= j
    decreases |revisions|
  {
    var first :| first in revisions;
    var smaller := set j | j in revisions && j < first;
    k := first;
    if smaller != {} {
      assert first in revisions && first !in smaller;
      SmallerSet(smaller, revisions);
      k := LeastRevision(smaller);
    }
    forall j | j in revisions ensures k <= j {
      assert j < first ==> j in smaller;
    }
  }

  lemma SmallerSet(a: set<nat>, b: set<nat>)
    requires a < b
    ensures |a| < |b|
  {
    var x :| x in b && x !in a;
    assert b == a + (b - a);
    assert |b| == |a| + |b - a|;
    assert x in b - a;
  }

  /** The listing so far and the revisions still to come. */
  ghost predicate ListedBefore(t: Tables, id: ActionId, events: seq<AuditEvent>, left: set<nat>) {
    && (forall k :: k in left ==> (id, k) in t.audit)
    && (forall i :: 0 <= i < |events| ==>
          (id, events[i].revision) in t.audit && t.audit[(id, events[i].revision)] == events[i])
    && (forall i :: 0 <= i < |events| ==> events[i].id == id)
    && (forall i, j :: 0 <= i < j < |events| ==> events[i].revision < events[j].revision)
    && (forall i, k :: 0 <= i < |events| && k in left ==> events[i].revision < k)
    && (forall k: nat :: (id, k) in t.audit ==> k in left || exists i :: 0 <= i < |events| && events[i].revision == k)
  }

  lemma ListedNext(t: Tables, id: ActionId, events: seq<AuditEvent>, left: set<nat>, k: nat)
    requires ListedBefore(t, id, events, left) && k in left && forall j :: j in left ==> k <= j
    requires t.audit[(id, k)].id == id && t.audit[(id, k)].revision == k
    ensures ListedBefore(t, id, events + [t.audit[(id, k)]], left - {k})
  {
    var more := events + [t.audit[(id, k)]];
    forall m: nat | (id, m) in t.audit ensures m in left - {k} || exists i :: 0 <= i < |more| && more[i].revision == m {
      if m == k {
        assert more[|events|].revision == m;
      } else if m !in left {
        var i :| 0 <= i < |events| && events[i].revision == m;
        assert more[i].revision == m;
      }
    }
  }

  lemma NothingListed(t: Tables, id: ActionId)
    ensures ListedBefore(t, id, [], Revisions(t, id))
  {
    forall k: nat | (id, k) in t.audit ensures k in Revisions(t, id) {
      assert (id, k).0 == id && (id, k).1 == k;
    }
  }

  lemma AllListed(t: Tables, id: ActionId, events: seq<AuditEvent>)
    requires ListedBefore(t, id, events, {})
    ensures Listed(t, id, events)
    ensures forall k: nat :: (id, k) in t.audit ==> t.audit[(id, k)].id == id && t.audit[(id, k)].revision == k
  {
    forall k: nat | (id, k) in t.audit ensures t.audit[(id, k)].id == id && t.audit[(id, k)].revision == k {
      var i :| 0 <= i < |events| && events[i].revision == k;
    }
  }

  // ----- the store object

  class Database {
    var actions: map<ActionId, ActionRecord>
    var audit: map<(ActionId, nat), AuditEvent>

    ghost function Contents(): Tables
      reads this
    {
      Tables(actions, audit)
    }

    constructor ()
      ensures Contents() == Tables(map[], map[])
    {
      actions, audit := map[], map[];
    }

    method Get(id: ActionId) returns (reply: StoreReply)
      ensures reply == if id in actions then Stored(actions[id]) else Missing
    {
      reply := if id in actions then Stored(actions[id]) else Missing;
    }

    method Create(r: ActionRecord) returns (reply: StoreReply)
      modifies this
      ensures reply == CreateReply(old(Contents()), r) && Contents() == Created(old(Contents()), r)
    {
      if r.state != Proposed || r.revision != 0 {
        return Invalid;
      }
      if r.id in actions || (r.id, 0) in audit {
        var previous := Get(r.id);
        if previous.Missing? {
          return Missing;
        }
        if previous.record.proposer != r.proposer || previous.record.proposal != r.proposal {
          return Denied;
        }
        return previous;
      }
      actions := actions[r.id := r];
      audit := audit[(r.id, 0) := EventOf(r, r.proposer, PolicyReviewed)];
      reply := Stored(r);
    }

    /** Compare-and-set on the whole old record; the audit row commits with it or neither does. */
    method Transition(before: ActionRecord, c: Change, now: int) returns (reply: StoreReply)
      modifies this
      ensures reply == TransitionReply(old(Contents()), before, c, now)
      ensures Contents() == Transitioned(old(Contents()), before, c, now)
    {
      if c.state !in Allowed(before.state) {
        return Conflict;
      }
      var after := After(before, c, now);
      if !Consistent(after) {
        return Invalid;
      }
      if before.id !in actions || actions[before.id] != before {
        return Conflict;
      }
      if (after.id, after.revision) in audit {
        return Duplicate;
      }
      actions := actions[after.id := after];
      audit := audit[(after.id, after.revision) := EventOf(after, c.actor, c.reason)];
      reply := Stored(after);
    }

    /** `audit`: the rows of one action in revision order; a row that names another identity is an error. */
    method History(id: ActionId) returns (events: Option<seq<AuditEvent>>)
      ensures events.Some? ==> Listed(Contents(), id, events.value)
      ensures events.Some? <==>
        forall k: nat :: (id, k) in audit ==> audit[(id, k)].id == id && audit[(id, k)].revision == k
    {
      hide ListedBefore, Listed, Revisions;
      ghost var t := Contents();
      events := Some([]);
      var left := Revisions(Tables(actions, audit), id);
      NothingListed(t, id);
      while left != {}
        invariant events.Some? && ListedBefore(t, id, events.value, left) && t == Contents()
        decreases |left|
      {
        ghost var _ := LeastRevision(left);
        var k :| k in left && forall j :: j in left ==> k <= j;
        LeftIsStored(t, id, events.value, left, k);
        var row := audit[(id, k)];
        if row.id != id || row.revision != k {
          return None;
        }
        ListedNext(t, id, events.value, left, k);
        events, left := Some(events.value + [row]), left - {k};
      }
      AllListed(t, id, events.value);
    }
  }

  lemma LeftIsStored(t: Tables, id: ActionId, events: seq<AuditEvent>, left: set<nat>, k: nat)
    requires ListedBefore(t, id, events, left) && k in left
    ensures (id, k) in t.audit
  {
  }
}
