/** The durable files of one incident and the worker that advances its checkpoint, updated in place. */
module LifecycleObject {
  import opened Records
  import opened Budget
  import opened Loop
  import opened Lifecycle

  class IncidentFiles {
    var attempts: set<nat>
    var marker: bool
    var result: ResultFile
    var ledger: Disk
    var operations: nat
    var collections: nat

    ghost function Contents(): Files
      reads this
    {
      Files(attempts, marker, result, ledger, operations, collections)
    }

    constructor ()
      ensures Contents() == NO_FILES
    {
      attempts, marker, result, ledger, operations, collections := {}, false, Absent, Disk(None, map[], []), 0, 0;
    }

    /** `reserve_attempt`: count the files, then create the next one exclusively. */
    method Reserve(s: Investigation, now: int) returns (a: Attempt)
      modifies this`attempts
      ensures a == ReserveAttempt(s, old(attempts), now)
      ensures attempts == if a.NewAttempt? then old(attempts) + {a.file} else old(attempts)
    {
      var used := Max(s.stepsUsed, |attempts|);
      if used >= s.budget.maxSteps || now >= s.budget.startBefore {
        return NoAttempt(s.(stepsUsed := used, terminal := Some(BudgetExhausted)));
      }
      if used + 1 in attempts {
        return Collides;
      }
      attempts := attempts + {used + 1};
      a := NewAttempt(s.(stepsUsed := used + 1), used + 1);
    }

    /** `_collected`. */
    method Check(s: Investigation, c: Collection) returns (state: Investigation)
      ensures state == Collected(s, c, ledger.store)
    {
      hide Verified;
      if c.incident != s.incident {
        return s.(terminal := Some(SecurityBlock));
      }
      for i := 0 to |c.evidence|
        invariant forall x :: x in c.evidence[..i] ==> x.meta.incident == s.incident && Verified(ledger.store, x)
      {
        if c.evidence[i].meta.incident != s.incident || !Verified(ledger.store, c.evidence[i]) {
          return s.(terminal := Some(SecurityBlock));
        }
      }
      assert c.evidence[..|c.evidence|] == c.evidence;
      state := s.(phase := EvidenceCollected, evidence := c.evidence);
    }

    /** `_collect`: result file, else marker, else the one dispatch. `None` means the node was lost. */
    method Collect(s: Investigation, e: NodeEnv) returns (state: Option<Investigation>)
      modifies this
      ensures var end := CollectState(s, old(Contents()), e);
        Contents() == end.files && (state.Some? <==> end.Updated?) && (state.Some? ==> state.value == end.state)
    {
      hide Collected, Stored;
      if s.toolCalls < 20 || s.backendReads < CollectionCost(s) {
        return Some(s.(terminal := Some(BudgetExhausted)));
      }
      if result.Complete? {
        var known := Check(s, result.collection);
        return Some(known);
      }
      if result.Partial? || marker {
        return Some(s.(terminal := Some(DependencyUnavailable)));
      }
      if e.collector.MarkerFails? {
        marker := e.collector.left;
        return Some(s.(terminal := Some(DependencyUnavailable)));
      }
      marker := true;
      if e.collector.MarkerDies? {
        return None;
      }
      collections := collections + 1;
      ledger := ledger.(store := Stored(ledger.store, e.artifacts));
      match e.collector
      case CollectorReturns(collection, write) =>
        if !write.Written? {
          result := if write.left then Partial else Absent;
          return if write.WriteDies? then None else Some(s.(terminal := Some(DependencyUnavailable)));
        }
        result := Complete(collection);
        var checked := Check(s, collection);
        state := Some(checked);
      case CollectorRaises(integrity) =>
        state := Some(s.(terminal := Some(if integrity then SecurityBlock else DependencyUnavailable)));
      case _ =>
        state := None;
    }

    /** `_step` around every node but `finish`. */
    method Step(s: Investigation, node: Node, e: NodeEnv) returns (state: Option<Investigation>)
      modifies this
      ensures var end := RunNode(s, old(Contents()), node, e);
        Contents() == end.files && (state.Some? <==> end.Updated?) && (state.Some? ==> state.value == end.state)
    {
      hide CollectState, RankState, FinishState, ReserveAttempt;
      if node == Node.Finish {
        var end := FinishState(s, Files(attempts, marker, result, ledger, operations, collections));
        FinishWritesNothing(s, Contents());
        return if end.Updated? then Some(end.state) else None;
      }
      var a := Reserve(s, e.now);
      if a.Collides? || e.diesEarly {
        return None;
      }
      if a.NoAttempt? {
        return Some(a.state);
      }
      operations := operations + 1;
      if node == Triage {
        state := Some(TriageState(a.state));
      } else if node == Node.Reserve {
        state := Some(ReserveState(a.state));
      } else if node == Node.Collect {
        state := Collect(a.state, e);
      } else {
        var end := RankState(a.state, Files(attempts, marker, result, ledger, operations, collections), e);
        RankWritesLedger(a.state, Contents(), e);
        ledger := end.files.ledger;
        state := if end.Updated? then Some(end.state) else None;
      }
    }
  }

  lemma FinishWritesNothing(s: Investigation, f: Files)
    ensures FinishState(s, f).files == f
  {
  }

  lemma RankWritesLedger(s: Investigation, f: Files, e: NodeEnv)
    ensures RankState(s, f, e).files == f.(ledger := RankState(s, f, e).files.ledger)
  {
    hide Enter, Verified;
  }

  class InvestigationWorker {
    const files: IncidentFiles
    var saved: Checkpoint

    constructor (s: Investigation, files: IncidentFiles)
      ensures this.files == files && saved == Checkpoint(s, Triage)
    {
      this.files := files;
      saved := Checkpoint(s, Triage);
    }

    ghost function Current(): Life
      reads this, files
    {
      Life(saved, files.Contents())
    }

    /** `_invoke`: nodes run from the recorded one, each checkpointed, until the end or a lost node. */
    method Resume(envs: seq<NodeEnv>) returns (count: nat)
      requires |envs| == 16
      modifies this, files
      ensures count <= 16 && Current() == Lives(old(Current()), envs[..count])
      ensures saved.next == End || count > 0
    {
      hide RunNode, Lives;
      count := 0;
      LivesEmpty(Current());
      var running := true;
      while running && count < 16 && saved.next != End
        invariant count <= 16 && Current() == Lives(old(Current()), envs[..count])
        invariant count == 0 ==> running
        decreases 16 - count
      {
        LivesMore(old(Current()), envs, count);
        var e := envs[count];
        var node := saved.next;
        var state := files.Step(saved.state, node, e);
        count := count + 1;
        running := state.Some? && !e.diesLate && ValidState(state.value) && After(node, state.value).Some?;
        if running {
          saved := Checkpoint(state.value, After(node, state.value).value);
        }
      }
    }
  }

  lemma LivesEmpty(l: Life)
    ensures Lives(l, []) == l
  {
  }

  lemma LivesMore(l: Life, envs: seq<NodeEnv>, n: nat)
    requires n < |envs|
    ensures Lives(l, envs[..n + 1]) == Next(Lives(l, envs[..n]), envs[n])
  {
    hide Next;
    assert envs[..n + 1][..n] == envs[..n];
  }
}
