/** Every schedule of entries of one run, each with its own environment and moment of death. */
module LoopSchedule {
  import opened Records
  import opened Context
  import opened Budget
  import opened Loop
  import opened LoopGrowth
  import opened LoopReplay
  import opened LoopJournal

  const BLANK := Disk(None, map[], [])

  /** The state a sequence of live entries leaves, whatever stopped each of them. */
  function Schedule(h: Host, envs: seq<Env>, disk: Disk): Disk {
    if envs == [] then disk
    else Enter(h, envs[|envs| - 1], Schedule(h, envs[..|envs| - 1], disk)).disk
  }

  ghost predicate AllLive(envs: seq<Env>) {
    forall e :: e in envs ==> e.world.Live?
  }

  /** What every reachable disk satisfies: good contents and, once opened, a journal. */
  ghost predicate Reachable(h: Host, disk: Disk) {
    && GoodDisk(h, disk)
    && (disk.row.Some? ==> Aligned(disk.row.value) && Tail(h, Opened(h, disk), 1, NewSession(h)))
  }

  lemma OpenedIsJournal(h: Host, disk: Disk)
    requires Reachable(h, disk)
    ensures Journal(h, Opened(h, disk), 1, NewSession(h))
  {
    hide Tail, RunSession;
    assert Spent([]) == ZERO;
    if disk.row.None? {
      EmptyTail(h, Opened(h, disk));
    }
  }

  lemma EmptyTail(h: Host, d: Durable)
    requires d.record.charges == []
    ensures Tail(h, d, 1, NewSession(h))
  {
  }

  lemma SessionKeepsJournal(h: Host, e: Env, d: Durable)
    requires Journal(h, d, 1, NewSession(h)) && e.world.Live?
    ensures var r := RunSession(h, e, d);
      && Journal(h, r.d, 1, NewSession(h)) && Grows(d, r.d)
      && (|d.record.completions| < |d.record.charges| ==> r.d.record == d.record)
  {
    hide Turns, Tail, EvidenceChecked, Concluded, ValidRecord;
    TurnsKeepJournal(h, e, 1, NewSession(h), d);
    TurnsGrow(h, e, 1, NewSession(h), d);
  }

  lemma EntryStaysReachable(h: Host, e: Env, disk: Disk)
    requires Reachable(h, disk) && e.world.Live?
    ensures Reachable(h, Enter(h, e, disk).disk)
  {
    hide RunSession, Tail, Enter;
    EnterOpens(h, e, disk);
    OpenedIsJournal(h, disk);
    var d := Opened(h, disk);
    SessionKeepsJournal(h, e, d);
    var d2 := RunSession(h, e, d).d;
    var after := Enter(h, e, disk).disk;
    assert BindingOf(h) in d2.store;
    assert d2.store[BindingOf(h) := BindingOf(h).content] == d2.store;
    assert Opened(h, after) == d2;
  }

  lemma {:induction false} ScheduleIsReachable(h: Host, envs: seq<Env>)
    requires ValidHost(h) && AllLive(envs)
    ensures Reachable(h, Schedule(h, envs, BLANK))
  {
    hide Enter, Tail;
    if envs != [] {
      ScheduleIsReachable(h, envs[..|envs| - 1]);
      EntryStaysReachable(h, envs[|envs| - 1], Schedule(h, envs[..|envs| - 1], BLANK));
    }
  }

  // ----- the shape of the journal

  /** `model-t [reads-t] model-(t+1) [reads-(t+1)] ...` */
  ghost predicate Shape(ids: seq<OpId>, turn: nat)
    decreases |ids|
  {
    ids == [] || (ids[0] == ModelOp(turn) &&
      (Shape(ids[1..], turn + 1) || (|ids| > 1 && ids[1] == ReadsOp(turn) && Shape(ids[2..], turn + 1))))
  }

  lemma {:induction false} TailHasShape(h: Host, d: Durable, turn: nat, s: Session)
    requires |s.receipts| <= |d.record.charges| && Tail(h, d, turn, s)
    requires Aligned(d.record)
    ensures Shape(ChargeIds(d.record.charges)[|s.receipts|..], turn)
    decreases h.limits.modelCalls + 1 - turn
  {
    hide Turn, Batch;
    var p, ids := |s.receipts|, ChargeIds(d.record.charges);
    if p < |ids| {
      assert ids[p..][0] == ModelOp(turn);
      if p + 1 == |ids| {
        assert ids[p..][1..] == [];
      } else if p + 2 == |ids| && ReadsLast(h, d, turn, s) {
        assert ids[p..][1] == ReadsOp(turn) && ids[p..][2..] == [];
      } else {
        var t := Turn(h, Walk(h), turn, s, d);
        ReceiptedBound(t.s, d);
        TailHasShape(h, d, turn + 1, t.s);
        if |t.s.receipts| == p + 1 {
          assert ids[p..][1..] == ids[p + 1..];
        } else {
          assert ids[p..][1] == ReadsOp(turn) && ids[p..][2..] == ids[p + 2..];
        }
      }
    }
  }

  /**
   For every schedule: charges alternate in turn order, and the completions are their ids, at most the last missing.
   */
  lemma JournalShape(h: Host, envs: seq<Env>)
    requires ValidHost(h) && AllLive(envs) && Schedule(h, envs, BLANK).row.Some?
    ensures var r := Schedule(h, envs, BLANK).row.value;
      && Shape(ChargeIds(r.charges), 1)
      && CompletionIds(r.completions) <= ChargeIds(r.charges)
      && |r.completions| >= |r.charges| - 1
  {
    hide Schedule, Tail, Shape, Turn;
    ScheduleIsReachable(h, envs);
    var disk := Schedule(h, envs, BLANK);
    TailHasShape(h, Opened(h, disk), 1, NewSession(h));
    assert ChargeIds(disk.row.value.charges)[0..] == ChargeIds(disk.row.value.charges);
    assert CompletionIds(disk.row.value.completions) <= ChargeIds(disk.row.value.charges);
  }

  // ----- what later entries may and may not add

  lemma TurnWithoutCharge(h: Host, e: Env, turn: nat, s: Session, d: Durable)
    ensures var t := Turn(h, e, turn, s, d);
      d.record.charges <= t.d.record.charges && (t.d.record.charges == d.record.charges ==> t.d.effects == d.effects)
  {
    hide Model, Reads, ContextOf;
  }

  lemma {:induction false} TurnsWithoutCharge(h: Host, e: Env, turn: nat, s: Session, d: Durable)
    ensures var r := Turns(h, e, turn, s, d);
      d.record.charges <= r.d.record.charges && (r.d.record.charges == d.record.charges ==> r.d.effects == d.effects)
    decreases h.limits.modelCalls + 1 - turn
  {
    hide Turn, Ended, Turns;
    if turn > h.limits.modelCalls {
      TurnsBeyond(h, e, turn, s, d);
    } else {
      TurnsStep(h, e, turn, s, d);
      TurnWithoutCharge(h, e, turn, s, d);
      var t := Turn(h, e, turn, s, d);
      if t.out == Go(Continue) {
        TurnsWithoutCharge(h, e, turn + 1, t.s, t.d);
      }
    }
  }

  /** One entry: the record grows, and a lost receipt freezes record and outside world alike. */
  lemma EntryGrowsOrFreezes(h: Host, e: Env, disk: Disk)
    requires Reachable(h, disk) && e.world.Live? && disk.row.Some?
    ensures var after := Enter(h, e, disk).disk;
      && after.row.Some? && Extends(disk.row.value, after.row.value) && disk.effects <= after.effects
      && (|disk.row.value.completions| < |disk.row.value.charges| ==>
            after.row == disk.row && after.effects == disk.effects)
  {
    hide Tail, Enter, Turns, EvidenceChecked, Concluded;
    EnterOpens(h, e, disk);
    OpenedIsJournal(h, disk);
    SessionKeepsJournal(h, e, Opened(h, disk));
    TurnsWithoutCharge(h, e, 1, NewSession(h), Opened(h, disk));
  }

  lemma {:induction false} ScheduleSplit(h: Host, first: seq<Env>, second: seq<Env>, disk: Disk)
    ensures Schedule(h, first + second, disk) == Schedule(h, second, Schedule(h, first, disk))
    decreases |second|
  {
    hide Enter;
    if second == [] {
      assert first + second == first;
    } else {
      var whole := first + second;
      assert whole[..|whole| - 1] == first + second[..|second| - 1];
      ScheduleSplit(h, first, second[..|second| - 1], disk);
    }
  }

  /**
   Across entries and crashes a record only grows, and an operation whose receipt was lost ends the journal for good.
   */
  lemma {:induction false} LaterEntries(h: Host, first: seq<Env>, second: seq<Env>)
    requires ValidHost(h) && AllLive(first) && AllLive(second) && Schedule(h, first, BLANK).row.Some?
    ensures var before, after := Schedule(h, first, BLANK), Schedule(h, first + second, BLANK);
      && after.row.Some? && Extends(before.row.value, after.row.value) && before.effects <= after.effects
      && (|before.row.value.completions| < |before.row.value.charges| ==>
            after.row == before.row && after.effects == before.effects)
    decreases |second|
  {
    hide Schedule, Enter, Reachable;
    if second == [] {
      assert first + second == first;
    } else {
      var front, last := second[..|second| - 1], second[|second| - 1];
      LaterEntries(h, first, front);
      ScheduleIsReachable(h, first + front);
      EntryGrowsOrFreezes(h, last, Schedule(h, first + front, BLANK));
      ScheduleLast(h, first, second);
    }
  }

  lemma ScheduleLast(h: Host, first: seq<Env>, second: seq<Env>)
    requires second != []
    ensures Schedule(h, first + second, BLANK)
         == Enter(h, second[|second| - 1], Schedule(h, first + second[..|second| - 1], BLANK)).disk
  {
    hide Enter;
    var whole := first + second;
    assert whole[..|whole| - 1] == first + second[..|second| - 1];
  }

  /** Each model prompt and each read batch reaches the outside world at most once, and only once charged. */
  lemma DispatchedAtMostOnce(h: Host, envs: seq<Env>)
    requires ValidHost(h) && AllLive(envs)
    ensures var disk := Schedule(h, envs, BLANK);
      && Distinct(disk.effects)
      && forall op :: op in disk.effects ==> disk.row.Some? && op in ChargeIds(disk.row.value.charges)
  {
    hide Schedule, Tail;
    ScheduleIsReachable(h, envs);
  }

  /** An entry under any other binding, or other limits, is refused and changes neither record nor world. */
  lemma RebindingIsRefused(h: Host, other: Host, e: Env, disk: Disk)
    requires GoodDisk(h, disk) && disk.row.Some? && other.run == h.run && BindingOf(other) != BindingOf(h)
    ensures var r := Enter(other, e, disk);
      r.ending == Raised(Integrity) && r.disk.row == disk.row && r.disk.effects == disk.effects
  {
    hide RunSession;
  }
}
