/**
 Lifecycle traces of the concurrent-memory workload: the checker that reconstructs occupancy from them, and the
 producer whose normally completing runs it accepts. Times are in nanoseconds, sizes in bytes.
 */
module ConcurrencyTrace {
  import opened Records

  datatype Phase = Admitted | Allocated | Released

  datatype Event = Event(sample: string, phase: Phase, active: nat, current: nat, timestamp: int, monotonic: int)

  /** Samples in flight, with the time of their allocation once they have one. */
  type Flights = map<string, Option<int>>

  datatype Occupancy = Occupancy(active: Flights, completed: set<string>)

  const NOBODY := Occupancy(map[], {})
  const HOLD := 1000000000
  const MIB := 1048576

  // ----- _advance

  function Moved(e: Event, o: Occupancy): Option<Occupancy> {
    match e.phase
    case Admitted =>
      if e.sample in o.active || e.sample in o.completed then None
      else Some(o.(active := o.active[e.sample := None]))
    case Allocated =>
      if e.sample !in o.active || o.active[e.sample].Some? then None
      else Some(o.(active := o.active[e.sample := Some(e.monotonic)]))
    case Released =>
      if e.sample !in o.active || o.active[e.sample].None? || e.monotonic - o.active[e.sample].value < HOLD then None
      else Some(Occupancy(o.active - {e.sample}, o.completed + {e.sample}))
  }

  function Advance(e: Event, o: Occupancy): Option<Occupancy> {
    var moved := Moved(e, o);
    if moved.Some? && e.active == |moved.value.active| then moved else None
  }

  function Replay(events: seq<Event>, n: nat): Option<Occupancy>
    requires n <= |events|
  {
    if n == 0 then Some(NOBODY)
    else match Replay(events, n - 1)
      case None => None
      case Some(o) => Advance(events[n - 1], o)
  }

  // ----- validate_events

  function Holders(active: Flights): set<string> {
    set s | s in active && active[s].Some?
  }

  function ActiveAt(events: seq<Event>, n: nat): nat
    requires n <= |events|
  {
    match Replay(events, n) case Some(o) => |o.active| case None => 0
  }

  function AllocatedAt(events: seq<Event>, n: nat): nat
    requires n <= |events|
  {
    match Replay(events, n) case Some(o) => |Holders(o.active)| case None => 0
  }

  /** One event belongs to the plan and the window and comes strictly after the one before it. */
  predicate Admissible(events: seq<Event>, samples: seq<string>, started: int, ended: int, k: nat)
    requires k < |events|
  {
    && events[k].sample in samples && events[k].monotonic > (if k == 0 then 0 else events[k - 1].monotonic)
    && started - HOLD <= events[k].timestamp <= ended + HOLD
  }

  predicate InWindow(samples: seq<string>, started: int, ended: int) {
    |samples| == 8 && Distinct(samples) && 0 < ended - started <= 45 * HOLD
  }

  predicate Traceable(events: seq<Event>, samples: seq<string>, started: int, ended: int) {
    && InWindow(samples, started, ended) && 1 <= |events| <= 24
    && (forall k :: 0 <= k < |events| ==> Admissible(events, samples, started, ended, k))
    && Replay(events, |events|).Some?
  }

  datatype Progress = Progress(admitted: nat, completed: nat, peakActive: nat, peakAllocated: nat, peakBytes: nat)

  function Max(a: nat, b: nat): nat { if a > b then a else b }

  function SetOf(samples: seq<string>): set<string> { set s | s in samples }

  /** What the two modes ask of a traceable log, given its peaks. */
  predicate Sufficient(events: seq<Event>, samples: seq<string>, parallel: bool, p: Progress)
    requires events != [] && Replay(events, |events|).Some?
  {
    var o := Replay(events, |events|).value;
    if parallel then p.peakAllocated >= 6 && p.peakBytes - events[0].current >= 128 * MIB
    else o.active == map[] && o.completed == SetOf(samples) && p.peakActive == 1
  }

  ghost predicate Peaks(events: seq<Event>, p: Progress) {
    && (forall k :: 0 <= k <= |events| ==>
          ActiveAt(events, k) <= p.peakActive && AllocatedAt(events, k) <= p.peakAllocated)
    && (exists k :: 0 <= k <= |events| && ActiveAt(events, k) == p.peakActive)
    && (exists k :: 0 <= k <= |events| && AllocatedAt(events, k) == p.peakAllocated)
    && (forall k :: 0 <= k < |events| ==> events[k].current <= p.peakBytes)
    && (exists k :: 0 <= k < |events| && events[k].current == p.peakBytes)
  }

  lemma ReplayFails(events: seq<Event>, k: nat, n: nat)
    requires k <= n <= |events| && Replay(events, k).None?
    ensures Replay(events, n).None?
  {
    if k < n {
      ReplayFails(events, k, n - 1);
    }
  }

  method PeakBytes(events: seq<Event>) returns (peak: nat)
    requires events != []
    ensures forall k :: 0 <= k < |events| ==> events[k].current <= peak
    ensures exists k :: 0 <= k < |events| && events[k].current == peak
  {
    peak := events[0].current;
    for i := 1 to |events|
      invariant forall k :: 0 <= k < i ==> events[k].current <= peak
      invariant exists k :: 0 <= k < i && events[k].current == peak
    {
      peak := Max(peak, events[i].current);
    }
  }

  /** `validate_events`: an accepted log's progress holds the true maxima over all its prefixes. */
  method ValidateEvents(events: seq<Event>, samples: seq<string>, started: int, ended: int, parallel: bool)
    returns (result: Option<Progress>)
    ensures !Traceable(events, samples, started, ended) ==> result.None?
    ensures Traceable(events, samples, started, ended) ==>
      exists p :: Peaks(events, p) && (result == if Sufficient(events, samples, parallel, p) then Some(p) else None)
                  && p.admitted == |Replay(events, |events|).value.active| + |Replay(events, |events|).value.completed|
                  && p.completed == |Replay(events, |events|).value.completed|
  {
    hide Advance;
    if !InWindow(samples, started, ended) || !(1 <= |events| <= 24) {
      return None;
    }
    var active: Flights := map[];
    var completed: set<string> := {};
    var peakActive, peakAllocated, last := 0, 0, 0;
    assert ActiveAt(events, 0) == 0 && AllocatedAt(events, 0) == 0 by { assert Holders(map[]) == {}; }
    for i := 0 to |events|
      invariant forall k :: 0 <= k < i ==> Admissible(events, samples, started, ended, k)
      invariant last == if i == 0 then 0 else events[i - 1].monotonic
      invariant Replay(events, i) == Some(Occupancy(active, completed))
      invariant forall k :: 0 <= k <= i ==> ActiveAt(events, k) <= peakActive && AllocatedAt(events, k) <= peakAllocated
      invariant exists k :: 0 <= k <= i && ActiveAt(events, k) == peakActive
      invariant exists k :: 0 <= k <= i && AllocatedAt(events, k) == peakAllocated
    {
      var event := events[i];
      if event.sample !in samples || event.monotonic <= last
         || !(started - HOLD <= event.timestamp <= ended + HOLD)
      {
        assert !Admissible(events, samples, started, ended, i);
        return None;
      }
      var next := Advance(event, Occupancy(active, completed));
      if next.None? {
        ReplayFails(events, i + 1, |events|);
        return None;
      }
      active, completed := next.value.active, next.value.completed;
      last := event.monotonic;
      assert ActiveAt(events, i + 1) == |active| && AllocatedAt(events, i + 1) == |Holders(active)|;
      peakActive := Max(peakActive, |active|);
      peakAllocated := Max(peakAllocated, |Holders(active)|);
    }
    var peak := PeakBytes(events);
    var p := Progress(|active| + |completed|, |completed|, peakActive, peakAllocated, peak);
    assert Peaks(events, p);
    result := if Sufficient(events, samples, parallel, p) then Some(p) else None;
  }

  // ----- serial controls

  /** Events 3b, 3b+1 and 3b+2: one sample admitted, allocated and released after a full hold, alone. */
  predicate Block(events: seq<Event>, b: nat)
    requires 3 * b + 3 <= |events|
  {
    var a, l, r := events[3 * b], events[3 * b + 1], events[3 * b + 2];
    && a.sample == l.sample == r.sample
    && (a.phase, l.phase, r.phase) == (Admitted, Allocated, Released)
    && (a.active, l.active, r.active) == (1, 1, 0) && r.monotonic - l.monotonic >= HOLD
  }

  /** The samples of the first b blocks. */
  function Served(events: seq<Event>, b: nat): seq<string>
    requires 3 * b <= |events|
  {
    seq(b, i requires 0 <= i < b => events[3 * i].sample)
  }

  predicate Blocks(events: seq<Event>, b: nat)
    requires 3 * b <= |events|
  {
    Distinct(Served(events, b)) && forall i :: 0 <= i < b ==> Block(events, i)
  }

  /** Where a serial log stands: r events into the block that begins at 3b. */
  ghost predicate SerialAt(events: seq<Event>, b: nat, r: nat, o: Occupancy)
    requires 3 * b + r <= |events| && r <= 2
  {
    && Blocks(events, b) && o.completed == SetOf(Served(events, b))
    && (r == 0 ==> o.active == map[])
    && (r > 0 ==>
          var a := events[3 * b];
          && a.phase == Admitted && a.active == 1 && a.sample !in o.completed
          && (r == 1 ==> o.active == map[a.sample := None])
          && (r == 2 ==>
                var l := events[3 * b + 1];
                && l.phase == Allocated && l.active == 1 && l.sample == a.sample
                && o.active == map[a.sample := Some(l.monotonic)]))
  }

  lemma SerialAdmits(events: seq<Event>, b: nat, o: Occupancy, o2: Occupancy)
    requires 3 * b < |events| && SerialAt(events, b, 0, o) && Advance(events[3 * b], o) == Some(o2)
    ensures SerialAt(events, b, 1, o2)
  {
    hide Blocks, SetOf;
  }

  lemma SerialAllocates(events: seq<Event>, b: nat, o: Occupancy, o2: Occupancy)
    requires 3 * b + 1 < |events| && SerialAt(events, b, 1, o) && Advance(events[3 * b + 1], o) == Some(o2)
    requires |o2.active| <= 1
    ensures SerialAt(events, b, 2, o2)
  {
    hide Blocks, SetOf;
    var s, e := events[3 * b].sample, events[3 * b + 1];
    SecondMakesTwo(o.active, s, e.sample);
    assert o.active[s := Some(e.monotonic)] == map[s := Some(e.monotonic)];
  }

  lemma ReleaseAlone(s: string, since: int, e: Event, o: Occupancy, o2: Occupancy)
    requires o.active == map[s := Some(since)] && Advance(e, o) == Some(o2) && |o2.active| <= 1
    ensures e.phase == Released && e.sample == s && e.active == 0 && e.monotonic - since >= HOLD
    ensures o2 == Occupancy(map[], o.completed + {s})
  {
    SecondMakesTwo(o.active, s, e.sample);
    assert o.active - {s} == map[];
  }

  lemma SerialReleases(events: seq<Event>, b: nat, o: Occupancy, o2: Occupancy)
    requires 3 * b + 2 < |events| && SerialAt(events, b, 2, o) && Advance(events[3 * b + 2], o) == Some(o2)
    requires |o2.active| <= 1
    ensures SerialAt(events, b + 1, 0, o2)
  {
    hide Advance;
    var s := events[3 * b].sample;
    ReleaseAlone(s, events[3 * b + 1].monotonic, events[3 * b + 2], o, o2);
    assert Block(events, b);
    assert Served(events, b + 1) == Served(events, b) + [s];
    assert SetOf(Served(events, b + 1)) == SetOf(Served(events, b)) + {s};
    hide SetOf;
    assert Blocks(events, b + 1);
  }

  /** A second sample cannot join without making two. */
  lemma SecondMakesTwo(active: Flights, s: string, x: string)
    requires active.Keys == {s}
    ensures x != s ==> |active[x := None]| == 2
  {
    assert active[x := None].Keys == {s, x};
  }

  lemma {:induction false} SerialPrefix(events: seq<Event>, n: nat) returns (b: nat, r: nat)
    requires n <= |events| && Replay(events, n).Some?
    requires forall k :: 0 <= k <= n ==> ActiveAt(events, k) <= 1
    ensures n == 3 * b + r && r <= 2 && SerialAt(events, b, r, Replay(events, n).value)
  {
    hide Advance, SerialAt;
    if n == 0 {
      b, r := 0, 0;
      SerialStart(events);
    } else {
      b, r := SerialPrefix(events, n - 1);
      assert ActiveAt(events, n) <= 1;
      var o, o2 := Replay(events, n - 1).value, Replay(events, n).value;
      if r == 0 {
        SerialAdmits(events, b, o, o2);
        r := 1;
      } else if r == 1 {
        SerialAllocates(events, b, o, o2);
        r := 2;
      } else {
        SerialReleases(events, b, o, o2);
        b, r := b + 1, 0;
      }
    }
  }

  lemma SerialStart(events: seq<Event>)
    ensures SerialAt(events, 0, 0, NOBODY) && SetOf(Served(events, 0)) == {}
  {
  }

  lemma ServedNext(events: seq<Event>, b: nat)
    requires 3 * b + 3 <= |events| && Blocks(events, b + 1)
    ensures Blocks(events, b) && events[3 * b].sample !in SetOf(Served(events, b))
    ensures SetOf(Served(events, b + 1)) == SetOf(Served(events, b)) + {events[3 * b].sample}
  {
    var s, all := events[3 * b].sample, Served(events, b + 1);
    assert all == Served(events, b) + [s] && all[b] == s;
    forall i, j | 0 <= i < j < b ensures Served(events, b)[i] != Served(events, b)[j] {
      assert all[i] != all[j];
    }
    forall i | 0 <= i < b ensures Served(events, b)[i] != s {
      assert all[i] != all[b];
    }
  }

  lemma BlockReplays(events: seq<Event>, b: nat)
    requires 3 * b + 3 <= |events| && Blocks(events, b + 1)
    requires Replay(events, 3 * b) == Some(Occupancy(map[], SetOf(Served(events, b))))
    ensures ActiveAt(events, 3 * b + 1) == ActiveAt(events, 3 * b + 2) == 1
    ensures Replay(events, 3 * b + 3) == Some(Occupancy(map[], SetOf(Served(events, b + 1))))
  {
    hide SetOf;
    ServedNext(events, b);
    assert Block(events, b);
    var done := SetOf(Served(events, b));
    BlockMoves(events[3 * b], events[3 * b + 1], events[3 * b + 2], done);
    hide Advance, Served;
    assert Replay(events, 3 * b + 1) == Advance(events[3 * b], Occupancy(map[], done));
  }

  lemma BlockMoves(a: Event, l: Event, r: Event, done: set<string>)
    requires a.sample == l.sample == r.sample && a.sample !in done
    requires (a.phase, l.phase, r.phase) == (Admitted, Allocated, Released)
    requires (a.active, l.active, r.active) == (1, 1, 0) && r.monotonic - l.monotonic >= HOLD
    ensures Advance(a, Occupancy(map[], done)) == Some(Occupancy(map[a.sample := None], done))
    ensures Advance(l, Occupancy(map[a.sample := None], done))
         == Some(Occupancy(map[a.sample := Some(l.monotonic)], done))
    ensures Advance(r, Occupancy(map[a.sample := Some(l.monotonic)], done)) == Some(Occupancy(map[], done + {a.sample}))
  {
    var s := a.sample;
    var waiting: Flights := map[s := None];
    assert waiting[s := Some(l.monotonic)] == map[s := Some(l.monotonic)];
    var flying: Flights := map[s := Some(l.monotonic)];
    assert flying - {s} == map[];
  }

  lemma {:induction false} BlocksReplay(events: seq<Event>, b: nat)
    requires 3 * b <= |events| && Blocks(events, b)
    ensures Replay(events, 3 * b) == Some(Occupancy(map[], SetOf(Served(events, b))))
    ensures forall k :: 0 <= k <= 3 * b ==> ActiveAt(events, k) <= 1
  {
    hide Advance, Blocks, Served, SetOf;
    SerialStart(events);
    if b > 0 {
      ServedNext(events, b - 1);
      BlocksReplay(events, b - 1);
      BlockReplays(events, b - 1);
      hide Replay;
      assert 3 * (b - 1) + 3 == 3 * b;
      forall k | 0 <= k <= 3 * b ensures ActiveAt(events, k) <= 1 {
        assert k <= 3 * (b - 1) || k == 3 * (b - 1) + 1 || k == 3 * (b - 1) + 2 || k == 3 * b;
      }
    }
  }

  lemma {:induction false} SetOfSize(s: seq<string>)
    ensures |SetOf(s)| <= |s| && (Distinct(s) ==> |SetOf(s)| == |s|)
  {
    if s != [] {
      var front, last := s[..|s| - 1], s[|s| - 1];
      SetOfSize(front);
      assert SetOf(s) == SetOf(front) + {last};
    }
  }

  /** A serial control is accepted exactly when it is eight blocks, one per planned sample. */
  lemma SerialAcceptedExactly(events: seq<Event>, samples: seq<string>, started: int, ended: int, p: Progress)
    requires InWindow(samples, started, ended) && 1 <= |events| <= 24 && Peaks(events, p)
    requires forall k :: 0 <= k < |events| ==> Admissible(events, samples, started, ended, k)
    ensures Replay(events, |events|).Some? && Sufficient(events, samples, false, p) <==>
      |events| == 24 && Blocks(events, 8) && SetOf(Served(events, 8)) == SetOf(samples)
  {
    hide Advance, Admissible, SerialAt;
    if Replay(events, |events|).Some? && Sufficient(events, samples, false, p) {
      var b, r := SerialPrefix(events, |events|);
      SerialEnd(events, samples, b, r);
    }
    if |events| == 24 && Blocks(events, 8) && SetOf(Served(events, 8)) == SetOf(samples) {
      BlocksReplay(events, 8);
      FirstIsActive(events);
    }
  }

  lemma SerialEnd(events: seq<Event>, samples: seq<string>, b: nat, r: nat)
    requires |samples| == 8 && Distinct(samples) && |events| == 3 * b + r && r <= 2
    requires Replay(events, |events|).Some?
    requires var o := Replay(events, |events|).value;
      SerialAt(events, b, r, o) && o.active == map[] && o.completed == SetOf(samples)
    ensures |events| == 24 && Blocks(events, 8) && SetOf(Served(events, 8)) == SetOf(samples)
  {
    hide Replay;
    SetOfSize(samples);
    SetOfSize(Served(events, b));
    if r == 1 {
      OneFlight(events[3 * b].sample, None);
    } else if r == 2 {
      OneFlight(events[3 * b].sample, Some(events[3 * b + 1].monotonic));
    }
  }

  lemma OneFlight(s: string, since: Option<int>)
    ensures map[s := since] != map[]
  {
    assert s in map[s := since];
  }

  lemma FirstIsActive(events: seq<Event>)
    requires |events| == 24 && Blocks(events, 8)
    ensures ActiveAt(events, 1) == 1
  {
    assert Block(events, 0);
    BlockMoves(events[0], events[1], events[2], {});
    assert Replay(events, 0) == Some(NOBODY);
  }

  // ----- the producer

  /** One ASGI loop: admission and allocation happen without yielding, the release after the hold. */
  datatype Turn = Enter(sample: string, admittedAt: int, allocatedAt: int, timestamp: int, current: nat)
                | Leave(sample: string, releasedAt: int, timestamp: int, current: nat)

  const MAX_ACTIVE: nat := 8

  /** How `run` begins: refused as closed or full, skipped by a disabled profile, or admitted. */
  datatype Beginning = RefusedClosed | Skipped | RefusedFull | Begun

  class ConcurrentMemory {
    const enabled: bool
    var closed: bool
    var active: nat
    ghost var holding: map<string, int>
    ghost var entered: set<string>

    ghost predicate Valid()
      reads this
    {
      active == |holding| && active <= MAX_ACTIVE && holding.Keys <= entered
    }

    constructor (enabled: bool)
      ensures Valid() && this.enabled == enabled && !closed && holding == map[] && entered == {}
    {
      this.enabled := enabled;
      closed, active, holding, entered := false, 0, map[], {};
    }

    /** `run` up to its hold: only an admitted run leaves a trace. */
    method Begin(t: Turn) returns (beginning: Beginning, events: seq<Event>)
      requires Valid() && t.Enter? && t.sample !in entered
      modifies this`active, this`holding, this`entered
      ensures Valid()
      ensures beginning == if closed then RefusedClosed else if !enabled then Skipped
                           else if old(active) >= MAX_ACTIVE then RefusedFull else Begun
      ensures if !closed && enabled
              then (active, holding, entered, events) == Produced(old(holding), old(entered), t)
              else (active, holding, entered, events) == (old(active), old(holding), old(entered), [])
    {
      if closed {
        return RefusedClosed, [];
      }
      if !enabled {
        return Skipped, [];
      }
      if active >= MAX_ACTIVE {
        return RefusedFull, [];
      }
      active := active + 1;
      holding, entered := holding[t.sample := t.allocatedAt], entered + {t.sample};
      beginning := Begun;
      events := [Event(t.sample, Admitted, active, t.current, t.timestamp, t.admittedAt),
                 Event(t.sample, Allocated, active, t.current, t.timestamp, t.allocatedAt)];
    }

    /** Admission ends; whoever holds a block keeps it until its release. */
    method Close()
      requires Valid()
      modifies this`closed
      ensures Valid() && closed
    {
      closed := true;
    }

    /** The rest of `run`: after its hold, or at once when allocation took too long or the hold was cancelled. */
    method Finish(t: Turn) returns (events: seq<Event>)
      requires Valid() && t.Leave? && t.sample in holding
      modifies this
      ensures Valid()
      ensures (active, holding, entered, events) == Produced(old(holding), old(entered), t)
    {
      SmallerFlight(holding, t.sample);
      active := active - 1;
      holding := holding - {t.sample};
      events := [Event(t.sample, Released, active, t.current, t.timestamp, t.releasedAt)];
    }
  }

  lemma SmallerFlight(holding: map<string, int>, s: string)
    requires s in holding
    ensures |holding - {s}| == |holding| - 1
  {
    assert (holding - {s}).Keys == holding.Keys - {s};
  }

  /** Touch one byte in every page of the block. */
  method Allocate(size: nat) returns (block: array<nat>)
    ensures block.Length == size
    ensures forall k :: 0 <= k < size ==> block[k] == if k % 4096 == 0 then 1 else 0
  {
    block := new nat[size](_ => 0);
    var offset := 0;
    while offset < size
      invariant offset % 4096 == 0
      invariant forall k :: 0 <= k < size ==> block[k] == if k % 4096 == 0 && k < offset then 1 else 0
    {
      block[offset] := 1;
      offset := offset + 4096;
    }
  }

  /** What one turn leaves behind: the counter, the holders, everyone ever admitted, and the events it printed. */
  function Produced(holding: map<string, int>, entered: set<string>, t: Turn)
    : (nat, map<string, int>, set<string>, seq<Event>)
  {
    match t
    case Enter(s, admittedAt, allocatedAt, timestamp, current) =>
      if |holding| >= MAX_ACTIVE then (|holding|, holding, entered, [])
      else
        var n := |holding| + 1;
        (n, holding[s := allocatedAt], entered + {s},
         [Event(s, Admitted, n, current, timestamp, admittedAt),
          Event(s, Allocated, n, current, timestamp, allocatedAt)])
    case Leave(s, releasedAt, timestamp, current) =>
      var n := |holding - {s}|;
      (n, holding - {s}, entered, [Event(s, Released, n, current, timestamp, releasedAt)])
  }

  datatype Production = Production(holding: map<string, int>, entered: set<string>, events: seq<Event>)

  function Produce(turns: seq<Turn>): Production
    decreases |turns|
  {
    if turns == [] then Production(map[], {}, [])
    else
      var p := Produce(turns[..|turns| - 1]);
      var (_, holding, entered, events) := Produced(p.holding, p.entered, turns[|turns| - 1]);
      Production(holding, entered, p.events + events)
  }

  /** Distinct samples, each released once, after a full hold. */
  predicate Normal(turns: seq<Turn>)
    decreases |turns|
  {
    turns == [] ||
    (var p, t := Produce(turns[..|turns| - 1]), turns[|turns| - 1];
     && Normal(turns[..|turns| - 1])
     && (if t.Enter? then t.sample !in p.entered
         else t.sample in p.holding && t.releasedAt - p.holding[t.sample] >= HOLD))
  }

  function FlightsOf(holding: map<string, int>): Flights {
    map s | s in holding :: Some(holding[s])
  }

  lemma ReplayMore(events: seq<Event>, more: seq<Event>, n: nat)
    requires n <= |events|
    ensures Replay(events + more, n) == Replay(events, n)
  {
    if n > 0 {
      ReplayMore(events, more, n - 1);
    }
  }

  lemma ReplayAppend(events: seq<Event>, e: Event)
    requires Replay(events, |events|).Some?
    ensures Replay(events + [e], |events| + 1) == Advance(e, Replay(events, |events|).value)
  {
    ReplayMore(events, [e], |events|);
  }

  lemma FlightsSize(holding: map<string, int>)
    ensures FlightsOf(holding).Keys == holding.Keys && |FlightsOf(holding)| == |holding|
  {
    assert FlightsOf(holding).Keys == holding.Keys;
  }

  lemma AdmitMoves(holding: map<string, int>, done: set<string>, e: Event)
    requires e.phase == Admitted && e.sample !in holding && e.sample !in done && e.active == |holding| + 1
    ensures Advance(e, Occupancy(FlightsOf(holding), done))
         == Some(Occupancy(FlightsOf(holding)[e.sample := None], done))
  {
    FlightsSize(holding);
    assert FlightsOf(holding)[e.sample := None].Keys == holding.Keys + {e.sample};
  }

  lemma FlightJoins(holding: map<string, int>, s: string, at: int)
    ensures FlightsOf(holding[s := at]) == FlightsOf(holding)[s := Some(at)]
  {
  }

  lemma AllocateMoves(holding: map<string, int>, done: set<string>, e: Event)
    requires e.phase == Allocated && e.sample !in holding && e.active == |holding| + 1
    ensures Advance(e, Occupancy(FlightsOf(holding)[e.sample := None], done))
         == Some(Occupancy(FlightsOf(holding[e.sample := e.monotonic]), done))
  {
    hide FlightsOf;
    FlightJoins(holding, e.sample, e.monotonic);
    LargerFlight(holding, e.sample, e.monotonic);
    FlightsSize(holding[e.sample := e.monotonic]);
    var waiting := FlightsOf(holding)[e.sample := None];
    assert waiting[e.sample := Some(e.monotonic)] == FlightsOf(holding)[e.sample := Some(e.monotonic)];
  }

  lemma ReleaseMoves(holding: map<string, int>, done: set<string>, e: Event)
    requires e.phase == Released && e.sample in holding && e.monotonic - holding[e.sample] >= HOLD
    requires e.active == |holding - {e.sample}|
    ensures Advance(e, Occupancy(FlightsOf(holding), done))
         == Some(Occupancy(FlightsOf(holding - {e.sample}), done + {e.sample}))
  {
    FlightsSize(holding - {e.sample});
    assert FlightsOf(holding) - {e.sample} == FlightsOf(holding - {e.sample});
  }

  /** The occupancy the producer's own state stands for. */
  function Standing(holding: map<string, int>, entered: set<string>): Occupancy {
    Occupancy(FlightsOf(holding), entered - holding.Keys)
  }

  lemma EnterAdvances(events: seq<Event>, holding: map<string, int>, entered: set<string>, e: Event, e2: Event)
    requires e.phase == Admitted && e2.phase == Allocated && e2.sample == e.sample
    requires e.active == e2.active == |holding| + 1
    requires e.sample !in entered && holding.Keys <= entered
    requires Replay(events, |events|) == Some(Standing(holding, entered))
    ensures Replay(events + [e, e2], |events| + 2)
         == Some(Standing(holding[e.sample := e2.monotonic], entered + {e.sample}))
  {
    hide Advance, Replay, FlightsOf;
    var done := entered - holding.Keys;
    AdmitMoves(holding, done, e);
    ReplayAppend(events, e);
    AllocateMoves(holding, done, e2);
    ReplayAppend(events + [e], e2);
    assert events + [e] + [e2] == events + [e, e2];
    assert entered + {e.sample} - holding[e.sample := e2.monotonic].Keys == done;
  }

  lemma LeaveAdvances(events: seq<Event>, holding: map<string, int>, entered: set<string>, e: Event)
    requires e.phase == Released && e.sample in holding && e.monotonic - holding[e.sample] >= HOLD
    requires e.active == |holding - {e.sample}| && holding.Keys <= entered
    requires Replay(events, |events|) == Some(Standing(holding, entered))
    ensures Replay(events + [e], |events| + 1) == Some(Standing(holding - {e.sample}, entered))
  {
    hide Advance, Replay, FlightsOf;
    ReleaseMoves(holding, entered - holding.Keys, e);
    ReplayAppend(events, e);
    assert entered - holding.Keys + {e.sample} == entered - (holding - {e.sample}).Keys;
  }

  /** What a turn may start from. */
  ghost predicate Ready(events: seq<Event>, holding: map<string, int>, entered: set<string>) {
    holding.Keys <= entered && |holding| <= MAX_ACTIVE && Replay(events, |events|) == Some(Standing(holding, entered))
  }

  lemma LeaveTurn(events: seq<Event>, holding: map<string, int>, entered: set<string>, t: Turn)
    requires Ready(events, holding, entered)
    requires t.Leave? && t.sample in holding && t.releasedAt - holding[t.sample] >= HOLD
    ensures Produced(holding, entered, t).1 == holding - {t.sample} && Produced(holding, entered, t).2 == entered
    ensures Ready(events + Produced(holding, entered, t).3, holding - {t.sample}, entered)
    ensures |Produced(holding, entered, t).3| == 1 && Produced(holding, entered, t).3[0].active <= MAX_ACTIVE
  {
    hide Advance, Replay, Standing;
    var e := Event(t.sample, Released, |holding - {t.sample}|, t.current, t.timestamp, t.releasedAt);
    SmallerFlight(holding, t.sample);
    LeaveAdvances(events, holding, entered, e);
    assert Produced(holding, entered, t).3 == [e];
  }

  lemma LargerFlight(holding: map<string, int>, s: string, at: int)
    requires s !in holding
    ensures holding[s := at].Keys == holding.Keys + {s} && |holding[s := at]| == |holding| + 1
  {
    assert holding[s := at].Keys == holding.Keys + {s};
  }

  lemma EnterProduces(holding: map<string, int>, entered: set<string>, t: Turn)
    requires t.Enter? && |holding| < MAX_ACTIVE
    ensures var n := |holding| + 1;
      Produced(holding, entered, t) == (n, holding[t.sample := t.allocatedAt], entered + {t.sample},
        [Event(t.sample, Admitted, n, t.current, t.timestamp, t.admittedAt),
         Event(t.sample, Allocated, n, t.current, t.timestamp, t.allocatedAt)])
  {
  }

  lemma EnterTurn(events: seq<Event>, holding: map<string, int>, entered: set<string>, t: Turn)
    requires Ready(events, holding, entered)
    requires t.Enter? && t.sample !in entered && |holding| < MAX_ACTIVE
    ensures Produced(holding, entered, t).1 == holding[t.sample := t.allocatedAt]
    ensures Produced(holding, entered, t).2 == entered + {t.sample}
    ensures Ready(events + Produced(holding, entered, t).3, holding[t.sample := t.allocatedAt], entered + {t.sample})
    ensures forall e :: e in Produced(holding, entered, t).3 ==> e.active <= MAX_ACTIVE
  {
    hide Advance, Replay, Standing, Produced;
    LargerFlight(holding, t.sample, t.allocatedAt);
    EnterProduces(holding, entered, t);
    var n := |holding| + 1;
    var e := Event(t.sample, Admitted, n, t.current, t.timestamp, t.admittedAt);
    var e2 := Event(t.sample, Allocated, n, t.current, t.timestamp, t.allocatedAt);
    EnterAdvances(events, holding, entered, e, e2);
  }

  /** One turn of a normal run, seen from both sides. */
  lemma TurnAdvances(events: seq<Event>, holding: map<string, int>, entered: set<string>, t: Turn)
    requires Ready(events, holding, entered)
    requires if t.Enter? then t.sample !in entered else t.sample in holding && t.releasedAt - holding[t.sample] >= HOLD
    ensures var (_, holding2, entered2, more) := Produced(holding, entered, t);
      Ready(events + more, holding2, entered2) && forall e :: e in more ==> e.active <= MAX_ACTIVE
  {
    hide Ready;
    if t.Leave? {
      LeaveTurn(events, holding, entered, t);
      hide Produced;
    } else if |holding| < MAX_ACTIVE {
      EnterTurn(events, holding, entered, t);
      hide Produced;
    } else {
      assert events + [] == events;
    }
  }

  lemma ReadyAtFirst()
    ensures Ready([], map[], {})
  {
    var none: map<string, int> := map[];
    assert FlightsOf(none) == map[];
    assert Standing(none, {}) == NOBODY;
  }

  /**
   Every interleaving of normally completing runs prints a trace the checker reconstructs, occupancy for occupancy.
   */
  lemma {:induction false} ProducerIsAccepted(turns: seq<Turn>)
    requires Normal(turns)
    ensures var p := Produce(turns);
      Ready(p.events, p.holding, p.entered) && forall e :: e in p.events ==> e.active <= MAX_ACTIVE
    decreases |turns|
  {
    hide Ready, Produced;
    if turns == [] {
      ReadyAtFirst();
    } else {
      var front, t := turns[..|turns| - 1], turns[|turns| - 1];
      ProducerIsAccepted(front);
      TurnAdvances(Produce(front).events, Produce(front).holding, Produce(front).entered, t);
    }
  }
}
