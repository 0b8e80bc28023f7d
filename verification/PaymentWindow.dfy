/**
 Counter windows: two scraped snapshots of one process become deltas, or a status that carries no numbers. The
 published item embeds both sources, and verification recomputes it. Counters and times are exact reals.
 */
module PaymentWindow {
  import opened Records

  // ----- series

  datatype Processor = A | B
  datatype Region = Us | Eu
  datatype Charging = Credit | Debit
  datatype Result = Accepted | Declined | Errored

  datatype Series =
    | Requests(processor: Processor, region: Region, charging: Charging, result: Result)
    | Count(processor: Processor, region: Region)
    | Sum(processor: Processor, region: Region)
    | Conflicts

  type Cell = (Processor, Region)

  /** `product` over processors and regions, and over all request dimensions, in its order. */
  const CELLS: seq<Cell> := [(A, Us), (A, Eu), (B, Us), (B, Eu)]

  function RequestAt(i: nat): Series
    requires i < 24
  {
    var (p, r) := CELLS[i / 6];
    Requests(p, r, if i / 3 % 2 == 0 then Credit else Debit,
             if i % 3 == 0 then Accepted else if i % 3 == 1 then Declined else Errored)
  }

  function RequestSeries(): (all: seq<Series>)
    ensures |all| == 24 && forall i :: 0 <= i < 24 ==> all[i] == RequestAt(i)
  {
    seq(24, i requires 0 <= i < 24 => RequestAt(i))
  }

  function CellIndex(p: Processor, r: Region): (i: nat)
    ensures i < 4 && CELLS[i] == (p, r)
  {
    (if p == A then 0 else 2) + (if r == Us then 0 else 1)
  }

  lemma RequestIndex(s: Series)
    requires s.Requests?
    ensures s in RequestSeries()
  {
    var c, m := CellIndex(s.processor, s.region), if s.charging == Credit then 0 else 1;
    var o := match s.result case Accepted => 0 case Declined => 1 case Errored => 2;
    var i := 6 * c + 3 * m + o;
    assert i / 6 == c && i / 3 % 2 == m && i % 3 == o;
    assert RequestSeries()[i] == s;
  }

  /** The two loops of `_required`: exactly every series there is. */
  method Required() returns (expected: set<Series>)
    ensures forall s: Series :: s in expected
  {
    expected := {Conflicts};
    for i := 0 to 24
      invariant Conflicts in expected && forall k :: 0 <= k < i ==> RequestSeries()[k] in expected
    {
      expected := expected + {RequestAt(i)};
    }
    for j := 0 to 4
      invariant Conflicts in expected && forall k :: 0 <= k < 24 ==> RequestSeries()[k] in expected
      invariant forall k :: 0 <= k < j ==>
        Count(CELLS[k].0, CELLS[k].1) in expected && Sum(CELLS[k].0, CELLS[k].1) in expected
    {
      expected := expected + {Count(CELLS[j].0, CELLS[j].1), Sum(CELLS[j].0, CELLS[j].1)};
    }
    forall s: Series ensures s in expected {
      if s.Requests? {
        RequestIndex(s);
      } else if s != Conflicts {
        assert CELLS[CellIndex(s.processor, s.region)] == (s.processor, s.region);
      }
    }
  }

  /** `set(values) == _required()`. */
  ghost predicate Covers(values: map<Series, real>) {
    forall s: Series :: s in values
  }

  // ----- raw snapshots

  datatype RowKey = Known(series: Series) | Epoch | Up | Foreign

  /** One instant-vector row: its target's service, the sample time, and the value if finite and nonnegative. */
  datatype Row = Row(key: RowKey, target: string, at: real, value: Option<real>)

  /** `metrics` and `marks` are absent when the response is not a bounded successful vector. */
  datatype Snapshot = Snapshot(service: string, evaluatedAt: Option<real>, metrics: Option<seq<Row>>,
                               marks: Option<seq<Row>>)

  datatype Parsed = Parsed(evaluatedAt: real, watermark: Option<real>, epoch: Option<real>, available: bool,
                           values: map<Series, real>)

  function Far(a: real, b: real): bool {
    (if a > b then a - b else b - a) > 0.001
  }

  predicate GoodRow(row: Row, service: string, at: real) {
    row.target == service && row.key != Foreign && !Far(row.at, at) && row.value.Some? && row.value.value >= 0.0
  }

  /** The dictionary of one vector; the epoch and the availability row are popped from it afterwards. */
  datatype Metrics = Metrics(values: map<Series, real>, epoch: Option<real>, up: Option<real>)

  predicate Holds(m: Metrics, key: RowKey) {
    match key
    case Known(series) => series in m.values
    case Epoch => m.epoch.Some?
    case Up => m.up.Some?
    case Foreign => false
  }

  function Entered(m: Metrics, key: RowKey, value: real): Metrics {
    match key
    case Known(series) => m.(values := m.values[series := value])
    case Epoch => m.(epoch := Some(value))
    case Up => m.(up := Some(value))
    case Foreign => m
  }

  const NOTHING := Metrics(map[], None, None)

  function MetricValues(rows: seq<Row>, service: string, at: real): Option<Metrics> {
    if rows == [] then Some(NOTHING)
    else
      var front, row := MetricValues(rows[..|rows| - 1], service, at), rows[|rows| - 1];
      if front.None? || !GoodRow(row, service, at) || Holds(front.value, row.key) then None
      else Some(Entered(front.value, row.key, row.value.value))
  }

  lemma MetricFails(rows: seq<Row>, k: nat, service: string, at: real)
    requires k <= |rows| && MetricValues(rows[..k], service, at).None?
    ensures MetricValues(rows, service, at).None?
    decreases |rows|
  {
    if k == |rows| {
      assert rows[..k] == rows;
    } else {
      assert rows[..|rows| - 1][..k] == rows[..k];
      MetricFails(rows[..|rows| - 1], k, service, at);
    }
  }

  /** The loop of `_metric_values` over its dictionary. */
  method ReadMetrics(rows: seq<Row>, service: string, at: real) returns (metrics: Option<Metrics>)
    ensures metrics == MetricValues(rows, service, at)
  {
    var found := NOTHING;
    for i := 0 to |rows|
      invariant MetricValues(rows[..i], service, at) == Some(found)
    {
      assert rows[..i + 1][..i] == rows[..i];
      var row := rows[i];
      if !GoodRow(row, service, at) || Holds(found, row.key) {
        MetricFails(rows, i + 1, service, at);
        return None;
      }
      found := Entered(found, row.key, row.value.value);
    }
    assert rows[..|rows|] == rows;
    metrics := Some(found);
  }

  /** `None` is an integrity error; an empty vector is an explicitly missing mark. */
  function Watermark(marks: seq<Row>, service: string, at: real): Option<Option<real>> {
    if marks == [] then Some(None)
    else if |marks| != 1 || !GoodRow(marks[0], service, at) || marks[0].value.value > at then None
    else Some(marks[0].value)
  }

  function ParsePayload(raw: Snapshot, service: string): Option<Parsed> {
    if raw.service != service || raw.evaluatedAt.None? || raw.metrics.None? || raw.marks.None? then None
    else
      var at := raw.evaluatedAt.value;
      var metrics, mark := MetricValues(raw.metrics.value, service, at), Watermark(raw.marks.value, service, at);
      if metrics.None? || mark.None? then None
      else
        var epoch := metrics.value.epoch;
        if epoch.Some? && mark.value.Some? && epoch.value > mark.value.value then None
        else Some(Parsed(at, mark.value, epoch, metrics.value.up == Some(1.0), metrics.value.values))
  }

  // ----- stored items

  datatype Status = Complete | Missing | Reset | MixedEpoch

  datatype Interval = Interval(incident: string, start: real, end: real)

  datatype Window = Window(service: string, interval: Interval, before: Item, after: Item, status: Status,
                           start: Option<real>, end: Option<real>, beforeEpoch: Option<real>, afterEpoch: Option<real>,
                           requests: map<Series, real>, latency: map<Series, real>, conflicts: map<Series, real>)

  datatype Meta = Meta(id: string, incident: string, source: Source, service: string, observedAt: real,
                       collectedAt: real, query: string, summary: string)

  datatype Payload = Raw(snapshot: Snapshot) | Derived(window: Window) | Unrelated

  datatype File = File(meta: Meta, payload: Payload)

  /** A digest names exactly one content. */
  datatype Item = Item(meta: Meta, sha: File)

  type Store = set<File>

  function Verify(store: Store, item: Item): Option<Payload> {
    if item.sha in store && item.sha.meta == item.meta then Some(item.sha.payload) else None
  }

  const SERVICES := {"payments-api", "processor-adapter", "risk-sim", "ledger-sim", "webhook-sim"}
  const DERIVED_QUERY := "payment.window.v1"

  function SnapshotQuery(service: string): string {
    "{__name__=~\"payment_requests_total|payment_authorization_latency_seconds_count|"
    + "payment_authorization_latency_seconds_sum|payment_idempotency_conflicts_total|"
    + "sandbox_process_start_time_seconds|up\",job=\"payops-sandbox\",service=\"" + service + "\"}"
  }

  function Parse(item: Item, raw: Snapshot, service: string): Option<Parsed> {
    var parsed := ParsePayload(raw, service);
    if parsed.None? || item.meta.query != SnapshotQuery(service) then None
    else if parsed.value.evaluatedAt > item.meta.collectedAt || item.meta.observedAt > item.meta.collectedAt then None
    else
      var p := parsed.value;
      if Far(item.meta.observedAt, if p.watermark.Some? then p.watermark.value else p.evaluatedAt) then None else parsed
  }

  // ----- the window

  predicate Decreases(before: map<Series, real>, after: map<Series, real>) {
    exists s :: s in before && s in after && after[s] < before[s]
  }

  ghost function Coverage(first: Parsed, last: Parsed, i: Interval): Status {
    if !first.available || !last.available || first.epoch.None? || last.epoch.None? || first.watermark.None?
       || last.watermark.None?
    then Missing
    else if first.epoch != last.epoch then MixedEpoch
    else if !(i.start - 15.0 <= first.watermark.value <= first.evaluatedAt <= i.start)
            || !(i.end <= last.watermark.value <= last.evaluatedAt <= i.end + 30.0)
    then Missing
    else if !Covers(first.values) || !Covers(last.values) then Missing
    else if Decreases(first.values, last.values) then Reset
    else Complete
  }

  function InCell(s: Series, cell: Cell): bool {
    s.Requests? && (s.processor, s.region) == cell
  }

  /** The requests of one cell among these series. */
  function CellRequests(delta: map<Series, real>, series: seq<Series>, cell: Cell): real
    requires forall s :: s in series ==> s in delta
  {
    if series == [] then 0.0
    else
      CellRequests(delta, series[..|series| - 1], cell)
      + (if InCell(series[|series| - 1], cell) then delta[series[|series| - 1]] else 0.0)
  }

  ghost predicate CellAgrees(delta: map<Series, real>, cell: Cell)
    requires Covers(delta)
  {
    && delta[Count(cell.0, cell.1)] == CellRequests(delta, RequestSeries(), cell)
    && (delta[Count(cell.0, cell.1)] == 0.0 ==> delta[Sum(cell.0, cell.1)] == 0.0)
  }

  ghost predicate Consistent(delta: map<Series, real>)
    requires Covers(delta)
  {
    forall i :: 0 <= i < 4 ==> CellAgrees(delta, CELLS[i])
  }

  /** The loops of `_consistent`: each cell's histogram count against the sum of its requests. */
  method Agrees(delta: map<Series, real>) returns (ok: bool)
    requires Covers(delta)
    ensures ok <==> Consistent(delta)
  {
    for i := 0 to 4
      invariant forall k :: 0 <= k < i ==> CellAgrees(delta, CELLS[k])
    {
      var requests := 0.0;
      for j := 0 to 24
        invariant requests == CellRequests(delta, RequestSeries()[..j], CELLS[i])
      {
        assert RequestSeries()[..j + 1][..j] == RequestSeries()[..j];
        var s := RequestSeries()[j];
        if InCell(s, CELLS[i]) {
          requests := requests + delta[s];
        }
      }
      assert RequestSeries()[..24] == RequestSeries();
      var count, duration := delta[Count(CELLS[i].0, CELLS[i].1)], delta[Sum(CELLS[i].0, CELLS[i].1)];
      if count != requests || (count == 0.0 && duration != 0.0) {
        assert !CellAgrees(delta, CELLS[i]);
        return false;
      }
    }
    ok := true;
  }

  function Deltas(before: map<Series, real>, after: map<Series, real>): (delta: map<Series, real>)
    requires after.Keys <= before.Keys
    ensures delta.Keys == after.Keys
  {
    map s | s in after :: after[s] - before[s]
  }

  ghost function Measured(first: Parsed, last: Parsed, i: Interval): (Status, map<Series, real>) {
    if Coverage(first, last, i) != Complete then (Coverage(first, last, i), map[])
    else
      var delta := Deltas(first.values, last.values);
      if Consistent(delta) then (Complete, delta) else (Missing, map[])
  }

  function RequestPart(delta: map<Series, real>): map<Series, real> {
    map s | s in delta && s.Requests? :: delta[s]
  }

  function LatencyPart(delta: map<Series, real>): map<Series, real> {
    map s | s in delta && (s.Count? || s.Sum?) :: delta[s]
  }

  function ConflictPart(delta: map<Series, real>): map<Series, real> {
    map s | s in delta && s.Conflicts? :: delta[s]
  }

  ghost function Compute(before: Item, after: Item, i: Interval, store: Store): Option<Window> {
    var first, last := Verify(store, before), Verify(store, after);
    if first.None? || last.None? || !first.value.Raw? || !last.value.Raw? then None
    else if before.meta.id == after.meta.id || before.meta.incident != i.incident || after.meta.incident != i.incident
            || before.meta.service != after.meta.service || before.meta.source != PROMETHEUS
            || after.meta.source != PROMETHEUS || before.meta.service !in SERVICES
    then None
    else
      var service := before.meta.service;
      var f, l := Parse(before, first.value.snapshot, service), Parse(after, last.value.snapshot, service);
      if f.None? || l.None? then None
      else
        var (status, delta) := Measured(f.value, l.value, i);
        Some(Window(service, i, before, after, status, f.value.watermark, l.value.watermark, f.value.epoch,
                    l.value.epoch, RequestPart(delta), LatencyPart(delta), ConflictPart(delta)))
  }

  // ----- what a window says

  function Total(delta: map<Series, real>, series: seq<Series>): real
    requires forall s :: s in series ==> s in delta
  {
    if series == [] then 0.0 else Total(delta, series[..|series| - 1]) + delta[series[|series| - 1]]
  }

  function CellTotals(delta: map<Series, real>, series: seq<Series>): real
    requires forall s :: s in series ==> s in delta
  {
    CellRequests(delta, series, CELLS[0]) + CellRequests(delta, series, CELLS[1])
    + CellRequests(delta, series, CELLS[2]) + CellRequests(delta, series, CELLS[3])
  }

  /** The cells partition the requests, whichever series are summed. */
  lemma {:induction false} CellsPartition(delta: map<Series, real>, series: seq<Series>)
    requires forall s :: s in series ==> s in delta && s.Requests?
    ensures Total(delta, series) == CellTotals(delta, series)
  {
    if series != [] {
      var last := series[|series| - 1];
      CellsPartition(delta, series[..|series| - 1]);
      assert last in series;
      assert CELLS[CellIndex(last.processor, last.region)] == (last.processor, last.region);
    }
  }

  predicate CoversRequests(requests: map<Series, real>) {
    forall s :: s in RequestSeries() ==> s in requests
  }

  /** Complete: nonnegative deltas over exactly the required series, histogram and requests equal per cell. */
  ghost predicate Sound(w: Window) {
    && (forall s: Series :: s in w.requests <==> s.Requests?)
    && (forall s: Series :: s in w.latency <==> s.Count? || s.Sum?)
    && w.conflicts.Keys == {Conflicts}
    && (forall s :: s in w.requests ==> w.requests[s] >= 0.0) && (forall s :: s in w.latency ==> w.latency[s] >= 0.0)
    && w.conflicts[Conflicts] >= 0.0
    && CoversRequests(w.requests)
    && (forall p, r :: w.latency[Count(p, r)] == CellRequests(w.requests, RequestSeries(), (p, r)))
    && (forall p, r :: w.latency[Count(p, r)] == 0.0 ==> w.latency[Sum(p, r)] == 0.0)
  }

  /** The two scrapes of one process epoch bracket the requested interval closely. */
  predicate Brackets(w: Window) {
    && w.beforeEpoch.Some? && w.beforeEpoch == w.afterEpoch && w.start.Some? && w.end.Some?
    && w.interval.start - 15.0 <= w.start.value <= w.interval.start
    && w.interval.end <= w.end.value <= w.interval.end + 30.0
  }

  predicate Numberless(w: Window) {
    w.requests == map[] && w.latency == map[] && w.conflicts == map[]
  }

  lemma {:induction false} CellRequestsOfPart(delta: map<Series, real>, part: map<Series, real>, series: seq<Series>,
                                              cell: Cell)
    requires forall s :: s in series ==> s in delta && s in part && part[s] == delta[s]
    ensures CellRequests(delta, series, cell) == CellRequests(part, series, cell)
  {
    if series != [] {
      CellRequestsOfPart(delta, part, series[..|series| - 1], cell);
      assert series[|series| - 1] in series;
    }
  }

  lemma OnlyRequests(s: Series)
    requires s in RequestSeries()
    ensures s.Requests?
  {
    var i :| 0 <= i < 24 && RequestSeries()[i] == s;
  }

  /** A complete window is sound and adds up; any other status carries no numbers. */
  lemma WindowMeaning(before: Item, after: Item, i: Interval, store: Store)
    requires Compute(before, after, i, store).Some?
    ensures var w := Compute(before, after, i, store).value;
      && (w.status == Complete ==>
            && Sound(w) && Brackets(w)
            && Total(w.requests, RequestSeries())
               == w.latency[Count(A, Us)] + w.latency[Count(A, Eu)] + w.latency[Count(B, Us)] + w.latency[Count(B, Eu)])
      && (w.status != Complete ==> Numberless(w))
  {
    hide Parse, CellRequests, Total;
    var w := Compute(before, after, i, store).value;
    var f := Parse(before, Verify(store, before).value.snapshot, w.service).value;
    var l := Parse(after, Verify(store, after).value.snapshot, w.service).value;
    if w.status == Complete {
      var delta := Deltas(f.values, l.values);
      assert Measured(f, l, i) == (Complete, delta);
      CompleteIsSound(f.values, l.values, w);
      forall s | s in RequestSeries() ensures s in w.requests && s.Requests? {
        OnlyRequests(s);
      }
      CellsPartition(w.requests, RequestSeries());
    }
  }

  lemma CompleteIsSound(before: map<Series, real>, after: map<Series, real>, w: Window)
    requires Covers(before) && Covers(after) && !Decreases(before, after)
    requires var delta := Deltas(before, after);
      && Consistent(delta)
      && w.requests == RequestPart(delta) && w.latency == LatencyPart(delta)
      && w.conflicts == ConflictPart(delta)
    ensures Sound(w)
  {
    hide CellRequests;
    var delta := Deltas(before, after);
    forall s: Series ensures delta[s] >= 0.0 {
      assert s in before && s in after;
    }
    forall s | s in RequestSeries() ensures s in w.requests {
      OnlyRequests(s);
    }
    forall p, r ensures w.latency[Count(p, r)] == CellRequests(w.requests, RequestSeries(), (p, r))
      && (w.latency[Count(p, r)] == 0.0 ==> w.latency[Sum(p, r)] == 0.0)
    {
      assert CellAgrees(delta, CELLS[CellIndex(p, r)]);
      CellRequestsOfPart(delta, w.requests, RequestSeries(), (p, r));
    }
  }

  // ----- publication and verification

  function Least(a: real, b: real): real { if a < b then a else b }

  function Greatest(a: real, b: real): real { if a > b then a else b }

  function SummaryOf(status: Status): string {
    "Payment counter window: "
    + match status
      case Complete => "complete" case Missing => "missing" case Reset => "reset" case MixedEpoch => "mixed_epoch"
  }

  function ObservedAt(w: Window): real {
    if w.end.Some? then w.end.value else w.after.meta.observedAt
  }

  /** `derive_payment_window`: the item it publishes at clock `now`, and the store that holds it. */
  ghost function Derive(before: Item, after: Item, i: Interval, store: Store, id: string, now: real)
    : Option<(Item, Store)>
  {
    var w := Compute(before, after, i, store);
    if w.None? then None
    else
      var observed := ObservedAt(w.value);
      if !(Least(before.meta.observedAt, i.start) <= observed <= Greatest(after.meta.collectedAt, i.end)) then None
      else
        var meta := Meta(id, i.incident, PAYMENT, w.value.service, observed, now, DERIVED_QUERY,
                         SummaryOf(w.value.status));
        var file := File(meta, Derived(w.value));
        Some((Item(meta, file), store + {file}))
  }

  /** `verify_payment_window`. */
  ghost function VerifyWindow(item: Item, store: Store): Option<Window> {
    match Verify(store, item)
    case Some(Derived(w)) =>
      var expected := Compute(w.before, w.after, w.interval, store);
      if expected.None? then None
      else if item.meta.source != PAYMENT || item.meta.query != DERIVED_QUERY || item.meta.service != w.service
              || item.meta.incident != w.interval.incident || item.meta.observedAt != ObservedAt(expected.value)
              || item.meta.observedAt > item.meta.collectedAt || w != expected.value
      then None
      else expected
    case _ => None
  }

  lemma ComputeInLargerStore(before: Item, after: Item, i: Interval, store: Store, more: Store)
    requires store <= more && Compute(before, after, i, store).Some?
    ensures Compute(before, after, i, more) == Compute(before, after, i, store)
  {
    hide Parse, Measured;
  }

  /** A published window is accepted exactly when the publishing clock was not behind its observation. */
  lemma PublishedIsAccepted(before: Item, after: Item, i: Interval, store: Store, id: string, now: real)
    requires Derive(before, after, i, store, id, now).Some?
    ensures var (item, after_) := Derive(before, after, i, store, id, now).value;
      && (VerifyWindow(item, after_).Some? <==> item.meta.observedAt <= now)
      && (VerifyWindow(item, after_).Some? ==> VerifyWindow(item, after_) == Compute(before, after, i, store))
  {
    hide Compute, SummaryOf;
    var (item, larger) := Derive(before, after, i, store, id, now).value;
    ComputeInLargerStore(before, after, i, store, larger);
    ComputedInputs(before, after, i, store);
  }

  lemma ComputedInputs(before: Item, after: Item, i: Interval, store: Store)
    requires Compute(before, after, i, store).Some?
    ensures var w := Compute(before, after, i, store).value;
      && w.before == before && w.after == after && w.interval == i
      && ObservedAt(w) <= after.meta.collectedAt
  {
    hide Measured, MetricValues;
  }

  /** A clock that has reached the collection of the later snapshot always publishes acceptable windows. */
  lemma SteadyClockPublishesAcceptable(before: Item, after: Item, i: Interval, store: Store, id: string, now: real)
    requires Derive(before, after, i, store, id, now).Some? && after.meta.collectedAt <= now
    ensures var (item, larger) := Derive(before, after, i, store, id, now).value; VerifyWindow(item, larger).Some?
  {
    hide Compute, SummaryOf, VerifyWindow;
    PublishedIsAccepted(before, after, i, store, id, now);
    ComputedInputs(before, after, i, store);
  }

  /** Where it fails: with the clock behind the later scrape, the published item is refused. */
  lemma EarlyClockPublishesRefused(before: Item, after: Item, i: Interval, store: Store, id: string, now: real)
    requires Derive(before, after, i, store, id, now).Some? && now < ObservedAt(Compute(before, after, i, store).value)
    ensures var (item, larger) := Derive(before, after, i, store, id, now).value; VerifyWindow(item, larger).None?
  {
    hide Compute, SummaryOf, VerifyWindow;
    PublishedIsAccepted(before, after, i, store, id, now);
  }

  /** A well-formed snapshot of a target that is not up yet, scraped at `at`. */
  function EmptyScrape(id: string, at: real): Item {
    var meta := Meta(id, "incident", PROMETHEUS, "payments-api", at, at, SnapshotQuery("payments-api"), "");
    Item(meta, File(meta, Raw(Snapshot("payments-api", Some(at), Some([]), Some([])))))
  }

  /**
   Two scrapes ten seconds apart, published by a clock that stands between them: the item is published, and refused.
   */
  lemma ClockBetweenScrapesIsRefused()
    ensures var (before, after) := (EmptyScrape("before", 0.0), EmptyScrape("after", 10.0));
      var published := Derive(before, after, Interval("incident", 0.0, 10.0), {before.sha, after.sha}, "window", 5.0);
      published.Some? && VerifyWindow(published.value.0, published.value.1).None?
  {
    hide SnapshotQuery, SummaryOf;
    var (before, after) := (EmptyScrape("before", 0.0), EmptyScrape("after", 10.0));
    var (i, store) := (Interval("incident", 0.0, 10.0), {before.sha, after.sha});
    assert before.meta.id != after.meta.id by {
      assert "before"[0] != "after"[0];
    }
    assert ObservedAt(Compute(before, after, i, store).value) == 10.0;
    EarlyClockPublishesRefused(before, after, i, store, "window", 5.0);
  }

  /** Whoever made it: an accepted item holds exactly what its two sources recompute to. */
  lemma AcceptedIsRecomputed(item: Item, store: Store)
    requires VerifyWindow(item, store).Some?
    ensures var w := VerifyWindow(item, store).value;
      && item.sha.payload == Derived(w) && Compute(w.before, w.after, w.interval, store) == Some(w)
      && (w.status == Complete ==> Sound(w) && Brackets(w)) && (w.status != Complete ==> Numberless(w))
      && item.meta.observedAt == ObservedAt(w) <= item.meta.collectedAt
      && w.before.meta.id != w.after.meta.id && w.before.meta.service == w.after.meta.service == item.meta.service
      && w.before.meta.incident == w.after.meta.incident == item.meta.incident
  {
    hide Compute, Sound, Numberless;
    var w := VerifyWindow(item, store).value;
    WindowMeaning(w.before, w.after, w.interval, store);
    ComputedScope(w.before, w.after, w.interval, store);
  }

  lemma ComputedScope(before: Item, after: Item, i: Interval, store: Store)
    requires Compute(before, after, i, store).Some?
    ensures before.meta.id != after.meta.id && before.meta.incident == after.meta.incident == i.incident
    ensures before.meta.service == after.meta.service == Compute(before, after, i, store).value.service
  {
    hide Measured, Parse;
  }
}
