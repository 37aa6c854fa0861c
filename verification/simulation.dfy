/**
 * The simulation driver (`Simulation` in fake_web_events/simulation.py): a
 * simulated clock, the list of open sessions, and the per-step arrival rate
 * derived from the configured visits per hour. Times are milliseconds counted
 * from a midnight, so the hour of the day of `t` is `t / HourMs % 24`.
 */
module Simulations {
  import opened Wrappers
  import opened Config
  import opened WeightedRandom
  import opened Sessions
  import opened Properties

  const SecondMs: int := 1000
  const HourMs: int := 3600000
  const DayMs: int := 86400000

  /** `cur_time.hour`. */
  function Hour(t: int): (r: int)
    ensures 0 <= r < 24
    ensures exists day :: day * DayMs + r * HourMs <= t < day * DayMs + (r + 1) * HourMs
  {
    var h := t / HourMs;
    assert (h / 24) * DayMs + (h % 24) * HourMs == h * HourMs;
    h % 24
  }

  /** `get_steps_per_hour`: how many steps of `batch_size` seconds fit in an hour. */
  function StepsPerHour(batchSize: nat): (r: real)
    requires batchSize > 0
    ensures r > 0.0 && r * batchSize as real == 3600.0
  {
    3600.0 / batchSize as real
  }

  /**
   * `get_rate_per_step`: the expected number of new sessions per step at
   * time `t`, the hour's visit weight scaled to the step length.
   */
  function RatePerStep(cfg: Config, t: int, sessionsPerDay: nat, batchSize: nat): (r: real)
    requires |cfg.visitsPerHour| == 24 && batchSize > 0
    ensures r == cfg.visitsPerHour[Hour(t)] * sessionsPerDay as real * batchSize as real / 3600.0
    ensures cfg.visitsPerHour[Hour(t)] >= 0.0 ==> r >= 0.0
  {
    var hourly := cfg.visitsPerHour[Hour(t)];
    var spd := sessionsPerDay as real;
    var steps := StepsPerHour(batchSize);
    assert hourly * spd / steps == hourly * spd * batchSize as real / 3600.0 by {
      assert steps == 3600.0 / batchSize as real;
    }
    assert hourly >= 0.0 ==> hourly * spd >= 0.0;
    hourly * spd / steps
  }

  /** The `days`, `hours`, `minutes` and `seconds` that `get_duration_str` prints. */
  datatype Duration = Duration(days: int, hours: int, minutes: int, seconds: int)

  /**
   * A `timedelta` of `ms` milliseconds split as `get_duration_str` does:
   * whole days, then hours, minutes and seconds of the remaining seconds.
   */
  function DurationOf(ms: int): (r: Duration)
    ensures 0 <= r.hours < 24 && 0 <= r.minutes < 60 && 0 <= r.seconds < 60
    ensures r.days * 86400 + r.hours * 3600 + r.minutes * 60 + r.seconds == ms / SecondMs
  {
    var total := ms / SecondMs;
    var days := total / 86400;
    var secs := total % 86400;
    var minutes := (secs / 60) % 60;
    assert secs / 60 == (secs / 3600) * 60 + minutes;
    Duration(days, secs / 3600, minutes, secs % 60)
  }

  /** The `growth` setting read by `randomize_sess_ts`. */
  datatype Growth = Linear | Exponential | Uniform

  function GrowthOf(growth: Option<string>): Growth {
    if growth.Some? && growth.value in {"lineal", "lin", "linear"} then Linear
    else if growth.Some? && growth.value in {"exp", "exponential"} then Exponential
    else Uniform
  }

  /**
   * The values the draw of each branch can take: `triangular(0, 1, 0)` lies
   * in [0, 1], `expovariate(1/1.5)` is non-negative, `random()` lies in [0, 1).
   */
  predicate RatioDrawLegal(growth: Growth, u: real) {
    match growth
    case Linear => 0.0 <= u <= 1.0
    case Exponential => u >= 0.0
    case Uniform => 0.0 <= u < 1.0
  }

  /** The fraction of the simulated span at which a new session starts. */
  function SessionRatio(growth: Growth, u: real): (r: real)
    requires RatioDrawLegal(growth, u)
    ensures 0.0 <= r <= 1.0
    ensures growth == Exponential ==> r > 0.0
    ensures growth == Uniform ==> r < 1.0
  {
    match growth
    case Linear => 1.0 - u
    case Exponential => if u < 8.0 then (8.0 - u) / 8.0 else 1.0
    case Uniform => u
  }

  /** `init_time + ratio * (stop_time - init_time)`, to the millisecond below. */
  function SessionStart(initTime: int, stopTime: int, ratio: real): (r: int)
    requires initTime <= stopTime && 0.0 <= ratio <= 1.0
    ensures initTime <= r <= stopTime
    ensures ratio == 0.0 ==> r == initTime
    ensures ratio == 1.0 ==> r == stopTime
  {
    var span := (stopTime - initTime) as real;
    assert ratio * span >= 0.0;
    assert span - ratio * span == (1.0 - ratio) * span >= 0.0;
    initTime + (ratio * span).Floor
  }

  /** `choices([1, 0], cum_weights=[rate % 1, 1])` can return `extra`: 1 only when the rate has a fractional part. */
  predicate ExtraLegal(rate: real, extra: nat) {
    extra == 0 || (extra == 1 && rate > rate.Floor as real)
  }

  /** The draws one new session consumes. */
  datatype Spawn = Spawn(ratio: real, user: nat, landingPick: nat, offset: int)

  /** Whether a session yields a record in `run`: it moved to a new page, or it shows a custom event. */
  predicate Reportable(st: SessionState) {
    st.isNewPage || st.customEvent != PageView
  }

  /** The listed sessions that yield a record, in order. */
  function ReportableOnly(ss: seq<Event>): (r: seq<Event>)
    reads ss
    ensures forall i :: 0 <= i < |r| ==> r[i] in ss && Reportable(r[i].State())
    ensures forall i :: 0 <= i < |ss| && Reportable(ss[i].State()) ==> ss[i] in r
    ensures Subsequence(r, ss)
  {
    if ss == [] then []
    else
      var n := |ss| - 1;
      var r' := ReportableOnly(ss[..n]);
      assert ss == ss[..n] + [ss[n]];
      SubsequenceSnoc(r', ss[..n], ss[n]);
      if Reportable(ss[n].State()) then r' + [ss[n]] else r'
  }

  /**
   * What the emission loop of `run` hands out before it stops: the sessions
   * whose `asdict()` returned, their records, and the failure that ended the
   * loop early, if any.
   */
  datatype Emission = Emission(reported: seq<Event>, records: seq<Record>, failure: Option<PropertyFailure>)

  /** Each session's property draws fit its event's property specifications. */
  predicate InputsFit(ss: seq<Event>, ids: seq<string>, draws: seq<seq<Draw>>)
    reads ss
  {
    |ids| == |ss| && |draws| == |ss| && forall k :: 0 <= k < |ss| ==> DrawsFitAll(ss[k].eventProperties, draws[k])
  }

  /**
   * The emission loop of `run` over `ss`: each reportable session yields
   * `asdict()`, built with its own event id and draws; the first record that
   * fails ends the loop, so no later session is reported.
   */
  function EmitAll(ss: seq<Event>, ids: seq<string>, draws: seq<seq<Draw>>): (r: Emission)
    reads ss
    requires InputsFit(ss, ids, draws)
    ensures |r.records| == |r.reported|
    ensures r.reported <= ReportableOnly(ss)
    ensures r.failure.None? ==> r.reported == ReportableOnly(ss)
  {
    if ss == [] then Emission([], [], None)
    else
      var n := |ss| - 1;
      InputsFitPrefix(ss, ids, draws, n);
      var prev := EmitAll(ss[..n], ids[..n], draws[..n]);
      if prev.failure.Some? || !Reportable(ss[n].State()) then prev
      else
        match ss[n].GenerateEvent(ids[n], draws[n])
        case Err(e) => Emission(prev.reported, prev.records, Some(e))
        case Ok(rec) => Emission(prev.reported + [ss[n]], prev.records + [rec], None)
  }

  /** The loop stops early only at a reportable custom event whose properties fail. */
  lemma {:induction false} EmitFailureCause(ss: seq<Event>, ids: seq<string>, draws: seq<seq<Draw>>)
    requires InputsFit(ss, ids, draws)
    ensures var r := EmitAll(ss, ids, draws);
            r.failure.Some? ==>
              exists k :: 0 <= k < |ss| && Reportable(ss[k].State()) && ss[k].customEvent != PageView
                          && ss[k].GenerateEvent(ids[k], draws[k]) == Err(r.failure.value)
  {
    if ss != [] {
      var n := |ss| - 1;
      InputsFitPrefix(ss, ids, draws, n);
      EmitFailureCause(ss[..n], ids[..n], draws[..n]);
      var prev := EmitAll(ss[..n], ids[..n], draws[..n]);
      if prev.failure.Some? {
        var k :| 0 <= k < n && Reportable(ss[..n][k].State()) && ss[..n][k].customEvent != PageView
                 && ss[..n][k].GenerateEvent(ids[..n][k], draws[..n][k]) == Err(prev.failure.value);
        assert ss[..n][k] == ss[k] && ids[..n][k] == ids[k] && draws[..n][k] == draws[k];
      }
    }
  }

  /**
   * The emission loop of `run`: yield `asdict()` of each session that is
   * reportable, in list order, until one of them fails.
   */
  method EmitLoop(ss: seq<Event>, ids: seq<string>, draws: seq<seq<Draw>>) returns (e: Emission)
    requires InputsFit(ss, ids, draws)
    ensures e == EmitAll(ss, ids, draws)
  {
    var reported: seq<Event> := [];
    var records: seq<Record> := [];
    for i := 0 to |ss|
      invariant InputsFit(ss[..i], ids[..i], draws[..i])
      invariant EmitAll(ss[..i], ids[..i], draws[..i]) == Emission(reported, records, None)
    {
      EmitNext(ss, ids, draws, i);
      var s := ss[i];
      if s.isNewPage || s.customEvent != PageView {
        var r := s.GenerateEvent(ids[i], draws[i]);
        match r {
          case Err(err) =>
            EmitFailureIsFinal(ss, ids, draws, i + 1);
            return Emission(reported, records, Some(err));
          case Ok(rec) =>
            reported := reported + [s];
            records := records + [rec];
        }
      }
    }
    assert ss[..|ss|] == ss && ids[..|ids|] == ids && draws[..|draws|] == draws;
    e := Emission(reported, records, None);
  }

  /** Record `i` handed out is the `asdict()` of session `k`, the session reported with it. */
  lemma {:induction false} EmitRecordAt(ss: seq<Event>, ids: seq<string>, draws: seq<seq<Draw>>, i: int)
    requires InputsFit(ss, ids, draws) && 0 <= i < |EmitAll(ss, ids, draws).records|
    ensures exists k :: 0 <= k < |ss| && EmitAll(ss, ids, draws).reported[i] == ss[k]
                        && ss[k].GenerateEvent(ids[k], draws[k]) == Ok(EmitAll(ss, ids, draws).records[i])
  {
    var n := |ss| - 1;
    InputsFitPrefix(ss, ids, draws, n);
    var prev := EmitAll(ss[..n], ids[..n], draws[..n]);
    var r := EmitAll(ss, ids, draws);
    if i < |prev.records| {
      EmitRecordAt(ss[..n], ids[..n], draws[..n], i);
      var k :| 0 <= k < n && prev.reported[i] == ss[..n][k]
               && ss[..n][k].GenerateEvent(ids[..n][k], draws[..n][k]) == Ok(prev.records[i]);
      assert ss[..n][k] == ss[k] && ids[..n][k] == ids[k] && draws[..n][k] == draws[k];
      assert r.reported[i] == prev.reported[i] && r.records[i] == prev.records[i];
    } else {
      assert r.reported[i] == ss[n] && ss[n].GenerateEvent(ids[n], draws[n]) == Ok(r.records[i]);
    }
  }

  /** The inputs of the first `j` sessions fit them. */
  lemma InputsFitPrefix(ss: seq<Event>, ids: seq<string>, draws: seq<seq<Draw>>, j: int)
    requires InputsFit(ss, ids, draws) && 0 <= j <= |ss|
    ensures InputsFit(ss[..j], ids[..j], draws[..j])
  {
    forall k | 0 <= k < j ensures DrawsFitAll(ss[..j][k].eventProperties, draws[..j][k]) {
      assert ss[..j][k] == ss[k] && draws[..j][k] == draws[k];
    }
  }

  /** Once the loop has stopped at a failure, the later sessions change nothing. */
  lemma {:induction false} EmitFailureIsFinal(ss: seq<Event>, ids: seq<string>, draws: seq<seq<Draw>>, i: int)
    requires InputsFit(ss, ids, draws) && 0 <= i <= |ss|
    requires InputsFit(ss[..i], ids[..i], draws[..i])
    requires EmitAll(ss[..i], ids[..i], draws[..i]).failure.Some?
    ensures EmitAll(ss, ids, draws) == EmitAll(ss[..i], ids[..i], draws[..i])
    decreases |ss| - i
  {
    if i < |ss| {
      EmitNext(ss, ids, draws, i);
      EmitFailureIsFinal(ss, ids, draws, i + 1);
    } else {
      assert ss[..i] == ss && ids[..i] == ids && draws[..i] == draws;
    }
  }

  /** The emission over one more session, from the emission over the ones before it. */
  lemma EmitNext(ss: seq<Event>, ids: seq<string>, draws: seq<seq<Draw>>, i: int)
    requires InputsFit(ss, ids, draws) && 0 <= i < |ss|
    ensures InputsFit(ss[..i], ids[..i], draws[..i]) && InputsFit(ss[..i + 1], ids[..i + 1], draws[..i + 1])
    ensures var prev := EmitAll(ss[..i], ids[..i], draws[..i]);
            EmitAll(ss[..i + 1], ids[..i + 1], draws[..i + 1])
            == if prev.failure.Some? || !Reportable(ss[i].State()) then prev
               else match ss[i].GenerateEvent(ids[i], draws[i])
                    case Err(e) => Emission(prev.reported, prev.records, Some(e))
                    case Ok(rec) => Emission(prev.reported + [ss[i]], prev.records + [rec], None)
  {
    InputsFitPrefix(ss, ids, draws, i);
    InputsFitPrefix(ss, ids, draws, i + 1);
    assert ss[..i + 1][..i] == ss[..i] && ids[..i + 1][..i] == ids[..i] && draws[..i + 1][..i] == draws[..i];
  }

  /** `list.remove(x)`: drop the first occurrence of `x`, which must be listed. */
  function RemoveFirst<T(==)>(s: seq<T>, x: T): (r: seq<T>)
    requires x in s
    ensures |r| == |s| - 1
  {
    if s[0] == x then s[1..] else [s[0]] + RemoveFirst(s[1..], x)
  }

  /** Removing an element that first occurs right after `a` leaves `a` and the rest. */
  lemma {:induction false} RemoveFirstAfter<T>(a: seq<T>, b: seq<T>, x: T)
    requires x !in a && b != [] && b[0] == x
    ensures x in a + b && RemoveFirst(a + b, x) == a + b[1..]
  {
    assert (a + b)[|a|] == x;
    if a != [] {
      assert (a + b)[1..] == a[1..] + b;
      RemoveFirstAfter(a[1..], b, x);
    } else {
      assert a + b == b;
    }
  }

  /** A listed session: well formed, of the simulation's configuration and batch size, and active. */
  ghost predicate Member(s: Event, cfg: Config, batchSize: nat)
    reads s
  {
    s.Valid() && s.cfg == cfg && s.batchSize == batchSize && s.currentPage != SessionEnd
  }

  /** A well-formed session of the given configuration and batch size, in state `st`. */
  ghost predicate Holds(s: Event, cfg: Config, batchSize: nat, st: SessionState)
    reads s
  {
    s.Valid() && s.cfg == cfg && s.batchSize == batchSize && s.State() == st
  }

  /** Each listed session is well formed, of the given configuration and batch size, and in its state in `sts`. */
  ghost predicate AllHold(ss: seq<Event>, cfg: Config, batchSize: nat, sts: seq<SessionState>)
    reads ss
  {
    |sts| == |ss| && forall k :: 0 <= k < |ss| ==> Holds(ss[k], cfg, batchSize, sts[k])
  }

  /** The first `i` states have been stepped to `after`; the others are still as in `before`. */
  predicate SteppedUpTo(cur: seq<SessionState>, before: seq<SessionState>, after: seq<SessionState>, i: int) {
    |cur| == |before| == |after| && forall k :: 0 <= k < |cur| ==> cur[k] == if k < i then after[k] else before[k]
  }

  /** The sessions whose state in `sts` is active, in order. */
  function KeepActive(ss: seq<Event>, sts: seq<SessionState>): (r: seq<Event>)
    requires |ss| == |sts|
  {
    if ss == [] then []
    else
      var n := |ss| - 1;
      KeepActive(ss[..n], sts[..n]) + (if Active(sts[n]) then [ss[n]] else [])
  }

  /** The sessions kept are among those listed. */
  lemma {:induction false} KeepActiveSubset(ss: seq<Event>, sts: seq<SessionState>)
    requires |ss| == |sts|
    ensures forall x :: x in KeepActive(ss, sts) ==> x in ss
  {
    if ss != [] {
      var n := |ss| - 1;
      KeepActiveSubset(ss[..n], sts[..n]);
      assert forall x :: x in ss[..n] ==> x in ss;
    }
  }

  /** A session not in the list is not among those kept. */
  lemma {:induction false} KeepActiveOmits(ss: seq<Event>, sts: seq<SessionState>, x: Event)
    requires |ss| == |sts| && x !in ss
    ensures x !in KeepActive(ss, sts)
  {
    if ss != [] {
      var n := |ss| - 1;
      assert x !in ss[..n];
      KeepActiveOmits(ss[..n], sts[..n], x);
    }
  }

  /** Positions `i` and `j` of the list hold different sessions, if they are different positions. */
  predicate DistinctAt(ss: seq<Event>, i: int, j: int) {
    0 <= i < |ss| && 0 <= j < |ss| && i != j ==> ss[i] != ss[j]
  }

  /** No session is listed twice. */
  predicate DistinctSessions(ss: seq<Event>) {
    forall i, j {:trigger DistinctAt(ss, i, j)} :: 0 <= i < |ss| && 0 <= j < |ss| ==> DistinctAt(ss, i, j)
  }

  /** The sessions kept are in their listed order. */
  lemma {:induction false} KeepActiveOrder(ss: seq<Event>, sts: seq<SessionState>)
    requires |ss| == |sts|
    ensures Subsequence(KeepActive(ss, sts), ss)
  {
    if ss != [] {
      var n := |ss| - 1;
      var r' := KeepActive(ss[..n], sts[..n]);
      KeepActiveOrder(ss[..n], sts[..n]);
      assert ss == ss[..n] + [ss[n]];
      SubsequenceSnoc(r', ss[..n], ss[n]);
      assert KeepActive(ss, sts) == if Active(sts[n]) then r' + [ss[n]] else r';
    }
  }

  /** Keeping only some sessions keeps them distinct, and keeps exactly those marked active. */
  lemma {:induction false} KeepActiveSpec(ss: seq<Event>, sts: seq<SessionState>)
    requires |ss| == |sts|
    ensures var r := KeepActive(ss, sts);
            && (forall i :: 0 <= i < |r| ==> exists k :: 0 <= k < |ss| && r[i] == ss[k] && Active(sts[k]))
            && (forall k :: 0 <= k < |ss| && Active(sts[k]) ==> ss[k] in r)
            && (DistinctSessions(ss) ==> DistinctSessions(r))
  {
    if ss != [] {
      var n := |ss| - 1;
      KeepActiveSpec(ss[..n], sts[..n]);
      var r := KeepActive(ss, sts);
      var r' := KeepActive(ss[..n], sts[..n]);
      forall i | 0 <= i < |r| ensures exists k :: 0 <= k < |ss| && r[i] == ss[k] && Active(sts[k]) {
        if i < |r'| {
          var k :| 0 <= k < n && r'[i] == ss[..n][k] && Active(sts[..n][k]);
          assert r[i] == ss[k] && Active(sts[k]);
        } else {
          assert r[i] == ss[n] && Active(sts[n]);
        }
      }
      forall k | 0 <= k < |ss| && Active(sts[k]) ensures ss[k] in r {
        if k < n {
          assert ss[..n][k] == ss[k] && sts[..n][k] == sts[k];
        }
      }
      if DistinctSessions(ss) {
        forall a, b | 0 <= a < n && 0 <= b < n ensures DistinctAt(ss[..n], a, b) {
          assert DistinctAt(ss, a, b);
        }
        assert DistinctSessions(ss[..n]);
        forall i | 0 <= i < |r'| ensures r'[i] != ss[n] {
          var k :| 0 <= k < n && r'[i] == ss[..n][k] && Active(sts[..n][k]);
          assert DistinctAt(ss, k, n);
        }
        forall a, b | 0 <= a < |r| && 0 <= b < |r| ensures DistinctAt(r, a, b) {
          if a < |r'| && b < |r'| {
            assert DistinctAt(r', a, b);
          }
        }
      }
    }
  }

  /** One more session decided: it is kept exactly when its state is active. */
  lemma KeepActiveStep(ss: seq<Event>, sts: seq<SessionState>, i: int)
    requires |ss| == |sts| && 0 <= i < |ss|
    ensures KeepActive(ss[..i + 1], sts[..i + 1])
            == KeepActive(ss[..i], sts[..i]) + (if Active(sts[i]) then [ss[i]] else [])
  {
    assert ss[..i + 1][..i] == ss[..i] && sts[..i + 1][..i] == sts[..i];
  }

  /**
   * Deciding session `i`: the list of sessions kept so far followed by the
   * undecided ones loses session `i` exactly when its new state has ended.
   */
  lemma KeepActiveNext(ss: seq<Event>, sts: seq<SessionState>, i: int)
    requires |ss| == |sts| && 0 <= i < |ss| && DistinctSessions(ss)
    ensures ss[i] in KeepActive(ss[..i], sts[..i]) + ss[i..]
    ensures var pending := KeepActive(ss[..i], sts[..i]) + ss[i..];
            (if Active(sts[i]) then pending else RemoveFirst(pending, ss[i]))
            == KeepActive(ss[..i + 1], sts[..i + 1]) + ss[i + 1..]
  {
    KeepActiveStep(ss, sts, i);
    assert ss[i..] == [ss[i]] + ss[i + 1..];
    assert (KeepActive(ss[..i], sts[..i]) + ss[i..])[|KeepActive(ss[..i], sts[..i])|] == ss[i];
    if !Active(sts[i]) {
      forall k | 0 <= k < i ensures ss[..i][k] != ss[i] {
        assert DistinctAt(ss, k, i);
      }
      KeepActiveOmits(ss[..i], sts[..i], ss[i]);
      RemoveFirstAfter(KeepActive(ss[..i], sts[..i]), ss[i..], ss[i]);
    }
  }

  /**
   * After every session has taken its step, the sessions are in the expected
   * states and the ones kept are distinct, well-formed and active.
   */
  lemma UpdatedSessions(ss: seq<Event>, cur: seq<SessionState>, before: seq<SessionState>,
                        expected: seq<SessionState>, cfg: Config, batchSize: nat)
    requires AllHold(ss, cfg, batchSize, cur) && SteppedUpTo(cur, before, expected, |ss|)
    ensures StatesOf(ss) == expected
    ensures DistinctSessions(ss) ==> DistinctSessions(KeepActive(ss, expected))
    ensures forall j :: 0 <= j < |KeepActive(ss, expected)| ==> Member(KeepActive(ss, expected)[j], cfg, batchSize)
  {
    assert StatesOf(ss) == expected;
    KeepActiveSpec(ss, expected);
    var r := KeepActive(ss, expected);
    forall j | 0 <= j < |r| ensures Member(r[j], cfg, batchSize) {
      var k :| 0 <= k < |ss| && r[j] == ss[k] && Active(expected[k]);
      assert Holds(ss[k], cfg, batchSize, cur[k]);
    }
  }

  /** The states of the listed sessions. */
  function StatesOf(ss: seq<Event>): (r: seq<SessionState>)
    reads ss
    ensures |r| == |ss| && forall k {:trigger r[k]} :: 0 <= k < |ss| ==> r[k] == ss[k].State()
  {
    if ss == [] then []
    else
      var n := |ss| - 1;
      StatesOf(ss[..n]) + [ss[n].State()]
  }

  /** Every session is on a configured page or has ended. */
  predicate PagesKnown(cfg: Config, sts: seq<SessionState>) {
    forall k :: 0 <= k < |sts| ==> sts[k].currentPage in cfg.pages || sts[k].currentPage == SessionEnd
  }

  /** The draws are outcomes each session's `update` can produce. */
  predicate StepsLegal(cfg: Config, batchSize: nat, sts: seq<SessionState>, draws: seq<StepDraws>) {
    |draws| == |sts| && forall k :: 0 <= k < |sts| ==> StepLegal(cfg, batchSize, sts[k].currentPage, draws[k])
  }

  /**
   * The states after `update_all_sessions`: session k takes one step, at its
   * own timestamp plus the `elapsed` simulated time, with the draws `draws[k]`.
   */
  function StepAll(cfg: Config, batchSize: nat, sts: seq<SessionState>, elapsed: int, draws: seq<StepDraws>)
    : (r: seq<SessionState>)
    requires ValidConfig(cfg) && PagesKnown(cfg, sts) && StepsLegal(cfg, batchSize, sts, draws)
    ensures |r| == |sts|
  {
    if sts == [] then []
    else
      var n := |sts| - 1;
      StepAll(cfg, batchSize, sts[..n], elapsed, draws[..n])
        + [Step(cfg, batchSize, sts[n], sts[n].timestamp + elapsed, draws[n])]
  }

  /** Session k's new state is one step from its old one, with its own draws. */
  lemma {:induction false} StepAllAt(cfg: Config, batchSize: nat, sts: seq<SessionState>, elapsed: int,
                                     draws: seq<StepDraws>, k: int)
    requires ValidConfig(cfg) && PagesKnown(cfg, sts) && StepsLegal(cfg, batchSize, sts, draws)
    requires 0 <= k < |sts|
    ensures StepAll(cfg, batchSize, sts, elapsed, draws)[k]
            == Step(cfg, batchSize, sts[k], sts[k].timestamp + elapsed, draws[k])
  {
    var n := |sts| - 1;
    if k < n {
      StepAllAt(cfg, batchSize, sts[..n], elapsed, draws[..n], k);
    }
  }

  class Simulation {
    const cfg: Config
    const initTime: int
    const stopTime: int
    const growth: Option<string>
    const batchSize: nat
    const sessionsPerDay: nat
    const alwaysForward: bool
    var sessions: seq<Event>
    var curTime: int
    var rate: real
    /** Never updated by the simulation. */
    var qtyEvents: nat

    /**
     * The rate belongs to the current hour, and every listed session is a
     * distinct, active, well-formed session of the same configuration.
     */
    ghost predicate Valid()
      reads this, sessions
    {
      && ValidConfig(cfg)
      && batchSize > 0
      && initTime <= stopTime
      && rate == RatePerStep(cfg, curTime, sessionsPerDay, batchSize)
      && DistinctSessions(sessions)
      && (forall i :: 0 <= i < |sessions| ==> Member(sessions[i], cfg, batchSize))
    }

    /** `Simulation(...)`: an empty session list and a clock at `init_time` that stops `sim_days` later. */
    constructor (cfg: Config, sessionsPerDay: nat, batchSize: nat, initTime: int, simDays: int,
                 growth: Option<string>, alwaysForward: bool)
      requires ValidConfig(cfg) && batchSize > 0
      requires simDays > 0
      ensures Valid()
      ensures this.cfg == cfg && this.sessionsPerDay == sessionsPerDay && this.batchSize == batchSize
      ensures this.initTime == initTime && this.growth == growth && this.alwaysForward == alwaysForward
      ensures stopTime == initTime + simDays * DayMs
      ensures sessions == [] && curTime == initTime && qtyEvents == 0
      ensures rate == RatePerStep(cfg, initTime, sessionsPerDay, batchSize)
    {
      this.cfg := cfg;
      this.sessions := [];
      this.initTime := initTime;
      this.curTime := initTime;
      this.stopTime := initTime + simDays * DayMs;
      this.growth := growth;
      this.batchSize := batchSize;
      this.sessionsPerDay := sessionsPerDay;
      this.qtyEvents := 0;
      this.rate := RatePerStep(cfg, initTime, sessionsPerDay, batchSize);
      this.alwaysForward := alwaysForward;
    }

    /** `get_curr_duration`: the simulated time elapsed so far, in milliseconds. */
    function CurrDuration(): int
      reads this
    {
      curTime - initTime
    }

    /** `get_curr_duration` split for `get_duration_str`. */
    function GetDuration(): (r: Duration)
      reads this
      ensures 0 <= r.hours < 24 && 0 <= r.minutes < 60 && 0 <= r.seconds < 60
      ensures r.days * 86400 + r.hours * 3600 + r.minutes * 60 + r.seconds == CurrDuration() / SecondMs
    {
      DurationOf(CurrDuration())
    }

    /** `wait`: `randrange(min_range, max_range)` can return `offset`. */
    predicate WaitLegal(alwaysForward: bool, offset: int) {
      && (if alwaysForward then offset >= 0 else 10 * offset >= -3 * batchSize)
      && 10 * offset < 3 * batchSize
    }

    /**
     * `wait(always_forward)`: advance the clock by `batch_size + offset`
     * seconds and recompute the rate for the new hour. The clock always moves
     * forward, by at least `batch_size` seconds with `always_forward`.
     */
    method Wait(alwaysForward: bool, offset: int)
      requires Valid() && WaitLegal(alwaysForward, offset)
      modifies this
      ensures Valid()
      ensures curTime == old(curTime) + (batchSize + offset) * SecondMs
      ensures curTime > old(curTime)
      ensures alwaysForward ==> curTime >= old(curTime) + batchSize * SecondMs
      ensures rate == RatePerStep(cfg, curTime, sessionsPerDay, batchSize)
      ensures sessions == old(sessions) && qtyEvents == old(qtyEvents)
    {
      curTime := curTime + (batchSize + offset) * SecondMs;
      rate := RatePerStep(cfg, curTime, sessionsPerDay, batchSize);
    }

    /** `randomize_sess_ts`: a start time within the simulated span. */
    function RandomizeSessTs(u: real): (r: int)
      requires initTime <= stopTime && RatioDrawLegal(GrowthOf(growth), u)
      ensures initTime <= r <= stopTime
    {
      SessionStart(initTime, stopTime, SessionRatio(GrowthOf(growth), u))
    }

    predicate SpawnLegal(d: Spawn) {
      && RatioDrawLegal(GrowthOf(growth), d.ratio)
      && LandingPages in cfg.tables && IsDraw(Weights(cfg.tables[LandingPages]), d.landingPick)
      && JitterLegal(batchSize, d.offset)
    }

    /** The state a new session starts in. */
    function SpawnState(d: Spawn): SessionState
      requires initTime <= stopTime && SpawnLegal(d)
    {
      SessionState(Select(cfg, LandingPages, d.landingPick).value, None, PageView, Some([]), true,
                   RandomizeSessTs(d.ratio) + d.offset)
    }

    /** The sessions from position `n` on are new sessions in the states the spawn draws give. */
    ghost predicate Spawned(ss: seq<Event>, n: int, spawns: seq<Spawn>)
      reads ss
      requires initTime <= stopTime && forall k :: 0 <= k < |spawns| ==> SpawnLegal(spawns[k])
    {
      0 <= n && |ss| == n + |spawns|
      && forall k {:trigger spawns[k]} :: 0 <= k < |spawns| ==> ss[n + k].State() == SpawnState(spawns[k])
    }

    /**
     * The sessions listed before an iteration, `before`, took the states
     * `stepped`; the list `after` holds those still active, in order, followed
     * by new sessions in the states the spawn draws give.
     */
    ghost predicate Succeeds(before: seq<Event>, stepped: seq<SessionState>, after: seq<Event>, spawns: seq<Spawn>)
      reads before, after
      requires initTime <= stopTime && forall k :: 0 <= k < |spawns| ==> SpawnLegal(spawns[k])
    {
      && StatesOf(before) == stepped
      && |after| == |KeepActive(before, stepped)| + |spawns|
      && after[..|after| - |spawns|] == KeepActive(before, stepped)
      && Spawned(after, |after| - |spawns|, spawns)
    }

    /**
     * `create_sessions`: append `int(rate)` new sessions, plus one more with
     * probability `rate % 1`, leaving the listed sessions as they were.
     */
    method CreateSessions(extra: nat, spawns: seq<Spawn>)
      requires Valid() && ExtraLegal(rate, extra) && |spawns| == rate.Floor + extra
      requires forall k :: 0 <= k < |spawns| ==> SpawnLegal(spawns[k])
      modifies this
      ensures Valid()
      ensures |sessions| == |old(sessions)| + old(rate).Floor + extra
      ensures sessions[..|old(sessions)|] == old(sessions)
      ensures Spawned(sessions, |old(sessions)|, spawns)
      ensures forall j :: |old(sessions)| <= j < |sessions| ==>
                fresh(sessions[j]) && sessions[j].isNewPage && sessions[j].customEvent == PageView
      ensures curTime == old(curTime) && rate == old(rate) && qtyEvents == old(qtyEvents)
    {
      var n := rate.Floor + extra;
      ghost var created: seq<Event> := [];
      for k := 0 to n
        invariant Valid() && curTime == old(curTime) && rate == old(rate) && qtyEvents == old(qtyEvents)
        invariant |created| == k && sessions == old(sessions) + created
        invariant forall j :: 0 <= j < k ==> fresh(created[j]) && created[j].State() == SpawnState(spawns[j])
      {
        var e := AddSession(spawns[k]);
        created := created + [e];
      }
      assert sessions[..|old(sessions)|] == old(sessions);
      assert forall k :: 0 <= k < |spawns| ==> sessions[|old(sessions)| + k] == created[k];
    }

    /** One iteration of `create_sessions`: append a new session started at a random time. */
    method AddSession(d: Spawn) returns (e: Event)
      requires Valid() && SpawnLegal(d)
      modifies this
      ensures Valid()
      ensures fresh(e) && sessions == old(sessions) + [e] && e.State() == SpawnState(d)
      ensures curTime == old(curTime) && rate == old(rate) && qtyEvents == old(qtyEvents)
    {
      e := new Event(cfg, RandomizeSessTs(d.ratio), d.user, batchSize, d.landingPick, d.offset);
      assert Member(e, cfg, batchSize);
      ghost var listed := sessions;
      sessions := sessions + [e];
      forall a, b | 0 <= a < |sessions| && 0 <= b < |sessions| ensures DistinctAt(sessions, a, b) {
        if a < |listed| && b < |listed| {
          assert DistinctAt(listed, a, b);
        }
      }
    }

    /** Every listed session is on a configured page. */
    lemma ListedPagesKnown()
      requires Valid()
      ensures PagesKnown(cfg, StatesOf(sessions))
    {
      var sts := StatesOf(sessions);
      forall k | 0 <= k < |sts| ensures sts[k].currentPage in cfg.pages || sts[k].currentPage == SessionEnd {
        assert Member(sessions[k], cfg, batchSize);
      }
    }

    /**
     * The states `update_all_sessions` moves the listed sessions to: each
     * takes one step at its own timestamp plus `get_curr_duration()`.
     */
    ghost function Stepped(draws: seq<StepDraws>): (r: seq<SessionState>)
      reads this, sessions
      requires Valid() && DrawsLegal(draws)
      ensures |r| == |sessions|
    {
      ListedPagesKnown();
      StepAll(cfg, batchSize, StatesOf(sessions), CurrDuration(), draws)
    }

    /** The sessions' draws are outcomes their `update` calls can produce. */
    predicate DrawsLegal(draws: seq<StepDraws>)
      reads this, sessions
    {
      StepsLegal(cfg, batchSize, StatesOf(sessions), draws)
    }

    /**
     * `update_all_sessions`: update every listed session once, in order, at
     * its own timestamp plus the elapsed simulated time, and drop the ones
     * that ended; the others keep their order.
     */
    method UpdateAllSessions(draws: seq<StepDraws>)
      requires Valid() && DrawsLegal(draws)
      modifies this, sessions
      ensures Valid()
      ensures StatesOf(old(sessions)) == old(Stepped(draws))
      ensures sessions == KeepActive(old(sessions), StatesOf(old(sessions)))
      ensures curTime == old(curTime) && rate == old(rate) && qtyEvents == old(qtyEvents)
    {
      var snapshot := sessions;
      var elapsed := CurrDuration();
      ghost var before := StatesOf(snapshot);
      ListedPagesKnown();
      ghost var expected := Stepped(draws);
      assert expected == StepAll(cfg, batchSize, before, elapsed, draws);
      ghost var cur := before;
      assert DistinctSessions(snapshot);
      assert AllHold(snapshot, cfg, batchSize, cur) by {
        forall k | 0 <= k < |snapshot| ensures Holds(snapshot[k], cfg, batchSize, cur[k]) {
          assert Member(snapshot[k], cfg, batchSize);
        }
      }
      for i := 0 to |snapshot|
        invariant curTime == old(curTime) && rate == old(rate) && qtyEvents == old(qtyEvents)
        invariant AllHold(snapshot, cfg, batchSize, cur)
        invariant SteppedUpTo(cur, before, expected, i)
        invariant sessions == KeepActive(snapshot[..i], expected[..i]) + snapshot[i..]
      {
        StepAllAt(cfg, batchSize, before, elapsed, draws, i);
        cur := UpdateStep(snapshot, i, elapsed, draws[i], before, expected, cur);
      }
      assert snapshot[..|snapshot|] == snapshot;
      assert expected[..|snapshot|] == expected;
      assert sessions == KeepActive(snapshot, expected);
      UpdatedSessions(snapshot, cur, before, expected, cfg, batchSize);
    }

    /** One iteration of `update_all_sessions`, with the loop's bookkeeping. */
    method UpdateStep(snapshot: seq<Event>, i: int, elapsed: int, d: StepDraws,
                      ghost before: seq<SessionState>, ghost expected: seq<SessionState>,
                      ghost cur: seq<SessionState>) returns (ghost cur': seq<SessionState>)
      requires 0 <= i < |snapshot| == |before| == |expected| && DistinctSessions(snapshot)
      requires ValidConfig(cfg) && (before[i].currentPage in cfg.pages || before[i].currentPage == SessionEnd)
      requires StepLegal(cfg, batchSize, before[i].currentPage, d)
      requires expected[i] == Step(cfg, batchSize, before[i], before[i].timestamp + elapsed, d)
      requires AllHold(snapshot, cfg, batchSize, cur)
      requires SteppedUpTo(cur, before, expected, i)
      requires sessions == KeepActive(snapshot[..i], expected[..i]) + snapshot[i..]
      modifies this, snapshot[i]
      ensures AllHold(snapshot, cfg, batchSize, cur')
      ensures SteppedUpTo(cur', before, expected, i + 1)
      ensures sessions == KeepActive(snapshot[..i + 1], expected[..i + 1]) + snapshot[i + 1..]
      ensures curTime == old(curTime) && rate == old(rate) && qtyEvents == old(qtyEvents)
    {
      var s := snapshot[i];
      KeepActiveNext(snapshot, expected, i);
      assert Holds(s, cfg, batchSize, cur[i]) && cur[i] == before[i];
      UpdateSession(s, s.currentTimestamp + elapsed, d, expected[i]);
      cur' := cur[i := expected[i]];
      forall k | 0 <= k < |snapshot| && k != i
        ensures Holds(snapshot[k], cfg, batchSize, cur'[k])
      {
        assert DistinctAt(snapshot, k, i);
      }
    }

    /**
     * The body of the `update_all_sessions` loop: update one session and
     * remove it from the list when it has ended.
     */
    method UpdateSession(s: Event, timestamp: int, d: StepDraws, ghost target: SessionState)
      requires s in sessions && s.Valid() && s.cfg == cfg && s.batchSize == batchSize
      requires StepLegal(cfg, batchSize, s.currentPage, d)
      requires target == Step(cfg, batchSize, s.State(), timestamp, d)
      modifies this, s
      ensures Holds(s, cfg, batchSize, target)
      ensures sessions == if Active(target) then old(sessions) else RemoveFirst(old(sessions), s)
      ensures curTime == old(curTime) && rate == old(rate) && qtyEvents == old(qtyEvents)
    {
      var _ := s.Update(timestamp, d);
      if !s.IsActive() {
        sessions := RemoveFirst(sessions, s);
      }
    }

    /**
     * The emission loop of `run` over the listed sessions. A session on a
     * page view never fails, so when no record fails every session that moved
     * to a new page, including every session created in this iteration, is
     * reported.
     */
    method Emit(ids: seq<string>, draws: seq<seq<Draw>>) returns (e: Emission)
      requires InputsFit(sessions, ids, draws)
      ensures e == EmitAll(sessions, ids, draws)
      ensures e.failure.None? ==> forall s :: s in sessions && s.isNewPage ==> s in e.reported
    {
      e := EmitLoop(sessions, ids, draws);
    }
    /**
     * The first two calls of an iteration of `run`: update the listed
     * sessions, then create new ones. The sessions still active follow in
     * their order, then the new ones, fresh and on their landing pages.
     */
    method UpdateAndCreate(draws: seq<StepDraws>, extra: nat, spawns: seq<Spawn>)
      requires Valid() && DrawsLegal(draws)
      requires ExtraLegal(rate, extra) && |spawns| == rate.Floor + extra
      requires forall k :: 0 <= k < |spawns| ==> SpawnLegal(spawns[k])
      modifies this, sessions
      ensures Valid()
      ensures Succeeds(old(sessions), old(Stepped(draws)), sessions, spawns)
      ensures forall j :: |sessions| - |spawns| <= j < |sessions| ==> fresh(sessions[j])
      ensures forall s :: s in sessions && s !in old(sessions) ==> fresh(s) && s.isNewPage && s.customEvent == PageView
      ensures curTime == old(curTime) && rate == old(rate) && qtyEvents == old(qtyEvents)
    {
      UpdateAllSessions(draws);
      var kept := sessions;
      KeepActiveSubset(old(sessions), StatesOf(old(sessions)));
      CreateSessions(extra, spawns);
      forall s | s in sessions && s !in old(sessions) ensures fresh(s) && s.isNewPage && s.customEvent == PageView {
        var j :| 0 <= j < |sessions| && sessions[j] == s;
        assert s !in kept;
        assert forall i :: 0 <= i < |kept| ==> sessions[i] == kept[i];
      }
    }

    /**
     * The first three calls of an iteration of `run`: update the sessions,
     * create new ones, and wait. The clock moves forward by
     * `batch_size + offset` seconds, and by at least `batch_size` seconds
     * with `always_forward`.
     */
    method Tick(draws: seq<StepDraws>, extra: nat, spawns: seq<Spawn>, offset: int)
      requires Valid() && DrawsLegal(draws)
      requires ExtraLegal(rate, extra) && |spawns| == rate.Floor + extra
      requires forall k :: 0 <= k < |spawns| ==> SpawnLegal(spawns[k])
      requires WaitLegal(alwaysForward, offset)
      modifies this, sessions
      ensures Valid()
      ensures Succeeds(old(sessions), old(Stepped(draws)), sessions, spawns)
      ensures forall j :: |sessions| - |spawns| <= j < |sessions| ==> fresh(sessions[j])
      ensures forall s :: s in sessions && s !in old(sessions) ==> fresh(s) && s.isNewPage && s.customEvent == PageView
      ensures curTime == old(curTime) + (batchSize + offset) * SecondMs
      ensures alwaysForward ==> curTime >= old(curTime) + batchSize * SecondMs
      ensures rate == RatePerStep(cfg, curTime, sessionsPerDay, batchSize)
    {
      UpdateAndCreate(draws, extra, spawns);
      Wait(alwaysForward, offset);
    }
  }
}
