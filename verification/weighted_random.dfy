/**
 * The weighted selector (`WeightedRandom` in fake_web_events/utils.py): `select`
 * and the two projections of the page and event configuration. The stored
 * configuration is never changed, so every operation is a function of it.
 *
 * A call of `random.choices(items, weights)` is modelled by the index it
 * returned, `pick`; a legal draw is an index whose weight is positive, since
 * an entry of weight zero is never chosen.
 */
module WeightedRandom {
  import opened Wrappers
  import opened Config

  /** What the Python code raises while reading the configuration. */
  datatype Failure =
    | MissingKey(key: string)  // `dict.get` gave None and the code then indexed it
    | DivisionByZero           // `max_decay_cycles` of 0 in the decay branch
    | NoPositiveWeight         // `random.choices` on an empty table or a zero total

  predicate IsDraw(weights: seq<real>, pick: int) {
    0 <= pick < |weights| && weights[pick] > 0.0
  }

  predicate HasDraw(weights: seq<real>) {
    exists i :: 0 <= i < |weights| && weights[i] > 0.0
  }

  /** `select(property_name)`: a weighted draw among the keys of a named table. */
  function Select(cfg: Config, name: string, pick: nat): (r: Result<string, Failure>)
    requires name in cfg.tables && HasDraw(Weights(cfg.tables[name])) ==> IsDraw(Weights(cfg.tables[name]), pick)
    ensures r.Ok? <==> name in cfg.tables && HasDraw(Weights(cfg.tables[name]))
    ensures r.Ok? ==> exists i :: 0 <= i < |cfg.tables[name]| && cfg.tables[name][i].0 == r.value && cfg.tables[name][i].1 > 0.0
    ensures r.Ok? ==> r.value in Names(cfg.tables[name])
  {
    if name !in cfg.tables then Err(MissingKey(name))
    else if !HasDraw(Weights(cfg.tables[name])) then Err(NoPositiveWeight)
    else Ok(cfg.tables[name][pick].0)
  }

  // ----- get_pages -----

  /** The two parallel lists `get_pages` returns. */
  datatype Transitions = Transitions(pages: seq<string>, weights: seq<real>)

  /** The transition entries to pages other than `page`, in configured order. */
  function Others(targets: Table<real>, page: string): Table<real> {
    Filter(targets, (e: (string, real)) => e.0 != page)
  }

  /** `v * curr_cycle / max_cycle`. */
  function Decay(v: real, cycle: int, maxCycle: int): real
    requires maxCycle != 0
  {
    v * cycle as real / maxCycle as real
  }

  /** Each weight of `t` decayed. */
  function Scale(t: Table<real>, cycle: int, maxCycle: int): (r: Table<real>)
    requires maxCycle != 0 || t == []
    ensures |r| == |t|
    ensures forall i :: 0 <= i < |t| ==> r[i] == (t[i].0, Decay(t[i].1, cycle, maxCycle))
  {
    seq(|t|, i requires 0 <= i < |t| => (t[i].0, Decay(t[i].1, cycle, maxCycle)))
  }

  /**
   * `get_pages(page, curr_cycle)`. While `curr_cycle <= max_decay_cycles`, every
   * other target is scaled by curr_cycle/max_decay_cycles and `page` itself is
   * appended with the weight left over to 1; afterwards the configured table.
   */
  function GetPages(cfg: Config, page: string, cycle: int): (r: Result<Transitions, Failure>)
    ensures r.Ok? ==> |r.value.pages| == |r.value.weights|
    ensures r.Err? <==> page !in cfg.pages
                        || (cycle <= cfg.pages[page].maxDecayCycles == 0 && Others(cfg.pages[page].targets, page) != [])
  {
    if page !in cfg.pages then Err(MissingKey(page))
    else
      var pc := cfg.pages[page];
      if cycle <= pc.maxDecayCycles then
        var others := Others(pc.targets, page);
        if pc.maxDecayCycles == 0 && others != [] then Err(DivisionByZero)
        else
          var scaled := Scale(others, cycle, pc.maxDecayCycles);
          Ok(Transitions(Names(scaled) + [page], Weights(scaled) + [1.0 - Sum(Weights(scaled))]))
      else
        Ok(Transitions(Names(pc.targets), Weights(pc.targets)))
  }

  /** The other targets: every configured target but `page`, in order, each with its configured weight. */
  lemma {:induction false} OthersSpec(targets: Table<real>, page: string)
    requires DistinctKeys(targets)
    ensures var others := Others(targets, page);
            && (forall k :: k in Names(others) <==> k in Names(targets) && k != page)
            && Subsequence(Names(others), Names(targets))
            && (forall i :: 0 <= i < |others| ==> Find(targets, others[i].0) == Some(others[i].1))
  {
    var others := Others(targets, page);
    FilterSpec(targets, (e: (string, real)) => e.0 != page);
    NamesSubsequence(others, targets);
    forall k ensures k in Names(others) <==> k in Names(targets) && k != page {
      if k in Names(others) {
        var i :| 0 <= i < |others| && others[i].0 == k;
        assert others[i] in others;
      }
      if k in Names(targets) && k != page {
        var j :| 0 <= j < |targets| && targets[j].0 == k;
        assert targets[j] in others;
      }
    }
    forall i | 0 <= i < |others| ensures Find(targets, others[i].0) == Some(others[i].1) {
      assert others[i] in others;
      var j :| 0 <= j < |targets| && targets[j] == others[i];
      FindEntry(targets, j);
    }
  }

  /** Appending one weight adds it to the sum. */
  lemma SumAppend(s: seq<real>, x: real)
    ensures Sum(s + [x]) == Sum(s) + x
  {
    assert (s + [x])[..|s|] == s;
  }

  /**
   * The decay branch: every other target with its configured weight times
   * curr_cycle/max_cycle, in configured order, then `page` once, last, with
   * what is left to 1; the weights sum to exactly 1.
   */
  lemma GetPagesDecay(cfg: Config, page: string, cycle: int)
    requires page in cfg.pages && DistinctKeys(cfg.pages[page].targets)
    requires cycle <= cfg.pages[page].maxDecayCycles && GetPages(cfg, page, cycle).Ok?
    ensures var pc := cfg.pages[page];
            var r := GetPages(cfg, page, cycle).value;
            var n := |r.pages| - 1;
            && n >= 0 && r.pages[n] == page
            && page !in r.pages[..n]
            && (forall k :: k in r.pages[..n] <==> k in Names(pc.targets) && k != page)
            && Subsequence(r.pages[..n], Names(pc.targets))
            && (forall i :: 0 <= i < n ==>
                  Find(pc.targets, r.pages[i]).Some?
                  && r.weights[i] == Decay(Find(pc.targets, r.pages[i]).value, cycle, pc.maxDecayCycles))
            && r.weights[n] == 1.0 - Sum(r.weights[..n])
            && Sum(r.weights) == 1.0
  {
    var pc := cfg.pages[page];
    var others := Others(pc.targets, page);
    var scaled := Scale(others, cycle, pc.maxDecayCycles);
    var r := GetPages(cfg, page, cycle).value;
    var n := |scaled|;
    assert r.pages == Names(scaled) + [page] && r.weights == Weights(scaled) + [1.0 - Sum(Weights(scaled))];
    assert r.pages[..n] == Names(scaled) == Names(others);
    assert r.weights[..n] == Weights(scaled);
    OthersSpec(pc.targets, page);
    SumAppend(Weights(scaled), 1.0 - Sum(Weights(scaled)));
  }

  /** Past the decay window the configured table is returned unchanged, in order. */
  lemma GetPagesRaw(cfg: Config, page: string, cycle: int)
    requires page in cfg.pages && cycle > cfg.pages[page].maxDecayCycles
    ensures GetPages(cfg, page, cycle) == Ok(Transitions(Names(cfg.pages[page].targets), Weights(cfg.pages[page].targets)))
  {
  }

  /** Past the decay window each returned weight is the one configured for the page beside it. */
  lemma GetPagesRawAligned(cfg: Config, page: string, cycle: int, i: int)
    requires page in cfg.pages && DistinctKeys(cfg.pages[page].targets)
    requires cycle > cfg.pages[page].maxDecayCycles
    requires 0 <= i < |GetPages(cfg, page, cycle).value.pages|
    ensures Find(cfg.pages[page].targets, GetPages(cfg, page, cycle).value.pages[i])
            == Some(GetPages(cfg, page, cycle).value.weights[i])
  {
    FindEntry(cfg.pages[page].targets, i);
  }

  // ----- get_events -----

  /** The five results of `get_events`. */
  datatype EventChoices = EventChoices(
    events: seq<string>,
    weights: seq<real>,
    modal: map<string, bool>,
    properties: map<string, Option<PropSpecs>>,
    prereqMatched: bool)

  /** The page's events whose `prereq` equals `prereq` (`None`: no prerequisite). */
  function WithPrereq(t: Table<EventConfig>, prereq: Option<string>): Table<EventConfig> {
    Filter(t, (e: (string, EventConfig)) => e.1.prereq == prereq)
  }

  /** The events `get_events` returns: those with `prereq`, else those without a prerequisite. */
  function Chosen(t: Table<EventConfig>, prereq: Option<string>): Table<EventConfig> {
    if WithPrereq(t, prereq) != [] then WithPrereq(t, prereq) else WithPrereq(t, None)
  }

  /** The chosen entries are exactly the entries with the prerequisite that was used, in order. */
  lemma ChosenSpec(t: Table<EventConfig>, prereq: Option<string>)
    ensures var p := if WithPrereq(t, prereq) != [] then prereq else None;
            && (forall x :: x in Chosen(t, prereq) <==> x in t && x.1.prereq == p)
            && Subsequence(Names(Chosen(t, prereq)), Names(t))
  {
    FilterSpec(t, (e: (string, EventConfig)) => e.1.prereq == prereq);
    FilterSpec(t, (e: (string, EventConfig)) => e.1.prereq == None);
    NamesSubsequence(Chosen(t, prereq), t);
  }

  function ProbOf(c: Option<EventConfig>): real {
    if c.Some? then c.value.prob else 0.0
  }

  /** A missing or None `modal` reads as False. */
  function ModalOf(c: Option<EventConfig>): bool {
    c.Some? && c.value.modal.Some? && c.value.modal.value
  }

  function PropertiesOf(c: Option<EventConfig>): Option<PropSpecs> {
    if c.Some? then c.value.properties else None
  }

  /**
   * `get_events(page, prereq)`: the events whose prerequisite is `prereq`, or,
   * when there are none, the events without a prerequisite; with their
   * weights, modal flags and property specs looked up by name.
   */
  function GetEvents(cfg: Config, page: string, prereq: Option<string>): (r: EventChoices)
    ensures |r.events| == |r.weights|
    ensures r.modal.Keys == r.properties.Keys == set e | e in r.events
  {
    if page !in cfg.events then EventChoices([], [], map[], map[], false)
    else
      var t := cfg.events[page];
      var events := Names(Chosen(t, prereq));
      EventChoices(
        events,
        seq(|events|, i requires 0 <= i < |events| => ProbOf(Find(t, events[i]))),
        map e | e in events :: ModalOf(Find(t, e)),
        map e | e in events :: PropertiesOf(Find(t, e)),
        WithPrereq(t, prereq) != [])
  }

  /** A page without an events entry gives five empty results. */
  lemma GetEventsMissingPage(cfg: Config, page: string, prereq: Option<string>)
    requires page !in cfg.events
    ensures GetEvents(cfg, page, prereq) == EventChoices([], [], map[], map[], false)
  {
  }

  /** The entries whose key is `k` and whose prerequisite is `p`. */
  ghost predicate HasEntry(t: Table<EventConfig>, k: string, p: Option<string>) {
    exists j :: 0 <= j < |t| && t[j].0 == k && t[j].1.prereq == p
  }

  /**
   * Prerequisite filtering: with the flag set, exactly the page's events whose
   * prerequisite is `prereq`; with it clear, none has that prerequisite and the
   * result is exactly the events without one. Either way in configured order.
   */
  lemma GetEventsSelection(cfg: Config, page: string, prereq: Option<string>)
    requires page in cfg.events
    ensures var r := GetEvents(cfg, page, prereq);
            var t := cfg.events[page];
            && Subsequence(r.events, Names(t))
            && (r.prereqMatched ==> r.events != [] && forall k :: k in r.events <==> HasEntry(t, k, prereq))
            && (!r.prereqMatched ==> (forall j :: 0 <= j < |t| ==> t[j].1.prereq != prereq)
                                     && forall k :: k in r.events <==> HasEntry(t, k, None))
  {
    var t := cfg.events[page];
    var r := GetEvents(cfg, page, prereq);
    var chosen := Chosen(t, prereq);
    var p := if WithPrereq(t, prereq) != [] then prereq else None;
    ChosenSpec(t, prereq);
    forall k ensures k in r.events <==> HasEntry(t, k, p) {
      if k in r.events {
        var i :| 0 <= i < |chosen| && chosen[i].0 == k;
        assert chosen[i] in chosen;
      }
      if HasEntry(t, k, p) {
        var j :| 0 <= j < |t| && t[j].0 == k && t[j].1.prereq == p;
        assert t[j] in t;
        assert t[j] in chosen;
      }
    }
    if WithPrereq(t, prereq) == [] {
      FilterSpec(t, (e: (string, EventConfig)) => e.1.prereq == prereq);
      forall j | 0 <= j < |t| ensures t[j].1.prereq != prereq {
        assert t[j] in t;
      }
    }
  }

  /**
   * The results line up: `weights[i]`, `modal[events[i]]` and
   * `properties[events[i]]` are the `prob`, the `modal` flag (False when
   * missing) and the `properties` of the configured entry of `events[i]`.
   */
  lemma GetEventsAligned(cfg: Config, page: string, prereq: Option<string>, i: int)
    requires page in cfg.events && DistinctKeys(cfg.events[page])
    requires 0 <= i < |GetEvents(cfg, page, prereq).events|
    ensures var r := GetEvents(cfg, page, prereq);
            exists j :: 0 <= j < |cfg.events[page]| && cfg.events[page][j].0 == r.events[i]
              && r.weights[i] == cfg.events[page][j].1.prob
              && r.modal[r.events[i]] == (cfg.events[page][j].1.modal == Some(true))
              && r.properties[r.events[i]] == cfg.events[page][j].1.properties
  {
    var t := cfg.events[page];
    var r := GetEvents(cfg, page, prereq);
    var chosen := Chosen(t, prereq);
    assert r.events == Names(chosen);
    ChosenSpec(t, prereq);
    assert chosen[i] in chosen;
    var j :| 0 <= j < |t| && t[j] == chosen[i];
    FindEntry(t, j);
    var k := r.events[i];
    assert Find(t, k) == Some(t[j].1);
    assert r.weights[i] == ProbOf(Find(t, k));
    assert r.modal[k] == ModalOf(Find(t, k));
    assert r.properties[k] == PropertiesOf(Find(t, k));
  }

  // ----- well-formed configurations -----

  /**
   * A page's transitions lead to configured pages or to the end of the
   * session, and its decay schedule does not divide by zero.
   */
  ghost predicate ValidPage(cfg: Config, p: string)
    requires p in cfg.pages
  {
    var t := cfg.pages[p].targets;
    && cfg.pages[p].maxDecayCycles != 0
    && DistinctKeys(t)
    && HasDraw(Weights(t))
    && (forall i :: 0 <= i < |t| ==> t[i].1 >= 0.0)
    && (forall i :: 0 <= i < |t| ==> t[i].0 in cfg.pages || t[i].0 == SessionEnd)
  }

  /** When a page has events without a prerequisite, one of them can be drawn. */
  ghost predicate EventsDrawable(cfg: Config, p: string) {
    GetEvents(cfg, p, None).events != [] ==> HasDraw(GetEvents(cfg, p, None).weights)
  }

  /**
   * What the engine relies on in a loaded configuration: landing pages and
   * transition targets are configured pages (or `session_end`, which has no
   * entry of its own), every table can be drawn from, dict keys are unique,
   * and there is a non-negative visit count for each of the 24 hours.
   */
  ghost predicate ValidConfig(cfg: Config) {
    && LandingPages in cfg.tables
    && HasDraw(Weights(cfg.tables[LandingPages]))
    && (forall i :: 0 <= i < |cfg.tables[LandingPages]| ==> cfg.tables[LandingPages][i].0 in cfg.pages)
    && SessionEnd !in cfg.pages
    && (forall p {:trigger ValidPage(cfg, p)} :: p in cfg.pages ==> ValidPage(cfg, p))
    && (forall p :: p in cfg.events ==> DistinctKeys(cfg.events[p]))
    && (forall p {:trigger EventsDrawable(cfg, p)} :: p in cfg.pages ==> EventsDrawable(cfg, p))
    && |cfg.visitsPerHour| == 24
    && (forall h :: 0 <= h < 24 ==> cfg.visitsPerHour[h] >= 0.0)
  }

  /**
   * In a valid configuration a page's transitions can always be drawn from:
   * in the decay branch either the page itself keeps a positive weight or
   * some other target does.
   */
  lemma TransitionsHaveDraw(cfg: Config, page: string, cycle: int)
    requires ValidConfig(cfg) && page in cfg.pages && GetPages(cfg, page, cycle).Ok?
    ensures HasDraw(GetPages(cfg, page, cycle).value.weights)
  {
    var pc := cfg.pages[page];
    var w := GetPages(cfg, page, cycle).value.weights;
    assert ValidPage(cfg, page);
    if cycle <= pc.maxDecayCycles {
      var n := |w| - 1;
      GetPagesDecay(cfg, page, cycle);
      if w[n] <= 0.0 {
        PositiveSumHasPositiveTerm(w[..n]);
        var i :| 0 <= i < n && w[..n][i] > 0.0;
        assert w[i] > 0.0;
      }
    }
  }

  /** Every page a valid configuration lets a session move to is configured or `session_end`. */
  lemma TransitionTargetsKnown(cfg: Config, page: string, cycle: int, i: int)
    requires ValidConfig(cfg) && page in cfg.pages && GetPages(cfg, page, cycle).Ok?
    requires 0 <= i < |GetPages(cfg, page, cycle).value.pages|
    ensures var next := GetPages(cfg, page, cycle).value.pages[i];
            next in cfg.pages || next == SessionEnd
  {
    var pc := cfg.pages[page];
    var r := GetPages(cfg, page, cycle).value;
    assert ValidPage(cfg, page);
    if cycle <= pc.maxDecayCycles && i < |r.pages| - 1 {
      GetPagesDecay(cfg, page, cycle);
      assert r.pages[i] in r.pages[..|r.pages| - 1];
    }
  }
}
