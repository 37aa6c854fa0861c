/**
 * One user session (`Event` in fake_web_events/event.py): the page it is on,
 * the page before, the custom event it is showing and the timestamp of its
 * current step. Every random outcome the Python code draws (the landing page,
 * the next page, the custom event, the timestamp jitter) is a parameter here,
 * constrained to the outcomes the draw can produce.
 */
module Sessions {
  import opened Wrappers
  import opened Config
  import opened WeightedRandom
  import opened Properties

  /** `int(batch_size * 0.3 * 1000)`: the jitter half-range, in milliseconds. */
  function JitterRange(batchSize: nat): nat {
    300 * batchSize
  }

  /** `randrange(-r, r)` can return `offset`. */
  predicate JitterLegal(batchSize: nat, offset: int) {
    -(JitterRange(batchSize) as int) <= offset < JitterRange(batchSize)
  }

  /** The draw `random.choices(pages, weights)` of `get_next_page` can return index `pick`. */
  predicate PageDrawLegal(cfg: Config, page: string, cycle: int, pick: nat) {
    GetPages(cfg, page, cycle).Ok? && IsDraw(GetPages(cfg, page, cycle).value.weights, pick)
  }

  /** When the page has events, `random.choices(events, weights)` can return index `pick`. */
  predicate EventDrawLegal(cfg: Config, page: string, pick: nat) {
    var ch := GetEvents(cfg, page, None);
    ch.events != [] ==> IsDraw(ch.weights, pick)
  }

  /** The page `get_next_page` moves to. */
  function NextPage(cfg: Config, page: string, cycle: int, pick: nat): (r: string)
    requires ValidConfig(cfg) && page in cfg.pages && PageDrawLegal(cfg, page, cycle, pick)
    ensures r in cfg.pages || r == SessionEnd
    ensures r in GetPages(cfg, page, cycle).value.pages
  {
    TransitionTargetsKnown(cfg, page, cycle, pick);
    GetPages(cfg, page, cycle).value.pages[pick]
  }

  /** A legal page draw exists from every configured page of a valid configuration. */
  lemma PageDrawExists(cfg: Config, page: string, cycle: int)
    requires ValidConfig(cfg) && page in cfg.pages
    ensures exists pick: nat :: PageDrawLegal(cfg, page, cycle, pick)
  {
    assert ValidPage(cfg, page);
    TransitionsHaveDraw(cfg, page, cycle);
    var w := GetPages(cfg, page, cycle).value.weights;
    var i :| 0 <= i < |w| && w[i] > 0.0;
    var pick: nat := i;
    assert PageDrawLegal(cfg, page, cycle, pick);
  }

  /** `(custom_event, event_properties)` after `get_custom_event`. */
  function CustomEvent(cfg: Config, page: string, pick: nat): (r: (string, Option<PropSpecs>))
    requires EventDrawLegal(cfg, page, pick)
  {
    var ch := GetEvents(cfg, page, None);
    if |ch.events| > 0 then (ch.events[pick], ch.properties[ch.events[pick]])
    else (PageView, Some([]))
  }

  /**
   * A page with events of no prerequisite yields one of them, with positive
   * probability and its configured properties; any other page yields a
   * page view with `{}`.
   */
  lemma CustomEventConfigured(cfg: Config, page: string, pick: nat)
    requires ValidConfig(cfg) && EventDrawLegal(cfg, page, pick)
    ensures var r := CustomEvent(cfg, page, pick);
            if GetEvents(cfg, page, None).events == [] then r == (PageView, Some([]))
            else
              && page in cfg.events
              && exists j :: 0 <= j < |cfg.events[page]| && cfg.events[page][j].0 == r.0
                   && cfg.events[page][j].1.prereq.None? && cfg.events[page][j].1.prob > 0.0
                   && cfg.events[page][j].1.properties == r.1
  {
    var ch := GetEvents(cfg, page, None);
    if ch.events != [] {
      assert page in cfg.events;
      var t := cfg.events[page];
      GetEventsAligned(cfg, page, None, pick);
      var j :| 0 <= j < |t| && t[j].0 == ch.events[pick]
                && ch.weights[pick] == t[j].1.prob
                && ch.properties[ch.events[pick]] == t[j].1.properties;
      GetEventsSelection(cfg, page, None);
      assert ch.events[pick] in ch.events;
      var j' :| 0 <= j' < |t| && t[j'].0 == ch.events[pick] && t[j'].1.prereq == None;
      assert j' == j;
    }
  }

  /** A legal event draw exists for every configured page of a valid configuration. */
  lemma EventDrawExists(cfg: Config, page: string)
    requires ValidConfig(cfg) && page in cfg.pages
    ensures exists pick: nat :: EventDrawLegal(cfg, page, pick)
  {
    var ch := GetEvents(cfg, page, None);
    if ch.events != [] {
      assert EventsDrawable(cfg, page);
      var i :| 0 <= i < |ch.weights| && ch.weights[i] > 0.0;
      var pick: nat := i;
      assert EventDrawLegal(cfg, page, pick);
    } else {
      assert EventDrawLegal(cfg, page, 0);
    }
  }

  /** The fields of a session, as one value. */
  datatype SessionState = SessionState(
    currentPage: string,
    previousPage: Option<string>,
    customEvent: string,
    eventProperties: Option<PropSpecs>,
    isNewPage: bool,
    timestamp: int)

  /**
   * The outcomes one `update` draws: the timestamp jitter, the decay cycle
   * handed to `get_pages`, the next-page index and the custom-event index.
   */
  datatype StepDraws = StepDraws(offset: int, cycle: int, pagePick: nat, eventPick: nat)

  /** The draws are outcomes the calls of one `update` can produce (nothing is drawn once the session has ended). */
  predicate StepLegal(cfg: Config, batchSize: nat, page: string, d: StepDraws) {
    page != SessionEnd ==>
      && JitterLegal(batchSize, d.offset)
      && PageDrawLegal(cfg, page, d.cycle, d.pagePick)
      && EventDrawLegal(cfg, page, d.eventPick)
  }

  /** `is_active`. */
  predicate Active(st: SessionState) {
    st.currentPage != SessionEnd
  }

  /** The session after `update(timestamp)`. */
  function Step(cfg: Config, batchSize: nat, st: SessionState, timestamp: int, d: StepDraws): (r: SessionState)
    requires ValidConfig(cfg) && (st.currentPage in cfg.pages || st.currentPage == SessionEnd)
    requires StepLegal(cfg, batchSize, st.currentPage, d)
    ensures r.currentPage in cfg.pages || r.currentPage == SessionEnd
  {
    if !Active(st) then st
    else
      var next := NextPage(cfg, st.currentPage, d.cycle, d.pagePick);
      if next != st.currentPage then
        SessionState(next, Some(st.currentPage), PageView, Some([]), true, timestamp + d.offset)
      else
        var (event, props) := CustomEvent(cfg, next, d.eventPick);
        SessionState(next, Some(st.currentPage), event, props, false, timestamp + d.offset)
  }

  /** `update` on an ended session changes nothing, and the session stays ended. */
  lemma InactiveStepIsNoOp(cfg: Config, batchSize: nat, st: SessionState, timestamp: int, d: StepDraws)
    requires ValidConfig(cfg) && !Active(st)
    ensures StepLegal(cfg, batchSize, st.currentPage, d)
    ensures Step(cfg, batchSize, st, timestamp, d) == st
  {
  }

  /**
   * `update` on an active session remembers the page it left, moves along a
   * transition of positive weight, and flags a new page exactly when the
   * page changed.
   */
  lemma StepMovesPage(cfg: Config, batchSize: nat, st: SessionState, timestamp: int, d: StepDraws)
    requires ValidConfig(cfg) && st.currentPage in cfg.pages
    requires StepLegal(cfg, batchSize, st.currentPage, d)
    ensures var r := Step(cfg, batchSize, st, timestamp, d);
            var t := GetPages(cfg, st.currentPage, d.cycle).value;
            && r.previousPage == Some(st.currentPage)
            && (r.isNewPage <==> r.currentPage != st.currentPage)
            && exists i :: 0 <= i < |t.pages| && t.pages[i] == r.currentPage && t.weights[i] > 0.0
  {
  }

  /**
   * The event fields after `update` on an active session: a page change
   * resets them to a page view with `{}`; staying on the page shows a custom
   * event of the page (without prerequisite, of positive probability, with
   * its configured properties), or a page view with `{}` when it has none.
   */
  lemma StepEventFields(cfg: Config, batchSize: nat, st: SessionState, timestamp: int, d: StepDraws)
    requires ValidConfig(cfg) && st.currentPage in cfg.pages
    requires StepLegal(cfg, batchSize, st.currentPage, d)
    ensures var r := Step(cfg, batchSize, st, timestamp, d);
            var page := r.currentPage;
            && (r.isNewPage ==> r.customEvent == PageView && r.eventProperties == Some([]))
            && (!r.isNewPage && GetEvents(cfg, page, None).events == [] ==>
                  r.customEvent == PageView && r.eventProperties == Some([]))
            && (!r.isNewPage && GetEvents(cfg, page, None).events != [] ==>
                  page in cfg.events
                  && exists j :: 0 <= j < |cfg.events[page]| && cfg.events[page][j].0 == r.customEvent
                       && cfg.events[page][j].1.prereq.None? && cfg.events[page][j].1.prob > 0.0
                       && cfg.events[page][j].1.properties == r.eventProperties)
  {
    var r := Step(cfg, batchSize, st, timestamp, d);
    if !r.isNewPage {
      CustomEventConfigured(cfg, st.currentPage, d.eventPick);
    }
  }

  /** The new timestamp lies within the jitter range around the one passed to `update`. */
  lemma StepTimestamp(cfg: Config, batchSize: nat, st: SessionState, timestamp: int, d: StepDraws)
    requires ValidConfig(cfg) && st.currentPage in cfg.pages
    requires StepLegal(cfg, batchSize, st.currentPage, d)
    ensures var r := Step(cfg, batchSize, st, timestamp, d);
            timestamp - JitterRange(batchSize) <= r.timestamp < timestamp + JitterRange(batchSize)
  {
  }

  /** The record's `properties`: the user's referrer and UTM fields, or the generated properties. */
  datatype RecordProperties = ReferrerAndUtm(user: nat) | Generated(props: map<string, PropValue>)

  /** The dict `generate_event` returns; the timestamp is left unformatted. */
  datatype Record = Record(
    eventId: string,
    eventTimestamp: int,
    eventType: string,
    pageUrl: string,
    pageUrlPath: string,
    properties: RecordProperties)

  const SiteUrl: string := "http://www.dummywebsite.com"

  class Event {
    const cfg: Config
    /** The `User` this session belongs to, as an opaque identifier. */
    const user: nat
    const batchSize: nat
    var currentPage: string
    var previousPage: Option<string>
    var customEvent: string
    /** `None` when the chosen event's configuration has no `properties`. */
    var eventProperties: Option<PropSpecs>
    var isNewPage: bool
    /** Milliseconds since a midnight. */
    var currentTimestamp: int

    ghost predicate Valid()
      reads this
    {
      && ValidConfig(cfg)
      && batchSize > 0
      && (currentPage in cfg.pages || currentPage == SessionEnd)
    }

    function State(): SessionState
      reads this
    {
      SessionState(currentPage, previousPage, customEvent, eventProperties, isNewPage, currentTimestamp)
    }

    /**
     * `Event(current_timestamp, user, batch_size)`: a session on a drawn
     * landing page, showing a page view, with a jittered timestamp.
     */
    constructor (cfg: Config, timestamp: int, user: nat, batchSize: nat, landingPick: nat, offset: int)
      requires ValidConfig(cfg) && batchSize > 0
      requires IsDraw(Weights(cfg.tables[LandingPages]), landingPick)
      requires JitterLegal(batchSize, offset)
      ensures Valid()
      ensures this.cfg == cfg && this.user == user && this.batchSize == batchSize
      ensures currentPage in cfg.pages && currentPage == Select(cfg, LandingPages, landingPick).value
      ensures previousPage == None && customEvent == PageView && eventProperties == Some([]) && isNewPage
      ensures timestamp - JitterRange(batchSize) <= currentTimestamp < timestamp + JitterRange(batchSize)
      ensures currentTimestamp == timestamp + offset
    {
      this.cfg := cfg;
      this.user := user;
      this.batchSize := batchSize;
      previousPage := None;
      currentPage := Select(cfg, LandingPages, landingPick).value;
      customEvent := PageView;
      eventProperties := Some([]);
      isNewPage := true;
      currentTimestamp := timestamp;
      new;
      currentTimestamp := RandomizeTimestamp(timestamp, offset);
    }

    /** `randomize_timestamp`: the timestamp shifted by a jitter in [-r, r). */
    method RandomizeTimestamp(timestamp: int, offset: int) returns (r: int)
      requires JitterLegal(batchSize, offset)
      ensures timestamp - JitterRange(batchSize) <= r < timestamp + JitterRange(batchSize)
      ensures r - timestamp == offset
    {
      r := timestamp + offset;
    }

    /** `get_next_page`: move to a drawn transition target. */
    method GetNextPage(cycle: int, pick: nat) returns (page: string)
      requires Valid() && currentPage in cfg.pages && PageDrawLegal(cfg, currentPage, cycle, pick)
      modifies this
      ensures Valid()
      ensures page == currentPage == NextPage(cfg, old(currentPage), cycle, pick)
      ensures previousPage == old(previousPage) && customEvent == old(customEvent)
      ensures eventProperties == old(eventProperties) && isNewPage == old(isNewPage)
      ensures currentTimestamp == old(currentTimestamp)
    {
      currentPage := NextPage(cfg, currentPage, cycle, pick);
      page := currentPage;
    }

    /** `get_custom_event`: show a drawn event of the current page, or a page view when it has none. */
    method GetCustomEvent(pick: nat) returns (event: string, props: Option<PropSpecs>)
      requires Valid() && EventDrawLegal(cfg, currentPage, pick)
      modifies this
      ensures currentPage == old(currentPage) && previousPage == old(previousPage)
      ensures isNewPage == old(isNewPage) && currentTimestamp == old(currentTimestamp)
      ensures Valid()
      ensures (event, props) == (customEvent, eventProperties) == CustomEvent(cfg, currentPage, pick)
    {
      var ch := GetEvents(cfg, currentPage, None);
      ghost var expected := CustomEvent(cfg, currentPage, pick);
      if |ch.events| > 0 {
        assert ch.events[pick] in ch.properties;
        customEvent := ch.events[pick];
        eventProperties := ch.properties[customEvent];
      } else {
        customEvent := PageView;
        eventProperties := Some([]);
      }
      assert (customEvent, eventProperties) == expected;
      event, props := customEvent, eventProperties;
    }

    /** `is_active`. */
    function IsActive(): (r: bool)
      reads this
      ensures r == Active(State())
    {
      currentPage != SessionEnd
    }

    /**
     * `update(timestamp)`: on an active session, jitter the timestamp, move
     * to the next page and choose what the session shows there; returns
     * `(is_new_page, custom_event)`, or `None` once the session has ended.
     */
    method Update(timestamp: int, d: StepDraws) returns (r: Option<(bool, string)>)
      requires Valid() && StepLegal(cfg, batchSize, currentPage, d)
      modifies this
      ensures Valid()
      ensures State() == Step(cfg, batchSize, old(State()), timestamp, d)
      ensures r.None? <==> old(currentPage) == SessionEnd
      ensures r.Some? ==> r.value == (isNewPage, customEvent)
    {
      if IsActive() {
        currentTimestamp := RandomizeTimestamp(timestamp, d.offset);
        previousPage := Some(currentPage);
        var _ := GetNextPage(d.cycle, d.pagePick);
        isNewPage := currentPage != previousPage.value;
        if isNewPage {
          customEvent := PageView;
          eventProperties := Some([]);
        } else {
          var _, _ := GetCustomEvent(d.eventPick);
        }
        return Some((isNewPage, customEvent));
      }
      return None;
    }

    /**
     * `generate_event`: the record of the current step. A page view carries
     * the user's referrer and UTM fields; a custom event carries its
     * generated properties, and fails when generating them fails.
     */
    function GenerateEvent(eventId: string, draws: seq<Draw>): (r: Result<Record, PropertyFailure>)
      reads this
      requires DrawsFitAll(eventProperties, draws)
      ensures r.Ok? ==> && r.value.pageUrlPath == "/" + currentPage
                        && r.value.pageUrl == SiteUrl + r.value.pageUrlPath
                        && r.value.eventType == customEvent
                        && r.value.eventTimestamp == currentTimestamp
                        && r.value.eventId == eventId
      ensures customEvent == PageView ==> r.Ok? && r.value.properties == ReferrerAndUtm(user)
      ensures customEvent != PageView ==>
                (r.Ok? <==> Resolve(eventProperties, draws).Ok?)
                && (r.Ok? ==> r.value.properties == Generated(Resolve(eventProperties, draws).value))
                && (r.Err? ==> r.error == Resolve(eventProperties, draws).error)
    {
      var path := "/" + currentPage;
      if customEvent == PageView then
        Ok(Record(eventId, currentTimestamp, customEvent, SiteUrl + path, path, ReferrerAndUtm(user)))
      else
        match Resolve(eventProperties, draws)
        case Err(e) => Err(e)
        case Ok(props) => Ok(Record(eventId, currentTimestamp, customEvent, SiteUrl + path, path, Generated(props)))
    }
  }
}
