# fake-web-events, modelled in Dafny

fake-web-events generates synthetic clickstream data. A configuration holds
three things:

- weighted tables: the landing pages, and for each page its outgoing
  transitions with a decay schedule;
- per-page custom events, with prerequisites, probabilities and property
  specifications;
- a visit weight for each hour of the day.

A `Simulation` keeps a simulated clock and a list of open user sessions.
Each step:

1. Every session (an `Event`) is updated. It moves to a drawn next page, or
   stays and shows a custom event. Sessions that reach `session_end` are
   dropped.
2. New sessions are spawned at the rate for the current hour.
3. The clock advances by about `batch_size` seconds.
4. One record is emitted for every session that is on a new page or shows
   a custom event, in list order. A record whose properties cannot be built
   raises, and that ends the emission: no later session is reported.

This project models that core in six modules:

- `Wrappers`: `Option` and `Result`, which stand for Python's `None` and
  for raised exceptions.
- `Config`: the loaded configuration. Python dicts become ordered tables
  `seq<(string, V)>`, and weights are `real`.
- `WeightedRandom` (fake_web_events/utils.py): `select`, `get_pages` with
  its decay blend, and `get_events` with its prerequisite filter, as pure
  functions of the configuration.
- `Properties` (`create_properties` in fake_web_events/event.py): the
  type-directed dispatch as a specification function (`ResolveAll`). The
  `for` and `while` loops are methods proved equal to it.
- `Sessions` (fake_web_events/event.py): the session as a class `Event`
  whose methods update its fields in place. The step they perform is also
  a pure function (`Step`), and the properties of the step are proved
  about that function.
- `Simulations` (fake_web_events/simulation.py): the driver as a class
  `Simulation` whose session list is a `seq<Event>` field. The methods
  append to that list, remove from it and advance the clock. The emission
  loop of `run` builds each record with the session's `asdict()` and stops
  at the first one that fails (`EmitAll`).

Every random outcome is an input of the operation that consumes it,
restricted to what the draw can return. This covers the index
`random.choices` returns, the `randrange` jitter, the decay cycle, the
ratio of a session's start, and Faker's values. An index drawn by
`random.choices` is one whose weight is positive. Times are integer
milliseconds counted from a midnight.

## Model

| member | source | states |
|---|---|---|
| WeightedRandom.Select | fake_web_events/utils.py:42-50 | Succeeds exactly when the named table exists and has an entry of positive weight. The result is the key of an entry of positive weight, so it is one of the table's keys. |
| WeightedRandom.GetPages | fake_web_events/utils.py:52-66 | Pages and weights have the same length. It fails exactly when the page has no entry, or when the decay branch would divide by `max_decay_cycles == 0`. |
| WeightedRandom.OthersSpec | fake_web_events/utils.py:59 | The targets other than `page` are every configured target except `page`, in configured order, each with its configured weight. |
| WeightedRandom.GetPagesDecay | fake_web_events/utils.py:58-60 | While `curr_cycle <= max_cycle`, every other target (exactly those, in configured order) has weight `configured * curr_cycle / max_cycle`. `page` appears exactly once, last, with weight `1 - sum(others)`, so the weights sum to 1. |
| WeightedRandom.GetPagesRaw | fake_web_events/utils.py:61-66 | Past the decay window, the configured table is returned unchanged and in order. |
| WeightedRandom.GetPagesRawAligned | fake_web_events/utils.py:64-66 | Past the decay window, `weights[i]` is the configured weight of `pages[i]`. |
| WeightedRandom.ChosenSpec | fake_web_events/utils.py:74-78 | The chosen events are exactly the entries whose prerequisite is the requested one, or, when none has it, exactly those without a prerequisite, in configured order. |
| WeightedRandom.GetEvents | fake_web_events/utils.py:68-84 | Events and weights have equal length. The modal map and the properties map both have exactly the returned events as keys. |
| WeightedRandom.GetEventsMissingPage | fake_web_events/utils.py:84 | A page with no events entry gives no events, no weights, no properties and no prerequisite match. Python returns the list `[]` as the modal result; the model's modal result is the empty map, since the model types it as a map. |
| WeightedRandom.GetEventsSelection | fake_web_events/utils.py:74-78 | With the flag set, the result is exactly the page's events with the given prerequisite. With it clear, no event has that prerequisite and the result is exactly the events without one. Either way the order is the configured order. |
| WeightedRandom.GetEventsAligned | fake_web_events/utils.py:79-82 | `weights[i]` is the `prob` of `events[i]`. `modal[events[i]]` is its `modal`, with a missing or None value read as False. `properties[events[i]]` is its `properties`. |
| WeightedRandom.TransitionsHaveDraw | fake_web_events/utils.py:56-66 | In a valid configuration, the weights `get_pages` returns always have a positive entry, so the next-page draw cannot fail. |
| WeightedRandom.TransitionTargetsKnown | fake_web_events/utils.py:56-66 | In a valid configuration, every page `get_pages` offers is a configured page or `session_end`. |
| Sessions.NextPage | fake_web_events/event.py:39-40 | The drawn next page is one of the pages `get_pages` offered, and it is configured or `session_end`. |
| Sessions.PageDrawExists | fake_web_events/event.py:39-40 | From every configured page of a valid configuration, some legal next-page draw exists. |
| Sessions.CustomEventConfigured | fake_web_events/event.py:44-55 | A page with events of no prerequisite yields one of them, with positive probability and its configured properties. Any other page yields `pageview` with `{}`. |
| Sessions.EventDrawExists | fake_web_events/event.py:48-50 | Every configured page of a valid configuration admits a legal custom-event draw. |
| Sessions.Step | fake_web_events/event.py:152-167 | The session's page after a step is still configured or `session_end`. |
| Sessions.InactiveStepIsNoOp | fake_web_events/event.py:152-157 | A step of a session on `session_end` draws nothing and changes no field. |
| Sessions.StepMovesPage | fake_web_events/event.py:156-160 | An active step records the page it left in `previous_page` and moves along a transition of positive weight. `is_new_page` holds exactly when the page changed. |
| Sessions.StepEventFields | fake_web_events/event.py:161-165 | On a page change, the event becomes `pageview` with `{}`. On the same page, it becomes a configured event of the page (no prerequisite, positive probability, its properties), or `pageview` with `{}` when the page has none. |
| Sessions.StepTimestamp | fake_web_events/event.py:157 | The new timestamp lies in `[t - r, t + r)` around the timestamp `t` passed to `update`. |
| Sessions.Event.constructor | fake_web_events/event.py:16-25 | A new session is on a drawn landing page, which is configured. It has no previous page, shows `pageview` with `{}`, is flagged new, and its timestamp is jittered within `[t - r, t + r)`. |
| Sessions.Event.RandomizeTimestamp | fake_web_events/event.py:27-33 | The timestamp is shifted by the drawn offset, which lies in `[-r, r)` with `r = 300 * batch_size` milliseconds. |
| Sessions.Event.GetNextPage | fake_web_events/event.py:35-42 | `current_page` becomes the drawn next page and is returned. No other field changes. |
| Sessions.Event.GetCustomEvent | fake_web_events/event.py:44-55 | `custom_event` and `event_properties` become the drawn event and its properties, or `pageview` with `{}` when the page has no events. Both are returned, and no other field changes. |
| Sessions.Event.IsActive | fake_web_events/event.py:146-150 | True exactly when the session is not on `session_end`. |
| Sessions.Event.Update | fake_web_events/event.py:152-167 | The new state is `Step` of the old one. It returns `(is_new_page, custom_event)`, or None exactly when the session had already ended. |
| Sessions.Event.GenerateEvent | fake_web_events/event.py:106-130 | The record has `page_url_path = '/' + current_page`, `page_url = 'http://www.dummywebsite.com' + page_url_path`, and `event_type = custom_event`. A page view carries the user's referrer and UTM fields. A custom event carries exactly the generated properties, and fails exactly when generating them fails. |
| Properties.Ceil | fake_web_events/event.py:76 | `math.ceil`: the least integer not below `x`. |
| Properties.FirstInRange | fake_web_events/event.py:78-79 | The candidate the rejection loop stops at lies in `[min_, max_]` and is one of the candidates. There is none exactly when every candidate is rejected. |
| Properties.FirstInRangeAt | fake_web_events/event.py:78-79 | When all earlier candidates are rejected and `tries[m]` is accepted, the loop yields `tries[m]`. |
| Properties.RejectionSample | fake_web_events/event.py:75-80 | The `while` loop yields a value only inside `[min_, max_]`, and it yields the first accepted candidate. |
| Properties.PropertyValue | fake_web_events/event.py:64-100 | A `string` value is one of the listed values. An `int` value lies in `[values[0], values[-1]]`, and so does a `float` value. Exactly an unknown type yields no key. Only `float` can fail to exit. |
| Properties.ResolveOne | fake_web_events/event.py:64-100 | One loop iteration computes exactly that property's value or failure, running the float loop when needed. |
| Properties.ResolveAllNext | fake_web_events/event.py:63-101 | One more property either adds its value under its name, adds nothing for an unknown type, or fails. |
| Properties.CreateProperties | fake_web_events/event.py:57-104 | The loop returns exactly the specification `Resolve`: `{}` for no specs, otherwise the dict built property by property, or the first failure as the single exception. |
| Properties.FailureIsFinal | fake_web_events/event.py:62-104 | Once a property has failed, later properties change nothing: the exception propagates. |
| Properties.ResolvedEntry | fake_web_events/event.py:63-101 | In a successful result, each property's own value is stored under its name, and a property of unknown type stores nothing. |
| Properties.KeysFromSpecs | fake_web_events/event.py:63-101 | Every key of the result is the name of one of the specs. |
| Properties.NoSpecsGiveEmptyProps | fake_web_events/event.py:58-60 | None or an empty spec gives `{}`. |
| Properties.UnknownTypeAddsNoKey | fake_web_events/event.py:99-100 | A property of an unknown type adds no key. |
| Properties.IntPropertyInBounds | fake_web_events/event.py:68-71 | An `int` property's value lies in `[values[0], values[-1]]`. |
| Properties.FloatPropertyInBounds | fake_web_events/event.py:72-80 | A `float` property's value lies in `[values[0], values[-1]]`. |
| Properties.BooleanPropertyFails | fake_web_events/event.py:66-67 | A `boolean` entry compares instead of assigning, so it always makes `create_properties` raise. |
| Properties.ReversedFloatBoundsNeverExit | fake_web_events/event.py:72-80 | With `values[0] > values[-1]`, no candidate is accepted, so the float loop never exits. (When `floor(values[0]) > ceil(values[-1])`, Python raises in `pyfloat` first; see "Left out".) |
| Simulations.Hour | fake_web_events/simulation.py:86 | `cur_time.hour` lies in 0..23, and `t` falls within that hour of some day. |
| Simulations.StepsPerHour | fake_web_events/simulation.py:76-80 | Positive, and its product with `batch_size` is 3600. |
| Simulations.RatePerStep | fake_web_events/simulation.py:82-87 | The rate is `visits_per_hour[hour] * sessions_per_day * batch_size / 3600`. It is non-negative when the hour's weight is. |
| Simulations.DurationOf | fake_web_events/simulation.py:65-74 | Hours lie in 0..23, and minutes and seconds in 0..59. `days*86400 + hours*3600 + minutes*60 + seconds` is the whole-second duration. |
| Simulations.SessionRatio | fake_web_events/simulation.py:102-108 | Every growth branch yields a ratio in [0, 1]. The exponential ratio is positive, and the uniform ratio is below 1. |
| Simulations.SessionStart | fake_web_events/simulation.py:109 | A start computed from a ratio in [0, 1] lies in `[init_time, stop_time]`. Ratio 0 gives `init_time` and ratio 1 gives `stop_time`. |
| Simulations.ReportableOnly | fake_web_events/simulation.py:143-147 | Keeps exactly the listed sessions that are on a new page or show a custom event, as a subsequence of the list: in their listed order. |
| Simulations.EmitAll | fake_web_events/simulation.py:143-147 | The sessions reported are a prefix of the reportable ones, in list order, with one record each. When no record fails, every reportable session is reported. |
| Simulations.EmitFailureCause | fake_web_events/simulation.py:143-147 | The emission ends early only at a reportable session showing a custom event whose `asdict()` fails, with that failure. A page view never ends it. |
| Simulations.EmitRecordAt | fake_web_events/simulation.py:143-147 | Each record handed out is the `asdict()` of the session reported with it, built with that session's event id and draws. |
| Simulations.EmitFailureIsFinal | fake_web_events/simulation.py:143-147 | Once a record has failed, the sessions after it change nothing: the generator has ended. |
| Simulations.EmitNext | fake_web_events/simulation.py:143-147 | One more session: it adds its record when it is reportable and nothing has failed yet, and its failure otherwise. |
| Simulations.EmitLoop | fake_web_events/simulation.py:143-147 | The `for` loop over the sessions computes exactly `EmitAll`, stopping at the first failed record. |
| Simulations.RemoveFirst | fake_web_events/simulation.py:132 | `list.remove` needs the element to be listed (Python raises `ValueError` otherwise), and shortens the list by one. |
| Simulations.RemoveFirstAfter | fake_web_events/simulation.py:132 | Removing an element whose first occurrence follows `a` leaves `a` followed by the rest. Every list holding the element splits this way, so this says which occurrence goes. |
| Simulations.KeepActiveSubset | fake_web_events/simulation.py:128-132 | Every session still listed afterwards was listed before. |
| Simulations.KeepActiveOmits | fake_web_events/simulation.py:128-132 | A session that was not listed is not listed afterwards. |
| Simulations.KeepActiveOrder | fake_web_events/simulation.py:128-132 | The remaining sessions are a subsequence of the list: they keep their original relative order. |
| Simulations.KeepActiveSpec | fake_web_events/simulation.py:128-132 | The remaining sessions are exactly those whose new state is active, and they stay distinct. |
| Simulations.KeepActiveStep | fake_web_events/simulation.py:129-132 | Deciding one more session keeps it exactly when its new state is active. |
| Simulations.KeepActiveNext | fake_web_events/simulation.py:129-132 | Removing the just-updated session when it ended turns "kept so far + not yet visited" into the same shape one position further on. |
| Simulations.UpdatedSessions | fake_web_events/simulation.py:128-132 | Once every session has been stepped, each is in its expected state. The remaining sessions are distinct, well formed and active. |
| Simulations.StepAll | fake_web_events/simulation.py:128-132 | One new state per listed session. |
| Simulations.StepAllAt | fake_web_events/simulation.py:129-130 | Session k's new state is one `update` of its old state, at its own timestamp plus the elapsed time, with its own draws. |
| Simulations.Simulation.constructor | fake_web_events/simulation.py:16-41 | Needs `sim_days > 0`. Sets `stop_time = init_time + sim_days` days. Starts with no sessions, `qty_events = 0`, the clock at `init_time`, and the rate of that hour. |
| Simulations.Simulation.GetDuration | fake_web_events/simulation.py:59-74 | The elapsed simulated time, split into days, hours 0..23, minutes 0..59 and seconds 0..59, which add up to its whole seconds. |
| Simulations.Simulation.Wait | fake_web_events/simulation.py:89-96 | The clock grows by `batch_size + offset` seconds, which is at least `batch_size` with `always_forward`. The clock always moves forward. The rate is recomputed for the new hour, and the sessions are unchanged. |
| Simulations.Simulation.RandomizeSessTs | fake_web_events/simulation.py:98-109 | A new session's start lies in `[init_time, stop_time]`. |
| Simulations.Simulation.CreateSessions | fake_web_events/simulation.py:111-126 | Appends exactly `int(rate)` or `int(rate) + 1` fresh sessions at the end. Each starts in the state drawn for it, on a new page showing `pageview`. The existing entries are unchanged and in order. |
| Simulations.Simulation.AddSession | fake_web_events/simulation.py:118-124 | Appends one fresh session, started at a random time within the span, and keeps the list valid. |
| Simulations.Simulation.Stepped | fake_web_events/simulation.py:128-130 | One new state per listed session, each one step at its own timestamp plus `get_curr_duration()`. |
| Simulations.Simulation.UpdateAllSessions | fake_web_events/simulation.py:128-132 | Every session listed at the start is updated exactly once, to its `Stepped` state. The list becomes exactly those still active, in their original order, and the clock is unchanged. |
| Simulations.Simulation.UpdateStep | fake_web_events/simulation.py:129-132 | One iteration: session i reaches its expected state, the other sessions are untouched, and the list advances by one decided session. |
| Simulations.Simulation.UpdateSession | fake_web_events/simulation.py:130-132 | The session, which is listed, takes its step, and it is removed from the list exactly when it has ended. |
| Simulations.Simulation.Emit | fake_web_events/simulation.py:143-147 | The emission loop over the listed sessions is `EmitAll`. When no record fails, every session on a new page is reported. |
| Simulations.Simulation.UpdateAndCreate | fake_web_events/simulation.py:140-141 | Every listed session took its `Stepped` state. The new list is the sessions still active, in their order, followed by `int(rate)` or `int(rate) + 1` fresh sessions in their drawn states, each on a new page showing `pageview`. The clock is unchanged. |
| Simulations.Simulation.Tick | fake_web_events/simulation.py:140-142 | The first three calls of one iteration of `run`: the same new list and states as `UpdateAndCreate`. Then `wait(self.always_forward)`: the clock advances by `batch_size + offset` seconds, at least `batch_size` with `always_forward`, and the rate is that of the new hour. |

## Left out

- Loading the configuration (`load_config`, fake_web_events/utils.py:15-31) is file and YAML I/O. The configuration is a parameter, and `ValidConfig` states what the engine relies on in it. This includes a non-zero `max_decay_cycles` for every page; `GetPages` still models the division by zero.
- `User`, `UserPool` and the user fields `asdict` merges into a record are left out. fake_web_events/user.py is not part of this model. A user is an opaque number, and a page view's referrer and UTM fields are `ReferrerAndUtm(user)`.
- Faker and dateutil values (`uuid4`, emails, phone numbers, addresses, `local_latlng`, `date_time_between_dates`, `parser.parse`) are opaque tokens given as inputs. `strftime` formatting of the timestamp is not modelled: records carry the integer timestamp.
- Randomness is modelled by outcomes, not by probabilities: each draw is an input constrained to the values it can take. `random.choices` is taken to pick only entries of positive weight. The behaviour of a table with negative weights is not modelled.
- `run`'s wall-clock loop (`time()`), `get_len_sessions`, `__str__` and the `json.dumps` output are left out. One iteration of the loop is `Tick` followed by `Emit`. The generator's laziness is not modelled: `Emit` returns at once the records a consumer would receive before the generator ends.
- Floating-point arithmetic is not modelled: weights and rates are exact reals.
- Sessions.Event.RandomizeTimestamp: the jitter half-range is exactly `300 * batch_size` ms. It does not model the float truncation of `int(batch_size * 0.3 * 1000)`, which can be one less.
- Simulations.Simulation.Wait: the offset is an integer number of seconds in `[min_range, max_range)`. It does not model `randrange` being handed the non-integer float bounds `batch_size * 0.3`.
- Simulations.SessionStart: the start is floored to the millisecond, whereas Python keeps microseconds.
- Simulations.Simulation.constructor: `sim_days` is an integer, and the configuration is passed in instead of loaded from `config_path`.
- Sessions.Step: the shown event.py is an older generation than utils.py and simulation.py, and their calls do not match. The model takes the intended step and does not reproduce the Python errors:
  - `get_pages` is called with a decay cycle that is a drawn input (`StepDraws.cycle`);
  - `get_events` is called with no prerequisite, and its event list, weights and properties are used, rather than unpacking three of its five results;
  - `len(events>0)` is read as `len(events) > 0`.
- Simulations.Simulation.CreateSessions: it uses the `Event` constructor with the arguments of event.py, namely start time, user and batch size. simulation.py's extra `always_forward` and `config_path` arguments are dropped.
- Simulations.Simulation.UpdateAllSessions: `update` receives only the timestamp; simulation.py's extra `always_forward` argument is dropped.
- Simulations.Simulation.Emit: each session's event id (`uuid4`) and property draws are inputs, one per listed session. A float loop that never exits (`NoExit`) ends the emission just as an exception does, since no later record is produced in either case.
- Properties.RejectionSample: `pyfloat`'s successive results are a finite list of candidates. Running out of candidates is the failure `NoExit`, which stands for a loop that does not terminate. With reversed bounds the model always gives `NoExit`. Python loops forever only when `floor(values[0]) <= ceil(values[-1])`. Otherwise `pyfloat` rejects its own arguments, and Python raises the configuration exception (`NotConfigured`) instead.
- Sessions.Event.constructor: requires `batch_size > 0`. With `batch_size == 0`, Python's `randrange(0, 0)` in `randomize_timestamp` raises `ValueError` (fake_web_events/event.py:32); that error path is not modelled.
- Simulations.Simulation.constructor: requires `batch_size > 0`. With `batch_size == 0`, Python's `3600 / batch_size` raises `ZeroDivisionError` (fake_web_events/simulation.py:80, reached from the constructor at line 40); that error path is not modelled.
- Simulations.StepsPerHour and Simulations.RatePerStep: require `batch_size > 0`, for the same division.
- Properties.PropertyValue: the model does not reproduce what Faker would do with these cases, and treats them as the configuration exception:
  - a scalar `values` for `string` (Python would pick a character of it);
  - non-integer bounds for `int`;
  - non-string bounds for `date` and `datetime`.
  `pyfloat`'s own argument checks are not modelled.
- `qty_events` is never updated by the simulation, and the model keeps it constant.
