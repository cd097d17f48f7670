# URRI receiver volume as a dimmable light — a Dafny model

The plugin `UrriVolumePlugin` (index.js) presents a network audio receiver's
volume to a smart-home bridge as a lightbulb. Power on/off maps to the
default-on volume or to 0. Brightness is the volume itself. A cached volume
`vol` answers brightness reads. A poll timer re-reads the receiver every
`refreshInterval` milliseconds.

This project models that state machine and proves properties of it. It has
four modules:

- `Decimal` (decimal.dfy) covers the numbers the plugin handles. A cached
  value is an integer or NaN (`Num`). The module also defines the decimal
  text that a template literal makes of an integer (`IntString`) and
  JavaScript's `parseInt(text, 10)` (`ParseInt`), with the lemma that the
  two round-trip.
- `Config` (config.dfy) holds the constructor's config defaulting.
- `Sync` (sync.dfy) is the state machine as functions. `State` holds the cache,
  the default volume and the timer handle. It also records what the outside
  world sees: the poll timers pending in the event loop, the deferred UI
  callbacks, the request paths sent and the pushes to the accessory. Each
  handler is an `Event`, `Step` applies one event and `Run` applies a
  sequence. The lemmas about the handlers, the timer discipline and the
  cache are stated over `Step` and `Run`.
- `UrriVolume` (plugin.dfy) is the class `UrriVolumePlugin`. Its fields and
  handlers follow index.js statement by statement. Each handler is proved to
  produce exactly the new state that `Sync.Step` gives for its event, so the
  `Sync` lemmas hold of the object.

The transport is not modelled as I/O. Each handler takes the reply it gets as
a parameter: `Delivered(body)`, `Failed`, or `Unanswered`. `_send` calls back
only from a `data` or an `error` event (index.js:136-146), so a request that
hangs, or a response with an empty body, never calls back; that is
`Unanswered`. A push to the accessory becomes an
entry in the `pushes` log. The 100 ms deferral in `updateUI` becomes a count
of scheduled callbacks. The `UIFires` event runs one of them, and it reads
`vol` when it fires, not when it was scheduled. Timers are handles in a
pending set, not delays.

Points of the code's behaviour the model makes explicit:

- The poll arms its next timer right after it sends the read (index.js:113),
  outside the read's callback. So polling goes on even if no reply ever
  comes: `PollingGoesOnWithoutReplies` shows that after any number of
  unanswered polls one fresh timer is pending.
- Nothing keeps `vol` within 0..100. A poll stores whatever `parseInt`
  yields, NaN included, and set handlers store any number they are given.
  `PollStoresUnclampedVolume` shows that any integer the receiver reports is
  cached as it is. The model states no range invariant.
- A failed poll pushes an error to both On and Brightness (index.js:109-110).
- A failed set is pushed as an error on the characteristic
  (index.js:65, index.js:84). The handler's own promise still resolves. It
  is not rejected back to the framework.
- The On get-handler awaits its read (index.js:47). When the read never calls
  back, the handler never answers, and its `finally` never runs.
- Nothing cancels the poll timer on teardown.

## Model

| member | source | states |
|---|---|---|
| Config.FromConfig | index.js:15-17 | `defaultVolume` is the configured number or else 10. `address` is the configured string or else "localhost". `refreshInterval` is the configured number or else 1000. |
| Sync.Initial | index.js:14-35 | The constructed state: cache 0, the configured default volume, exactly one poll timer pending, nothing sent, pushed or scheduled. |
| UrriVolume.UrriVolumePlugin.constructor | index.js:9-38 | The new object's state is `Sync.Initial` of the defaulted settings, which includes one armed poll timer. `address` and `refreshInterval` are the defaulted settings. |
| Sync.Step | index.js:44-113 | The effect of each handler. Every event sends at most one request, only appends to the request log and the pushes, and keeps the default volume. The lemmas below state each handler's effect. |
| Sync.DispatchPoll | index.js:97-100 | The poll's first half, before any reply: the old timer is cleared, one fresh timer is pending, one "/getVolume" is sent, and nothing else changes. |
| Sync.PollReply | index.js:102-111 | The poll's reply handler touches neither the timers nor the request log, and does nothing when no reply comes. |
| Sync.PollRearmsOnce | index.js:97-113 | For any reply, a poll replaces the pending timer with exactly one fresh timer. The old timer is no longer pending. |
| Sync.StepKeepsTimerDiscipline | index.js:97-113 | No handler breaks the rule that exactly one poll timer is pending and the handle names it. |
| Sync.RunKeepsTimerDiscipline | index.js:97-113 | The same holds after any sequence of events. |
| Sync.OnePollTimerPending | index.js:35-113 | From construction on, after any number of polls and other events, exactly one poll timer is pending. |
| Sync.PollingGoesOnWithoutReplies | index.js:97-113 | When no poll read is ever answered, each poll still arms the next one: after `k` polls exactly one fresh timer is pending, `k` more reads were sent, and the cache, pushes and UI schedule are unchanged. |
| Sync.StepCache | index.js:44-113 | An event sets the cache to the value it observed. A failed or unanswered call, a deferred UI callback and a brightness of 100 leave the cache unchanged. |
| Sync.RunCachesLastObserved | index.js:44-113 | After any events, the cache holds the most recent value that a successful read or set observed, or the initial value if there was none. |
| Sync.SetVolumePathCarriesLevel | index.js:58-59 | The set path is "/setVolume/" followed by text that parses back to the requested level. |
| Sync.SetOnOutcome | index.js:56-68 | The target is `defaultVolume` for on and 0 for off, and its path is sent. On success the cache becomes the target and one UI update is scheduled. On failure the cache is unchanged and an error is pushed to On. With no reply only the path is sent. Nothing else changes, the timers included. |
| Sync.SetBrightnessHundredIsNoOp | index.js:75-76 | A brightness of exactly 100 changes nothing, whatever the reply: no request, no cache change, no push, nothing scheduled. |
| Sync.SetBrightnessOutcome | index.js:75-88 | For any other level its path is sent. On success the cache becomes the level and one UI update is scheduled. On failure the cache is unchanged and an error is pushed to Brightness. With no reply only the path is sent. Nothing else changes. |
| Sync.SetBrightnessThenGet | index.js:70-88 | After a successful brightness set, the brightness read returns that level. |
| Sync.GetOnOutcome | index.js:44-54 | The On read sends exactly one "/getVolume". On success it caches the parsed value, pushes it to Brightness and answers whether it is positive. On failure it keeps the stale cache, pushes an error to On and answers whether the stale value is positive. With no reply it changes nothing more and never answers. Nothing else changes, the timers included. |
| Sync.PollOutcome | index.js:97-113 | A poll sends one "/getVolume" and, whatever the reply, arms one fresh timer in place of the old one. On success the cache becomes the parsed reply and one UI update is scheduled. On failure the cache is unchanged and errors are pushed to On and to Brightness. With no reply nothing else changes. No other field changes in any case. |
| Sync.PollStoresUnclampedVolume | index.js:102-107 | A poll caches whatever integer the receiver reports. The value is not clamped to 0..100. |
| Sync.UIFiresShowsCurrentVolume | index.js:90-95 | A deferred UI callback pushes (cache > 0, cache) using the cache's value when it fires. |
| Sync.PowerOnWithDefaultFifteen | index.js:56-68 | With default volume 15, a successful power-on sends "/setVolume/15" and caches 15. When the UI update fires, the accessory shows on at brightness 15. |
| Sync.PollReadsFortyTwo | index.js:102-107 | A poll that reads "42" caches 42, and the UI update then shows on at brightness 42. |
| Decimal.ParseInt | index.js:104 | `parseInt(s, 10)`: leading white space skipped, one optional sign, the longest run of digits, NaN when there is none. A negative result needs a '-' right after the white space. |
| Decimal.ParseIntOfIntString | index.js:104 | `parseInt` reads the decimal text of any integer back as that integer, even with non-digit text after it. |
| Decimal.ParseIntWithoutDigits | index.js:104 | Text with no digit parses to NaN. |
| Decimal.TrimStartRemovesLeadingWhiteSpace | index.js:104 | Before reading, `parseInt` drops exactly the leading run of white space. |
| Decimal.DigitPrefixIsLongestRun | index.js:104 | The digits `parseInt` reads are the longest run of digits that the unsigned text starts with. |
| Decimal.NatString | index.js:59 | The decimal numeral of a natural number is non-empty and made only of digits. |
| Decimal.NatStringHasNoLeadingZero | index.js:59 | The numeral has no leading zero, and it starts with '0' only for 0. |
| Decimal.IntString | index.js:59 | An integer's text is non-empty and starts with '-' exactly when the integer is negative. |
| UrriVolume.UrriVolumePlugin.GetOnHandler | index.js:44-54 | The new state is `Sync.Step` for `GetOn(reply)`, the answer is `Sync.GetOnAnswer`, and the timer invariant is kept. The handler never fails; it answers whenever its read calls back. |
| UrriVolume.UrriVolumePlugin.SetOnHandler | index.js:56-68 | The new state is `Sync.Step` for `SetOn(value, reply)`, and the timer invariant is kept. |
| UrriVolume.UrriVolumePlugin.GetBrightnessHandler | index.js:70-73 | Answers the cached volume, `Sync.Brightness`, and changes nothing. No request is sent. |
| UrriVolume.UrriVolumePlugin.SetBrightnessHandler | index.js:75-88 | The new state is `Sync.Step` for `SetBrightness(value, reply)`, so a level of 100 leaves the object unchanged. |
| UrriVolume.UrriVolumePlugin.UpdateUI | index.js:90-91 | Schedules exactly one more deferred UI callback and touches nothing else. |
| UrriVolume.UrriVolumePlugin.UIFires | index.js:91-94 | The new state is `Sync.Step` for `UIFires`: it pushes On and Brightness from the cache as it is at that moment. |
| UrriVolume.UrriVolumePlugin.Poll | index.js:97-114 | The new state is `Sync.Step` for `PollFires(reply)`. Afterwards exactly one poll timer is pending. |
| UrriVolume.UrriVolumePlugin.PollCallback | index.js:102-112 | The poll's reply handler produces `Sync.PollReply`. |
| UrriVolume.SetThenGetBrightness | index.js:70-88 | On the object, a successful brightness set followed by a brightness read returns the level set. It sends only the one set request. |

## Left out

- The HTTP transport `_send` (index.js:130-149): host, port 9032, POST, and the `data` and `error` events are left out. A handler receives the reply as a parameter. `_send` calls back once per body chunk; the model assumes a non-empty body arrives as one reply, and an empty body as no reply.
- `_getData` (index.js:116-128) is its `/getVolume` request plus `parseInt`, which `GetOnHandler` does inline. The Promise wrapper is left out.
- Concurrency: a request and its reply are handled in the same step, so a reply that arrives after later events is not modelled. A state a race leaves need not be reachable by any sequence of `Sync.Step` events. For example, a poll read sent, then a brightness set of 50 that succeeds, then the poll's reply "30", leaves the request log in dispatch order, the cache at 30, two UI updates scheduled and no pushes. No event sequence gives that log and that cache with two UI updates scheduled.
- Timer delays: the 100 ms UI deferral and the `refreshInterval` wait are not modelled as time. Timers are handles in a pending set, and deferred UI callbacks are a count.
- The bridge's framework calls are left out: `api.registerAccessory`, the `Service` and `Characteristic` objects, `onGet`/`onSet` binding, `getServices`, and the manufacturer and model information (index.js:4-6, index.js:22-33, index.js:40-42). A push to a characteristic is an entry in `pushes`. An error push records only which characteristic it went to, not the error's message.
- Logging (`this.log`), and the config `name`, which is used only for logging and the service's name.
- JavaScript numbers are modelled as integers or NaN. Fractional numbers are not modelled, in the config or from the accessory. The model's integers are exact and always written in plain decimal. JavaScript rounds integers beyond 2^53 and writes magnitudes of 10^21 and more in exponent form, so `PollStoresUnclampedVolume`, `ParseIntOfIntString` and `SetVolumePathCarriesLevel` hold of the code only below those magnitudes. A `parseInt` of "-0" yields JavaScript's negative zero; the model yields 0, which compares the same against 0.
- Decimal.ParseInt: only radix 10 is modelled, the radix the code passes. The white space it skips is the ECMAScript set as of Unicode 15.
- Config.FromConfig: a config property's type is reduced to number, string or anything else. An absent key reads as JavaScript's `undefined`, so it falls under "anything else".
