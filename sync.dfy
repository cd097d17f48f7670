/**
  The volume plugin's synchronisation logic as a state machine. A state holds
  the cached volume, the default-on volume, the poll timer handle, and what
  the outside world has seen of the plugin: the timers pending in the event
  loop, the callbacks deferred by the UI update, the request paths sent to the
  receiver and the values and errors pushed to the accessory. Every handler is
  one step; the transport's answer, or its silence, arrives with the step as
  a `Reply`.
 */
module Sync {
  import opened Decimal
  import Config

  datatype Option<T> = None | Some(value: T)

  /** A timer handle returned by the event loop's `setTimeout`. */
  type TimerId = nat

  /** What the transport reports for one request: the response body, an
      error, or nothing at all (a request that hangs, or a response with an
      empty body, never calls back). */
  datatype Reply = Delivered(body: string) | Failed | Unanswered

  /** One update pushed to the accessory: a value or an error for the On or
      the Brightness characteristic. */
  datatype Push = OnValue(on: bool) | BrightnessValue(level: Num) | OnError | BrightnessError

  /** The events that drive the plugin: the accessory's get and set handlers,
      the deferred UI callback firing, and the poll timer firing. */
  datatype Event =
    | GetOn(reply: Reply)
    | SetOn(on: bool, reply: Reply)
    | SetBrightness(level: int, reply: Reply)
    | UIFires
    | PollFires(reply: Reply)

  datatype State = State(
    vol: Num,
    defaultVolume: int,
    timer: Option<TimerId>,
    pending: set<TimerId>,
    nextTimer: TimerId,
    scheduledUI: nat,
    sent: seq<string>,
    pushes: seq<Push>)

  const GetVolumePath := "/getVolume"

  function SetVolumePath(level: int): string {
    "/setVolume/" + IntString(level)
  }

  /** The volume a power command asks for. */
  function PowerTarget(on: bool, defaultVolume: int): int {
    if on then defaultVolume else 0
  }

  /** The state right after construction: volume 0 and one poll timer armed. */
  function Initial(settings: Config.Settings): (s: State)
    ensures s.vol == Int(0) && s.defaultVolume == settings.defaultVolume
    ensures TimerDiscipline(s) && |s.pending| == 1
    ensures s.sent == [] && s.pushes == [] && s.scheduledUI == 0
  {
    State(Int(0), settings.defaultVolume, Some(0), {0}, 1, 0, [], [])
  }

  /** A volume write: send the path; on success cache the target and schedule
      a UI update, on failure push `error`, and with no reply do nothing more. */
  function Write(s: State, target: int, reply: Reply, error: Push): State {
    var s' := s.(sent := s.sent + [SetVolumePath(target)]);
    match reply
    case Delivered(_) => s'.(vol := Int(target), scheduledUI := s'.scheduledUI + 1)
    case Failed => s'.(pushes := s'.pushes + [error])
    case Unanswered => s'
  }

  /** The poll's first half: clear the handle's timer, send the read, and arm
      the next timer at once, before any reply. */
  function DispatchPoll(s: State): (r: State)
    ensures TimerDiscipline(s) ==> TimerDiscipline(r) && r.pending == {s.nextTimer}
    ensures r.sent == s.sent + [GetVolumePath]
    ensures r.vol == s.vol && r.defaultVolume == s.defaultVolume
    ensures r.scheduledUI == s.scheduledUI && r.pushes == s.pushes
  {
    var cleared := if s.timer.Some? then s.pending - {s.timer.value} else s.pending;
    s.(timer := Some(s.nextTimer), pending := cleared + {s.nextTimer},
       nextTimer := s.nextTimer + 1, sent := s.sent + [GetVolumePath])
  }

  /** The poll's reply handler: cache the reading and schedule a UI update,
      or push an error to both characteristics; it never runs without a reply.
      It touches neither the timers nor the request log. */
  function PollReply(s: State, reply: Reply): (r: State)
    ensures r.timer == s.timer && r.pending == s.pending && r.nextTimer == s.nextTimer
    ensures r.sent == s.sent && r.defaultVolume == s.defaultVolume
    ensures reply.Unanswered? ==> r == s
  {
    match reply
    case Delivered(body) => s.(vol := ParseInt(body), scheduledUI := s.scheduledUI + 1)
    case Failed => s.(pushes := s.pushes + [OnError, BrightnessError])
    case Unanswered => s
  }

  /** One event. Every handler sends at most one request and only appends to
      the request log and to the pushes; the default volume never changes. */
  function Step(s: State, e: Event): (r: State)
    ensures r.defaultVolume == s.defaultVolume
    ensures |s.sent| <= |r.sent| <= |s.sent| + 1 && r.sent[..|s.sent|] == s.sent
    ensures |s.pushes| <= |r.pushes| && r.pushes[..|s.pushes|] == s.pushes
  {
    match e
    case GetOn(reply) =>
      var s' := s.(sent := s.sent + [GetVolumePath]);
      (match reply
       case Delivered(body) =>
         var level := ParseInt(body);
         s'.(vol := level, pushes := s'.pushes + [BrightnessValue(level)])
       case Failed => s'.(pushes := s'.pushes + [OnError])
       case Unanswered => s')
    case SetOn(on, reply) => Write(s, PowerTarget(on, s.defaultVolume), reply, OnError)
    case SetBrightness(level, reply) =>
      if level == 100 then s else Write(s, level, reply, BrightnessError)
    case UIFires =>
      if s.scheduledUI == 0 then s
      else s.(scheduledUI := s.scheduledUI - 1,
              pushes := s.pushes + [OnValue(IsPositive(s.vol)), BrightnessValue(s.vol)])
    case PollFires(reply) => PollReply(DispatchPoll(s), reply)
  }

  /** What the On get-handler answers: the sign of the cache after its read,
      or nothing when the read never calls back and the handler never settles. */
  function GetOnAnswer(s: State, reply: Reply): Option<bool> {
    if reply.Unanswered? then None else Some(IsPositive(Step(s, GetOn(reply)).vol))
  }

  /** What the Brightness get-handler answers: the cache, with no request. */
  function Brightness(s: State): Num {
    s.vol
  }

  /** The state after the events `events`, in order. */
  function Run(s: State, events: seq<Event>): State
    decreases |events|
  {
    if events == [] then s else Step(Run(s, events[..|events| - 1]), events[|events| - 1])
  }

  // ---------------------------------------------------------------------
  // The poll timer: exactly one pending, and it is the one the handle names

  ghost predicate TimerDiscipline(s: State) {
    s.timer.Some? && s.pending == {s.timer.value} && s.timer.value < s.nextTimer
  }

  /** Each poll replaces the pending timer with exactly one fresh one,
      whatever the reply. */
  lemma PollRearmsOnce(s: State, reply: Reply)
    requires TimerDiscipline(s)
    ensures var s' := Step(s, PollFires(reply));
      TimerDiscipline(s') && s'.pending == {s.nextTimer} && s.timer.value !in s'.pending
  {
  }

  lemma StepKeepsTimerDiscipline(s: State, e: Event)
    requires TimerDiscipline(s)
    ensures TimerDiscipline(Step(s, e))
  {
  }

  lemma {:induction false} RunKeepsTimerDiscipline(s: State, events: seq<Event>)
    requires TimerDiscipline(s)
    ensures TimerDiscipline(Run(s, events))
    decreases |events|
  {
    if events != [] {
      RunKeepsTimerDiscipline(s, events[..|events| - 1]);
      StepKeepsTimerDiscipline(Run(s, events[..|events| - 1]), events[|events| - 1]);
    }
  }

  /** From construction on, whatever happens, one poll timer is pending. */
  lemma OnePollTimerPending(config: Config.Config, events: seq<Event>)
    ensures |Run(Initial(Config.FromConfig(config)), events).pending| == 1
  {
    RunKeepsTimerDiscipline(Initial(Config.FromConfig(config)), events);
  }

  // ---------------------------------------------------------------------
  // The cache: changed by successful transport calls only

  /** The value an event stores in the cache, if it stores one. */
  function Observed(defaultVolume: int, e: Event): Option<Num> {
    match e
    case GetOn(Delivered(body)) => Some(ParseInt(body))
    case SetOn(on, Delivered(_)) => Some(Int(PowerTarget(on, defaultVolume)))
    case SetBrightness(level, Delivered(_)) => if level == 100 then None else Some(Int(level))
    case PollFires(Delivered(body)) => Some(ParseInt(body))
    case _ => None
  }

  /** The most recent value the events stored, or `initial` if none did. */
  function LastObserved(defaultVolume: int, events: seq<Event>, initial: Num): Num
    decreases |events|
  {
    if events == [] then initial
    else match Observed(defaultVolume, events[|events| - 1])
      case Some(v) => v
      case None => LastObserved(defaultVolume, events[..|events| - 1], initial)
  }

  /** One step sets the cache to what it observed and otherwise leaves it
      alone; in particular every failed call keeps the old value. */
  lemma StepCache(s: State, e: Event)
    ensures Step(s, e).defaultVolume == s.defaultVolume
    ensures Step(s, e).vol == match Observed(s.defaultVolume, e)
      case Some(v) => v
      case None => s.vol
  {
  }

  /** After any events, the cache holds the most recently observed or set value. */
  lemma {:induction false} RunCachesLastObserved(s: State, events: seq<Event>)
    ensures Run(s, events).defaultVolume == s.defaultVolume
    ensures Run(s, events).vol == LastObserved(s.defaultVolume, events, s.vol)
    decreases |events|
  {
    if events != [] {
      var before := events[..|events| - 1];
      RunCachesLastObserved(s, before);
      StepCache(Run(s, before), events[|events| - 1]);
    }
  }

  // ---------------------------------------------------------------------
  // The handlers one at a time

  /** A path names the level it sets: the receiver reads `level` back from it. */
  lemma SetVolumePathCarriesLevel(level: int)
    ensures var p := SetVolumePath(level);
      |p| > 11 && p[..11] == "/setVolume/" && ParseInt(p[11..]) == Int(level)
  {
    ParseIntOfIntStringAlone(level);
    assert SetVolumePath(level)[11..] == IntString(level);
  }

  lemma SetOnOutcome(s: State, on: bool, reply: Reply)
    ensures var s' := Step(s, SetOn(on, reply));
      var target := if on then s.defaultVolume else 0;
      var sent := s.sent + ["/setVolume/" + IntString(target)];
      && (reply.Delivered? ==>
            s' == s.(sent := sent, vol := Int(target), scheduledUI := s.scheduledUI + 1))
      && (reply.Failed? ==> s' == s.(sent := sent, pushes := s.pushes + [OnError]))
      && (reply.Unanswered? ==> s' == s.(sent := sent))
  {
  }

  /** A brightness command of exactly 100 sends nothing, changes nothing and
      pushes nothing. */
  lemma SetBrightnessHundredIsNoOp(s: State, reply: Reply)
    ensures Step(s, SetBrightness(100, reply)) == s
  {
  }

  lemma SetBrightnessOutcome(s: State, level: int, reply: Reply)
    requires level != 100
    ensures var s' := Step(s, SetBrightness(level, reply));
      var sent := s.sent + ["/setVolume/" + IntString(level)];
      && (reply.Delivered? ==>
            s' == s.(sent := sent, vol := Int(level), scheduledUI := s.scheduledUI + 1))
      && (reply.Failed? ==> s' == s.(sent := sent, pushes := s.pushes + [BrightnessError]))
      && (reply.Unanswered? ==> s' == s.(sent := sent))
  {
  }

  /** A brightness set that succeeded is what the next brightness get returns. */
  lemma SetBrightnessThenGet(s: State, level: int, body: string)
    requires level != 100
    ensures Brightness(Step(s, SetBrightness(level, Delivered(body)))) == Int(level)
  {
  }

  /** The On get-handler sends exactly one read. On success it caches and
      pushes the value read and answers whether it is positive; on failure it
      pushes an error to On and answers from the stale cache; with no reply it
      changes nothing more and never answers. */
  lemma GetOnOutcome(s: State, reply: Reply)
    ensures var s' := Step(s, GetOn(reply));
      var sent := s.sent + [GetVolumePath];
      && (reply.Delivered? ==>
            var level := ParseInt(reply.body);
            s' == s.(sent := sent, vol := level, pushes := s.pushes + [BrightnessValue(level)])
            && GetOnAnswer(s, reply) == Some(IsPositive(level)))
      && (reply.Failed? ==>
            s' == s.(sent := sent, pushes := s.pushes + [OnError])
            && GetOnAnswer(s, reply) == Some(IsPositive(s.vol)))
      && (reply.Unanswered? ==> s' == s.(sent := sent) && GetOnAnswer(s, reply) == None)
  {
  }

  lemma PollOutcome(s: State, reply: Reply)
    ensures var s' := Step(s, PollFires(reply));
      // the timer is re-armed whatever the reply
      var armed := s.(timer := Some(s.nextTimer), pending := s'.pending, nextTimer := s.nextTimer + 1,
                      sent := s.sent + [GetVolumePath]);
      && s.nextTimer in s'.pending
      && (TimerDiscipline(s) ==> s'.pending == {s.nextTimer})
      && (reply.Delivered? ==>
            s' == armed.(vol := ParseInt(reply.body), scheduledUI := s.scheduledUI + 1))
      && (reply.Failed? ==> s' == armed.(pushes := s.pushes + [OnError, BrightnessError]))
      && (reply.Unanswered? ==> s' == armed)
  {
  }

  /** `k` poll timers firing, none of whose reads is ever answered. */
  function SilentPolls(k: nat): (events: seq<Event>)
    ensures |events| == k && forall i :: 0 <= i < k ==> events[i] == PollFires(Unanswered)
  {
    seq(k, _ => PollFires(Unanswered))
  }

  /** The next poll is armed when the read is sent, not when its reply comes:
      polling goes on when the receiver never answers. After `k` silent polls
      one fresh timer is pending and `k` more reads have been sent. */
  lemma {:induction false} PollingGoesOnWithoutReplies(s: State, k: nat)
    requires TimerDiscipline(s)
    ensures var s' := Run(s, SilentPolls(k));
      && TimerDiscipline(s') && s'.nextTimer == s.nextTimer + k
      && (k > 0 ==> s'.pending == {s.nextTimer + k - 1})
      && s'.sent == s.sent + seq(k, _ => GetVolumePath)
      && s'.vol == s.vol && s'.pushes == s.pushes && s'.scheduledUI == s.scheduledUI
  {
    if k > 0 {
      assert SilentPolls(k)[..k - 1] == SilentPolls(k - 1);
      PollingGoesOnWithoutReplies(s, k - 1);
      assert seq(k, _ => GetVolumePath) == seq(k - 1, _ => GetVolumePath) + [GetVolumePath];
    }
  }

  /** Nothing bounds the cache: a poll stores whatever integer the receiver
      reports, 0..100 or not. */
  lemma PollStoresUnclampedVolume(s: State, level: int)
    ensures Step(s, PollFires(Delivered(IntString(level)))).vol == Int(level)
  {
    ParseIntOfIntStringAlone(level);
  }

  /** A deferred UI update pushes the cache as it is when the callback fires,
      not as it was when the update was scheduled. */
  lemma UIFiresShowsCurrentVolume(s: State)
    requires s.scheduledUI > 0
    ensures var s' := Step(s, UIFires);
      && s'.pushes == s.pushes + [OnValue(IsPositive(s.vol)), BrightnessValue(s.vol)]
      && s'.vol == s.vol && s'.scheduledUI == s.scheduledUI - 1
  {
  }

  // ---------------------------------------------------------------------
  // Scenarios

  /** Default volume 15 and a successful power-on: `/setVolume/15` is sent and,
      once the deferred update fires, the accessory shows on at brightness 15. */
  lemma PowerOnWithDefaultFifteen(s: State, body: string)
    requires s.defaultVolume == 15
    ensures var s' := Step(Step(s, SetOn(true, Delivered(body))), UIFires);
      && s'.sent == s.sent + ["/setVolume/15"]
      && s'.vol == Int(15)
      && s'.pushes == s.pushes + [OnValue(true), BrightnessValue(Int(15))]
  {
    assert IntString(15) == "15";
    assert SetVolumePath(15) == "/setVolume/15";
  }

  /** A poll that reads "42" caches 42, and the accessory then shows on at 42. */
  lemma PollReadsFortyTwo(s: State)
    ensures var s' := Step(Step(s, PollFires(Delivered("42"))), UIFires);
      s'.vol == Int(42) && s'.pushes == s.pushes + [OnValue(true), BrightnessValue(Int(42))]
  {
    PollStoresUnclampedVolume(s, 42);
    assert IntString(42) == "42";
  }
}
