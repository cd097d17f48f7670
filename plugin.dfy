/**
  The accessory object itself: its fields and handlers, written step by step
  as index.js writes them. Each handler's new state is the one `Sync.Step`
  gives for its event, so the lemmas of `Sync` hold of the object too.

  Besides the plugin's own fields (`vol`, `defaultVolume`, `address`,
  `refreshInterval`, `timer`) the object records what the outside world sees:
  the event loop's pending poll timers and deferred UI callbacks, the paths
  sent to the receiver, and the pushes to the accessory's characteristics.
 */
module UrriVolume {
  import opened Decimal
  import Config
  import opened Sync

  class UrriVolumePlugin {
    var vol: Num
    const defaultVolume: int
    const address: string
    const refreshInterval: int
    var timer: Option<TimerId>

    // The event loop: poll timers not yet fired or cleared, the next handle
    // `setTimeout` hands out, and UI callbacks scheduled but not yet run.
    var pendingTimers: set<TimerId>
    var nextTimer: TimerId
    var scheduledUI: nat
    // The receiver and the accessory: request paths sent, updates pushed.
    var sent: seq<string>
    var pushes: seq<Push>

    ghost function State(): Sync.State
      reads this
    {
      Sync.State(vol, defaultVolume, timer, pendingTimers, nextTimer, scheduledUI, sent, pushes)
    }

    /** Exactly one poll timer is pending, and `timer` names it. */
    ghost predicate Valid()
      reads this
    {
      TimerDiscipline(State())
    }

    constructor (config: Config.Config)
      ensures Valid()
      ensures State() == Initial(Config.FromConfig(config))
      ensures address == Config.FromConfig(config).address
      ensures refreshInterval == Config.FromConfig(config).refreshInterval
    {
      vol := Int(0);
      defaultVolume := Config.NumberOr(config, "defaultVolume", Config.DefaultVolumeFallback);
      address := Config.StringOr(config, "address", Config.AddressFallback);
      refreshInterval := Config.NumberOr(config, "refreshInterval", Config.RefreshIntervalFallback);
      timer := None;
      pendingTimers, nextTimer, scheduledUI := {}, 0, 0;
      sent, pushes := [], [];
      new;
      var id := SetTimeout();
      timer := Some(id);
    }

    /** The event loop arms a fresh poll timer. */
    method SetTimeout() returns (id: TimerId)
      modifies this`pendingTimers, this`nextTimer
      ensures id == old(nextTimer) && nextTimer == id + 1
      ensures pendingTimers == old(pendingTimers) + {id}
    {
      id := nextTimer;
      pendingTimers := pendingTimers + {id};
      nextTimer := nextTimer + 1;
    }

    /** The event loop drops a timer; one that already fired is not pending,
        and dropping it changes nothing. */
    method ClearTimeout(id: TimerId)
      modifies this`pendingTimers
      ensures pendingTimers == old(pendingTimers) - {id}
    {
      pendingTimers := pendingTimers - {id};
    }

    /** The request leaves for the receiver; its reply is the handler's parameter. */
    method Send(path: string)
      modifies this`sent
      ensures sent == old(sent) + [path]
    {
      sent := sent + [path];
    }

    method UpdateCharacteristic(p: Push)
      modifies this`pushes
      ensures pushes == old(pushes) + [p]
    {
      pushes := pushes + [p];
    }

    /** Defers a push of the cache by 100 ms. */
    method UpdateUI()
      modifies this`scheduledUI
      ensures scheduledUI == old(scheduledUI) + 1
    {
      scheduledUI := scheduledUI + 1;
    }

    /** A deferred UI callback runs and pushes the cache as it is now. */
    method UIFires()
      requires Valid()
      modifies this`scheduledUI, this`pushes
      ensures Valid()
      ensures State() == Step(old(State()), Sync.UIFires)
    {
      if scheduledUI > 0 {
        scheduledUI := scheduledUI - 1;
        UpdateCharacteristic(OnValue(IsPositive(vol)));
        UpdateCharacteristic(BrightnessValue(vol));
      }
    }

    /** `None` stands for a handler whose read never calls back: its await
        never ends, so neither the catch nor the finally runs. */
    method GetOnHandler(reply: Reply) returns (on: Option<bool>)
      requires Valid()
      modifies this
      ensures Valid()
      ensures State() == Step(old(State()), GetOn(reply))
      ensures on == GetOnAnswer(old(State()), reply)
    {
      Send(GetVolumePath);
      match reply {
        case Delivered(body) =>
          vol := ParseInt(body);
          UpdateCharacteristic(BrightnessValue(vol));
          on := Some(IsPositive(vol));
        case Failed =>
          UpdateCharacteristic(OnError);
          on := Some(IsPositive(vol));
        case Unanswered =>
          on := None;
      }
    }

    method SetOnHandler(value: bool, reply: Reply)
      requires Valid()
      modifies this
      ensures Valid()
      ensures State() == Step(old(State()), SetOn(value, reply))
    {
      var newVol := if value then defaultVolume else 0;
      Send(SetVolumePath(newVol));
      match reply {
        case Delivered(_) =>
          vol := Int(newVol);
          UpdateUI();
        case Failed =>
          UpdateCharacteristic(OnError);
        case Unanswered =>
      }
    }

    /** Answers from the cache and changes nothing, the request log included. */
    method GetBrightnessHandler() returns (level: Num)
      ensures level == vol
      ensures level == Brightness(State())
    {
      level := vol;
    }

    method SetBrightnessHandler(value: int, reply: Reply)
      requires Valid()
      modifies this
      ensures Valid()
      ensures State() == Step(old(State()), SetBrightness(value, reply))
    {
      if value != 100 {
        Send(SetVolumePath(value));
        match reply {
          case Delivered(_) =>
            vol := Int(value);
            UpdateUI();
          case Failed =>
            UpdateCharacteristic(BrightnessError);
          case Unanswered =>
        }
      }
    }

    /** The poll timer fires. The timer `timer` names is the one firing; the
        event loop drops it, and clearing it here has no further effect, so
        the one `ClearTimeout` below stands for both. The next timer is armed
        right after the read is sent, before its reply is handled. */
    method Poll(reply: Reply)
      requires Valid()
      modifies this
      ensures Valid() && |pendingTimers| == 1
      ensures State() == Step(old(State()), PollFires(reply))
    {
      ghost var before := State();
      if timer.Some? {
        ClearTimeout(timer.value);
      }
      timer := None;
      Send(GetVolumePath);
      var id := SetTimeout();
      timer := Some(id);
      assert State() == DispatchPoll(before);
      PollCallback(reply);
      PollRearmsOnce(before, reply);
    }

    /** The poll's reply handler. */
    method PollCallback(reply: Reply)
      modifies this`vol, this`scheduledUI, this`pushes
      ensures State() == PollReply(old(State()), reply)
    {
      match reply {
        case Delivered(body) =>
          vol := ParseInt(body);
          UpdateUI();
        case Failed =>
          UpdateCharacteristic(OnError);
          UpdateCharacteristic(BrightnessError);
        case Unanswered =>
      }
    }
  }

  /** A caller's view: after a successful brightness set, the brightness get
      returns the level set, and sends nothing. */
  method SetThenGetBrightness(p: UrriVolumePlugin, level: int, body: string) returns (read: Num)
    requires p.Valid() && level != 100
    modifies p
    ensures read == Int(level)
    ensures p.sent == old(p.sent) + [SetVolumePath(level)]
  {
    p.SetBrightnessHandler(level, Delivered(body));
    var sentBefore := p.sent;
    read := p.GetBrightnessHandler();
    assert p.sent == sentBefore;
  }
}
