/** The event detail screen's notification switch: a per-event boolean kept in
    the "user_prefs" preference map, and a one-shot reminder alarm registered
    with the platform alarm table when the switch is turned on.

    As in the history module, the switch handler is stated as a function on
    `DetailState` values, about which the lemmas are proved, and as a method of
    `EventDetailScreen` acting on the preference map and the alarm table,
    proved to end in the state the function gives. The clocks are integer
    parameters. */
module EventDetail {

  /** An event from the remote feed. */
  datatype Event = Event(id: string, title: string, date: string, location: string,
                         category: string, description: string)

  /* ---------------------------------------------------------------------- */
  /*  String.hashCode, which derives the alarm's request code                */
  /* ---------------------------------------------------------------------- */

  const TwoTo32: int := 0x1_0000_0000
  const TwoTo31: int := 0x8000_0000

  /** The UTF-16 code units of one character: the code point itself below
      0x10000, otherwise a high surrogate followed by a low surrogate. */
  function CodeUnits(c: char): (units: seq<int>)
    ensures c as int < 0x1_0000 ==> units == [c as int]
    ensures c as int >= 0x1_0000 ==>
              |units| == 2 && 0xD800 <= units[0] < 0xDC00 <= units[1] < 0xE000
  {
    var v := c as int;
    if v < 0x1_0000 then [v]
    else [0xD800 + (v - 0x1_0000) / 0x400, 0xDC00 + (v - 0x1_0000) % 0x400]
  }

  /** The UTF-16 code units of a string, which is what the JVM hashes. */
  function Utf16(s: string): (units: seq<int>)
    ensures |s| <= |units| <= 2 * |s|
    ensures forall i :: 0 <= i < |units| ==> 0 <= units[i] < 0x1_0000
  {
    if s == [] then [] else CodeUnits(s[0]) + Utf16(s[1..])
  }

  /** UTF-16 decoding: a high surrogate followed by another unit combines with
      it into one code point; any other unit stands for itself. */
  function DecodeUtf16(units: seq<int>): seq<int>
    decreases |units|
  {
    if units == [] then []
    else if 0xD800 <= units[0] < 0xDC00 && |units| >= 2 then
      [0x1_0000 + (units[0] - 0xD800) * 0x400 + (units[1] - 0xDC00)] + DecodeUtf16(units[2..])
    else [units[0]] + DecodeUtf16(units[1..])
  }

  /** The code points of a string. */
  function CodePoints(s: string): seq<int>
    decreases |s|
  {
    if s == [] then [] else [s[0] as int] + CodePoints(s[1..])
  }

  /** Decoding one character's units, followed by anything, yields that
      character's code point followed by the decoding of the rest. */
  lemma DecodeCodeUnits(c: char, rest: seq<int>)
    ensures DecodeUtf16(CodeUnits(c) + rest) == [c as int] + DecodeUtf16(rest)
  {
    var u := CodeUnits(c) + rest;
    var v := c as int;
    if v < 0x1_0000 {
      assert u[0] == v && u[1..] == rest;
      assert !(0xD800 <= v < 0xE000);
    } else {
      assert u[2..] == rest;
      var w := v - 0x1_0000;
      assert (w / 0x400) * 0x400 + w % 0x400 == w;
    }
  }

  /** UTF-16 encoding loses nothing: decoding it gives back every code point. */
  lemma {:induction false} Utf16RoundTrip(s: string)
    ensures DecodeUtf16(Utf16(s)) == CodePoints(s)
    decreases |s|
  {
    if s != [] {
      Utf16RoundTrip(s[1..]);
      DecodeCodeUnits(s[0], Utf16(s[1..]));
    }
  }

  /** The hash loop `h = 31 * h + unit`, on unbounded integers. */
  function HashLoop(units: seq<int>): int
    decreases |units|
  {
    if units == [] then 0
    else 31 * HashLoop(units[..|units| - 1]) + units[|units| - 1]
  }

  function Pow31(k: nat): int {
    if k == 0 then 1 else 31 * Pow31(k - 1)
  }

  /** The documented closed form: u[0]*31^(n-1) + u[1]*31^(n-2) + ... + u[n-1]. */
  function Polynomial(units: seq<int>): int
    decreases |units|
  {
    if units == [] then 0 else units[0] * Pow31(|units| - 1) + Polynomial(units[1..])
  }

  /** Java's `String.hashCode`: the hash loop in 32-bit two's-complement
      arithmetic. Wrapping once at the end gives the same value as wrapping
      after every step, since both agree modulo 2^32. */
  function HashCode(s: string): (h: int)
    ensures -TwoTo31 <= h < TwoTo31
    ensures (h - Polynomial(Utf16(s))) % TwoTo32 == 0
  {
    var u := HashLoop(Utf16(s)) % TwoTo32;
    HashLoopIsPolynomial(Utf16(s));
    if u < TwoTo31 then u else u - TwoTo32
  }

  lemma {:induction false} PolynomialAppend(units: seq<int>, c: int)
    ensures Polynomial(units + [c]) == 31 * Polynomial(units) + c
    decreases |units|
  {
    if units == [] {
      assert units + [c] == [c];
      assert [c][1..] == [];
    } else {
      var n := |units|;
      assert (units + [c])[1..] == units[1..] + [c];
      PolynomialAppend(units[1..], c);
      calc {
        Polynomial(units + [c]);
        units[0] * Pow31(n) + Polynomial(units[1..] + [c]);
        units[0] * (31 * Pow31(n - 1)) + 31 * Polynomial(units[1..]) + c;
        { assert units[0] * (31 * Pow31(n - 1)) == 31 * (units[0] * Pow31(n - 1)); }
        31 * (units[0] * Pow31(n - 1) + Polynomial(units[1..])) + c;
      }
    }
  }

  lemma {:induction false} HashLoopIsPolynomial(units: seq<int>)
    ensures HashLoop(units) == Polynomial(units)
    decreases |units|
  {
    if units != [] {
      var n := |units|;
      var front := units[..n - 1];
      HashLoopIsPolynomial(front);
      assert units == front + [units[n - 1]];
      PolynomialAppend(front, units[n - 1]);
    }
  }

  /** Two distinct event ids whose hashes, and so whose alarm request codes,
      coincide. */
  lemma DistinctIdsCollide()
    ensures "Aa" != "BB" && HashCode("Aa") == HashCode("BB") == 2112
  {
    assert "Aa"[0] != "BB"[0];
    assert HashCode("Aa") == 2112 by {
      assert CodeUnits('A') == [65] && CodeUnits('a') == [97];
      assert "Aa"[1..] == "a" && "a"[1..] == "";
      assert Utf16("a") == [97];
      assert Utf16("Aa") == [65, 97];
      assert [65, 97][..1] == [65] && [65][..0] == [];
      assert HashLoop([65]) == 65;
      assert HashLoop([65, 97]) == 2112;
    }
    assert HashCode("BB") == 2112 by {
      assert CodeUnits('B') == [66];
      assert "BB"[1..] == "B" && "B"[1..] == "";
      assert Utf16("B") == [66];
      assert Utf16("BB") == [66, 66];
      assert [66, 66][..1] == [66] && [66][..0] == [];
      assert HashLoop([66]) == 66;
      assert HashLoop([66, 66]) == 2112;
    }
  }

  /* ---------------------------------------------------------------------- */
  /*  The preference map and the alarm table                                 */
  /* ---------------------------------------------------------------------- */

  /** `SharedPreferences.getBoolean`: the stored flag, or the caller's default
      when the key was never written. */
  function GetBoolean(flags: map<string, bool>, key: string, defValue: bool): (b: bool)
    ensures key in flags ==> b == flags[key]
    ensures key !in flags ==> b == defValue
  {
    if key in flags then flags[key] else defValue
  }

  /** Which clock an alarm's trigger time is read against. */
  datatype ClockBase = RtcWakeup | ElapsedRealtimeWakeup

  /** A broadcast to be delivered later: the request code that identifies it
      and the extras it carries. */
  datatype PendingIntent = PendingIntent(requestCode: int, extras: map<string, string>)

  /** A registered alarm, stored in the table under its request code. */
  datatype Alarm = Alarm(base: ClockBase, triggerAt: int, extras: map<string, string>)

  /** Whether an alarm has come due when the clock since boot reads
      `elapsedNow` and the wall clock reads `wallNow`: an RTC alarm is compared
      with the wall clock, an elapsed-realtime alarm with the clock since boot. */
  predicate IsDue(a: Alarm, elapsedNow: int, wallNow: int) {
    match a.base
    case RtcWakeup => a.triggerAt <= wallNow
    case ElapsedRealtimeWakeup => a.triggerAt <= elapsedNow
  }

  /** The "user_prefs" preference group. */
  class Preferences {
    var flags: map<string, bool>

    constructor (flags: map<string, bool>)
      ensures this.flags == flags
    {
      this.flags := flags;
    }

    /** `edit().putBoolean(key, value).apply()`. */
    method PutBoolean(key: string, value: bool)
      modifies this
      ensures flags == old(flags)[key := value]
    {
      flags := flags[key := value];
    }
  }

  /** The platform alarm table. A pending intent with the same request code
      (and, with FLAG_UPDATE_CURRENT, its extras replaced) is the same pending
      intent, so setting it again replaces the earlier alarm. */
  class AlarmService {
    var alarms: map<int, Alarm>

    constructor (alarms: map<int, Alarm>)
      ensures this.alarms == alarms
    {
      this.alarms := alarms;
    }

    method Set(base: ClockBase, triggerAt: int, operation: PendingIntent)
      modifies this
      ensures alarms == old(alarms)[operation.requestCode := Alarm(base, triggerAt, operation.extras)]
    {
      alarms := alarms[operation.requestCode := Alarm(base, triggerAt, operation.extras)];
    }
  }

  /* ---------------------------------------------------------------------- */
  /*  Scheduling and the switch as state transitions                         */
  /* ---------------------------------------------------------------------- */

  const EventTitleExtra: string := "event_title"
  const DelayMillis: int := 10 * 1000

  /** The request code of an event's reminder. */
  function RequestCode(event: Event): int {
    HashCode(event.id)
  }

  /** The reminder registered for `event` when the clock since boot reads
      `elapsedNow`. */
  function Reminder(event: Event, elapsedNow: int): Alarm {
    Alarm(RtcWakeup, elapsedNow + DelayMillis, map[EventTitleExtra := event.title])
  }

  /** The alarm table after scheduling `event`'s reminder. */
  function Schedule(alarms: map<int, Alarm>, event: Event, elapsedNow: int): map<int, Alarm> {
    alarms[RequestCode(event) := Reminder(event, elapsedNow)]
  }

  /** The displayed switch state, the preference map and the alarm table. */
  datatype DetailState = DetailState(isNotified: bool, flags: map<string, bool>, alarms: map<int, Alarm>)

  /** The switch state the screen opens with. */
  function InitialNotified(flags: map<string, bool>, event: Event): bool {
    GetBoolean(flags, event.id, false)
  }

  /** The switch handler: show the new value, store it under the event's id,
      and schedule the reminder only when the new value is on. */
  function Toggle(s: DetailState, event: Event, checked: bool, elapsedNow: int): DetailState {
    DetailState(checked, s.flags[event.id := checked],
                if checked then Schedule(s.alarms, event, elapsedNow) else s.alarms)
  }

  /* ---------------------------------------------------------------------- */
  /*  Properties                                                             */
  /* ---------------------------------------------------------------------- */

  /** The screen opens showing the stored flag, or off when none was stored. */
  lemma OpensWithStoredFlag(flags: map<string, bool>, event: Event)
    ensures event.id in flags ==> InitialNotified(flags, event) == flags[event.id]
    ensures event.id !in flags ==> !InitialNotified(flags, event)
  {
  }

  /** After the switch is set to `checked`, the display and the stored flag
      both read `checked`, and only the event's own key was written. */
  lemma ToggleWritesOneFlag(s: DetailState, event: Event, checked: bool, elapsedNow: int)
    ensures var r := Toggle(s, event, checked, elapsedNow);
            r.isNotified == checked
            && event.id in r.flags && r.flags[event.id] == checked
            && r.flags.Keys == s.flags.Keys + {event.id}
            && forall k :: k in s.flags && k != event.id ==> r.flags[k] == s.flags[k]
  {
  }

  /** Turning the switch on registers the event's reminder in its slot and
      leaves every other slot alone; turning it off leaves the alarm table as
      it was. */
  lemma ToggleSchedulesOnlyWhenOn(s: DetailState, event: Event, checked: bool, elapsedNow: int)
    ensures var r := Toggle(s, event, checked, elapsedNow);
            var code := RequestCode(event);
            (checked ==>
               code in r.alarms && r.alarms[code] == Reminder(event, elapsedNow)
               && r.alarms.Keys == s.alarms.Keys + {code}
               && forall c :: c in s.alarms && c != code ==> r.alarms[c] == s.alarms[c])
            && (!checked ==> r.alarms == s.alarms)
  {
  }

  /** Turning the switch on and then off clears the stored flag but leaves the
      reminder pending. */
  lemma DisableKeepsPendingAlarm(s: DetailState, event: Event, onAt: int, offAt: int)
    ensures var r := Toggle(Toggle(s, event, true, onAt), event, false, offAt);
            !GetBoolean(r.flags, event.id, false)
            && RequestCode(event) in r.alarms
            && r.alarms[RequestCode(event)] == Reminder(event, onAt)
  {
  }

  /** Scheduling adds at most one alarm: none when the slot is already taken,
      which it then overwrites. */
  lemma ScheduleAddsAtMostOne(alarms: map<int, Alarm>, event: Event, elapsedNow: int)
    ensures |Schedule(alarms, event, elapsedNow)| ==
              if RequestCode(event) in alarms then |alarms| else |alarms| + 1
  {
    var r := Schedule(alarms, event, elapsedNow);
    var code := RequestCode(event);
    if code in alarms {
      assert r.Keys == alarms.Keys;
    } else {
      assert r.Keys == alarms.Keys + {code};
    }
  }

  /** Turning the switch on twice leaves one alarm for the event, carrying the
      later trigger time. */
  lemma RescheduleReplacesAlarm(s: DetailState, event: Event, firstAt: int, secondAt: int)
    ensures var once := Toggle(s, event, true, firstAt);
            var twice := Toggle(once, event, true, secondAt);
            |twice.alarms| == |once.alarms|
            && twice.alarms[RequestCode(event)].triggerAt == secondAt + DelayMillis
  {
    ScheduleAddsAtMostOne(Toggle(s, event, true, firstAt).alarms, event, secondAt);
  }

  /** Two events whose ids hash alike share one slot: the later reminder
      replaces the earlier one, title included. */
  lemma CollidingEventsShareSlot(alarms: map<int, Alarm>, first: Event, second: Event,
                                 firstAt: int, secondAt: int)
    requires HashCode(first.id) == HashCode(second.id)
    ensures var once := Schedule(alarms, first, firstAt);
            var both := Schedule(once, second, secondAt);
            both.Keys == once.Keys
            && both[RequestCode(first)].extras[EventTitleExtra] == second.title
  {
  }

  /** The reminder carries the event's title under `event_title`, and its
      trigger time depends only on the clock since boot, not on the event. */
  lemma ReminderContents(event: Event, other: Event, elapsedNow: int)
    ensures Reminder(event, elapsedNow).extras == map[EventTitleExtra := event.title]
    ensures Reminder(event, elapsedNow).triggerAt == Reminder(other, elapsedNow).triggerAt
              == elapsedNow + 10000
  {
  }

  /** The trigger time is taken from the clock since boot but registered
      against the wall clock: whenever the wall clock is more than ten seconds
      ahead of the clock since boot, the reminder is due the moment it is
      registered, whereas the same time read against the clock since boot
      would only be due ten seconds later. */
  lemma ReminderDueAtOnce(event: Event, elapsedNow: int, wallNow: int)
    requires wallNow >= elapsedNow + DelayMillis
    ensures IsDue(Reminder(event, elapsedNow), elapsedNow, wallNow)
    ensures !IsDue(Reminder(event, elapsedNow).(base := ElapsedRealtimeWakeup), elapsedNow, wallNow)
  {
  }

  /* ---------------------------------------------------------------------- */
  /*  The screen                                                             */
  /* ---------------------------------------------------------------------- */

  /** `scheduleNotification`: build the pending intent for the event's
      reminder and hand it to the alarm table. */
  method ScheduleNotification(alarmManager: AlarmService, event: Event, elapsedNow: int)
    modifies alarmManager
    ensures alarmManager.alarms == Schedule(old(alarmManager.alarms), event, elapsedNow)
  {
    var extras := map[EventTitleExtra := event.title];
    var pendingIntent := PendingIntent(HashCode(event.id), extras);
    var triggerTime := elapsedNow + 10 * 1000;
    alarmManager.Set(RtcWakeup, triggerTime, pendingIntent);
  }

  /** The detail screen for one event, with its switch state. */
  class EventDetailScreen {
    const event: Event
    const prefs: Preferences
    const alarmManager: AlarmService
    var isNotified: bool

    constructor (event: Event, prefs: Preferences, alarmManager: AlarmService)
      ensures this.event == event && this.prefs == prefs && this.alarmManager == alarmManager
      ensures isNotified == InitialNotified(prefs.flags, event)
    {
      this.event := event;
      this.prefs := prefs;
      this.alarmManager := alarmManager;
      isNotified := GetBoolean(prefs.flags, event.id, false);
    }

    function State(): DetailState
      reads this, prefs, alarmManager
    {
      DetailState(isNotified, prefs.flags, alarmManager.alarms)
    }

    method OnCheckedChange(checked: bool, elapsedNow: int)
      modifies this, prefs, alarmManager
      ensures State() == Toggle(old(State()), event, checked, elapsedNow)
    {
      isNotified := checked;
      prefs.PutBoolean(event.id, isNotified);
      if isNotified {
        ScheduleNotification(alarmManager, event, elapsedNow);
      }
    }
  }
}
