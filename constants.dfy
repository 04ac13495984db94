/**
 * Constants.kt: the delay until the next daily run of the background work,
 * and the connectivity check used before every weather request.
 *
 * Time is counted in milliseconds since the epoch on days of a fixed length;
 * time zones and daylight-saving changes are not modelled.
 */
module Constants {
  import opened Wrappers

  const SecondMillis: int := 1000
  const MinuteMillis: int := 60 * SecondMillis
  const HourMillis: int := 60 * MinuteMillis
  const DayMillis: int := 24 * HourMillis

  const MetricUnit: string := "metric"
  const WeatherResponseData: string := "weather_response_data"

  // ---------------------------------------------------------------------------
  // The calendar the delay is computed with
  // ---------------------------------------------------------------------------

  datatype CalendarField = DayOfMonth | HourOfDay | Minute | Second | Millisecond

  /** How many milliseconds one unit of a field is worth. */
  function FieldMillis(f: CalendarField): nat {
    match f
    case DayOfMonth => DayMillis
    case HourOfDay => HourMillis
    case Minute => MinuteMillis
    case Second => SecondMillis
    case Millisecond => 1
  }

  /**
   * A lenient calendar: fields may be set out of their usual range, and the
   * instant they denote is the sum of each field times its length.
   * `day` counts whole days since the epoch.
   */
  class Calendar {
    var day: int
    var hourOfDay: int
    var minute: int
    var second: int
    var millisecond: int

    function Get(f: CalendarField): int
      reads this
    {
      match f
      case DayOfMonth => day
      case HourOfDay => hourOfDay
      case Minute => minute
      case Second => second
      case Millisecond => millisecond
    }

    function TimeInMillis(): int
      reads this
    {
      day * DayMillis + hourOfDay * HourMillis + minute * MinuteMillis
        + second * SecondMillis + millisecond
    }

    /** `Calendar.getInstance()` read at the instant `nowMillis`. */
    constructor GetInstance(nowMillis: int)
      ensures TimeInMillis() == nowMillis
      ensures day * DayMillis == StartOfDay(nowMillis)
      ensures 0 <= hourOfDay < 24 && 0 <= minute < 60 && 0 <= second < 60 && 0 <= millisecond < 1000
    {
      var seconds := nowMillis / 1000;
      var minutes := seconds / 60;
      var hours := minutes / 60;
      day := hours / 24;
      hourOfDay := hours % 24;
      minute := minutes % 60;
      second := seconds % 60;
      millisecond := nowMillis % 1000;
      new;
      assert nowMillis == seconds * 1000 + millisecond;
      assert seconds == minutes * 60 + second;
      assert minutes == hours * 60 + minute;
      assert hours == day * 24 + hourOfDay;
      FloorIsUnique(nowMillis, day);
    }

    method Set(f: CalendarField, value: int)
      modifies this
      ensures day == if f == DayOfMonth then value else old(day)
      ensures hourOfDay == if f == HourOfDay then value else old(hourOfDay)
      ensures minute == if f == Minute then value else old(minute)
      ensures second == if f == Second then value else old(second)
      ensures millisecond == if f == Millisecond then value else old(millisecond)
    {
      match f
      case DayOfMonth => day := value;
      case HourOfDay => hourOfDay := value;
      case Minute => minute := value;
      case Second => second := value;
      case Millisecond => millisecond := value;
    }

    method Add(f: CalendarField, amount: int)
      modifies this
      ensures day == if f == DayOfMonth then old(day) + amount else old(day)
      ensures hourOfDay == if f == HourOfDay then old(hourOfDay) + amount else old(hourOfDay)
      ensures minute == if f == Minute then old(minute) + amount else old(minute)
      ensures second == if f == Second then old(second) + amount else old(second)
      ensures millisecond == if f == Millisecond then old(millisecond) + amount else old(millisecond)
      ensures Get(f) == old(Get(f)) + amount
      ensures TimeInMillis() == old(TimeInMillis()) + amount * FieldMillis(f)
    {
      Set(f, Get(f) + amount);
    }

    /** Strictly earlier than `other`. */
    predicate Before(other: Calendar)
      reads this, other
    {
      TimeInMillis() < other.TimeInMillis()
    }
  }

  // ---------------------------------------------------------------------------
  // getInitialDelay
  // ---------------------------------------------------------------------------

  /** Midnight of the day holding instant `t`. */
  function StartOfDay(t: int): int {
    t / DayMillis * DayMillis
  }

  /** The whole days up to `t` are the quotient by the length of a day. */
  lemma FloorIsUnique(t: int, days: int)
    requires days * DayMillis <= t < days * DayMillis + DayMillis
    ensures days * DayMillis == StartOfDay(t)
  {
  }

  /** An offset into day `k` is its own time of day. */
  lemma TimeOfDay(k: int, offset: int)
    requires 0 <= offset < DayMillis
    ensures (k * DayMillis + offset) % DayMillis == offset
  {
  }

  /** Milliseconds from midnight to `targetHour:targetMinute:00.000`. */
  function TargetOffset(targetHour: int, targetMinute: int): int {
    targetHour * HourMillis + targetMinute * MinuteMillis
  }

  predicate ValidTarget(targetHour: int, targetMinute: int) {
    0 <= targetHour < 24 && 0 <= targetMinute < 60
  }

  /**
   * The delay getInitialDelay computes: today's target instant, moved one day
   * later when it is strictly before now, minus now.
   */
  function ScheduledDelay(nowMillis: int, targetHour: int, targetMinute: int := 0): int {
    var scheduled := StartOfDay(nowMillis) + TargetOffset(targetHour, targetMinute);
    if scheduled < nowMillis then scheduled + DayMillis - nowMillis else scheduled - nowMillis
  }

  /** The delay computed step by step on two calendars, as the source does. */
  method GetInitialDelay(nowMillis: int, targetHour: int, targetMinute: int := 0) returns (delay: int)
    ensures delay == ScheduledDelay(nowMillis, targetHour, targetMinute)
    ensures ValidTarget(targetHour, targetMinute) ==>
              0 <= delay < DayMillis
              && (nowMillis + delay) % DayMillis == TargetOffset(targetHour, targetMinute)
  {
    var now := new Calendar.GetInstance(nowMillis);
    var scheduled := new Calendar.GetInstance(nowMillis);
    ghost var midnight := scheduled.day * DayMillis;
    scheduled.Set(HourOfDay, targetHour);
    scheduled.Set(Minute, targetMinute);
    scheduled.Set(Second, 0);
    scheduled.Set(Millisecond, 0);
    assert scheduled.TimeInMillis() == midnight + TargetOffset(targetHour, targetMinute);
    ghost var today := scheduled.TimeInMillis();
    if scheduled.Before(now) {
      scheduled.Add(DayOfMonth, 1);
      assert scheduled.TimeInMillis() == today + DayMillis;
    }
    delay := scheduled.TimeInMillis() - now.TimeInMillis();
    if ValidTarget(targetHour, targetMinute) {
      DelayWithinOneDay(nowMillis, targetHour, targetMinute);
      DelayLandsOnTarget(nowMillis, targetHour, targetMinute);
    }
  }

  /** Midnight is a multiple of the day length, and now lies within its day. */
  lemma StartOfDayBounds(t: int)
    ensures StartOfDay(t) % DayMillis == 0
    ensures StartOfDay(t) <= t < StartOfDay(t) + DayMillis
    ensures t % DayMillis == t - StartOfDay(t)
  {
  }

  /** For a target inside the day, the delay is never negative and less than a day. */
  lemma DelayWithinOneDay(nowMillis: int, targetHour: int, targetMinute: int)
    requires ValidTarget(targetHour, targetMinute)
    ensures 0 <= ScheduledDelay(nowMillis, targetHour, targetMinute) < DayMillis
  {
    StartOfDayBounds(nowMillis);
  }

  /** Now plus the delay is exactly targetHour:targetMinute:00.000 of some day. */
  lemma DelayLandsOnTarget(nowMillis: int, targetHour: int, targetMinute: int)
    requires ValidTarget(targetHour, targetMinute)
    ensures (nowMillis + ScheduledDelay(nowMillis, targetHour, targetMinute)) % DayMillis
            == TargetOffset(targetHour, targetMinute)
  {
    var start := StartOfDay(nowMillis);
    var t := TargetOffset(targetHour, targetMinute);
    StartOfDayBounds(nowMillis);
    var q := nowMillis / DayMillis;
    if start + t < nowMillis {
      assert nowMillis + ScheduledDelay(nowMillis, targetHour, targetMinute) == (q + 1) * DayMillis + t;
      TimeOfDay(q + 1, t);
    } else {
      assert nowMillis + ScheduledDelay(nowMillis, targetHour, targetMinute) == q * DayMillis + t;
      TimeOfDay(q, t);
    }
  }

  /**
   * The delay is the next occurrence: no shorter non-negative wait reaches the
   * target time of day.
   */
  lemma DelayIsNextOccurrence(nowMillis: int, targetHour: int, targetMinute: int, d: int)
    requires ValidTarget(targetHour, targetMinute)
    requires 0 <= d < ScheduledDelay(nowMillis, targetHour, targetMinute)
    ensures (nowMillis + d) % DayMillis != TargetOffset(targetHour, targetMinute)
  {
    StartOfDayBounds(nowMillis);
    var q := nowMillis / DayMillis;
    var r := nowMillis % DayMillis;
    if r + d < DayMillis {
      assert nowMillis + d == q * DayMillis + (r + d);
      TimeOfDay(q, r + d);
    } else {
      assert nowMillis + d == (q + 1) * DayMillis + (r + d - DayMillis);
      TimeOfDay(q + 1, r + d - DayMillis);
    }
  }

  /** `before` is strict: at exactly the target instant the delay is zero. */
  lemma DelayZeroAtTarget(nowMillis: int, targetHour: int, targetMinute: int)
    requires ValidTarget(targetHour, targetMinute)
    requires nowMillis % DayMillis == TargetOffset(targetHour, targetMinute)
    ensures ScheduledDelay(nowMillis, targetHour, targetMinute) == 0
  {
    StartOfDayBounds(nowMillis);
  }

  /** The source does not check its arguments: an hour before midnight by two days gives a negative delay. */
  lemma OutOfRangeHourGivesNegativeDelay()
    ensures ScheduledDelay(0, -48) == -DayMillis
  {
  }

  // ---------------------------------------------------------------------------
  // isNetworkAvailable
  // ---------------------------------------------------------------------------

  /** `Build.VERSION_CODES.M`. */
  const VersionCodeM: int := 23

  datatype TransportType = Wifi | Cellular | Ethernet | Bluetooth | Vpn | WifiAware | LowPan | Usb

  /** A network the connectivity manager reports, with its capabilities when it has them. */
  datatype ActiveNetwork = ActiveNetwork(capabilities: Option<set<TransportType>>)

  /** The pre-M `NetworkInfo`. */
  datatype NetworkInfo = NetworkInfo(connectedOrConnecting: bool)

  /** What the platform reports about connectivity. */
  datatype ConnectivityState = ConnectivityState(
    sdkInt: int,
    activeNetwork: Option<ActiveNetwork>,
    activeNetworkInfo: Option<NetworkInfo>)

  const InternetTransports: set<TransportType> := {Wifi, Cellular, Ethernet}

  function IsNetworkAvailable(c: ConnectivityState): (r: bool)
    ensures c.sdkInt >= VersionCodeM ==>
              (r <==> c.activeNetwork.Some? && c.activeNetwork.value.capabilities.Some?
                       && c.activeNetwork.value.capabilities.value * InternetTransports != {})
    ensures c.sdkInt < VersionCodeM ==>
              (r <==> c.activeNetworkInfo.Some? && c.activeNetworkInfo.value.connectedOrConnecting)
  {
    if c.sdkInt >= VersionCodeM then
      match c.activeNetwork
      case None => false
      case Some(network) =>
        match network.capabilities
        case None => false
        case Some(caps) =>
          if Wifi in caps then assert Wifi in caps * InternetTransports; true
          else if Cellular in caps then assert Cellular in caps * InternetTransports; true
          else if Ethernet in caps then assert Ethernet in caps * InternetTransports; true
          else false
    else
      c.activeNetworkInfo.Some? && c.activeNetworkInfo.value.connectedOrConnecting
  }
}
