/** The alarm value model: the `Alarm` record with its defaulting
    constructor and repeat summary, the `Weekday` enumeration and the
    `AlarmImageType` enumeration. */
module AlarmModel {
  import opened Basics

  /** An alarm's UUID. Only equality between ids is ever used. */
  type Uuid = nat

  /** A `Date`, as whole seconds since the reference date. */
  type Instant = int

  // ---------------------------------------------------------------------
  // Weekday

  /** Days of the week in calendar order, Sunday first. */
  datatype Weekday = Sunday | Monday | Tuesday | Wednesday | Thursday | Friday | Saturday

  /** The enum's integer raw value. */
  function WeekdayRaw(d: Weekday): (r: int)
    ensures 1 <= r <= 7
  {
    match d
    case Sunday => 1
    case Monday => 2
    case Tuesday => 3
    case Wednesday => 4
    case Thursday => 5
    case Friday => 6
    case Saturday => 7
  }

  /** The failable initialiser from a raw value, used when decoding. */
  function WeekdayFromRaw(n: int): (r: Option<Weekday>)
    ensures r.Some? <==> 1 <= n <= 7
    ensures r.Some? ==> WeekdayRaw(r.value) == n
  {
    if n == 1 then Some(Sunday)
    else if n == 2 then Some(Monday)
    else if n == 3 then Some(Tuesday)
    else if n == 4 then Some(Wednesday)
    else if n == 5 then Some(Thursday)
    else if n == 6 then Some(Friday)
    else if n == 7 then Some(Saturday)
    else None
  }

  /** The `Identifiable` id: the raw value itself. */
  function WeekdayId(d: Weekday): (r: int)
    ensures WeekdayFromRaw(r) == Some(d)
  {
    WeekdayRaw(d)
  }

  /** Every case, in declaration order. */
  function AllWeekdays(): (r: seq<Weekday>)
    ensures |r| == 7
    ensures forall i | 0 <= i < 7 :: WeekdayRaw(r[i]) == i + 1
    ensures forall i | 0 <= i < 7 :: WeekdayFromRaw(i + 1) == Some(r[i])
  {
    [Sunday, Monday, Tuesday, Wednesday, Thursday, Friday, Saturday]
  }

  /** The one-character short name shown in the repeat summary. */
  function WeekdayShortName(d: Weekday): (r: string)
    ensures |r| == 1 && r[0] != ' '
    ensures WeekdayFromShortName(r[0]) == Some(d)
  {
    match d
    case Sunday => "日"
    case Monday => "一"
    case Tuesday => "二"
    case Wednesday => "三"
    case Thursday => "四"
    case Friday => "五"
    case Saturday => "六"
  }

  /** Reads a short name back; the inverse of `WeekdayShortName`. */
  function WeekdayFromShortName(c: char): (r: Option<Weekday>)
    ensures r.Some? ==> c != ' '
  {
    if c == '日' then Some(Sunday)
    else if c == '一' then Some(Monday)
    else if c == '二' then Some(Tuesday)
    else if c == '三' then Some(Wednesday)
    else if c == '四' then Some(Thursday)
    else if c == '五' then Some(Friday)
    else if c == '六' then Some(Saturday)
    else None
  }

  /** The long name: the week prefix followed by the short name. */
  function WeekdayName(d: Weekday): (r: string)
    ensures |r| == 2 && r[0] == '週' && r[1..] == WeekdayShortName(d)
  {
    match d
    case Sunday => "週日"
    case Monday => "週一"
    case Tuesday => "週二"
    case Wednesday => "週三"
    case Thursday => "週四"
    case Friday => "週五"
    case Saturday => "週六"
  }

  /** Raw values (and so ids) tell the days apart, and decoding a raw value
      gives back the day. */
  lemma WeekdayRawInjective(d1: Weekday, d2: Weekday)
    ensures WeekdayFromRaw(WeekdayRaw(d1)) == Some(d1)
    ensures WeekdayId(d1) == WeekdayRaw(d1)
    ensures WeekdayRaw(d1) == WeekdayRaw(d2) ==> d1 == d2
  {
  }

  /** Names and short names tell the days apart. */
  lemma WeekdayNamesInjective(d1: Weekday, d2: Weekday)
    ensures WeekdayShortName(d1) == WeekdayShortName(d2) ==> d1 == d2
    ensures WeekdayName(d1) == WeekdayName(d2) ==> d1 == d2
  {
  }

  // ---------------------------------------------------------------------
  // AlarmImageType

  /** Which mascot or picture an alarm shows; no effect on scheduling. */
  datatype AlarmImageType = DefaultBunny | DefaultLobster | CustomPhoto | AiGenerated

  /** The enum's string raw value, which spells the Swift case name. */
  function ImageTypeRaw(t: AlarmImageType): (r: string)
    ensures ImageTypeFromRaw(r) == Some(t)
  {
    match t
    case DefaultBunny => "defaultBunny"
    case DefaultLobster => "defaultLobster"
    case CustomPhoto => "customPhoto"
    case AiGenerated => "aiGenerated"
  }

  /** The failable initialiser from a raw value, used when decoding. */
  function ImageTypeFromRaw(s: string): (r: Option<AlarmImageType>)
    ensures r.Some? <==> s in {"defaultBunny", "defaultLobster", "customPhoto", "aiGenerated"}
  {
    if s == "defaultBunny" then Some(DefaultBunny)
    else if s == "defaultLobster" then Some(DefaultLobster)
    else if s == "customPhoto" then Some(CustomPhoto)
    else if s == "aiGenerated" then Some(AiGenerated)
    else None
  }

  /** The `Identifiable` id: the raw value itself. */
  function ImageTypeId(t: AlarmImageType): (r: string)
    ensures ImageTypeFromRaw(r) == Some(t)
  {
    ImageTypeRaw(t)
  }

  /** The label shown in the image picker: an icon, a space, then words. */
  function ImageTypeDisplayName(t: AlarmImageType): (r: string)
    ensures |r| > 2 && r[1] == ' '
    ensures ImageTypeFromRaw(r) == None
  {
    match t
    case DefaultBunny => "🐰 預設兔子"
    case DefaultLobster => "🦞 預設龍蝦"
    case CustomPhoto => "📷 自己照片"
    case AiGenerated => "✨ AI 生成"
  }

  /** Decoding inverts the raw value in both directions. */
  lemma ImageTypeRawRoundTrip(t: AlarmImageType, s: string)
    ensures ImageTypeFromRaw(ImageTypeRaw(t)) == Some(t)
    ensures ImageTypeFromRaw(s) == Some(t) ==> ImageTypeRaw(t) == s
  {
  }

  /** Raw values (and so ids) and display names tell the cases apart. */
  lemma ImageTypeInjective(t1: AlarmImageType, t2: AlarmImageType)
    ensures ImageTypeId(t1) == ImageTypeRaw(t1)
    ensures ImageTypeRaw(t1) == ImageTypeRaw(t2) ==> t1 == t2
    ensures ImageTypeDisplayName(t1) == ImageTypeDisplayName(t2) ==> t1 == t2
  {
  }

  // ---------------------------------------------------------------------
  // Alarm

  /** One user-defined alarm. `snoozeCount` and `dismissCount` are the taps
      needed to snooze or dismiss it; `moveSpeed` is display-only. */
  datatype Alarm = Alarm(
    id: Uuid,
    time: Instant,
    isEnabled: bool,
    repeatDays: seq<Weekday>,
    alarmLabel: string,  // the Swift field `label`; `label` is reserved in Dafny
    imageType: AlarmImageType,
    customImageData: Option<seq<byte>>,
    snoozeCount: int,
    dismissCount: int,
    moveSpeed: Double)

  const DefaultLabel: string := "起床啦！"
  const DefaultSnoozeCount: int := 1
  const DefaultDismissCount: int := 3
  const DefaultMoveSpeed: Double := Finite(0.5)

  /** The summary shown for an alarm that repeats on no day. */
  const OnceOnly: string := "只響一次"
  /** The summary shown for an alarm that repeats on seven days. */
  const EveryDay: string := "每天"

  /** The initialiser with every defaulted argument left out. The fresh UUID
      and the current date are parameters. */
  function NewAlarm(id: Uuid, now: Instant): (a: Alarm)
    ensures a.id == id && a.time == now
    ensures a.isEnabled && a.customImageData == None
    ensures RepeatString(a.repeatDays) == OnceOnly
    ensures a.alarmLabel == DefaultLabel && a.imageType == DefaultBunny
    ensures a.snoozeCount == 1 && a.dismissCount == 3 && a.moveSpeed == Finite(0.5)
  {
    Alarm(id, now, true, [], DefaultLabel, DefaultBunny, None,
          DefaultSnoozeCount, DefaultDismissCount, DefaultMoveSpeed)
  }

  /** Concatenation with a separator between neighbours, as `joined(separator:)`. */
  function Join(parts: seq<string>, sep: string): string
  {
    if |parts| == 0 then ""
    else if |parts| == 1 then parts[0]
    else parts[0] + sep + Join(parts[1..], sep)
  }

  /** The short name of each day, in list order. */
  function ShortNames(days: seq<Weekday>): (r: seq<string>)
    ensures |r| == |days|
    ensures forall i | 0 <= i < |days| :: r[i] == WeekdayShortName(days[i])
  {
    seq(|days|, i requires 0 <= i < |days| => WeekdayShortName(days[i]))
  }

  /** The repeat summary: a fixed text for no days, another for exactly seven
      entries (the test is on the count alone), else the short names joined
      by single spaces. */
  function RepeatString(days: seq<Weekday>): (r: string)
    ensures |days| == 0 ==> r == OnceOnly
    ensures |days| == 7 ==> r == EveryDay
    ensures |days| != 0 && |days| != 7 ==> r != OnceOnly && r != EveryDay
  {
    if |days| == 0 then OnceOnly
    else if |days| == 7 then EveryDay
    else
      JoinedShortNamesLayout(days);
      Join(ShortNames(days), " ")
  }

  /** Number of occurrences of `c` in `s`. */
  function CountChar(s: string, c: char): (n: nat)
    ensures n <= |s|
    ensures n == 0 <==> c !in s
    ensures n == |s| <==> forall i | 0 <= i < |s| :: s[i] == c
  {
    if |s| == 0 then 0
    else (if s[0] == c then 1 else 0) + CountChar(s[1..], c)
  }

  /** Reads a space-separated list of short names back into days; `None`
      when the text is not such a list. */
  function ParseDayList(s: string): Option<seq<Weekday>>
  {
    if |s| == 0 then None
    else match WeekdayFromShortName(s[0])
      case None => None
      case Some(d) =>
        if |s| == 1 then Some([d])
        else if s[1] != ' ' then None
        else match ParseDayList(s[2..])
          case None => None
          case Some(ds) => Some([d] + ds)
  }

  lemma {:induction false} ShortNamesTail(days: seq<Weekday>)
    requires |days| >= 1
    ensures ShortNames(days)[1..] == ShortNames(days[1..])
  {
  }

  /** Joined short names put day i at position 2i and a space at every odd
      position. */
  lemma {:induction false} JoinedShortNamesLayout(days: seq<Weekday>)
    requires |days| >= 1
    ensures |Join(ShortNames(days), " ")| == 2 * |days| - 1
    ensures forall i | 0 <= i < |days| :: Join(ShortNames(days), " ")[2 * i] == WeekdayShortName(days[i])[0]
    ensures forall i | 0 <= i < |days| - 1 :: Join(ShortNames(days), " ")[2 * i + 1] == ' '
  {
    if |days| > 1 {
      var tail := days[1..];
      JoinedShortNamesLayout(tail);
      ShortNamesTail(days);
      var s := Join(ShortNames(days), " ");
      var t := Join(ShortNames(tail), " ");
      assert s == WeekdayShortName(days[0]) + " " + t;
      forall i | 1 <= i < |days|
        ensures s[2 * i] == WeekdayShortName(days[i])[0]
      {
        assert s[2 * i] == t[2 * (i - 1)];
      }
      forall i | 1 <= i < |days| - 1
        ensures s[2 * i + 1] == ' '
      {
        assert s[2 * i + 1] == t[2 * (i - 1) + 1];
      }
    }
  }

  lemma {:induction false} JoinedShortNamesSpaces(days: seq<Weekday>)
    requires |days| >= 1
    ensures CountChar(Join(ShortNames(days), " "), ' ') == |days| - 1
  {
    if |days| > 1 {
      var tail := days[1..];
      JoinedShortNamesSpaces(tail);
      ShortNamesTail(days);
      var t := Join(ShortNames(tail), " ");
      var s := Join(ShortNames(days), " ");
      var c := WeekdayShortName(days[0])[0];
      assert s == [c] + (" " + t);
      assert s[1..] == " " + t;
      assert (" " + t)[1..] == t;
    }
  }

  lemma {:induction false} ParseJoinedShortNames(days: seq<Weekday>)
    requires |days| >= 1
    ensures ParseDayList(Join(ShortNames(days), " ")) == Some(days)
  {
    var s := Join(ShortNames(days), " ");
    var c := WeekdayShortName(days[0])[0];
    if |days| == 1 {
      assert s == [c];
      assert days == [days[0]];
    } else {
      var tail := days[1..];
      ParseJoinedShortNames(tail);
      ShortNamesTail(days);
      assert s == [c] + " " + Join(ShortNames(tail), " ");
      assert s[2..] == Join(ShortNames(tail), " ");
      assert [days[0]] + tail == days;
    }
  }

  lemma {:induction false} JoinParsedDayList(s: string, days: seq<Weekday>)
    requires ParseDayList(s) == Some(days)
    ensures |days| >= 1 && Join(ShortNames(days), " ") == s
    decreases |s|
  {
    var d := WeekdayFromShortName(s[0]).value;
    if |s| == 1 {
      assert days == [d];
    } else {
      var ds := ParseDayList(s[2..]).value;
      JoinParsedDayList(s[2..], ds);
      assert days == [d] + ds;
      assert days[1..] == ds;
      ShortNamesTail(days);
      assert s == [s[0]] + " " + s[2..];
    }
  }

  /** For a list of length other than 0 and 7 the summary has two characters
      per day less one: day i's short name at position 2i, a single space
      between neighbours, so exactly n - 1 separators. */
  lemma RepeatStringLayout(days: seq<Weekday>)
    requires |days| != 0 && |days| != 7
    ensures |RepeatString(days)| == 2 * |days| - 1
    ensures forall i | 0 <= i < |days| :: RepeatString(days)[2 * i] == WeekdayShortName(days[i])[0]
    ensures forall i | 0 <= i < |days| - 1 :: RepeatString(days)[2 * i + 1] == ' '
    ensures CountChar(RepeatString(days), ' ') == |days| - 1
  {
    JoinedShortNamesLayout(days);
    JoinedShortNamesSpaces(days);
  }

  /** The summary of a list of length other than 0 and 7 loses nothing: the
      list is read back from it, and a text that reads back as a list of such
      a length is that list's summary. */
  lemma RepeatStringRoundTrip(days: seq<Weekday>, s: string)
    ensures |days| != 0 && |days| != 7 ==> ParseDayList(RepeatString(days)) == Some(days)
    ensures ParseDayList(s) == Some(days) && |days| != 7 ==> RepeatString(days) == s
  {
    if |days| != 0 && |days| != 7 {
      ParseJoinedShortNames(days);
    }
    if ParseDayList(s) == Some(days) {
      JoinParsedDayList(s, days);
    }
  }

  /** The two fixed texts are decided by the count alone: any seven entries,
      even seven copies of one day, read as every day, and no other list
      does; only the empty list reads as once only. */
  lemma RepeatStringCountsOnly(days: seq<Weekday>)
    ensures RepeatString(days) == EveryDay <==> |days| == 7
    ensures RepeatString(days) == OnceOnly <==> |days| == 0
  {
  }
}
