// The natural-language command parser of the interactive shell
// (src/wellcode_cli/commands/commands.py; wellcode_cli/commands/commands.py
// holds the same two functions at lines 193-258).

module Commands {
  import opened Common
  import opened Text
  import Clock

  datatype CommandType = Review | Config | Report | Help | Exit | Chat

  /** A half-open reporting window [start, end) in UTC seconds. */
  datatype TimeRange = TimeRange(start: int, end: int)

  datatype Parsed = Parsed(kind: CommandType, args: seq<string>, range: Option<TimeRange>)

  /** cmd_mapping, in the order Python iterates it. */
  const Mapping: seq<(string, CommandType)> := [
    ("review", Review), ("check", Review), ("show", Review),
    ("config", Config), ("setup", Config), ("configure", Config),
    ("report", Report), ("chart", Report),
    ("help", Help), ("?", Help),
    ("exit", Exit), ("quit", Exit), ("q", Exit)
  ]

  /** Position of the first entry of `table` whose key is exactly `key`. */
  function KeyIndex<T>(table: seq<(string, T)>, key: string, from: nat): (r: Option<nat>)
    ensures r.Some? ==> from <= r.value < |table| && table[r.value].0 == key
    ensures r.None? ==> forall j :: from <= j < |table| ==> table[j].0 != key
    decreases |table| - from
  {
    if from >= |table| then None
    else if table[from].0 == key then Some(from)
    else KeyIndex(table, key, from + 1)
  }

  /** `key in cmd_mapping` followed by `cmd_mapping[key]`. */
  function Lookup<T>(table: seq<(string, T)>, key: string): (r: Option<T>)
    ensures r.Some? <==> exists j :: 0 <= j < |table| && table[j].0 == key
    ensures r.Some? ==> exists j :: 0 <= j < |table| && table[j] == (key, r.value)
  {
    match KeyIndex(table, key, 0)
    case None => None
    case Some(i) => Some(table[i].1)
  }

  /** Position of the first entry, in table order, whose key is a substring of s. */
  function FirstContained<T>(table: seq<(string, T)>, s: string, from: nat): (r: Option<nat>)
    ensures r.Some? ==> from <= r.value < |table| && Contains(s, table[r.value].0)
    ensures r.Some? ==> forall j :: from <= j < r.value ==> !Contains(s, table[j].0)
    ensures r.None? ==> forall j :: from <= j < |table| ==> !Contains(s, table[j].0)
    decreases |table| - from
  {
    if from >= |table| then None
    else if Contains(s, table[from].0) then Some(from)
    else FirstContained(table, s, from + 1)
  }

  /**
   * parse_time_range with the current instant passed in. "yesterday" wins over
   * "last week", which wins over "this week"; each window is made of whole UTC days.
   */
  function ParseTimeRange(command: string, now: int): (r: Option<TimeRange>)
    ensures var lower := Lower(command);
      r.Some? <==> Contains(lower, "yesterday") || Contains(lower, "last week") || Contains(lower, "this week")
    ensures r.Some? ==> r.value.start % Clock.Day == 0 && r.value.end % Clock.Day == 0 && r.value.start < r.value.end
  {
    var lower := Lower(command);
    var today := Clock.DayStart(now);
    if Contains(lower, "yesterday") then
      Clock.WholeDays(today, -1);
      Some(TimeRange(today - Clock.Day, today))
    else if Contains(lower, "last week") then
      Clock.WholeDays(today, -7);
      Some(TimeRange(today - 7 * Clock.Day, today))
    else if Contains(lower, "this week") then
      ThisWeekWindow(now);
      Some(TimeRange(today - Clock.Weekday(today) * Clock.Day, today + Clock.Day))
    else
      None
  }

  /**
   * The three windows: "yesterday" is the whole UTC day before today, "last
   * week" the seven whole days before today, and "this week" runs from
   * Monday midnight to the end of today.
   */
  lemma TimeRangeWindows(command: string, now: int)
    ensures var r := ParseTimeRange(command, now);
      Contains(Lower(command), "yesterday") ==>
        r.Some? && r.value.end - r.value.start == Clock.Day && r.value.end <= now < r.value.end + Clock.Day
    ensures var r := ParseTimeRange(command, now);
      !Contains(Lower(command), "yesterday") && Contains(Lower(command), "last week") ==>
        r.Some? && r.value.end - r.value.start == 7 * Clock.Day && r.value.end <= now < r.value.end + Clock.Day
    ensures var r := ParseTimeRange(command, now);
      (!Contains(Lower(command), "yesterday") && !Contains(Lower(command), "last week")
       && Contains(Lower(command), "this week")) ==>
        r.Some? && Clock.Weekday(r.value.start) == 0 && r.value.start <= now < r.value.end
        && r.value.end - r.value.start <= 7 * Clock.Day && now < r.value.end <= now + Clock.Day
  {
    ThisWeekWindow(now);
  }

  /** The window of "this week": from Monday midnight to the end of today. */
  lemma ThisWeekWindow(now: int)
    ensures var today := Clock.DayStart(now); var start := today - Clock.Weekday(today) * Clock.Day;
      Clock.Weekday(start) == 0 && start % Clock.Day == 0 && start <= now
      && today + Clock.Day - start <= 7 * Clock.Day && (today + Clock.Day) % Clock.Day == 0
      && now < today + Clock.Day <= now + Clock.Day
  {
    var today := Clock.DayStart(now);
    var w := Clock.Weekday(today);
    Clock.WeekdayOfDayStart(now);
    assert w == Clock.Weekday(now);
    Clock.MondayOfWeek(now);
    Clock.WholeDays(today, 1);
    assert today + Clock.Day - (today - w * Clock.Day) == (w + 1) * Clock.Day;
  }

  /**
   * What the substring scan returns for a REVIEW key: the first word of the text
   * between the first and the second occurrence of the key, if there is one.
   */
  function ReviewArgs(lower: string, key: string): (args: seq<string>)
    requires key != []
    ensures |args| <= 1
    ensures |args| == 1 ==> args[0] != [] && NoSpace(args[0])
    ensures !Contains(lower, key) ==> args == []
  {
    var parts := SplitOn(lower, key);
    if |parts| > 1 && Strip(parts[1]) != [] then
      WordsEmpty(Strip(parts[1]));
      [Words(Strip(parts[1]))[0]]
    else []
  }

  /** The arguments the substring scan returns for the mapping entry at `index`. */
  function ScanArgs(lower: string, index: nat): (args: seq<string>)
    requires index < |Mapping|
    ensures |args| <= 1
    ensures Mapping[index].1 != Review ==> args == []
  {
    if Mapping[index].1 == Review then ReviewArgs(lower, Mapping[index].0) else []
  }

  /** The tokens of `command.strip().split()`. */
  function Tokens(command: string): (parts: seq<string>)
    ensures parts == [] <==> AllSpace(command)
  {
    var t := Strip(command);
    WordsEmpty(t);
    assert t != [] ==> !IsSpace(t[0]);
    Words(t)
  }

  /**
   * parse_command: the time range is read from the whole input independently of
   * the command; an exact first-token key wins, then the first key of the
   * mapping found anywhere in the lowered input, and CHAT with the raw input
   * is the fallback.
   */
  function ParseCommand(command: string, now: int): (r: Parsed)
    ensures r.range == ParseTimeRange(command, now)
    ensures AllSpace(command) ==> r.kind == Chat && r.args == [command]
    ensures !AllSpace(command) && Lookup(Mapping, Lower(Tokens(command)[0])).Some? ==>
      r.kind == Lookup(Mapping, Lower(Tokens(command)[0])).value && r.args == Tokens(command)[1..]
    ensures !AllSpace(command) && Lookup(Mapping, Lower(Tokens(command)[0])).None? ==>
      match FirstContained(Mapping, Lower(command), 0)
      case None => r.kind == Chat && r.args == [command]
      case Some(i) => r.kind == Mapping[i].1 && r.args == ScanArgs(Lower(command), i)
    ensures r.kind == Chat <==>
      AllSpace(command)
      || (Lookup(Mapping, Lower(Tokens(command)[0])).None? && FirstContained(Mapping, Lower(command), 0).None?)
  {
    var parts := Tokens(command);
    var range := ParseTimeRange(command, now);
    MappingHasNoChat();
    if parts == [] then
      Parsed(Chat, [command], range)
    else
      match Lookup(Mapping, Lower(parts[0]))
      case Some(kind) => Parsed(kind, parts[1..], range)
      case None =>
        match FirstContained(Mapping, Lower(command), 0)
        case Some(i) => Parsed(Mapping[i].1, ScanArgs(Lower(command), i), range)
        case None => Parsed(Chat, [command], range)
  }

  /** CHAT is not a value of the mapping, so it only comes from the two fallbacks. */
  lemma MappingHasNoChat()
    ensures forall j :: 0 <= j < |Mapping| ==> Mapping[j].1 != Chat
  {
    forall j | 0 <= j < |Mapping| ensures Mapping[j].1 != Chat {
      var kinds := [Review, Review, Review, Config, Config, Config, Report, Report, Help, Help, Exit, Exit, Exit];
      assert Mapping[j].1 == kinds[j];
    }
  }
}
