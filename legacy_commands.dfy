// The older command parser (wellcode_cli/commands.py), which adds ANALYZE
// and an explicit CHAT keyword, short-cuts formatted `--flag` commands and
// falls back to HELP instead of CHAT. Its parse_time_range (lines 157-178)
// is the same function as Commands.ParseTimeRange.

module LegacyCommands {
  import opened Common
  import opened Text
  import Commands

  datatype CommandType = Analyze | Config | Report | Review | Help | Exit | Chat

  datatype Parsed = Parsed(kind: CommandType, args: seq<string>, range: Option<Commands.TimeRange>)

  /** cmd_mapping, in the order Python iterates it. */
  const Mapping: seq<(string, CommandType)> := [
    ("analyze", Analyze), ("check", Analyze), ("show", Analyze),
    ("config", Config), ("setup", Config), ("configure", Config),
    ("report", Report), ("chart", Report),
    ("review", Review),
    ("chat", Chat), ("interactive", Chat),
    ("help", Help), ("?", Help),
    ("exit", Exit), ("quit", Exit), ("q", Exit)
  ]

  predicate StartsWith(s: string, prefix: string)
  {
    |prefix| <= |s| && s[..|prefix|] == prefix
  }

  /** `any(arg.startswith('--') for arg in parts)`. */
  predicate HasFlag(parts: seq<string>)
  {
    exists i :: 0 <= i < |parts| && StartsWith(parts[i], "--")
  }

  function ScanArgs(lower: string, index: nat): (args: seq<string>)
    requires index < |Mapping|
    ensures |args| <= 1
    ensures Mapping[index].1 != Review ==> args == []
  {
    if Mapping[index].1 == Review then Commands.ReviewArgs(lower, Mapping[index].0) else []
  }

  /** The path taken once the `--` short-cut did not apply (lines 211-254). */
  function ParseNatural(command: string, parts: seq<string>, now: int): (r: Parsed)
    requires parts != []
    ensures r.range == Commands.ParseTimeRange(command, now)
  {
    var range := Commands.ParseTimeRange(command, now);
    match Commands.Lookup(Mapping, Lower(parts[0]))
    case Some(kind) => Parsed(kind, parts[1..], range)
    case None =>
      match Commands.FirstContained(Mapping, Lower(command), 0)
      case Some(i) => Parsed(Mapping[i].1, ScanArgs(Lower(command), i), range)
      case None => Parsed(Help, [], range)
  }

  /**
   * parse_command: blank input is HELP with no time range; otherwise an exact
   * first-token key wins, then the first key found in the lowered input, and
   * HELP is the fallback.
   */
  function ParseCommand(command: string, now: int): (r: Parsed)
    ensures AllSpace(command) ==> r == Parsed(Help, [], None)
    ensures !AllSpace(command) ==> r.range == Commands.ParseTimeRange(command, now)
    ensures !AllSpace(command) && Commands.Lookup(Mapping, Lower(Commands.Tokens(command)[0])).Some? ==>
      r.kind == Commands.Lookup(Mapping, Lower(Commands.Tokens(command)[0])).value
      && r.args == Commands.Tokens(command)[1..]
    ensures !AllSpace(command) && Commands.Lookup(Mapping, Lower(Commands.Tokens(command)[0])).None? ==>
      match Commands.FirstContained(Mapping, Lower(command), 0)
      case None => r.kind == Help && r.args == []
      case Some(i) => r.kind == Mapping[i].1 && r.args == ScanArgs(Lower(command), i)
  {
    var parts := Commands.Tokens(command);
    if parts == [] then
      Parsed(Help, [], None)
    else if HasFlag(parts) && Commands.Lookup(Mapping, Lower(parts[0])).Some? then
      Parsed(Commands.Lookup(Mapping, Lower(parts[0])).value, parts[1..], Commands.ParseTimeRange(command, now))
    else
      ParseNatural(command, parts, now)
  }

  /** The `--` short-cut returns exactly what the general path would have returned. */
  lemma FlagShortcutRedundant(command: string, now: int)
    requires !AllSpace(command)
    ensures ParseCommand(command, now) == ParseNatural(command, Commands.Tokens(command), now)
  {
  }
}
