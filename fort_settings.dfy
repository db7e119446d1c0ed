/**
 * FortSettings: the profile directory and the files derived from it, the INI
 * store with its change-detecting writes, the last error message, and the
 * reading and writing of the firewall configuration (.conf JSON file with a
 * backup, flags in the INI file).
 *
 * The file system is an abstract map from path to contents; JSON parsing,
 * serialisation and the outcome of each write, rename and INI flush are
 * parameters. Each Qt signal is modelled by the number of times it has been
 * emitted.
 */
module FortSettings {
  import opened QtTypes
  import opened IniStore
  import opened FirewallConfModel
  import IniOptions

  type Files = map<string, seq<Byte>>

  /** What QCommandLineParser yields: the -b/--boot value if given, the -p/--profile value ("" if absent). */
  datatype CommandLine = CommandLine(boot: Option<string>, profile: string)

  // ----- profile path and derived file paths -----

  predicate EndsWithSlash(p: string)
  {
    |p| > 0 && p[|p| - 1] == '/'
  }

  /** The path with a trailing '/': appended only when it is missing. */
  function WithTrailingSlash(p: string): (r: string)
    ensures EndsWithSlash(r) && |r| >= |p| && r[..|p|] == p
    ensures |r| == |p| <==> EndsWithSlash(p)
    ensures |r| <= |p| + 1
  {
    if EndsWithSlash(p) then p else p + "/"
  }

  /** The profile path processArguments settles on, given the file-system oracles. */
  function ProfilePathFor(args: CommandLine, appConfigLocation: string, absolutePath: string -> string): string
  {
    WithTrailingSlash(absolutePath(if args.profile == "" then appConfigLocation else args.profile))
  }

  function IniFilePath(profile: string): (p: string)
    ensures |p| == |profile| + 16 && p[..|profile|] == profile && p[|profile|..] == "FortFirewall.ini"
  {
    profile + "FortFirewall.ini"
  }

  function StatFilePath(profile: string): (p: string)
    ensures |p| == |profile| + 17 && p[..|profile|] == profile && p[|profile|..] == "FortFirewall.stat"
  {
    profile + "FortFirewall.stat"
  }

  function ConfFilePath(profile: string): (p: string)
    ensures |p| == |profile| + 17 && p[..|profile|] == profile && p[|profile|..] == "FortFirewall.conf"
  {
    profile + "FortFirewall.conf"
  }

  function ConfBackupFilePath(profile: string): (p: string)
    ensures var conf := ConfFilePath(profile);
      |p| == |conf| + 7 && p[..|conf|] == conf && p[|conf|..] == ".backup"
  {
    ConfFilePath(profile) + ".backup"
  }

  /** Normalising an already normalised path changes nothing. */
  lemma WithTrailingSlashIdempotent(p: string)
    ensures WithTrailingSlash(WithTrailingSlash(p)) == WithTrailingSlash(p)
  {
  }

  /**
   * The derived files all live in the profile directory, the backup is the
   * conf file's name plus ".backup", and no two of them share a path.
   */
  lemma {:induction false} DerivedPaths(profile: string)
    ensures var ini, stat, conf, backup := IniFilePath(profile), StatFilePath(profile),
                                           ConfFilePath(profile), ConfBackupFilePath(profile);
      && ini[..|profile|] == profile && stat[..|profile|] == profile
      && conf[..|profile|] == profile && backup[..|profile|] == profile
      && |backup| == |conf| + 7 && backup[..|conf|] == conf && backup[|conf|..] == ".backup"
      && ini != stat && ini != conf && ini != backup
      && stat != conf && stat != backup && conf != backup
  {
    var n := |profile|;
    var ini, stat, conf := IniFilePath(profile), StatFilePath(profile), ConfFilePath(profile);
    assert ini[n + 13] == 'i' && stat[n + 13] == 's' && conf[n + 13] == 'c';
  }

  // ----- INI access -----

  /** iniValue(key, default): an empty key never reads the store. */
  function IniValue(ini: Ini, key: string, default: Variant): (v: Variant)
    ensures key == "" ==> v == Invalid
    ensures key != "" && key in ini ==> v == ini[key]
    ensures key != "" && key !in ini ==> v == default
  {
    if key == "" then Invalid else Value(ini, key, default)
  }

  /** iniBool: false for an empty key, the default for an absent one, a stored bool as it is. */
  function IniBool(ini: Ini, key: string, default: bool): (b: bool)
    ensures key == "" ==> !b
    ensures key != "" && key !in ini ==> b == default
    ensures key != "" && key in ini && ini[key].Bool? ==> b == ini[key].b
  {
    ToBool(IniValue(ini, key, Bool(default)))
  }

  /** iniInt: 0 for an empty key, the default for an absent one, a stored int as it is. */
  function IniInt(ini: Ini, key: string, default: Int32): (i: Int32)
    ensures key == "" ==> i == 0
    ensures key != "" && key !in ini ==> i == default
    ensures key != "" && key in ini && ini[key].Int? ==> i == ini[key].i
  {
    ToInt(IniValue(ini, key, Int(default)))
  }

  /** iniUInt: the int default reinterpreted as unsigned for an absent key, a stored uint as it is. */
  function IniUInt(ini: Ini, key: string, default: Int32): (u: UInt32)
    ensures key == "" ==> u == 0
    ensures key != "" && key !in ini ==> u == UnsignedOf32(default)
    ensures key != "" && key in ini && ini[key].UInt? ==> u == ini[key].u
  {
    ToUInt(IniValue(ini, key, Int(default)))
  }

  // ----- error messages -----

  /** How many errorMessageChanged signals setting msgs in turn, starting from current, emits. */
  function MessageChanges(current: string, msgs: seq<string>): (n: nat)
    ensures n <= |msgs|
    ensures msgs != [] && msgs[0] == current ==> n <= |msgs| - 1
    decreases |msgs|
  {
    if msgs == [] then 0
    else (if msgs[0] != current then 1 else 0) + MessageChanges(msgs[0], msgs[1..])
  }

  /** The message left after setting msgs in turn, starting from current. */
  function LastMessage(current: string, msgs: seq<string>): (r: string)
    ensures r == current || r in msgs
  {
    if msgs == [] then current else msgs[|msgs| - 1]
  }

  /** Setting xs and then ys is setting xs + ys: the signals add up and the last message carries over. */
  lemma {:induction false} MessageChangesAppend(current: string, xs: seq<string>, ys: seq<string>)
    ensures MessageChanges(current, xs + ys) == MessageChanges(current, xs) + MessageChanges(LastMessage(current, xs), ys)
    ensures LastMessage(current, xs + ys) == LastMessage(LastMessage(current, xs), ys)
    decreases |xs|
  {
    if xs != [] {
      assert (xs + ys)[0] == xs[0];
      assert (xs + ys)[1..] == xs[1..] + ys;
      MessageChangesAppend(xs[0], xs[1..], ys);
      assert LastMessage(xs[0], xs[1..]) == LastMessage(current, xs);
    } else {
      assert xs + ys == ys;
    }
  }

  // ----- tasks -----

  const TasksGroup := "tasks"

  /** tasks(): every child key of group "tasks" with its value as a byte array. */
  function TasksOf(ini: Ini): map<string, seq<Byte>>
  {
    map name | name in ChildKeys(ini, TasksGroup) :: ToBytes(IniValue(ini, ChildKey(TasksGroup, name), Invalid))
  }

  /** The values setTasks writes below group g for the task names in done. */
  function TaskEntries(g: string, m: map<string, seq<Byte>>, done: set<string>): Ini
    requires done <= m.Keys
  {
    ChildKeyInjective(g);
    map name | name in done :: ChildKey(g, name) := Bytes(m[name])
  }

  /** The store after setTasks(m): the old "tasks" group removed, one key per task written. */
  function TasksStored(ini: Ini, m: map<string, seq<Byte>>): Ini
  {
    Remove(ini, TasksGroup) + TaskEntries(TasksGroup, m, m.Keys)
  }

  /** The written keys are exactly the task keys of the names in done. */
  lemma TaskEntriesLookup(g: string, m: map<string, seq<Byte>>, done: set<string>, name: string)
    requires done <= m.Keys
    ensures ChildKey(g, name) in TaskEntries(g, m, done) <==> name in done
    ensures name in done ==> TaskEntries(g, m, done)[ChildKey(g, name)] == Bytes(m[name])
  {
    ChildKeyInjective(g);
  }

  /** Writing one more task adds exactly its key, which was not written before. */
  lemma TaskEntriesInsert(g: string, m: map<string, seq<Byte>>, done: set<string>, name: string)
    requires done <= m.Keys && name in m && name !in done
    ensures ChildKey(g, name) !in TaskEntries(g, m, done)
    ensures TaskEntries(g, m, done + {name}) == TaskEntries(g, m, done)[ChildKey(g, name) := Bytes(m[name])]
  {
    ChildKeyInjective(g);
  }

  /** One iteration of setTasks: the task's key is new, so it is written and signalled. */
  lemma SetTasksStep(g: string, base: Ini, m: map<string, seq<Byte>>, done: set<string>, rest: set<string>, name: string, before: Ini)
    requires rest <= m.Keys && done == m.Keys - rest && name in rest
    ensures done <= m.Keys && name in m && name !in done
    ensures rest - {name} <= m.Keys && done + {name} == m.Keys - (rest - {name}) && |rest - {name}| < |rest|
    requires ChildKey(g, name) !in base
    requires before == base + TaskEntries(g, m, done)
    ensures var k := ChildKey(g, name);
      && Value(before, k, Invalid) != Bytes(m[name])
      && before[k := Bytes(m[name])] == base + TaskEntries(g, m, done + {name})
      && |done + {name}| == |done| + 1
  {
    TaskEntriesInsert(g, m, done, name);
    var k := ChildKey(g, name);
    UnionUpdate(base, TaskEntries(g, m, done), k, Bytes(m[name]));
    InsertCard(done, name);
  }

  lemma UnionUpdate(a: Ini, b: Ini, k: string, v: Variant)
    ensures (a + b)[k := v] == a + b[k := v]
  {
  }

  lemma InsertCard(s: set<string>, x: string)
    requires x !in s
    ensures |s + {x}| == |s| + 1
  {
  }

  /** setTasks(m) then tasks() yields m, for task names QSettings lists as child keys. */
  lemma {:induction false} TasksRoundTrip(ini: Ini, m: map<string, seq<Byte>>)
    requires forall name :: name in m ==> IsChildName(name)
    ensures TasksOf(TasksStored(ini, m)) == m
  {
    var stored := TasksStored(ini, m);
    var tasks := TasksOf(stored);
    forall name ensures name in tasks <==> name in m {
      ChildKeysMember(stored, TasksGroup, name);
      TaskEntriesLookup(TasksGroup, m, m.Keys, name);
    }
    forall name | name in m
      ensures tasks[name] == m[name]
    {
      ChildKeysMember(stored, TasksGroup, name);
      TaskEntriesLookup(TasksGroup, m, m.Keys, name);
    }
  }

  // ----- the INI part of the configuration -----


  const ProvBootKey := "confFlags/provBoot"
  const FilterEnabledKey := "confFlags/filterEnabled"
  const ResolveAddressKey := "confFlags/resolveAddress"
  const LogBlockedKey := "confFlags/logBlocked"
  const LogStatKey := "confFlags/logStat"
  const IpIncludeAllKey := "confFlags/ipIncludeAll"
  const IpExcludeAllKey := "confFlags/ipExcludeAll"
  const AppBlockAllKey := "confFlags/appBlockAll"
  const AppAllowAllKey := "confFlags/appAllowAll"
  const AppGroupBitsKey := "confFlags/appGroupBits"
  const TrafHourKeepDaysKey := "stat/trafHourKeepDays"
  const TrafDayKeepDaysKey := "stat/trafDayKeepDays"
  const TrafMonthKeepMonthsKey := "stat/trafMonthKeepMonths"
  const TrafUnitKey := "stat/trafUnit"

  /** The setIniValue calls of writeConfIni, in order: group "confFlags", then group "stat". */
  function ConfIniEntries(conf: FirewallConf): (es: seq<Entry>)
    ensures |es| == 14
  {
    var f, st := conf.flags, conf.stat;
    [ Entry(ProvBootKey, Bool(f.provBoot), Invalid),
      Entry(FilterEnabledKey, Bool(f.filterEnabled), Invalid),
      Entry(ResolveAddressKey, Bool(f.resolveAddress), Invalid),
      Entry(LogBlockedKey, Bool(f.logBlocked), Invalid),
      Entry(LogStatKey, Bool(f.logStat), Invalid),
      Entry(IpIncludeAllKey, Bool(f.ipIncludeAll), Invalid),
      Entry(IpExcludeAllKey, Bool(f.ipExcludeAll), Invalid),
      Entry(AppBlockAllKey, Bool(f.appBlockAll), Invalid),
      Entry(AppAllowAllKey, Bool(f.appAllowAll), Invalid),
      Entry(AppGroupBitsKey, UInt(f.appGroupBits), Int(IniOptions.DefaultAppGroupBits)),
      Entry(TrafHourKeepDaysKey, Int(st.trafHourKeepDays), Int(IniOptions.DefaultTrafHourKeepDays)),
      Entry(TrafDayKeepDaysKey, Int(st.trafDayKeepDays), Int(IniOptions.DefaultTrafDayKeepDays)),
      Entry(TrafMonthKeepMonthsKey, Int(st.trafMonthKeepMonths), Int(IniOptions.DefaultTrafMonthKeepMonths)),
      Entry(TrafUnitKey, Int(st.trafUnit), Invalid) ]
  }

  /** writeConfIni never writes the same key twice. */
  lemma ConfIniKeysDistinct(conf: FirewallConf)
    ensures KeysDistinct(ConfIniEntries(conf))
  {
  }

  /** The "confFlags" half of readConfIni, with its read defaults. */
  function ReadConfFlags(ini: Ini): (f: ConfFlags)
    ensures ini == map[] ==> f == ConfFlags(false, true, false, false, false, false, false, true, false, 0xFFFF)
  {
    ConfFlags(
      IniBool(ini, ProvBootKey, false),
      IniBool(ini, FilterEnabledKey, true),
      IniBool(ini, ResolveAddressKey, false),
      IniBool(ini, LogBlockedKey, false),
      IniBool(ini, LogStatKey, false),
      IniBool(ini, IpIncludeAllKey, false),
      IniBool(ini, IpExcludeAllKey, false),
      IniBool(ini, AppBlockAllKey, true),
      IniBool(ini, AppAllowAllKey, false),
      IniUInt(ini, AppGroupBitsKey, IniOptions.DefaultAppGroupBits))
  }

  /** The "stat" half of readConfIni, with its read defaults. */
  function ReadStatConf(ini: Ini): (s: StatConf)
    ensures ini == map[] ==> s == StatConf(90, 365, 36, 0)
  {
    StatConf(
      IniInt(ini, TrafHourKeepDaysKey, IniOptions.DefaultTrafHourKeepDays),
      IniInt(ini, TrafDayKeepDaysKey, IniOptions.DefaultTrafDayKeepDays),
      IniInt(ini, TrafMonthKeepMonthsKey, IniOptions.DefaultTrafMonthKeepMonths),
      IniInt(ini, TrafUnitKey, 0))
  }

  /** readConfIni: the INI-backed parts of conf replaced by what the store holds; the rest is untouched. */
  function ReadConfIni(ini: Ini, conf: FirewallConf): (r: FirewallConf)
    ensures r.variant == conf.variant
    ensures r.flags == ReadConfFlags(ini) && r.stat == ReadStatConf(ini)
    ensures ini == map[] ==> r == conf.(flags := ConfFlags(false, true, false, false, false, false, false, true, false, 0xFFFF),
                                         stat := StatConf(90, 365, 36, 0))
  {
    conf.(flags := ReadConfFlags(ini), stat := ReadStatConf(ini))
  }

  /** One entry of writeConfIni read back with the default readConfIni uses for it. */
  lemma ConfEntryReadBack(ini: Ini, conf: FirewallConf, j: nat, readDefault: Variant)
    requires j < 14
    requires var e := ConfIniEntries(conf)[j]; e.value != e.default || readDefault == e.default
    ensures var e := ConfIniEntries(conf)[j];
      IniValue(StoreAll(ini, ConfIniEntries(conf)), e.key, readDefault) == e.value
  {
    ConfIniKeysDistinct(conf);
    StoreAllValue(ini, ConfIniEntries(conf), j, readDefault);
  }

  /**
   * Every flag written is read back, whatever the store held: the reader's
   * default differs from the writer's only where the written value can
   * never equal the writer's default, so the write always lands.
   */
  lemma {:induction false} FlagsRoundTripFirst(ini: Ini, conf: FirewallConf)
    ensures var r, f := StoreAll(ini, ConfIniEntries(conf)), conf.flags;
      IniBool(r, ProvBootKey, false) == f.provBoot && IniBool(r, FilterEnabledKey, true) == f.filterEnabled && IniBool(r, ResolveAddressKey, false) == f.resolveAddress
  {
    ConfEntryReadBack(ini, conf, 0, Bool(false));
    ConfEntryReadBack(ini, conf, 1, Bool(true));
    ConfEntryReadBack(ini, conf, 2, Bool(false));
  }

  lemma {:induction false} FlagsRoundTripSecond(ini: Ini, conf: FirewallConf)
    ensures var r, f := StoreAll(ini, ConfIniEntries(conf)), conf.flags;
      IniBool(r, LogBlockedKey, false) == f.logBlocked && IniBool(r, LogStatKey, false) == f.logStat && IniBool(r, IpIncludeAllKey, false) == f.ipIncludeAll
  {
    ConfEntryReadBack(ini, conf, 3, Bool(false));
    ConfEntryReadBack(ini, conf, 4, Bool(false));
    ConfEntryReadBack(ini, conf, 5, Bool(false));
  }

  lemma {:induction false} FlagsRoundTripThird(ini: Ini, conf: FirewallConf)
    ensures var r, f := StoreAll(ini, ConfIniEntries(conf)), conf.flags;
      IniBool(r, IpExcludeAllKey, false) == f.ipExcludeAll && IniBool(r, AppBlockAllKey, true) == f.appBlockAll
  {
    ConfEntryReadBack(ini, conf, 6, Bool(false));
    ConfEntryReadBack(ini, conf, 7, Bool(true));
  }

  lemma {:induction false} FlagsRoundTripFourth(ini: Ini, conf: FirewallConf)
    ensures var r, f := StoreAll(ini, ConfIniEntries(conf)), conf.flags;
      IniBool(r, AppAllowAllKey, false) == f.appAllowAll && IniUInt(r, AppGroupBitsKey, IniOptions.DefaultAppGroupBits) == f.appGroupBits
  {
    ConfEntryReadBack(ini, conf, 8, Bool(false));
    ConfEntryReadBack(ini, conf, 9, Int(IniOptions.DefaultAppGroupBits));
  }

  lemma {:induction false} FlagsRoundTrip(ini: Ini, conf: FirewallConf)
    ensures ReadConfFlags(StoreAll(ini, ConfIniEntries(conf))) == conf.flags
  {
    FlagsRoundTripFirst(ini, conf);
    FlagsRoundTripSecond(ini, conf);
    FlagsRoundTripThird(ini, conf);
    FlagsRoundTripFourth(ini, conf);
  }

  /** The same for the statistics settings. */
  lemma {:induction false} StatRoundTrip(ini: Ini, conf: FirewallConf)
    ensures ReadStatConf(StoreAll(ini, ConfIniEntries(conf))) == conf.stat
  {
    ConfEntryReadBack(ini, conf, 10, Int(IniOptions.DefaultTrafHourKeepDays));
    ConfEntryReadBack(ini, conf, 11, Int(IniOptions.DefaultTrafDayKeepDays));
    ConfEntryReadBack(ini, conf, 12, Int(IniOptions.DefaultTrafMonthKeepMonths));
    ConfEntryReadBack(ini, conf, 13, Int(0));
  }

  /**
   * writeConfIni then readConfIni reproduces every INI setting of the written
   * configuration, whatever the store held before and whatever configuration
   * is read into; the target's .conf part is left as it was.
   */
  lemma {:induction false} ConfIniRoundTrip(ini: Ini, conf: FirewallConf, target: FirewallConf)
    ensures ReadConfIni(StoreAll(ini, ConfIniEntries(conf)), target) == target.(flags := conf.flags, stat := conf.stat)
  {
    FlagsRoundTrip(ini, conf);
    StatRoundTrip(ini, conf);
  }

  // ----- reading the configuration -----

  /** The JSON parser's verdict on the bytes of a .conf file. */
  datatype ParseResult = Parsed(variant: ConfVariant) | ParseError(message: string)

  /** readFileData: the contents of a file, empty for a missing one. */
  function ReadFileData(files: Files, path: string): seq<Byte>
  {
    if path in files then files[path] else []
  }

  /** The result of a read attempt: success, the configuration, and the error messages set. */
  datatype ReadOutcome = ReadOutcome(ok: bool, conf: FirewallConf, errors: seq<string>)

  /** tryToReadConf on one file. */
  function TryRead(files: Files, path: string, parse: seq<Byte> -> ParseResult, conf: FirewallConf): ReadOutcome
  {
    match parse(ReadFileData(files, path))
    case Parsed(v) => ReadOutcome(true, conf.(variant := v), [])
    case ParseError(e) => ReadOutcome(false, conf, [e])
  }

  /**
   * readConf: with neither file present only the INI is read; otherwise the
   * primary file is tried if present, the backup if that did not succeed, and
   * the INI flags are read last, only after a successful step.
   */
  function ReadConfOutcome(ini: Ini, files: Files, profile: string, conf: FirewallConf,
                           parse: seq<Byte> -> ParseResult): ReadOutcome
  {
    var file, backup := ConfFilePath(profile), ConfBackupFilePath(profile);
    if !(file in files || backup in files) then ReadOutcome(true, ReadConfIni(ini, conf), [])
    else
      var primary := if file in files then TryRead(files, file, parse, conf) else ReadOutcome(false, conf, []);
      var attempt :=
        if primary.ok then primary
        else
          var secondary := TryRead(files, backup, parse, conf);
          secondary.(errors := primary.errors + secondary.errors);
      if attempt.ok then attempt.(conf := ReadConfIni(ini, attempt.conf)) else attempt
  }

  /** With no conf file and no backup the result is just readConfIni, and it succeeds. */
  lemma ReadConfWithoutFiles(ini: Ini, files: Files, profile: string, conf: FirewallConf,
                             parse: seq<Byte> -> ParseResult)
    requires ConfFilePath(profile) !in files && ConfBackupFilePath(profile) !in files
    ensures ReadConfOutcome(ini, files, profile, conf, parse) == ReadOutcome(true, ReadConfIni(ini, conf), [])
  {
  }

  /** A primary file that parses wins: the backup is never consulted, whatever it holds. */
  lemma ReadConfPrimaryWins(ini: Ini, files: Files, profile: string, conf: FirewallConf,
                            parse: seq<Byte> -> ParseResult, backupData: seq<Byte>)
    requires ConfFilePath(profile) in files
    requires parse(files[ConfFilePath(profile)]).Parsed?
    ensures var v := parse(files[ConfFilePath(profile)]).variant;
      ReadConfOutcome(ini, files, profile, conf, parse) == ReadOutcome(true, ReadConfIni(ini, conf.(variant := v)), [])
    ensures ReadConfOutcome(ini, files[ConfBackupFilePath(profile) := backupData], profile, conf, parse)
         == ReadConfOutcome(ini, files, profile, conf, parse)
  {
    DerivedPaths(profile);
  }

  /**
   * When the primary file is missing or does not parse (and some file exists),
   * the backup decides: success exactly when it parses, and the errors are the
   * primary's followed by the backup's.
   */
  lemma ReadConfFallsBack(ini: Ini, files: Files, profile: string, conf: FirewallConf,
                          parse: seq<Byte> -> ParseResult)
    requires ConfFilePath(profile) in files || ConfBackupFilePath(profile) in files
    requires ConfFilePath(profile) in files ==> parse(files[ConfFilePath(profile)]).ParseError?
    ensures var r := ReadConfOutcome(ini, files, profile, conf, parse);
      var b := parse(ReadFileData(files, ConfBackupFilePath(profile)));
      var primaryErrors := if ConfFilePath(profile) in files then [parse(files[ConfFilePath(profile)]).message] else [];
      && (r.ok <==> b.Parsed?)
      && (b.Parsed? ==> r == ReadOutcome(true, ReadConfIni(ini, conf.(variant := b.variant)), primaryErrors))
      && (b.ParseError? ==> r == ReadOutcome(false, conf, primaryErrors + [b.message]))
  {
  }

  /** The INI flags are read exactly when a step succeeded; a failed read leaves conf untouched. */
  lemma ReadConfIniLast(ini: Ini, files: Files, profile: string, conf: FirewallConf,
                        parse: seq<Byte> -> ParseResult)
    ensures var r := ReadConfOutcome(ini, files, profile, conf, parse);
      && (r.ok ==> r.conf.flags == ReadConfFlags(ini) && r.conf.stat == ReadStatConf(ini))
      && (!r.ok ==> r.conf == conf && |r.errors| >= 1)
      && |r.errors| <= 2
  {
  }

  // ----- writing the configuration -----

  /** The four steps of writeConf, in order. */
  datatype WriteStep = IniWrite | StaleBackupRename | BackupWrite | FinalRename

  /** What the oracles report for each step: INI flush, stale-backup rename, backup write, final rename. */
  datatype FileOutcomes = FileOutcomes(iniSyncOk: bool, staleRenameOk: bool, backupWriteOk: bool, finalRenameOk: bool)

  /** The first step of writeConf that fails, if any; the stale-backup rename runs only if a backup exists. */
  function WriteConfFailure(o: FileOutcomes, backupExists: bool): Option<WriteStep>
  {
    if !o.iniSyncOk then Some(IniWrite)
    else if backupExists && !o.staleRenameOk then Some(StaleBackupRename)
    else if !o.backupWriteOk then Some(BackupWrite)
    else if !o.finalRenameOk then Some(FinalRename)
    else None
  }

  /** The error messages a failing step sets, in order (a failed backup write sets two). */
  function StepMessages(s: WriteStep): seq<string>
  {
    match s
    case IniWrite => ["Can't write .ini file"]
    case StaleBackupRename => ["Can't rename old backup .conf file"]
    case BackupWrite => ["Can't write .conf file", "Can't create backup .conf file"]
    case FinalRename => ["Can't rename backup .conf file"]
  }

  function FailureMessages(f: Option<WriteStep>): seq<string>
  {
    if f.Some? then StepMessages(f.value) else []
  }

  /** The message and signal count after the failing step f, given what the step's setErrorMessage calls left. */
  lemma FailedStepMessages(f: WriteStep, current: string, count0: nat, message: string, count: nat)
    requires f != BackupWrite
    requires message == StepMessages(f)[0] && count == count0 + (if current != message then 1 else 0)
    ensures message == LastMessage(current, FailureMessages(Some(f)))
    ensures count == count0 + MessageChanges(current, FailureMessages(Some(f)))
  {
    assert FailureMessages(Some(f)) == [message];
  }

  /** renameFile(from, to) that succeeds: the contents move and the old name disappears. */
  function Rename(files: Files, from: string, to: string): Files
    requires from in files
  {
    (files - {from})[to := files[from]]
  }

  /** The file system after writeConf, where data is the serialised configuration. */
  function WriteConfFiles(files: Files, profile: string, o: FileOutcomes, data: seq<Byte>): Files
  {
    var file, backup := ConfFilePath(profile), ConfBackupFilePath(profile);
    if !o.iniSyncOk then files
    else if backup in files && !o.staleRenameOk then files
    else
      var restored := if backup in files then Rename(files, backup, file) else files;
      if !o.backupWriteOk then restored
      else
        var written := restored[backup := data];
        if !o.finalRenameOk then written else Rename(written, backup, file)
  }

  /** writeConf succeeds exactly when every step that runs succeeds. */
  lemma WriteConfSucceedsIffAllSteps(o: FileOutcomes, backupExists: bool)
    ensures WriteConfFailure(o, backupExists).None? <==>
      o.iniSyncOk && (backupExists ==> o.staleRenameOk) && o.backupWriteOk && o.finalRenameOk
    ensures WriteConfFailure(o, backupExists) == Some(StaleBackupRename) ==> backupExists && o.iniSyncOk
    ensures WriteConfFailure(o, backupExists) == Some(BackupWrite) ==> o.iniSyncOk && (backupExists ==> o.staleRenameOk)
  {
  }

  /** After a successful writeConf the conf file holds the new data and no backup is left. */
  lemma {:induction false} WriteConfSuccessFiles(files: Files, profile: string, o: FileOutcomes, data: seq<Byte>)
    requires WriteConfFailure(o, ConfBackupFilePath(profile) in files).None?
    ensures var r := WriteConfFiles(files, profile, o, data);
      r == (files - {ConfBackupFilePath(profile)})[ConfFilePath(profile) := data]
  {
    DerivedPaths(profile);
    var file, backup := ConfFilePath(profile), ConfBackupFilePath(profile);
    var restored := if backup in files then Rename(files, backup, file) else files;
    var r := WriteConfFiles(files, profile, o, data);
    var expected := (files - {backup})[file := data];
    assert r == Rename(restored[backup := data], backup, file);
    forall k ensures (k in r <==> k in expected) && (k in r ==> r[k] == expected[k]) {
    }
  }

  /**
   * However writeConf ends, the conf file is never lost or half-written: the
   * conf path afterwards holds its old contents, the old backup's contents or
   * the new data, and if any copy existed before, one exists afterwards.
   */
  lemma {:induction false} WriteConfKeepsAConf(files: Files, profile: string, o: FileOutcomes, data: seq<Byte>)
    ensures var r := WriteConfFiles(files, profile, o, data);
      var file, backup := ConfFilePath(profile), ConfBackupFilePath(profile);
      && (file in files || backup in files ==> file in r || backup in r)
      && (file in r ==> (file in files && r[file] == files[file]) || (backup in files && r[file] == files[backup]) || r[file] == data)
      && (forall k :: k != file && k != backup ==> (k in r <==> k in files) && (k in r ==> r[k] == files[k]))
  {
    DerivedPaths(profile);
  }

  /**
   * One more setIniValue call of a planned sequence es: if the store and the
   * count were those of the first j calls, and the call behaved as setIniValue
   * does, they are those of the first j + 1 calls.
   */
  lemma StoreAllPrefixStep(ini0: Ini, count0: nat, es: seq<Entry>, j: nat,
                           before: Ini, countBefore: nat, after: Ini, countAfter: nat)
    requires j < |es|
    requires before == StoreAll(ini0, es[..j]) && countBefore == count0 + ChangedCount(ini0, es[..j])
    requires var e := es[j];
      && (Value(before, e.key, e.default) == e.value ==> after == before && countAfter == countBefore)
      && (Value(before, e.key, e.default) != e.value ==> after == before[e.key := e.value] && countAfter == countBefore + 1)
    ensures after == StoreAll(ini0, es[..j + 1]) && countAfter == count0 + ChangedCount(ini0, es[..j + 1])
  {
    assert es[..j + 1][..j] == es[..j];
  }

  /** The settings object: profile, provisional-boot flag, INI store, error message, files and signals. */
  class Settings {
    var hasProvBoot: bool
    var provBoot: bool
    var profilePath: string
    var errorMessage: string
    var ini: Ini
    var files: Files
    var iniChangedCount: nat
    var errorMessageChangedCount: nat

    /**
     * FortSettings(args): processes the command line, then opens the INI file
     * of the profile, whose current contents are storedIni.
     */
    constructor (args: CommandLine, appConfigLocation: string, absolutePath: string -> string,
                 storedIni: Ini, existingFiles: Files)
      ensures hasProvBoot == args.boot.Some?
      ensures provBoot == (args.boot.Some? && TextToBool(args.boot.value))
      ensures profilePath == ProfilePathFor(args, appConfigLocation, absolutePath)
      ensures EndsWithSlash(profilePath)
      ensures ini == storedIni && files == existingFiles && errorMessage == ""
      ensures iniChangedCount == 0 && errorMessageChangedCount == 0
    {
      hasProvBoot, provBoot := false, false;
      profilePath, errorMessage := "", "";
      ini, files := storedIni, existingFiles;
      iniChangedCount, errorMessageChangedCount := 0, 0;
      new;
      ProcessArguments(args, appConfigLocation, absolutePath);
    }

    method ProcessArguments(args: CommandLine, appConfigLocation: string, absolutePath: string -> string)
      modifies this`hasProvBoot, this`provBoot, this`profilePath
      ensures hasProvBoot == args.boot.Some?
      ensures provBoot == if args.boot.Some? then TextToBool(args.boot.value) else old(provBoot)
      ensures profilePath == ProfilePathFor(args, appConfigLocation, absolutePath)
      ensures EndsWithSlash(profilePath)
    {
      hasProvBoot := args.boot.Some?;
      if hasProvBoot {
        provBoot := ToBool(Text(args.boot.value));
      }

      profilePath := args.profile;
      if profilePath == "" {
        profilePath := appConfigLocation;
      }
      profilePath := absolutePath(profilePath);

      if !EndsWithSlash(profilePath) {
        profilePath := profilePath + "/";
      }
    }

    method SetErrorMessage(msg: string)
      modifies this`errorMessage, this`errorMessageChangedCount
      ensures errorMessage == msg
      ensures errorMessageChangedCount == old(errorMessageChangedCount) + if old(errorMessage) != msg then 1 else 0
    {
      if errorMessage != msg {
        errorMessage := msg;
        errorMessageChangedCount := errorMessageChangedCount + 1;
      }
    }

    /** setIniValue: writes and signals only when stored-or-default differs from the value. */
    method SetIniValue(key: string, value: Variant, default: Variant)
      modifies this`ini, this`iniChangedCount
      ensures Value(old(ini), key, default) == value ==> ini == old(ini) && iniChangedCount == old(iniChangedCount)
      ensures Value(old(ini), key, default) != value ==>
                ini == old(ini)[key := value] && iniChangedCount == old(iniChangedCount) + 1
    {
      if Value(ini, key, default) == value {
        return;
      }
      ini := ini[key := value];
      iniChangedCount := iniChangedCount + 1;
    }

    method RemoveIniKey(key: string)
      modifies this`ini
      ensures ini == Remove(old(ini), key)
    {
      ini := Remove(ini, key);
    }

    /** tasks(): collects each child key of "tasks" with its value. */
    method Tasks() returns (tasks: map<string, seq<Byte>>)
      ensures tasks == TasksOf(ini)
    {
      var names := ChildKeys(ini, TasksGroup);
      var rest := names;
      tasks := map[];
      while rest != {}
        invariant rest <= names
        invariant tasks.Keys == names - rest
        invariant forall name :: name in tasks ==>
                    tasks[name] == ToBytes(IniValue(ini, ChildKey(TasksGroup, name), Invalid))
        decreases |rest|
      {
        var name :| name in rest;
        var taskKey := ChildKey(TasksGroup, name);
        tasks := tasks[name := ToBytes(IniValue(ini, taskKey, Invalid))];
        rest := rest - {name};
      }
    }

    /** setTasks(m): clears the "tasks" group, writes every task, then flushes (syncOk is the flush result). */
    method SetTasks(m: map<string, seq<Byte>>, syncOk: bool) returns (ok: bool)
      modifies this`ini, this`iniChangedCount
      ensures ini == TasksStored(old(ini), m)
      ensures iniChangedCount == old(iniChangedCount) + |m|
      ensures ok == syncOk
    {
      RemoveIniKey(TasksGroup);
      ghost var base := ini;
      RemovedGroupIsEmpty(old(ini), TasksGroup);
      ghost var count0 := iniChangedCount;
      ghost var done: set<string> := {};
      var rest := m.Keys;
      while rest != {}
        invariant rest <= m.Keys && done == m.Keys - rest
        invariant ini == base + TaskEntries(TasksGroup, m, done)
        invariant iniChangedCount == count0 + |done|
        decreases |rest|
      {
        var name :| name in rest;
        var taskKey := ChildKey(TasksGroup, name);
        SetTasksStep(TasksGroup, base, m, done, rest, name, ini);
        SetIniValue(taskKey, Bytes(m[name]), Invalid);
        done := done + {name};
        rest := rest - {name};
      }
      assert done == m.Keys;
      ok := syncOk;
    }

    /** writeConfIni: the setIniValue calls of groups "confFlags" and "stat", in order, then the flush. */
    method WriteConfIni(conf: FirewallConf, syncOk: bool) returns (ok: bool)
      modifies this`ini, this`iniChangedCount
      ensures ini == StoreAll(old(ini), ConfIniEntries(conf))
      ensures iniChangedCount == old(iniChangedCount) + ChangedCount(old(ini), ConfIniEntries(conf))
      ensures ok == syncOk
    {
      var es := ConfIniEntries(conf);
      ghost var ini0, count0 := ini, iniChangedCount;
      assert es[..0] == [];
      for j := 0 to |es|
        invariant ini == StoreAll(ini0, es[..j]) && iniChangedCount == count0 + ChangedCount(ini0, es[..j])
      {
        ghost var ini1, count1 := ini, iniChangedCount;
        SetIniValue(es[j].key, es[j].value, es[j].default);
        StoreAllPrefixStep(ini0, count0, es, j, ini1, count1, ini, iniChangedCount);
      }
      assert es[..|es|] == es;
      ok := syncOk;
    }

    /** tryToReadConf: parses the file; on a parse error sets the error message and fails. */
    method TryToReadConf(conf: FirewallConf, filePath: string, parse: seq<Byte> -> ParseResult)
      returns (ok: bool, result: FirewallConf)
      modifies this`errorMessage, this`errorMessageChangedCount
      ensures var o := TryRead(files, filePath, parse, conf);
        && ok == o.ok && result == o.conf
        && errorMessage == LastMessage(old(errorMessage), o.errors)
        && errorMessageChangedCount == old(errorMessageChangedCount) + MessageChanges(old(errorMessage), o.errors)
    {
      var data := ReadFileData(files, filePath);
      match parse(data)
      case ParseError(e) =>
        SetErrorMessage(e);
        ok, result := false, conf;
      case Parsed(v) =>
        ok, result := true, conf.(variant := v);
    }

    /** readConf: primary file, else backup, then the INI flags after a successful step. */
    method ReadConf(conf: FirewallConf, parse: seq<Byte> -> ParseResult) returns (ok: bool, result: FirewallConf)
      modifies this`errorMessage, this`errorMessageChangedCount
      ensures var o := ReadConfOutcome(ini, files, profilePath, conf, parse);
        && ok == o.ok && result == o.conf
        && errorMessage == LastMessage(old(errorMessage), o.errors)
        && errorMessageChangedCount == old(errorMessageChangedCount) + MessageChanges(old(errorMessage), o.errors)
    {
      var filePath := ConfFilePath(profilePath);
      var backupFilePath := ConfBackupFilePath(profilePath);

      var fileExists := filePath in files;
      var backupFileExists := backupFilePath in files;

      ghost var errors: seq<string> := [];
      result := conf;
      ok := !(fileExists || backupFileExists);
      if !ok && fileExists {
        ok, result := TryToReadConf(result, filePath, parse);
        errors := TryRead(files, filePath, parse, conf).errors;
      }
      if !ok {
        ok, result := TryToReadConf(result, backupFilePath, parse);
        MessageChangesAppend(old(errorMessage), errors, TryRead(files, backupFilePath, parse, conf).errors);
      }
      if ok {
        result := ReadConfIni(ini, result);
      }
    }

    method WriteFileData(path: string, data: seq<Byte>, succeeds: bool) returns (ok: bool)
      modifies this`files
      ensures ok == succeeds
      ensures files == if ok then old(files)[path := data] else old(files)
    {
      ok := succeeds;
      if ok {
        files := files[path := data];
      }
    }

    /** renameFile: fails if the source is missing or the oracle says so; moves the contents otherwise. */
    method RenameFile(from: string, to: string, succeeds: bool) returns (ok: bool)
      modifies this`files
      ensures ok == (succeeds && from in old(files))
      ensures files == if ok then Rename(old(files), from, to) else old(files)
    {
      ok := succeeds && from in files;
      if ok {
        files := Rename(files, from, to);
      }
    }

    /** tryToWriteConf: serialises the configuration and writes it to filePath. */
    method TryToWriteConf(conf: FirewallConf, filePath: string, writeOk: bool, toJson: ConfVariant -> seq<Byte>)
      returns (ok: bool)
      modifies this`files, this`errorMessage, this`errorMessageChangedCount
      ensures ok == writeOk
      ensures files == if ok then old(files)[filePath := toJson(conf.variant)] else old(files)
      ensures errorMessage == if ok then old(errorMessage) else "Can't write .conf file"
      ensures errorMessageChangedCount ==
                old(errorMessageChangedCount) + MessageChanges(old(errorMessage), if ok then [] else ["Can't write .conf file"])
    {
      var data := toJson(conf.variant);
      ok := WriteFileData(filePath, data, writeOk);
      if !ok {
        SetErrorMessage("Can't write .conf file");
        return;
      }
    }

    /**
     * The file steps of writeConf, after the INI part succeeded: restore of a
     * stale backup, backup write, final rename; stops at the first failure.
     */
    method ReplaceConfFile(conf: FirewallConf, o: FileOutcomes, toJson: ConfVariant -> seq<Byte>) returns (ok: bool)
      requires o.iniSyncOk
      modifies this`errorMessage, this`errorMessageChangedCount, this`files
      ensures var failure := WriteConfFailure(o, ConfBackupFilePath(profilePath) in old(files));
        && ok == failure.None?
        && files == WriteConfFiles(old(files), profilePath, o, toJson(conf.variant))
        && errorMessage == LastMessage(old(errorMessage), FailureMessages(failure))
        && errorMessageChangedCount == old(errorMessageChangedCount) + MessageChanges(old(errorMessage), FailureMessages(failure))
    {
      var filePath := ConfFilePath(profilePath);
      var backupFilePath := ConfBackupFilePath(profilePath);

      if backupFilePath in files {
        var renamed := RenameFile(backupFilePath, filePath, o.staleRenameOk);
        if !renamed {
          SetErrorMessage("Can't rename old backup .conf file");
          FailedStepMessages(StaleBackupRename, old(errorMessage), old(errorMessageChangedCount), errorMessage, errorMessageChangedCount);
          return false;
        }
      }

      ghost var message1 := errorMessage;
      var written := TryToWriteConf(conf, backupFilePath, o.backupWriteOk, toJson);
      if !written {
        SetErrorMessage("Can't create backup .conf file");
        MessageChangesAppend(message1, ["Can't write .conf file"], ["Can't create backup .conf file"]);
        return false;
      }

      var moved := RenameFile(backupFilePath, filePath, o.finalRenameOk);
      if !moved {
        SetErrorMessage("Can't rename backup .conf file");
        FailedStepMessages(FinalRename, old(errorMessage), old(errorMessageChangedCount), errorMessage, errorMessageChangedCount);
        return false;
      }

      return true;
    }

    /** writeConf: the INI part first; a failed INI flush stops before any file is touched. */
    method WriteConf(conf: FirewallConf, o: FileOutcomes, toJson: ConfVariant -> seq<Byte>) returns (ok: bool)
      modifies this`ini, this`iniChangedCount, this`errorMessage, this`errorMessageChangedCount, this`files
      ensures ini == StoreAll(old(ini), ConfIniEntries(conf))
      ensures iniChangedCount == old(iniChangedCount) + ChangedCount(old(ini), ConfIniEntries(conf))
      ensures var failure := WriteConfFailure(o, ConfBackupFilePath(profilePath) in old(files));
        && ok == failure.None?
        && files == WriteConfFiles(old(files), profilePath, o, toJson(conf.variant))
        && errorMessage == LastMessage(old(errorMessage), FailureMessages(failure))
        && errorMessageChangedCount == old(errorMessageChangedCount) + MessageChanges(old(errorMessage), FailureMessages(failure))
    {
      var iniOk := WriteConfIni(conf, o.iniSyncOk);
      if !iniOk {
        SetErrorMessage("Can't write .ini file");
        FailedStepMessages(IniWrite, old(errorMessage), old(errorMessageChangedCount), errorMessage, errorMessageChangedCount);
        return false;
      }
      ok := ReplaceConfFile(conf, o, toJson);
    }
  }
}
