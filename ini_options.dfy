/**
 * IniOptions: the typed options kept in a key -> value map (MapWrapper). Each
 * getter reads one "group/key" with a default; each setter writes one key.
 * Getters and setters of one value type are grouped: an enumeration names the
 * option, and tables give the key it is read from, its default, and the key
 * its setter writes.
 */
module IniOptions {
  import opened QtTypes
  import opened IniStore

  type OptionMap = map<string, Variant>

  const DefaultAppGroupBits: Int32 := 0xFFFF
  const DefaultMonthStart: Int32 := 1
  const DefaultTrafHourKeepDays: Int32 := 90
  const DefaultTrafDayKeepDays: Int32 := 365
  const DefaultTrafMonthKeepMonths: Int32 := 36
  const DefaultLogIpKeepCount: Int32 := 10000

  // ----- bool options (valueBool / setValue) -----

  datatype BoolOption =
    | LogDebug | LogConsole | HotKeyEnabled | HasPassword | ExplorerIntegrated
    | ProgWindowMaximized | ProgAppsSortDesc | OptWindowMaximized | ZoneWindowMaximized
    | GraphWindowVisible | GraphWindowMaximized | GraphWindowAlwaysOnTop
    | GraphWindowFrameless | GraphWindowClickThrough | GraphWindowHideOnHover
    | ConnWindowMaximized | ConnAutoScroll | ConnShowHostNames

  function BoolKey(o: BoolOption): string
  {
    match o
    case LogDebug => "base/debug"
    case LogConsole => "base/console"
    case HotKeyEnabled => "hotKey/enabled"
    case HasPassword => "base/hasPassword_"
    case ExplorerIntegrated => "ext/explorerIntegrated_"
    case ProgWindowMaximized => "progWindow/maximized"
    case ProgAppsSortDesc => "progWindow/appsSortDesc"
    case OptWindowMaximized => "optWindow/maximized"
    case ZoneWindowMaximized => "zoneWindow/maximized"
    case GraphWindowVisible => "graphWindow/visible"
    case GraphWindowMaximized => "graphWindow/maximized"
    case GraphWindowAlwaysOnTop => "graphWindow/alwaysOnTop"
    case GraphWindowFrameless => "graphWindow/frameless"
    case GraphWindowClickThrough => "graphWindow/clickThrough"
    case GraphWindowHideOnHover => "graphWindow/hideOnHover"
    case ConnWindowMaximized => "connWindow/maximized"
    case ConnAutoScroll => "connWindow/autoScroll"
    case ConnShowHostNames => "connWindow/showHostNames"
  }

  /** Only graphWindowAlwaysOnTop defaults to true. */
  predicate BoolDefault(o: BoolOption)
  {
    o == GraphWindowAlwaysOnTop
  }

  function GetBool(m: OptionMap, o: BoolOption): (b: bool)
    ensures BoolKey(o) !in m ==> b == BoolDefault(o)
    ensures BoolKey(o) in m && m[BoolKey(o)].Bool? ==> b == m[BoolKey(o)].b
  {
    ToBool(Value(m, BoolKey(o), Bool(BoolDefault(o))))
  }

  // ----- int options (valueInt / setValue) -----

  datatype IntOption =
    | QuotaDayAlerted | QuotaMonthAlerted | MonthStart
    | TrafHourKeepDays | TrafDayKeepDays | TrafMonthKeepMonths | TrafUnit
    | AllowedIpKeepCount | BlockedIpKeepCount
    | ProgAppsSortColumn | ProgAppsHeaderVersion | ZonesHeaderVersion
    | GraphWindowOpacity | GraphWindowHoverOpacity | GraphWindowMaxSeconds
    | ConnListHeaderVersion

  function IntKey(o: IntOption): string
  {
    match o
    case QuotaDayAlerted => "quota/dayAlerted"
    case QuotaMonthAlerted => "quota/monthAlerted"
    case MonthStart => "stat/monthStart"
    case TrafHourKeepDays => "stat/trafHourKeepDays"
    case TrafDayKeepDays => "stat/trafDayKeepDays"
    case TrafMonthKeepMonths => "stat/trafMonthKeepMonths"
    case TrafUnit => "stat/trafUnit"
    case AllowedIpKeepCount => "stat/allowedIpKeepCount"
    case BlockedIpKeepCount => "stat/blockedIpKeepCount"
    case ProgAppsSortColumn => "progWindow/appsSortColumn"
    case ProgAppsHeaderVersion => "progWindow/appsHeaderVersion"
    case ZonesHeaderVersion => "zoneWindow/zonesHeaderVersion"
    case GraphWindowOpacity => "graphWindow/opacity"
    case GraphWindowHoverOpacity => "graphWindow/hoverOpacity"
    case GraphWindowMaxSeconds => "graphWindow/maxSeconds"
    case ConnListHeaderVersion => "connWindow/connListHeaderVersion"
  }

  function IntDefault(o: IntOption): Int32
  {
    match o
    case MonthStart => DefaultMonthStart
    case TrafHourKeepDays => DefaultTrafHourKeepDays
    case TrafDayKeepDays => DefaultTrafDayKeepDays
    case TrafMonthKeepMonths => DefaultTrafMonthKeepMonths
    case AllowedIpKeepCount => DefaultLogIpKeepCount
    case BlockedIpKeepCount => DefaultLogIpKeepCount
    case GraphWindowOpacity => 90
    case GraphWindowHoverOpacity => 95
    case GraphWindowMaxSeconds => 500
    case _ => 0
  }

  function GetInt(m: OptionMap, o: IntOption): (i: Int32)
    ensures IntKey(o) !in m ==> i == IntDefault(o)
    ensures IntKey(o) in m && m[IntKey(o)].Int? ==> i == m[IntKey(o)].i
  {
    ToInt(Value(m, IntKey(o), Int(IntDefault(o))))
  }

  // ----- quint32 options (valueUInt / setValue) -----

  datatype UIntOption = QuotaDayMb | QuotaMonthMb

  /** The key the getter reads. */
  function UIntKey(o: UIntOption): string
  {
    match o
    case QuotaDayMb => "quota/quotaDayMb"
    case QuotaMonthMb => "quota/quotaMonthMb"
  }

  /** The key the setter writes: setQuotaMonthMb writes "quota/quotaMonthMMb". */
  function UIntSetterKey(o: UIntOption): string
  {
    match o
    case QuotaDayMb => "quota/quotaDayMb"
    case QuotaMonthMb => "quota/quotaMonthMMb"
  }

  function GetUInt(m: OptionMap, o: UIntOption): (u: UInt32)
    ensures UIntKey(o) !in m ==> u == 0
    ensures UIntKey(o) in m && m[UIntKey(o)].UInt? ==> u == m[UIntKey(o)].u
  {
    ToUInt(Value(m, UIntKey(o), UInt(0)))
  }

  // ----- the qint8 startup mode -----

  const StartupModeKey := "ext/startupMode_"

  /** startupMode(): valueInt narrowed to qint8 by the return type. */
  function GetStartupMode(m: OptionMap): (mode: Int8)
    ensures StartupModeKey !in m ==> mode == 0
    ensures StartupModeKey in m && m[StartupModeKey].Int? ==> mode % 0x100 == m[StartupModeKey].i % 0x100
  {
    Truncate8(ToInt(Value(m, StartupModeKey, Int(0))))
  }

  // ----- text options (valueText); only password and language have setters -----

  datatype TextOption =
    | Password | Language
    | HotKeyPrograms | HotKeyOptions | HotKeyZones | HotKeyGraph | HotKeyConnections
    | HotKeyFilter | HotKeyStopTraffic | HotKeyStopInetTraffic | HotKeyAllowAllNew
    | HotKeyAppGroupModifiers | HotKeyQuit

  function TextKey(o: TextOption): string
  {
    match o
    case Password => "base/password_"
    case Language => "base/language"
    case HotKeyPrograms => "hotKey/programs"
    case HotKeyOptions => "hotKey/options"
    case HotKeyZones => "hotKey/zones"
    case HotKeyGraph => "hotKey/graph"
    case HotKeyConnections => "hotKey/connections"
    case HotKeyFilter => "hotKey/filter"
    case HotKeyStopTraffic => "hotKey/stopTraffic"
    case HotKeyStopInetTraffic => "hotKey/stopInetTraffic"
    case HotKeyAllowAllNew => "hotKey/allowAllNew"
    case HotKeyAppGroupModifiers => "hotKey/appGroupModifiers"
    case HotKeyQuit => "hotKey/quit"
  }

  /** The default text; language falls back to the default language the caller supplies. */
  function TextDefault(o: TextOption, defaultLanguage: string): string
  {
    match o
    case Language => defaultLanguage
    case HotKeyFilter => "Ctrl+Alt+Shift+F"
    case HotKeyAppGroupModifiers => "Ctrl+Alt+Shift"
    case _ => ""
  }

  predicate HasTextSetter(o: TextOption)
  {
    o == Password || o == Language
  }

  function GetText(m: OptionMap, o: TextOption, defaultLanguage: string): (t: string)
    ensures TextKey(o) !in m ==> t == TextDefault(o, defaultLanguage)
    ensures TextKey(o) in m && m[TextKey(o)].Text? ==> t == m[TextKey(o)].s
  {
    ToText(Value(m, TextKey(o), Text(TextDefault(o, defaultLanguage))))
  }

  // ----- byte-array options (valueByteArray / setValue) -----

  datatype BytesOption =
    | ProgAppsHeader | OptWindowAddrSplit | OptWindowAppsSplit | OptWindowStatSplit
    | ZonesHeader | ConnListHeader

  function BytesKey(o: BytesOption): string
  {
    match o
    case ProgAppsHeader => "progWindow/appsHeader"
    case OptWindowAddrSplit => "optWindow/addrSplit"
    case OptWindowAppsSplit => "optWindow/appsSplit"
    case OptWindowStatSplit => "optWindow/statSplit"
    case ZonesHeader => "zoneWindow/zonesHeader"
    case ConnListHeader => "connWindow/connListHeader"
  }

  function GetBytes(m: OptionMap, o: BytesOption): (d: seq<Byte>)
    ensures BytesKey(o) !in m ==> d == []
    ensures BytesKey(o) in m && m[BytesKey(o)].Bytes? ==> d == m[BytesKey(o)].data
  {
    ToBytes(Value(m, BytesKey(o), Invalid))
  }

  // ----- window geometry (value(...).toRect() / setValue) -----

  datatype RectOption =
    | ProgWindowGeometry | OptWindowGeometry | ZoneWindowGeometry
    | GraphWindowGeometry | ConnWindowGeometry

  function RectKey(o: RectOption): string
  {
    match o
    case ProgWindowGeometry => "progWindow/geometry"
    case OptWindowGeometry => "optWindow/geometry"
    case ZoneWindowGeometry => "zoneWindow/geometry"
    case GraphWindowGeometry => "graphWindow/geometry"
    case ConnWindowGeometry => "connWindow/geometry"
  }

  function GetRect(m: OptionMap, o: RectOption): (r: Rect)
    ensures RectKey(o) !in m ==> r == NullRect
    ensures RectKey(o) in m && m[RectKey(o)].RectValue? ==> r == m[RectKey(o)].rect
  {
    ToRect(Value(m, RectKey(o), Invalid))
  }

  // ----- the raw task info list -----

  const TaskInfoListKey := "task/infoList_"

  function GetTaskInfoList(m: OptionMap): (v: Variant)
    ensures TaskInfoListKey !in m ==> v == Invalid
    ensures TaskInfoListKey in m ==> v == m[TaskInfoListKey]
  {
    Value(m, TaskInfoListKey, Invalid)
  }

  // ----- presence checks (contains) -----

  predicate StartupModeSet(m: OptionMap)
  {
    StartupModeKey in m
  }

  predicate ExplorerIntegratedSet(m: OptionMap)
  {
    BoolKey(ExplorerIntegrated) in m
  }

  predicate TaskInfoListSet(m: OptionMap)
  {
    TaskInfoListKey in m
  }

  // ----- all getters together, to state what a setter does to the others -----

  datatype Setting =
    | BoolSetting(b: BoolOption)
    | IntSetting(i: IntOption)
    | UIntSetting(u: UIntOption)
    | StartupModeSetting
    | TextSetting(t: TextOption)
    | BytesSetting(y: BytesOption)
    | RectSetting(r: RectOption)
    | TaskInfoListSetting

  /** The key a setting's getter reads. */
  function ReadKey(s: Setting): string
  {
    match s
    case BoolSetting(o) => BoolKey(o)
    case IntSetting(o) => IntKey(o)
    case UIntSetting(o) => UIntKey(o)
    case StartupModeSetting => StartupModeKey
    case TextSetting(o) => TextKey(o)
    case BytesSetting(o) => BytesKey(o)
    case RectSetting(o) => RectKey(o)
    case TaskInfoListSetting => TaskInfoListKey
  }

  /** The key a setting's setter writes, as written in the source; None if it has no setter. */
  function WriteKey(s: Setting): Option<string>
  {
    match s
    case UIntSetting(o) => Some(UIntSetterKey(o))
    case TextSetting(o) => if HasTextSetter(o) then Some(TextKey(o)) else None
    case _ => Some(ReadKey(s))
  }

  /** The key each setter evidently means to write: the key its getter reads. */
  function CorrectedWriteKey(s: Setting): Option<string>
  {
    match s
    case TextSetting(o) => if HasTextSetter(o) then Some(TextKey(o)) else None
    case _ => Some(ReadKey(s))
  }

  /** The value a setting's getter sees before conversion (stored, or absent). */
  function Stored(m: OptionMap, s: Setting): Variant
  {
    Value(m, ReadKey(s), Invalid)
  }

  predicate IsSmallFamily(s: Setting)
  {
    s.UIntSetting? || s.StartupModeSetting? || s.BytesSetting? || s.RectSetting? || s.TaskInfoListSetting?
  }

  // Pairwise distinctness of the read keys, one family pair at a time.

  lemma BoolKeysInjective(a: BoolOption, b: BoolOption)
    ensures BoolKey(a) == BoolKey(b) ==> a == b
  {
  }

  lemma IntKeysInjective(a: IntOption, b: IntOption)
    ensures IntKey(a) == IntKey(b) ==> a == b
  {
  }

  lemma TextKeysInjective(a: TextOption, b: TextOption)
    ensures TextKey(a) == TextKey(b) ==> a == b
  {
  }

  lemma SmallKeysInjective(a: Setting, b: Setting)
    requires IsSmallFamily(a) && IsSmallFamily(b)
    ensures ReadKey(a) == ReadKey(b) ==> a == b
  {
  }

  lemma BoolIntKeysDisjoint(a: BoolOption, b: IntOption)
    ensures BoolKey(a) != IntKey(b)
  {
  }

  lemma BoolTextKeysDisjoint(a: BoolOption, b: TextOption)
    ensures BoolKey(a) != TextKey(b)
  {
  }

  lemma IntTextKeysDisjoint(a: IntOption, b: TextOption)
    ensures IntKey(a) != TextKey(b)
  {
  }

  lemma SmallBoolKeysDisjoint(a: Setting, b: BoolOption)
    requires IsSmallFamily(a)
    ensures ReadKey(a) != BoolKey(b)
  {
  }

  lemma SmallIntKeysDisjoint(a: Setting, b: IntOption)
    requires IsSmallFamily(a)
    ensures ReadKey(a) != IntKey(b)
  {
  }

  lemma SmallTextKeysDisjoint(a: Setting, b: TextOption)
    requires IsSmallFamily(a)
    ensures ReadKey(a) != TextKey(b)
  {
  }

  /** No two getters read the same key. */
  lemma {:induction false} ReadKeyInjective(a: Setting, b: Setting)
    ensures ReadKey(a) == ReadKey(b) ==> a == b
  {
    if IsSmallFamily(a) {
      match b
      case BoolSetting(o) => SmallBoolKeysDisjoint(a, o);
      case IntSetting(o) => SmallIntKeysDisjoint(a, o);
      case TextSetting(o) => SmallTextKeysDisjoint(a, o);
      case _ => SmallKeysInjective(a, b);
    } else if IsSmallFamily(b) {
      match a
      case BoolSetting(o) => SmallBoolKeysDisjoint(b, o);
      case IntSetting(o) => SmallIntKeysDisjoint(b, o);
      case TextSetting(o) => SmallTextKeysDisjoint(b, o);
    } else {
      match (a, b)
      case (BoolSetting(x), BoolSetting(y)) => BoolKeysInjective(x, y);
      case (IntSetting(x), IntSetting(y)) => IntKeysInjective(x, y);
      case (TextSetting(x), TextSetting(y)) => TextKeysInjective(x, y);
      case (BoolSetting(x), IntSetting(y)) => BoolIntKeysDisjoint(x, y);
      case (IntSetting(x), BoolSetting(y)) => BoolIntKeysDisjoint(y, x);
      case (BoolSetting(x), TextSetting(y)) => BoolTextKeysDisjoint(x, y);
      case (TextSetting(x), BoolSetting(y)) => BoolTextKeysDisjoint(y, x);
      case (IntSetting(x), TextSetting(y)) => IntTextKeysDisjoint(x, y);
      case (TextSetting(x), IntSetting(y)) => IntTextKeysDisjoint(y, x);
    }
  }

  /** The key setQuotaMonthMb writes is read by no getter at all. */
  lemma MonthQuotaSetterKeyUnread(s: Setting)
    ensures UIntSetterKey(QuotaMonthMb) != ReadKey(s)
  {
  }

  /**
   * Every setter except setQuotaMonthMb writes exactly the key its own getter
   * reads; setQuotaMonthMb writes a key that differs from it.
   */
  lemma WriteKeyMatchesReadKey(s: Setting)
    requires WriteKey(s).Some?
    ensures WriteKey(s).value == ReadKey(s) <==> s != UIntSetting(QuotaMonthMb)
  {
  }

  /**
   * A setter changes what no other getter sees: writing any value under a
   * setter's key leaves the stored value of every other setting as it was.
   */
  lemma {:induction false} SetterLeavesOtherGetters(m: OptionMap, s: Setting, v: Variant, other: Setting)
    requires WriteKey(s).Some? && other != s
    ensures Stored(m[WriteKey(s).value := v], other) == Stored(m, other)
  {
    if s == UIntSetting(QuotaMonthMb) {
      MonthQuotaSetterKeyUnread(other);
    } else {
      WriteKeyMatchesReadKey(s);
      ReadKeyInjective(s, other);
    }
  }

  /** setQuotaMonthMb does not change what quotaMonthMb() returns, so the pair never round-trips. */
  lemma {:induction false} MonthQuotaDoesNotRoundTrip(m: OptionMap, v: UInt32)
    ensures GetUInt(m[UIntSetterKey(QuotaMonthMb) := UInt(v)], QuotaMonthMb) == GetUInt(m, QuotaMonthMb)
  {
    MonthQuotaSetterKeyUnread(UIntSetting(QuotaMonthMb));
  }

  /** Concretely: on an empty map, setQuotaMonthMb(100) still reads back as 0. */
  lemma MonthQuotaCounterexample()
    ensures GetUInt(map[UIntSetterKey(QuotaMonthMb) := UInt(100)], QuotaMonthMb) == 0
  {
  }

  /** With the corrected key every setter writes its getter's key, quota included. */
  lemma CorrectedWriteKeyRoundTrips(m: OptionMap, v: UInt32, other: Setting)
    requires other != UIntSetting(QuotaMonthMb)
    ensures CorrectedWriteKey(UIntSetting(QuotaMonthMb)) == Some(UIntKey(QuotaMonthMb))
    ensures GetUInt(m[UIntKey(QuotaMonthMb) := UInt(v)], QuotaMonthMb) == v
    ensures Stored(m[UIntKey(QuotaMonthMb) := UInt(v)], other) == Stored(m, other)
  {
    ReadKeyInjective(UIntSetting(QuotaMonthMb), other);
  }

  /** Every option reads back the value its own setter stored (the quota pair excepted). */
  lemma SetThenGet(m: OptionMap, b: BoolOption, bv: bool, i: IntOption, iv: Int32, u: UInt32,
                   t: TextOption, tv: string, lang: string, y: BytesOption, yv: seq<Byte>,
                   r: RectOption, rv: Rect)
    requires HasTextSetter(t)
    ensures GetBool(m[BoolKey(b) := Bool(bv)], b) == bv
    ensures GetInt(m[IntKey(i) := Int(iv)], i) == iv
    ensures GetUInt(m[UIntSetterKey(QuotaDayMb) := UInt(u)], QuotaDayMb) == u
    ensures GetText(m[TextKey(t) := Text(tv)], t, lang) == tv
    ensures GetBytes(m[BytesKey(y) := Bytes(yv)], y) == yv
    ensures GetRect(m[RectKey(r) := RectValue(rv)], r) == rv
  {
  }

  /** setStartupMode then startupMode() yields the qint8 back: narrowing a stored qint8 loses nothing. */
  lemma StartupModeRoundTrip(m: OptionMap, mode: Int8)
    ensures GetStartupMode(m[StartupModeKey := Int(mode)]) == mode
    ensures StartupModeSet(m[StartupModeKey := Int(mode)])
  {
    if mode < 0 {
      assert mode % 0x100 == mode + 0x100;
    }
  }

  /** A getter whose key is absent returns its default. */
  lemma AbsentKeyReadsDefault(m: OptionMap, lang: string)
    ensures forall o :: BoolKey(o) !in m ==> GetBool(m, o) == BoolDefault(o)
    ensures forall o :: IntKey(o) !in m ==> GetInt(m, o) == IntDefault(o)
    ensures forall o :: UIntKey(o) !in m ==> GetUInt(m, o) == 0
    ensures forall o :: TextKey(o) !in m ==> GetText(m, o, lang) == TextDefault(o, lang)
    ensures forall o :: BytesKey(o) !in m ==> GetBytes(m, o) == []
    ensures forall o :: RectKey(o) !in m ==> GetRect(m, o) == NullRect
    ensures StartupModeKey !in m ==> GetStartupMode(m) == 0
  {
  }

  /** The statistics defaults: month start 1, keep 90 / 365 days and 36 months, keep 10000 addresses. */
  lemma StatDefaults(m: OptionMap)
    requires IntKey(MonthStart) !in m && IntKey(TrafHourKeepDays) !in m
    requires IntKey(TrafDayKeepDays) !in m && IntKey(TrafMonthKeepMonths) !in m
    requires IntKey(AllowedIpKeepCount) !in m && IntKey(BlockedIpKeepCount) !in m
    ensures GetInt(m, MonthStart) == 1
    ensures GetInt(m, TrafHourKeepDays) == 90 && GetInt(m, TrafDayKeepDays) == 365
    ensures GetInt(m, TrafMonthKeepMonths) == 36
    ensures GetInt(m, AllowedIpKeepCount) == 10000 && GetInt(m, BlockedIpKeepCount) == 10000
  {
  }

  /** The graph window defaults: always on top, opacity 90 and 95 on hover, 500 seconds shown. */
  lemma GraphWindowDefaults(m: OptionMap)
    requires BoolKey(GraphWindowAlwaysOnTop) !in m && BoolKey(GraphWindowFrameless) !in m
    requires IntKey(GraphWindowOpacity) !in m && IntKey(GraphWindowHoverOpacity) !in m
    requires IntKey(GraphWindowMaxSeconds) !in m
    ensures GetBool(m, GraphWindowAlwaysOnTop) && !GetBool(m, GraphWindowFrameless)
    ensures GetInt(m, GraphWindowOpacity) == 90 && GetInt(m, GraphWindowHoverOpacity) == 95
    ensures GetInt(m, GraphWindowMaxSeconds) == 500
  {
  }

  /** The hot-key defaults: only the filter and the app-group modifiers have one. */
  lemma HotKeyDefaults(m: OptionMap, lang: string)
    requires TextKey(HotKeyFilter) !in m && TextKey(HotKeyAppGroupModifiers) !in m
    requires TextKey(HotKeyQuit) !in m && TextKey(Language) !in m
    ensures GetText(m, HotKeyFilter, lang) == "Ctrl+Alt+Shift+F"
    ensures GetText(m, HotKeyAppGroupModifiers, lang) == "Ctrl+Alt+Shift"
    ensures GetText(m, HotKeyQuit, lang) == ""
    ensures GetText(m, Language, lang) == lang
  {
  }

  /** A presence check holds exactly when its key is present, whatever value it holds. */
  lemma PresenceChecks(m: OptionMap, v: Variant)
    ensures StartupModeSet(m[StartupModeKey := v]) && ExplorerIntegratedSet(m[BoolKey(ExplorerIntegrated) := v])
    ensures TaskInfoListSet(m[TaskInfoListKey := v])
    ensures !StartupModeSet(m - {StartupModeKey}) && !TaskInfoListSet(m - {TaskInfoListKey})
    ensures !ExplorerIntegratedSet(m - {BoolKey(ExplorerIntegrated)})
  {
  }

  /** The options object: its map is updated in place by the setters. */
  class IniOptionsMap {
    var data: OptionMap

    constructor ()
      ensures data == map[]
    {
      data := map[];
    }

    method SetBool(o: BoolOption, v: bool)
      modifies this`data
      ensures data == old(data)[BoolKey(o) := Bool(v)]
      ensures GetBool(data, o) == v
    {
      data := data[BoolKey(o) := Bool(v)];
    }

    method SetInt(o: IntOption, v: Int32)
      modifies this`data
      ensures data == old(data)[IntKey(o) := Int(v)]
      ensures GetInt(data, o) == v
    {
      data := data[IntKey(o) := Int(v)];
    }

    /** setQuotaDayMb / setQuotaMonthMb: writes the setter key, which for the month quota is not the getter's. */
    method SetUInt(o: UIntOption, v: UInt32)
      modifies this`data
      ensures data == old(data)[UIntSetterKey(o) := UInt(v)]
      ensures o == QuotaDayMb ==> GetUInt(data, o) == v
      ensures o == QuotaMonthMb ==> GetUInt(data, o) == GetUInt(old(data), o)
    {
      data := data[UIntSetterKey(o) := UInt(v)];
      if o == QuotaMonthMb {
        MonthQuotaDoesNotRoundTrip(old(data), v);
      }
    }

    method SetStartupMode(v: Int8)
      modifies this`data
      ensures data == old(data)[StartupModeKey := Int(v)]
      ensures GetStartupMode(data) == v && StartupModeSet(data)
    {
      data := data[StartupModeKey := Int(v)];
      StartupModeRoundTrip(old(data), v);
    }

    /** setPassword / setLanguage; the hot-key texts have getters only. */
    method SetText(o: TextOption, v: string)
      requires HasTextSetter(o)
      modifies this`data
      ensures data == old(data)[TextKey(o) := Text(v)]
      ensures forall lang :: GetText(data, o, lang) == v
    {
      data := data[TextKey(o) := Text(v)];
    }

    method SetBytes(o: BytesOption, v: seq<Byte>)
      modifies this`data
      ensures data == old(data)[BytesKey(o) := Bytes(v)]
      ensures GetBytes(data, o) == v
    {
      data := data[BytesKey(o) := Bytes(v)];
    }

    method SetRect(o: RectOption, v: Rect)
      modifies this`data
      ensures data == old(data)[RectKey(o) := RectValue(v)]
      ensures GetRect(data, o) == v
    {
      data := data[RectKey(o) := RectValue(v)];
    }

    method SetTaskInfoList(v: Variant)
      modifies this`data
      ensures data == old(data)[TaskInfoListKey := v]
      ensures GetTaskInfoList(data) == v && TaskInfoListSet(data)
    {
      data := data[TaskInfoListKey := v];
    }
  }
}
