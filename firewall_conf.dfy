/**
 * The part of FirewallConf that FortSettings reads and writes: the flags and
 * the statistics settings kept in the INI file (groups "confFlags" and
 * "stat"), and the rest of the configuration, which travels to and from the
 * .conf file as one JSON-convertible value.
 */
module FirewallConfModel {
  import opened QtTypes

  /** conf.toVariant() / conf.fromVariant(): the configuration as stored in the .conf file. */
  datatype ConfVariant = ConfVariant(payload: seq<Byte>)

  /** The settings of group "confFlags". */
  datatype ConfFlags = ConfFlags(
    provBoot: bool,
    filterEnabled: bool,
    resolveAddress: bool,
    logBlocked: bool,
    logStat: bool,
    ipIncludeAll: bool,
    ipExcludeAll: bool,
    appBlockAll: bool,
    appAllowAll: bool,
    appGroupBits: UInt32)

  /** The settings of group "stat". */
  datatype StatConf = StatConf(
    trafHourKeepDays: Int32,
    trafDayKeepDays: Int32,
    trafMonthKeepMonths: Int32,
    trafUnit: Int32)

  datatype FirewallConf = FirewallConf(flags: ConfFlags, stat: StatConf, variant: ConfVariant)
}
