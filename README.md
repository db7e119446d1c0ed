# Fort Firewall settings, options and lifecycle core in Dafny

This project models the settings, configuration and lifecycle core of the
Fort Firewall user-interface process (C++/Qt), and proves properties of the
model:

- **FortSettings** (`fort_settings.dfy`, with `ini_store.dfy`,
  `firewall_conf.dfy` and `qt_types.dfy`):
  - the command line decides the profile directory, which always ends in `/`;
  - the `.ini`, `.stat`, `.conf` and `.conf.backup` paths are derived from it;
  - the QSettings INI store is a map from `"group/key"` to a QVariant-like
    value, and writes to it are change-detecting;
  - the last error message is tracked;
  - tasks are stored in and read from the `tasks` group;
  - the firewall configuration is read from the `.conf` file with a backup
    fallback, then the INI flags;
  - it is written as an INI part followed by a four-step file sequence.
- **IniOptions** (`ini_options.dfy`): the typed options over a key map.
  - Each getter reads one key with a default, and each setter writes one key.
  - The defaults and presence checks are stated explicitly.
  - `setQuotaMonthMb` writes a key that `quotaMonthMb` never reads.
- **OptionsController** (`options_controller.dfy`): the options window's edit
  state, i.e. three edited flags, and the fixed order of signals and calls in
  `save`.
- **FortManager** (`fort_manager.dfy`):
  - which service implementations a master, client, service or UI process
    registers;
  - the driver lifecycle: open/validate, close, push the configuration,
    install/remove;
  - the guards for starting the service and for removing or reinstalling the
    driver;
  - `install`/`uninstall`;
  - the single-instance check.
- **LogEntryBlockedIp** (`log_entry_blocked_ip.dfy`): the blocked-connection
  log record with its setters, and the total reason-to-text mapping.

Answers from outside the model are parameters:

- file-system oracles: whether a write or a rename succeeds, the INI flush;
- JSON parsing and serialisation;
- the driver device: open, validate;
- whether the service is running or installed;
- whether a command could be posted to a running instance.

The file system is an abstract map from path to contents.

Qt signals and outgoing calls are recorded as follows:

- In OptionsController and FortManager, they form an ordered trace on the
  object.
- In FortSettings, each signal is a counter of how often it was emitted.

## Model

| member | source | states |
|---|---|---|
| QtTypes.Truncate8 | src/ui/conf/inioptions.h:44 | the qint8 narrowing keeps the low 8 bits, signed |
| QtTypes.SignedOf32 | src/ui/fortsettings.cpp:262-265 | toInt of a stored quint32 keeps the 32-bit pattern (two's complement) |
| QtTypes.UnsignedOf32 | src/ui/fortsettings.cpp:267-270 | toUInt of a stored int keeps the 32-bit pattern (two's complement) |
| QtTypes.LowerText | src/ui/fortsettings.cpp:59 | the case-folded text has the input's length and lowers each ASCII letter, as the text-to-bool conversion of the boot option requires |
| QtTypes.ConversionsRoundTrip | src/ui/fortsettings.cpp:257-270 | reading a value back with the conversion of its own kind yields what was stored |
| IniStore.Value | src/ui/fortsettings.cpp:293 | QSettings::value: the stored value for a present key, else the default |
| IniStore.Store | src/ui/fortsettings.cpp:296-304 | after a change-detecting write the key reads the value with the writer's default; other keys are unchanged; the store is unchanged iff stored-or-default already equals the value |
| IniStore.StoreAllOtherKey | src/ui/fortsettings.cpp:232-255 | a sequence of writes leaves keys it does not write unchanged |
| IniStore.StoreAllValue | src/ui/fortsettings.cpp:232-255 | after writes to distinct keys, each key reads back its written value when read with the writer's default, or when the value differs from that default |
| IniStore.Remove | src/ui/fortsettings.cpp:306-309 | removing a key removes it and every key below it, and keeps every other entry; an empty key clears the store |
| IniStore.RemovedGroupIsEmpty | src/ui/fortsettings.cpp:306-309 | after removing a group no child key of it is left |
| IniStore.ChildKey | src/ui/fortsettings.cpp:97 | the task key `g/name` lies in group g and its suffix is the name |
| IniStore.ChildKeyInjective | src/ui/fortsettings.cpp:97 | distinct names give distinct child keys |
| IniStore.ChildKeysMember | src/ui/fortsettings.cpp:311-317 | a name is listed as a child key of g iff it is a plain name and `g/name` is stored |
| IniStore.ChildKeys | src/ui/fortsettings.cpp:311-317 | the child keys of group g: only plain names, without `/`, are listed |
| IniOptions.ReadKeyInjective | src/ui/conf/inioptions.h:26-262 | no two getters read the same key |
| IniOptions.MonthQuotaSetterKeyUnread | src/ui/conf/inioptions.h:88 | the key setQuotaMonthMb writes is read by no getter |
| IniOptions.WriteKeyMatchesReadKey | src/ui/conf/inioptions.h:26-262 | every setter writes its getter's key, except setQuotaMonthMb |
| IniOptions.SetterLeavesOtherGetters | src/ui/conf/inioptions.h:26-262 | a setter changes what no other getter sees |
| IniOptions.MonthQuotaDoesNotRoundTrip | src/ui/conf/inioptions.h:84-88 | setQuotaMonthMb(v) leaves quotaMonthMb() unchanged, for every v |
| IniOptions.MonthQuotaCounterexample | src/ui/conf/inioptions.h:84-88 | on an empty map, setQuotaMonthMb(100) then quotaMonthMb() gives 0 |
| IniOptions.CorrectedWriteKeyRoundTrips | src/ui/conf/inioptions.h:84-88 | with the getter's key, the month quota round-trips and no other option changes |
| IniOptions.SetThenGet | src/ui/conf/inioptions.h:26-262 | for every bool, int, day-quota, password/language, byte-array and geometry option, set-then-get returns the value |
| IniOptions.StartupModeRoundTrip | src/ui/conf/inioptions.h:41-45 | setStartupMode(v) then startupMode() yields v, and startupModeSet() holds |
| IniOptions.AbsentKeyReadsDefault | src/ui/conf/inioptions.h:26-262 | a getter whose key is absent returns its declared default |
| IniOptions.StatDefaults | src/ui/conf/inioptions.h:10-15 | month start 1, keep 90 / 365 days and 36 months, keep 10000 allowed and blocked addresses |
| IniOptions.GraphWindowDefaults | src/ui/conf/inioptions.h:180-198 | alwaysOnTop true, frameless false, opacity 90, hover opacity 95, max seconds 500 |
| IniOptions.HotKeyDefaults | src/ui/conf/inioptions.h:60-76 | filter `Ctrl+Alt+Shift+F`, app-group modifiers `Ctrl+Alt+Shift`, quit key empty, language falls back to the default language |
| IniOptions.PresenceChecks | src/ui/conf/inioptions.h:41-53 | startupModeSet, explorerIntegratedSet and taskInfoListSet hold exactly when their key is present |
| IniOptions.GetBool | src/ui/conf/inioptions.h:26-261 | valueBool: an absent key reads the option's default (true only for graphWindow/alwaysOnTop); a stored bool reads back |
| IniOptions.GetInt | src/ui/conf/inioptions.h:78-252 | valueInt: an absent key reads the option's declared default; a stored int reads back |
| IniOptions.GetUInt | src/ui/conf/inioptions.h:84-87 | valueUInt: an absent quota reads 0; a stored unsigned value reads back |
| IniOptions.GetStartupMode | src/ui/conf/inioptions.h:44 | an absent mode reads 0; a stored int reads back narrowed to its low 8 bits |
| IniOptions.GetText | src/ui/conf/inioptions.h:38-76 | valueText: an absent key reads the option's default (hot-key defaults, the default language, else empty); a stored text reads back |
| IniOptions.GetBytes | src/ui/conf/inioptions.h:141-255 | valueByteArray: an absent key reads the empty array; a stored byte array reads back |
| IniOptions.GetRect | src/ui/conf/inioptions.h:126-246 | value(...).toRect(): an absent key reads the null rectangle; a stored rectangle reads back |
| IniOptions.GetTaskInfoList | src/ui/conf/inioptions.h:55 | the stored variant, or the invalid variant when absent |
| IniOptions.StartupModeSet | src/ui/conf/inioptions.h:41 | contains("ext/startupMode_"): whether the startup mode key is present |
| IniOptions.ExplorerIntegratedSet | src/ui/conf/inioptions.h:47 | contains("ext/explorerIntegrated_"): whether the explorer key is present |
| IniOptions.TaskInfoListSet | src/ui/conf/inioptions.h:53 | contains("task/infoList_"): whether the task info list key is present |
| IniOptions.IniOptionsMap.constructor | src/ui/conf/inioptions.h:20 | a new options object holds an empty map |
| IniOptions.IniOptionsMap.SetBool | src/ui/conf/inioptions.h:26-262 | a bool setter writes its key, and the getter returns the value |
| IniOptions.IniOptionsMap.SetInt | src/ui/conf/inioptions.h:78-253 | an int setter writes its key, and the getter returns the value |
| IniOptions.IniOptionsMap.SetUInt | src/ui/conf/inioptions.h:84-88 | the day quota reads back; the month quota getter is unchanged by its setter |
| IniOptions.IniOptionsMap.SetStartupMode | src/ui/conf/inioptions.h:41-45 | writes the qint8 mode; it reads back and is present |
| IniOptions.IniOptionsMap.SetText | src/ui/conf/inioptions.h:38-61 | setPassword / setLanguage write their key |
| IniOptions.IniOptionsMap.SetBytes | src/ui/conf/inioptions.h:141-256 | a byte-array setter writes its key, and the getter returns the bytes |
| IniOptions.IniOptionsMap.SetRect | src/ui/conf/inioptions.h:126-247 | a geometry setter writes its key, and the getter returns the rectangle |
| IniOptions.IniOptionsMap.SetTaskInfoList | src/ui/conf/inioptions.h:53-56 | writes the task info list; it reads back and taskInfoListSet() holds |
| FortSettings.WithTrailingSlash | src/ui/fortsettings.cpp:68-71 | the result ends with `/`, extends the input, and is one longer exactly when the input lacked the slash |
| FortSettings.WithTrailingSlashIdempotent | src/ui/fortsettings.cpp:68-71 | normalising twice is normalising once |
| FortSettings.IniFilePath | src/ui/fortsettings.cpp:76 | the INI file is `FortFirewall.ini` inside the profile path |
| FortSettings.StatFilePath | src/ui/fortsettings.cpp:117-120 | the statistics file is `FortFirewall.stat` inside the profile path |
| FortSettings.ConfFilePath | src/ui/fortsettings.cpp:122-125 | the configuration file is `FortFirewall.conf` inside the profile path |
| FortSettings.ConfBackupFilePath | src/ui/fortsettings.cpp:127-130 | the backup is the configuration file's path followed by `.backup` |
| FortSettings.DerivedPaths | src/ui/fortsettings.cpp:76-130 | the ini, stat, conf and backup paths start with the profile path; the backup is the conf path plus `.backup`; all four differ |
| FortSettings.IniValue | src/ui/fortsettings.cpp:287-294 | an empty key gives the invalid value whatever is stored; otherwise the stored value or the default |
| FortSettings.IniBool | src/ui/fortsettings.cpp:257-260 | false for an empty key, the default for an absent one, a stored bool as stored |
| FortSettings.IniInt | src/ui/fortsettings.cpp:262-265 | 0 for an empty key, the default for an absent one, a stored int as stored |
| FortSettings.IniUInt | src/ui/fortsettings.cpp:267-270 | 0 for an empty key, the int default reinterpreted as unsigned for an absent one, a stored unsigned value as stored |
| FortSettings.MessageChanges | src/ui/fortsettings.cpp:83-89 | setting a series of messages signals at most once per message, and not for a first message equal to the current one |
| FortSettings.LastMessage | src/ui/fortsettings.cpp:83-89 | the message left is the current one or one of those set |
| FortSettings.MessageChangesAppend | src/ui/fortsettings.cpp:83-89 | setting xs then ys signals as often as setting xs + ys, and leaves the same message |
| FortSettings.TasksRoundTrip | src/ui/fortsettings.cpp:91-115 | setTasks(m) then tasks() yields m, for plain task names |
| FortSettings.ConfIniEntries | src/ui/fortsettings.cpp:232-255 | writeConfIni makes 14 setIniValue calls |
| FortSettings.ConfIniKeysDistinct | src/ui/fortsettings.cpp:232-255 | writeConfIni never writes the same key twice |
| FortSettings.ReadConfFlags | src/ui/fortsettings.cpp:209-220 | the confFlags settings; on an empty store filterEnabled and appBlockAll are true, the other flags false, appGroupBits 0xFFFF |
| FortSettings.ReadStatConf | src/ui/fortsettings.cpp:222-227 | the stat settings; on an empty store 90 and 365 days, 36 months, unit 0 |
| FortSettings.ReadConfIni | src/ui/fortsettings.cpp:207-230 | replaces the flags and statistics part of conf by what the store holds and keeps the .conf part |
| FortSettings.ConfEntryReadBack | src/ui/fortsettings.cpp:207-255 | each written INI setting reads back with readConfIni's default for it |
| FortSettings.FlagsRoundTripFirst | src/ui/fortsettings.cpp:210-212 | provBoot, filterEnabled and resolveAddress, written by writeConfIni, read back as written |
| FortSettings.FlagsRoundTripSecond | src/ui/fortsettings.cpp:213-215 | logBlocked, logStat and ipIncludeAll, written by writeConfIni, read back as written |
| FortSettings.FlagsRoundTripThird | src/ui/fortsettings.cpp:216-217 | ipExcludeAll and appBlockAll, written by writeConfIni, read back as written (appBlockAll despite the reader's default true) |
| FortSettings.FlagsRoundTripFourth | src/ui/fortsettings.cpp:218-219 | appAllowAll and appGroupBits, written by writeConfIni, read back as written |
| FortSettings.FlagsRoundTrip | src/ui/fortsettings.cpp:207-255 | writeConfIni then reading group confFlags reproduces every flag, whatever the store held |
| FortSettings.StatRoundTrip | src/ui/fortsettings.cpp:207-255 | writeConfIni then reading group stat reproduces every statistics setting |
| FortSettings.ConfIniRoundTrip | src/ui/fortsettings.cpp:207-255 | writeConfIni then readConfIni reproduces the INI part of the written configuration and keeps the reader's .conf part |
| FortSettings.ReadConfWithoutFiles | src/ui/fortsettings.cpp:140-143 | with neither file present, readConf is readConfIni and succeeds |
| FortSettings.ReadConfPrimaryWins | src/ui/fortsettings.cpp:140-143 | a primary file that parses is used, and the backup's contents do not matter |
| FortSettings.ReadConfFallsBack | src/ui/fortsettings.cpp:140-161 | when the primary is missing or does not parse, success iff the backup parses; errors are the primary's then the backup's |
| FortSettings.ReadConfIniLast | src/ui/fortsettings.cpp:140-143 | the INI settings are read iff a step succeeded; a failed read leaves the configuration untouched with at least one error |
| FortSettings.FailedStepMessages | src/ui/fortsettings.cpp:168-187 | a failing single-message step leaves its message and signals once, if the message changed |
| FortSettings.WriteConfSucceedsIffAllSteps | src/ui/fortsettings.cpp:163-190 | writeConf succeeds iff every step that runs succeeds; a later step fails only after the earlier ones succeeded |
| FortSettings.WriteConfSuccessFiles | src/ui/fortsettings.cpp:173-189 | after a successful write, the conf file holds the new data and no backup is left |
| FortSettings.WriteConfKeepsAConf | src/ui/fortsettings.cpp:173-189 | however the write ends, a conf copy survives if one existed; the conf file holds old, backed-up or new data; other files are untouched |
| FortSettings.StoreAllPrefixStep | src/ui/fortsettings.cpp:296-304 | one more change-detecting write extends the store and signal count of a write sequence by one call |
| FortSettings.Settings.constructor | src/ui/fortsettings.cpp:12-20 | the boot flag and profile path come from the command line, the path ends in `/`; the store and files are those given; no error message and no signal yet |
| FortSettings.Settings.ProcessArguments | src/ui/fortsettings.cpp:38-72 | the boot flag is set iff given, with its text converted to bool; the profile is the given one, else the config location, made absolute, ending in `/` |
| FortSettings.Settings.SetErrorMessage | src/ui/fortsettings.cpp:83-89 | the message becomes msg, and errorMessageChanged is emitted exactly when it changed |
| FortSettings.Settings.SetIniValue | src/ui/fortsettings.cpp:296-304 | nothing changes when stored-or-default equals the value; otherwise the value is stored and iniChanged is emitted once |
| FortSettings.Settings.RemoveIniKey | src/ui/fortsettings.cpp:306-309 | the key and its sub-keys are removed |
| FortSettings.Settings.Tasks | src/ui/fortsettings.cpp:91-101 | the loop collects exactly the tasks stored below `tasks` |
| FortSettings.Settings.SetTasks | src/ui/fortsettings.cpp:103-115 | the old group is cleared and every task written; one iniChanged per task; the result is the flush result |
| FortSettings.Settings.WriteConfIni | src/ui/fortsettings.cpp:232-255 | the store is the result of the 14 change-detecting writes; iniChanged counts the writes that changed something |
| FortSettings.Settings.TryToReadConf | src/ui/fortsettings.cpp:146-161 | a parse error sets its message and fails with conf unchanged; otherwise the parsed configuration is taken |
| FortSettings.Settings.ReadConf | src/ui/fortsettings.cpp:132-144 | result, configuration, error message and signal count are those of the primary/backup/INI fallback |
| FortSettings.Settings.WriteFileData | src/ui/fortsettings.cpp:199-202 | FileUtil::writeFileData as an oracle: on success the file holds the data, on failure the files are unchanged |
| FortSettings.Settings.RenameFile | src/ui/fortsettings.cpp:173-187 | FileUtil::renameFile as an oracle: succeeds only when the source file exists; then it moves, otherwise the files are unchanged |
| FortSettings.Settings.TryToWriteConf | src/ui/fortsettings.cpp:192-205 | a failed write sets "Can't write .conf file"; a successful one stores the serialised configuration |
| FortSettings.Settings.ReplaceConfFile | src/ui/fortsettings.cpp:173-189 | the file steps stop at the first failure, with that step's messages; the files end as the write sequence prescribes |
| FortSettings.Settings.WriteConf | src/ui/fortsettings.cpp:163-190 | INI part first; it fails at the first bad step with that step's message; succeeds iff all steps do |
| LogEntryBlockedIpModel.ReasonToString | src/ui/log/logentryblockedip.cpp:51-67 | the text is non-empty, and is "Unknown" exactly for codes other than the five named reasons |
| LogEntryBlockedIpModel.ReasonOfText | src/ui/log/logentryblockedip.cpp:53-63 | a text recognised as a reason's text names one of the five reasons |
| LogEntryBlockedIpModel.ReasonTextIdentifiesReason | src/ui/log/logentryblockedip.cpp:51-67 | the text of a named reason identifies that reason; any other code's text identifies none |
| LogEntryBlockedIpModel.ReasonToStringInjective | src/ui/log/logentryblockedip.cpp:53-63 | two named reasons with the same text are the same reason |
| LogEntryBlockedIpModel.LogEntryBlockedIp.constructor | src/ui/log/logentryblockedip.cpp:3-14 | the record holds the given reason, protocol, ports, addresses, pid and kernel path |
| LogEntryBlockedIpModel.LogEntryBlockedIp.SetInbound | src/ui/log/logentryblockedip.cpp:16-19 | sets inbound and nothing else |
| LogEntryBlockedIpModel.LogEntryBlockedIp.SetBlockReason | src/ui/log/logentryblockedip.cpp:21-24 | sets the block reason and nothing else |
| LogEntryBlockedIpModel.LogEntryBlockedIp.SetIpProto | src/ui/log/logentryblockedip.cpp:26-29 | sets the protocol and nothing else |
| LogEntryBlockedIpModel.LogEntryBlockedIp.SetLocalPort | src/ui/log/logentryblockedip.cpp:31-34 | sets the local port and nothing else |
| LogEntryBlockedIpModel.LogEntryBlockedIp.SetRemotePort | src/ui/log/logentryblockedip.cpp:36-39 | sets the remote port and nothing else |
| LogEntryBlockedIpModel.LogEntryBlockedIp.SetLocalIp | src/ui/log/logentryblockedip.cpp:41-44 | sets the local address and nothing else |
| LogEntryBlockedIpModel.LogEntryBlockedIp.SetRemoteIp | src/ui/log/logentryblockedip.cpp:46-49 | sets the remote address and nothing else |
| OptionsControllerModel.Mark | src/ui/form/opt/optionscontroller.cpp:63-85 | marking sets the chosen flag, leaves the other two, and makes the conf count as edited |
| OptionsControllerModel.MarkEvents | src/ui/form/opt/optionscontroller.cpp:63-85 | marking emits editedChanged(true) once if the flag was clear, and nothing if it was set |
| OptionsControllerModel.MarkIdempotent | src/ui/form/opt/optionscontroller.cpp:63-85 | marking twice is marking once, and the repeat emits nothing |
| OptionsControllerModel.SaveStartsWithAboutToSave | src/ui/form/opt/optionscontroller.cpp:108 | save emits aboutToSave first, and only once |
| OptionsControllerModel.SaveCallsSaveConfIffEdited | src/ui/form/opt/optionscontroller.cpp:110-116 | saveConf is called iff something is edited; otherwise only editedChanged(false) follows |
| OptionsControllerModel.SaveAppliesIffSaved | src/ui/form/opt/optionscontroller.cpp:115-118 | the saved conf is applied iff something was edited and saveConf succeeded; a failed save applies, closes and resets nothing |
| OptionsControllerModel.SaveSuccessEnding | src/ui/form/opt/optionscontroller.cpp:118-125 | after applying, the window closes, or a new edit copy is made and editedChanged(false) then editResetted are emitted |
| OptionsControllerModel.OptionsController.constructor | src/ui/form/opt/optionscontroller.cpp:9-16 | a fresh, unedited edit copy is requested |
| OptionsControllerModel.OptionsController.Destroy | src/ui/form/opt/optionscontroller.cpp:18-21 | the edit copy is set to null |
| OptionsControllerModel.OptionsController.EmitEdited | src/ui/form/opt/optionscontroller.cpp:87-90 | emits editedChanged(edited) |
| OptionsControllerModel.OptionsController.ResetEdited | src/ui/form/opt/optionscontroller.cpp:92-96 | emits editedChanged(false) then editResetted |
| OptionsControllerModel.OptionsController.SetOptEdited | src/ui/form/opt/optionscontroller.cpp:63-69 | sets optEdited; signals only on the first transition |
| OptionsControllerModel.OptionsController.SetFlagsEdited | src/ui/form/opt/optionscontroller.cpp:71-77 | sets flagsEdited; signals only on the first transition |
| OptionsControllerModel.OptionsController.SetIniEdited | src/ui/form/opt/optionscontroller.cpp:79-85 | sets iniEdited; signals only on the first transition |
| OptionsControllerModel.OptionsController.Initialize | src/ui/form/opt/optionscontroller.cpp:98-104 | opt is marked edited exactly when the configuration was migrated |
| OptionsControllerModel.OptionsController.CloseWindow | src/ui/form/opt/optionscontroller.cpp:128-131 | asks the manager to close the options window |
| OptionsControllerModel.OptionsController.Save | src/ui/form/opt/optionscontroller.cpp:106-126 | the trace is the save sequence with its two early exits; the edit copy is renewed only after a successful save without closing |
| FortManagerModel.CanInstallDriver | src/ui/fortmanager.cpp:54-60 | true iff the user is admin and the install setting or portability holds |
| FortManagerModel.MasterAndClientSameCapabilities | src/ui/fortmanager.cpp:67-107 | master and client register the same 15 capabilities, local on master and RPC proxies on a client |
| FortManagerModel.MasterOnlyDriveList | src/ui/fortmanager.cpp:85-86 | DriveListManager is registered iff master; nothing else outside the capabilities depends on the master role |
| FortManagerModel.RpcManagerIffHasService | src/ui/fortmanager.cpp:117-119 | RpcManager is registered iff hasService |
| FortManagerModel.ServiceAndUiSplit | src/ui/fortmanager.cpp:121-133 | service mode: fake window manager and ServiceManager, no UI services; UI mode: real window manager, HotKeyManager, UserSettings, TranslationManager, no ServiceManager |
| FortManagerModel.SetupDriverTraceFacts | src/ui/fortmanager.cpp:328-345 | validate runs iff open succeeded, the device is closed again iff validation failed, updateServices runs iff both succeeded |
| FortManagerModel.UpdateDriverConfTraceFacts | src/ui/fortmanager.cpp:502-517 | the log is deactivated first, the conf is pushed, stat conf is set iff the push succeeded, the log is reactivated last |
| FortManagerModel.InstallLooksAtFirstCharOnly | src/ui/fortmanager.cpp:254-277 | two arguments with the same first character install the same |
| FortManagerModel.InstallOtherDoesNothing | src/ui/fortmanager.cpp:254-277 | install does nothing iff the argument is null or starts with none of `b`, `p`, `s`, `e` |
| FortManagerModel.RunningInstanceTraceFacts | src/ui/fortmanager.cpp:160-176 | the mutex is always created; "show" is posted iff another instance runs and this is a non-service, non-launch run; the warning box iff that post fails |
| FortManagerModel.FortManager.constructor | src/ui/fortmanager.cpp:143 | nothing registered, device closed, log inactive, no stat conf |
| FortManagerModel.FortManager.SetupMasterServices | src/ui/fortmanager.cpp:67-87 | registers local implementations of the 15 capabilities and DriveListManager; other entries unchanged |
| FortManagerModel.FortManager.SetupClientServices | src/ui/fortmanager.cpp:89-107 | registers RPC proxies of the 15 capabilities; other entries unchanged |
| FortManagerModel.FortManager.SetupServices | src/ui/fortmanager.cpp:109-139 | on an empty container, exactly the implementations the per-interface Registration table assigns to the role |
| FortManagerModel.FortManager.SetupDriver | src/ui/fortmanager.cpp:328-345 | returns true iff open and validate succeed; the device stays open iff so; updateServices count grows by one only then |
| FortManagerModel.FortManager.UpdateLogManager | src/ui/fortmanager.cpp:519-522 | the log manager's active flag becomes the argument |
| FortManagerModel.FortManager.UpdateStatManager | src/ui/fortmanager.cpp:524-527 | the stat manager gets the configuration or null |
| FortManagerModel.FortManager.CloseDriver | src/ui/fortmanager.cpp:347-355 | ends with log inactive, stat conf null, device closed, in that order |
| FortManagerModel.FortManager.UpdateDriverConf | src/ui/fortmanager.cpp:502-517 | returns the push result; log active afterwards; stat conf set when the push succeeded, unchanged otherwise |
| FortManagerModel.FortManager.OnConfChanged | src/ui/fortmanager.cpp:404-415 | logger updated iff the INI was edited; conf pushed unless only unedited flags changed |
| FortManagerModel.FortManager.Install | src/ui/fortmanager.cpp:254-277 | performs the actions of the first character's case, nothing for null or other arguments |
| FortManagerModel.FortManager.Uninstall | src/ui/fortmanager.cpp:279-293 | auto-run off, explorer integration off, service stopped and uninstalled; provider unregistered only for a null argument |
| FortManagerModel.FortManager.InstallDriver | src/ui/fortmanager.cpp:295-317 | always true; with a service the driver state is untouched; without one, device open iff setup succeeded, log active iff open, stat conf iff open and pushed |
| FortManagerModel.FortManager.RemoveDriver | src/ui/fortmanager.cpp:319-326 | closes the driver, then uninstalls it; returns true |
| FortManagerModel.FortManager.CheckRemoveDriver | src/ui/fortmanager.cpp:357-368 | the driver is removed iff it may be installed, this is not the service and no service is installed |
| FortManagerModel.FortManager.CheckReinstallDriver | src/ui/fortmanager.cpp:370-377 | reinstall check runs iff there is no service and the driver may be installed |
| FortManagerModel.FortManager.CheckStartService | src/ui/fortmanager.cpp:379-392 | the service is started iff not master, not running, allowed to start, and the user is admin |
| FortManagerModel.FortManager.CheckRunningInstance | src/ui/fortmanager.cpp:160-176 | returns true iff single instance; the actions are those of the running-instance sequence |

## Left out

- Qt signal order in FortSettings: iniChanged and errorMessageChanged are each
  counted, so the order between the two kinds is not preserved.
- FortSettings.Settings.WriteConfIni: the 14 setIniValue calls are performed by
  a loop over the table ConfIniEntries; the source writes them out one after
  another. The calls, their order, values and defaults are the same.
- FortSettings.Settings.WriteConf: the three file steps after the INI part are
  in the helper method ReplaceConfFile; the steps and messages are those of
  the source.
- QVariant comparison: equality is structural in the model. Qt compares with
  conversion, for instance an unsigned appGroupBits against its int default of
  0xFFFF. So the model may write (and signal) where Qt sees an equal value.
- QVariant conversions: text is not parsed into numbers and numbers are not
  formatted as text.
- FortSettings.IniValue and readConfIni use plain "group/key" paths.
  QSettings' beginGroup/endGroup prefixing is represented by the literal full
  keys.
- FortSettings.Settings.Tasks and SetTasks pick task names in any order; the
  source follows its containers' iteration order. The results do not depend
  on the order.
- FortSettings.TasksRoundTrip assumes every task name is non-empty and contains
  no `/`. QSettings lists only such names as child keys, so other names do not
  round-trip in the source either. The model's keys are case-sensitive; on
  Windows QSettings' INI keys are not, so there names differing only in case
  share one key and only names distinct up to case round-trip.
- startWithWindows / setStartWithWindows, setupIni's makePath,
  startupShortcutPath: file-system and shortcut oracles, not modelled.
- iniReal, iniText and iniList are not modelled: floating point, and
  conversions that are not modelled.
- JSON parsing and serialisation, the INI flush, file reads, writes and
  renames are oracles.
- FortSettings.Settings.WriteFileData and RenameFile: a failed write or rename
  is taken to leave every file unchanged. FileUtil is not part of this model;
  WriteConfSuccessFiles and the file-map clauses of ReplaceConfFile and
  WriteConf rest on this.
- FortSettings.Settings.TryToWriteConf serialises only the .conf part of the
  configuration (conf.variant). conf.toVariant() is taken to depend on that
  part alone, not on the flags and statistics kept in the INI file;
  FirewallConf is not part of this model.
- FortSettings.Settings.ProcessArguments: QCommandLineParser::process exits
  the program on --help, --version or an unknown option. The model does not
  represent that exit and always goes on to read the options.
- IniOptions: colour options (`valueColor`/`setColor`) are not modelled; they
  use a colour type and helper not shown.
- IniOptions: the overridden `value()`, `setCache` and `isTransientKey` are
  only declared; the model treats every key as a plain lookup in the map.
  `cacheStartupMode`/`cacheExplorerIntegrated` are therefore not modelled.
- IniOptions: `defaultLanguage()` and `save()` are only declared and are not
  modelled. The language default is a parameter.
- IniOptions copy constructor: only declared; not modelled.
- OptionsControllerModel.AnyEdited: FirewallConf::anyEdited is not shown. It
  is taken to be the disjunction of the three flags.
- OptionsControllerModel.OptionsController.Save: initConfToEdit and
  applySavedConf belong to the configuration manager, which is not part of
  this model. After initConfToEdit the edit copy is taken to be unedited, and
  applySavedConf is only recorded in the trace.
- OptionsController: retranslateUi and the accessors that forward to other
  managers are not modelled.
- FortManager: initialize, the destructor, createManagers, deleteManagers and
  the setup*Manager signal wiring are not modelled, except for the confChanged
  handler (OnConfChanged). They consist of calls into managers that are not
  shown, and of thread-pool and logger setup.
- FortManager: sendPostedEvents in closeDriver is not represented; it is a Qt
  event-loop call.
- FortManager: setService is modelled as an update of the container map, made
  on a local copy of the map inside each setup method. setUpAll's order of
  setting up services is not modelled.
- FortManagerModel.FortManager.SetupDriver: a failed openDevice leaves the
  device closed. Whether openDevice closes an already-open device first is
  inside the driver manager, which is not part of this model.
- FortManagerModel.FortManager.InstallDriver: the argument of the parameterless
  updateDriverConf() call is taken to be onlyFlags = false, the parameterless
  StartupUtil::stopService() to be StopService(false), and the parameterless
  setServiceInstalled() to be SetServiceInstalled(true). These defaults are
  declared in headers that are not part of this model.
- IniOptions and FortSettings: the getters and ini helpers called without a
  default (valueBool, valueInt, valueUInt, valueText, valueByteArray, iniBool,
  iniInt) are taken to default to false, 0, 0, the empty text and the empty
  byte array, and setIniValue(key, value) to compare against QVariant().
  These defaults are declared in headers that are not part of this model.
  GetBool, GetInt, GetUInt, GetText, GetBytes, AbsentKeyReadsDefault,
  ReadConfFlags, ReadStatConf and ConfIniEntries rest on this.
- LogEntryBlockedIpModel: the reason codes (ReasonIpInet …
  ReasonAppGroupDefault) are defined in a header that is not part of this
  model. They are taken to be 1..5. tr() is the identity on the English text.
- LogEntryBlockedIpModel.LogEntryBlockedIp.constructor: the initial inbound
  flag is set in the class header, which is not part of this model. It is
  taken to be false.

## Findings

| source | as written | input that shows it | evidently intended | confidence | as-written member | corrected member |
|---|---|---|---|---|---|---|
| src/ui/conf/inioptions.h:84-88 | `setQuotaMonthMb` writes `quota/quotaMonthMMb`, but `quotaMonthMb` reads `quota/quotaMonthMb` | empty options, `setQuotaMonthMb(100)`, then `quotaMonthMb()` returns 0 | the setter writes `quota/quotaMonthMb`, so the pair round-trips | high (not executed) | IniOptions.MonthQuotaCounterexample | IniOptions.CorrectedWriteKeyRoundTrips |
