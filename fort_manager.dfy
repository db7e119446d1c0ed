/**
 * FortManager: which service implementations the process registers for its
 * role (master or client, service or UI), and the driver lifecycle: opening
 * and validating the driver device, closing it, pushing the configuration to
 * it, installing and removing the driver, and the guards around starting the
 * service and removing or reinstalling the driver.
 *
 * The state the lifecycle toggles (device open, log manager active, stat
 * manager holding the configuration, number of updateServices calls) is kept
 * in fields; every call into another manager or into the operating system is
 * also appended, in order, to an action trace. The answers of those calls
 * (open succeeded, validation succeeded, ...) are parameters.
 */
module FortManagerModel {
  import opened QtTypes

  /** The FortSettings queries FortManager's decisions depend on. */
  datatype Role = Role(
    isMaster: bool,
    hasService: bool,
    isService: bool,
    canInstallDriverSetting: bool,
    isPortable: bool,
    isUserAdmin: bool,
    canStartService: bool)

  /** The driver may be installed by an administrator of an installed-with-driver or portable copy. */
  function CanInstallDriver(role: Role): (r: bool)
    ensures r <==> role.isUserAdmin && (role.canInstallDriverSetting || role.isPortable)
  {
    var canInstallDriver := role.canInstallDriverSetting || role.isPortable;
    var isAdmin := role.isUserAdmin;
    canInstallDriver && isAdmin
  }

  // ---------------------------------------------------------------------------
  // Service registration

  /** The service interfaces the IoC container is keyed by. */
  datatype Service =
    | ConfManager | ConfAppManager | ConfRuleManager | ConfZoneManager | QuotaManager
    | StatManager | StatBlockManager | AskPendingManager | AutoUpdateManager | DriverManager
    | AppInfoManager | LogManager | ServiceInfoManager | TaskManager | DbErrorManager
    | DriveListManager | RpcManager
    | WindowManager | ServiceManager | HotKeyManager | UserSettings | TranslationManager
    | NativeEventFilter | AppInfoCache | HostInfoCache | ZoneListModel

  /** The implementation registered for an interface: the real one, an RPC proxy or a fake. */
  datatype Impl = Local | RpcProxy | Fake

  type Registry = map<Service, Impl>

  /** The implementation registered for s, if any. */
  function Lookup(r: Registry, s: Service): Option<Impl>
  {
    if s in r then Some(r[s]) else None
  }

  /** The capabilities both a master and a client provide. */
  predicate IsCapability(s: Service)
  {
    match s
    case ConfManager | ConfAppManager | ConfRuleManager | ConfZoneManager | QuotaManager
       | StatManager | StatBlockManager | AskPendingManager | AutoUpdateManager | DriverManager
       | AppInfoManager | LogManager | ServiceInfoManager | TaskManager | DbErrorManager => true
    case _ => false
  }

  /** The interfaces registered by the role-independent tail of setupServices. */
  predicate IsCommonService(s: Service)
  {
    match s
    case NativeEventFilter | AppInfoCache | HostInfoCache | ZoneListModel => true
    case _ => false
  }

  /** The interfaces only a UI process registers. */
  predicate IsUiOnly(s: Service)
  {
    match s
    case HotKeyManager | UserSettings | TranslationManager => true
    case _ => false
  }

  /**
   * The implementation setupServices registers for interface s in a process
   * of the given role, stated per interface.
   */
  function Registration(role: Role, s: Service): (r: Option<Impl>)
  {
    if IsCapability(s) then Some(if role.isMaster then Local else RpcProxy)
    else if s == DriveListManager then (if role.isMaster then Some(Local) else None)
    else if s == RpcManager then (if role.hasService then Some(Local) else None)
    else if s == WindowManager then Some(if role.isService then Fake else Local)
    else if s == ServiceManager then (if role.isService then Some(Local) else None)
    else if IsUiOnly(s) then (if role.isService then None else Some(Local))
    else if IsCommonService(s) then Some(Local)
    else None
  }

  /** Master and client provide the same capabilities: local ones on master, proxies on a client. */
  lemma MasterAndClientSameCapabilities(role: Role, s: Service)
    ensures IsCapability(s) ==> Registration(role, s) == Some(if role.isMaster then Local else RpcProxy)
    ensures (Registration(role.(isMaster := true), s).Some? && IsCapability(s))
              <==> (Registration(role.(isMaster := false), s).Some? && IsCapability(s))
  {
  }

  /** Apart from the capabilities, the master role adds exactly the drive list manager. */
  lemma MasterOnlyDriveList(role: Role, s: Service)
    ensures Registration(role, DriveListManager).Some? <==> role.isMaster
    ensures s != DriveListManager && !IsCapability(s) ==>
              Registration(role.(isMaster := true), s) == Registration(role.(isMaster := false), s)
  {
  }

  lemma RpcManagerIffHasService(role: Role)
    ensures Registration(role, RpcManager).Some? <==> role.hasService
  {
  }

  /**
   * A service process gets the fake window manager and the service manager;
   * a UI process gets the real window manager, the hot keys, the user
   * settings and the translations.
   */
  lemma ServiceAndUiSplit(role: Role)
    ensures role.isService ==>
              && Registration(role, WindowManager) == Some(Fake)
              && Registration(role, ServiceManager) == Some(Local)
              && forall s :: IsUiOnly(s) ==> Registration(role, s) == None
    ensures !role.isService ==>
              && Registration(role, WindowManager) == Some(Local)
              && Registration(role, ServiceManager) == None
              && forall s :: IsUiOnly(s) ==> Registration(role, s) == Some(Local)
  {
  }

  // ---------------------------------------------------------------------------
  // Driver lifecycle

  datatype AutoRunMode = StartupDisabled | StartupAllUsers

  datatype Action =
    // driver manager and configuration managers
    | OpenDevice | ValidateDriver | CloseDevice | UpdateServices
    | SetLogActive(active: bool) | SetStatConf(present: bool)
    | UpdateAppDriverConf(onlyFlags: bool)
    | ReinstallDriver | UninstallDriver | CheckReinstallDriverCall
    | UpdateLogger
    // operating system and startup utilities
    | StartService | StopService(forUninstall: bool) | SetServiceInstalled(installed: bool)
    | ProvRegister(bootFilter: bool) | ProvUnregister
    | SetupPortableResource | SetPortable
    | SetAutoRunMode(mode: AutoRunMode) | EndRestartClients
    | SetExplorerIntegrated(integrated: bool) | ClearGlobalExplorerIntegrated
    | CreateMutex(global: bool) | WarnServiceRunning | PostShowCommand | WarnAlreadyRunning

  /** The actions of setupDriver when openDevice answers openOk and validateDriver validateOk. */
  function SetupDriverTrace(openOk: bool, validateOk: bool): seq<Action>
  {
    if !openOk then [OpenDevice]
    else if !validateOk then [OpenDevice, ValidateDriver, CloseDevice]
    else [OpenDevice, ValidateDriver, UpdateServices]
  }

  /**
   * The driver is validated only once opened, closed again exactly when the
   * validation fails, and the services are updated exactly when both succeed.
   */
  lemma SetupDriverTraceFacts(openOk: bool, validateOk: bool)
    ensures var t := SetupDriverTrace(openOk, validateOk);
      && t[0] == OpenDevice
      && (ValidateDriver in t <==> openOk)
      && (CloseDevice in t <==> openOk && !validateOk)
      && (UpdateServices in t <==> openOk && validateOk)
  {
  }

  const CloseDriverTrace := [SetLogActive(false), SetStatConf(false), CloseDevice]

  function UpdateDriverConfTrace(onlyFlags: bool, updateOk: bool): seq<Action>
  {
    [SetLogActive(false), UpdateAppDriverConf(onlyFlags)]
    + (if updateOk then [SetStatConf(true)] else [])
    + [SetLogActive(true)]
  }

  /** The log manager is inactive while the configuration is pushed, and active again afterwards. */
  lemma UpdateDriverConfTraceFacts(onlyFlags: bool, updateOk: bool)
    ensures var t := UpdateDriverConfTrace(onlyFlags, updateOk);
      && t[0] == SetLogActive(false) && t[1] == UpdateAppDriverConf(onlyFlags)
      && t[|t| - 1] == SetLogActive(true)
      && (SetStatConf(true) in t <==> updateOk)
      && SetStatConf(false) !in t
  {
  }

  /** The actions of installDriver. */
  function InstallDriverTrace(hasService: bool, openOk: bool, validateOk: bool, updateOk: bool): seq<Action>
  {
    if hasService then [StopService(false), ReinstallDriver, SetServiceInstalled(true)]
    else
      CloseDriverTrace + [ReinstallDriver] + SetupDriverTrace(openOk, validateOk)
      + (if openOk && validateOk then UpdateDriverConfTrace(false, updateOk) else [])
  }

  const RemoveDriverTrace := CloseDriverTrace + [UninstallDriver]

  /** The first character of a C string; an empty string's first character is its terminator. */
  function FirstChar(arg: string): char
  {
    if arg == "" then '\0' else arg[0]
  }

  /** The actions of install(arg); None stands for a null argument. */
  function InstallTrace(arg: Option<string>): seq<Action>
  {
    if arg.None? then []
    else
      match FirstChar(arg.value)
      case 'b' => [ProvRegister(true)]
      case 'p' => [SetupPortableResource, SetPortable]
      case 's' => [SetAutoRunMode(StartupAllUsers), SetServiceInstalled(true), EndRestartClients]
      case 'e' => [SetExplorerIntegrated(true)]
      case _ => []
  }

  /** install looks only at the first character of its argument. */
  lemma {:induction false} InstallLooksAtFirstCharOnly(a: string, b: string)
    requires FirstChar(a) == FirstChar(b)
    ensures InstallTrace(Some(a)) == InstallTrace(Some(b))
  {
  }

  /** A null argument or one starting with any other character installs nothing. */
  lemma InstallOtherDoesNothing(arg: Option<string>)
    ensures InstallTrace(arg) == [] <==> arg.None? || FirstChar(arg.value) !in {'b', 'p', 's', 'e'}
  {
  }

  function UninstallTrace(arg: Option<string>): seq<Action>
  {
    [SetAutoRunMode(StartupDisabled), SetExplorerIntegrated(false), StopService(true),
     SetServiceInstalled(false), ClearGlobalExplorerIntegrated]
    + (if arg.None? then [ProvUnregister] else [])
  }

  /**
   * The actions of checkRunningInstance: the instance mutex (global for the
   * service) is always created; a second instance only warns (service), or
   * asks the running one to show its home window and warns if that request
   * cannot be posted (interactive, non-launch run).
   */
  function RunningInstanceTrace(isService: bool, isLaunch: bool, isSingleInstance: bool, postOk: bool): seq<Action>
  {
    [CreateMutex(isService)]
    + if isSingleInstance then []
      else if isService then [WarnServiceRunning]
      else if !isLaunch then [PostShowCommand] + (if postOk then [] else [WarnAlreadyRunning])
      else []
  }

  lemma RunningInstanceTraceFacts(isService: bool, isLaunch: bool, isSingleInstance: bool, postOk: bool)
    ensures var t := RunningInstanceTrace(isService, isLaunch, isSingleInstance, postOk);
      && t[0] == CreateMutex(isService)
      && (PostShowCommand in t <==> !isSingleInstance && !isService && !isLaunch)
      && (WarnAlreadyRunning in t <==> !isSingleInstance && !isService && !isLaunch && !postOk)
      && (WarnServiceRunning in t <==> !isSingleInstance && isService)
  {
  }

  class FortManager {
    var services: Registry
    var deviceOpen: bool
    var logActive: bool
    var statConfSet: bool
    var servicesUpdated: nat
    var trace: seq<Action>

    constructor ()
      ensures services == map[] && trace == []
      ensures !deviceOpen && !logActive && !statConfSet && servicesUpdated == 0
    {
      services := map[];
      deviceOpen, logActive, statConfSet := false, false, false;
      servicesUpdated := 0;
      trace := [];
    }

    /**
     * Each setService call registers an implementation under its interface,
     * replacing an earlier registration: an update of the container map.
     */
    method SetupMasterServices()
      modifies this`services
      ensures forall s :: Lookup(services, s) ==
                if IsCapability(s) || s == DriveListManager then Some(Local) else Lookup(old(services), s)
    {
      var ioc := services;
      ioc := ioc[ConfManager := Local];
      ioc := ioc[ConfAppManager := Local];
      ioc := ioc[ConfRuleManager := Local];
      ioc := ioc[ConfZoneManager := Local];
      ioc := ioc[QuotaManager := Local];
      ioc := ioc[StatManager := Local];
      ioc := ioc[StatBlockManager := Local];
      ioc := ioc[AskPendingManager := Local];
      ioc := ioc[AutoUpdateManager := Local];
      ioc := ioc[DriverManager := Local];
      ioc := ioc[AppInfoManager := Local];
      ioc := ioc[LogManager := Local];
      ioc := ioc[ServiceInfoManager := Local];
      ioc := ioc[TaskManager := Local];
      ioc := ioc[DbErrorManager := Local];

      ioc := ioc[DriveListManager := Local];
      services := ioc;
    }

    method SetupClientServices()
      modifies this`services
      ensures forall s :: Lookup(services, s) ==
                if IsCapability(s) then Some(RpcProxy) else Lookup(old(services), s)
    {
      var ioc := services;
      ioc := ioc[ConfManager := RpcProxy];
      ioc := ioc[ConfAppManager := RpcProxy];
      ioc := ioc[ConfRuleManager := RpcProxy];
      ioc := ioc[ConfZoneManager := RpcProxy];
      ioc := ioc[QuotaManager := RpcProxy];
      ioc := ioc[StatManager := RpcProxy];
      ioc := ioc[StatBlockManager := RpcProxy];
      ioc := ioc[AskPendingManager := RpcProxy];
      ioc := ioc[AutoUpdateManager := RpcProxy];
      ioc := ioc[DriverManager := RpcProxy];
      ioc := ioc[AppInfoManager := RpcProxy];
      ioc := ioc[LogManager := RpcProxy];
      ioc := ioc[ServiceInfoManager := RpcProxy];
      ioc := ioc[TaskManager := RpcProxy];
      ioc := ioc[DbErrorManager := RpcProxy];
      services := ioc;
    }

    /**
     * setupServices on an empty container registers exactly the
     * implementations Registration assigns to the role.
     */
    method SetupServices(role: Role)
      requires services == map[]
      modifies this`services
      ensures forall s :: Lookup(services, s) == Registration(role, s)
    {
      if role.isMaster {
        SetupMasterServices();
      } else {
        SetupClientServices();
      }
      var ioc := services;
      if role.hasService {
        ioc := ioc[RpcManager := Local];
      }

      if role.isService {
        ioc := ioc[WindowManager := Fake];
        ioc := ioc[ServiceManager := Local];
      } else {
        ioc := ioc[WindowManager := Local];
        ioc := ioc[HotKeyManager := Local];
        ioc := ioc[UserSettings := Local];
        ioc := ioc[TranslationManager := Local];
      }

      ioc := ioc[NativeEventFilter := Local];
      ioc := ioc[AppInfoCache := Local];
      ioc := ioc[HostInfoCache := Local];
      ioc := ioc[ZoneListModel := Local];
      services := ioc;
    }

    /** openOk and validateOk are the answers of openDevice and validateDriver. */
    method SetupDriver(openOk: bool, validateOk: bool) returns (ok: bool)
      modifies this`deviceOpen, this`servicesUpdated, this`trace
      ensures ok == (openOk && validateOk)
      ensures deviceOpen == ok
      ensures servicesUpdated == old(servicesUpdated) + (if ok then 1 else 0)
      ensures trace == old(trace) + SetupDriverTrace(openOk, validateOk)
    {
      trace := trace + [OpenDevice];
      deviceOpen := openOk;
      ok := openOk;

      if ok {
        trace := trace + [ValidateDriver];
        if !validateOk {
          trace := trace + [CloseDevice];
          deviceOpen := false;
          ok := false;
        }
      }

      if ok {
        trace := trace + [UpdateServices];
        servicesUpdated := servicesUpdated + 1;
      }
    }

    method UpdateLogManager(active: bool)
      modifies this`logActive, this`trace
      ensures logActive == active
      ensures trace == old(trace) + [SetLogActive(active)]
    {
      logActive := active;
      trace := trace + [SetLogActive(active)];
    }

    /** present: the stat manager is given the current configuration (false: null). */
    method UpdateStatManager(present: bool)
      modifies this`statConfSet, this`trace
      ensures statConfSet == present
      ensures trace == old(trace) + [SetStatConf(present)]
    {
      statConfSet := present;
      trace := trace + [SetStatConf(present)];
    }

    method CloseDriver()
      modifies this`logActive, this`statConfSet, this`deviceOpen, this`trace
      ensures !logActive && !statConfSet && !deviceOpen
      ensures trace == old(trace) + CloseDriverTrace
    {
      UpdateLogManager(false);
      UpdateStatManager(false);

      trace := trace + [CloseDevice];
      deviceOpen := false;
    }

    /** updateOk is the answer of the application configuration manager's updateDriverConf. */
    method UpdateDriverConf(onlyFlags: bool, updateOk: bool) returns (res: bool)
      modifies this`logActive, this`statConfSet, this`trace
      ensures res == updateOk
      ensures logActive
      ensures statConfSet == (updateOk || old(statConfSet))
      ensures trace == old(trace) + UpdateDriverConfTrace(onlyFlags, updateOk)
    {
      UpdateLogManager(false);

      trace := trace + [UpdateAppDriverConf(onlyFlags)];
      res := updateOk;
      if res {
        UpdateStatManager(true);
      }

      UpdateLogManager(true);
    }

    /**
     * The confChanged handler of setupConfManager: the logger follows an
     * edited INI, and the driver gets the configuration unless only the flags
     * changed and they were not edited.
     */
    method OnConfChanged(onlyFlags: bool, iniEdited: bool, flagsEdited: bool, updateOk: bool)
      modifies this`logActive, this`statConfSet, this`trace
      ensures var pushed := !onlyFlags || flagsEdited;
        && trace == old(trace) + (if iniEdited then [UpdateLogger] else [])
                      + (if pushed then UpdateDriverConfTrace(onlyFlags, updateOk) else [])
        && logActive == (pushed || old(logActive))
        && statConfSet == ((pushed && updateOk) || old(statConfSet))
    {
      if iniEdited {
        trace := trace + [UpdateLogger];
      }

      if !onlyFlags || flagsEdited {
        var _ := UpdateDriverConf(onlyFlags, updateOk);
      }
    }

    method Install(arg: Option<string>)
      modifies this`trace
      ensures trace == old(trace) + InstallTrace(arg)
    {
      if arg.None? {
        return;
      }

      match FirstChar(arg.value)
      case 'b' =>
        trace := trace + [ProvRegister(true)];
      case 'p' =>
        trace := trace + [SetupPortableResource, SetPortable];
      case 's' =>
        trace := trace + [SetAutoRunMode(StartupAllUsers), SetServiceInstalled(true)];
        trace := trace + [EndRestartClients];
      case 'e' =>
        trace := trace + [SetExplorerIntegrated(true)];
      case _ =>
    }

    method Uninstall(arg: Option<string>)
      modifies this`trace
      ensures trace == old(trace) + UninstallTrace(arg)
    {
      trace := trace + [SetAutoRunMode(StartupDisabled), SetExplorerIntegrated(false)];
      trace := trace + [StopService(true), SetServiceInstalled(false)];
      trace := trace + [ClearGlobalExplorerIntegrated];

      if arg.None? {
        trace := trace + [ProvUnregister];
      }
    }

    /**
     * Without a service the driver is reopened and, once open, configured:
     * afterwards the log is active exactly when the device is open.
     */
    method InstallDriver(hasService: bool, openOk: bool, validateOk: bool, updateOk: bool) returns (ok: bool)
      modifies this`logActive, this`statConfSet, this`deviceOpen, this`servicesUpdated, this`trace
      ensures ok
      ensures trace == old(trace) + InstallDriverTrace(hasService, openOk, validateOk, updateOk)
      ensures hasService ==>
                && deviceOpen == old(deviceOpen) && logActive == old(logActive)
                && statConfSet == old(statConfSet) && servicesUpdated == old(servicesUpdated)
      ensures !hasService ==>
                && deviceOpen == (openOk && validateOk)
                && logActive == deviceOpen
                && statConfSet == (deviceOpen && updateOk)
                && servicesUpdated == old(servicesUpdated) + (if deviceOpen then 1 else 0)
    {
      if hasService {
        trace := trace + [StopService(false)];
      } else {
        CloseDriver();
      }

      trace := trace + [ReinstallDriver];

      if hasService {
        trace := trace + [SetServiceInstalled(true)];
      } else {
        var driverOk := SetupDriver(openOk, validateOk);
        if driverOk {
          var _ := UpdateDriverConf(false, updateOk);
        }
      }

      ok := true;
    }

    method RemoveDriver() returns (ok: bool)
      modifies this`logActive, this`statConfSet, this`deviceOpen, this`trace
      ensures ok
      ensures !logActive && !statConfSet && !deviceOpen
      ensures trace == old(trace) + RemoveDriverTrace
    {
      CloseDriver();

      trace := trace + [UninstallDriver];

      ok := true;
    }

    /**
     * The driver is removed only where it may be installed and no service
     * (this process or an installed one) still uses it.
     */
    method CheckRemoveDriver(role: Role, serviceInstalled: bool)
      modifies this`logActive, this`statConfSet, this`deviceOpen, this`trace
      ensures var removed := CanInstallDriver(role) && !role.isService && !serviceInstalled;
        && trace == old(trace) + (if removed then RemoveDriverTrace else [])
        && (removed ==> !logActive && !statConfSet && !deviceOpen)
        && (!removed ==> logActive == old(logActive) && statConfSet == old(statConfSet)
                         && deviceOpen == old(deviceOpen))
    {
      if !CanInstallDriver(role) {
        return;
      }

      if role.isService || serviceInstalled {
        return;
      }

      var _ := RemoveDriver();
    }

    method CheckReinstallDriver(role: Role)
      modifies this`trace
      ensures trace == old(trace) +
                if !role.hasService && CanInstallDriver(role) then [CheckReinstallDriverCall] else []
    {
      if !role.hasService && CanInstallDriver(role) {
        trace := trace + [CheckReinstallDriverCall];
      }
    }

    /** A client with a stopped service starts it when allowed to and run by an administrator. */
    method CheckStartService(role: Role, serviceRunning: bool)
      modifies this`trace
      ensures |trace| >= |old(trace)| && trace[..|old(trace)|] == old(trace)
      ensures StartService in trace[|old(trace)|..] <==>
                !role.isMaster && !serviceRunning && role.canStartService && role.isUserAdmin
      ensures trace == old(trace) || trace == old(trace) + [StartService]
    {
      if role.isMaster || serviceRunning {
        return;
      }

      var canStartService := role.canStartService;
      var isAdmin := role.isUserAdmin;

      if canStartService && isAdmin {
        trace := trace + [StartService];
      }
    }

    /**
     * isSingleInstance is what creating the instance mutex reports, postOk
     * whether the "show" command reached the running instance.
     */
    method CheckRunningInstance(isService: bool, isLaunch: bool, isSingleInstance: bool, postOk: bool)
      returns (r: bool)
      modifies this`trace
      ensures r == isSingleInstance
      ensures trace == old(trace) + RunningInstanceTrace(isService, isLaunch, isSingleInstance, postOk)
    {
      trace := trace + [CreateMutex(isService)];
      if isSingleInstance {
        return true;
      }

      if isService {
        trace := trace + [WarnServiceRunning];
      } else if !isLaunch {
        trace := trace + [PostShowCommand];
        if !postOk {
          trace := trace + [WarnAlreadyRunning];
        }
      }
      return false;
    }
  }
}
