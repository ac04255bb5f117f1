// The application: the connection state machine with its exit and entry
// actions, the connection parameter negotiator, the bonding coordinator, the
// persistent store layout and the dispatch of firmware events and timers.
//
// Each handler is specified by a function from the device before the event
// to the device after it; the methods further down run the handler on the
// objects and are proved to end in that state.

module HealthThermometer {
  import opened Sdk
  import opened GattDb
  import opened HtHw
  import opened GapService
  import opened BatteryService
  import opened HealthThermoService
  import opened DevInfoService
  import opened HtData
  import opened HtGatt

  // ---- constants ------------------------------------------------------------

  /** The persistent store: a sanity word, then the bonding record. */
  const NVM_SANITY_MAGIC: Word := 0xAB08
  const NVM_OFFSET_SANITY_WORD: nat := 0
  const NVM_OFFSET_BONDED_FLAG: nat := NVM_OFFSET_SANITY_WORD + 1
  /** A typed address takes five words: the type, the lap low and high words, the uap and the nap. */
  const TYPED_BD_ADDR_WORDS: nat := 5
  const NVM_OFFSET_BONDED_ADDR: nat := NVM_OFFSET_BONDED_FLAG + 1
  const NVM_OFFSET_SM_DIV: nat := NVM_OFFSET_BONDED_ADDR + TYPED_BD_ADDR_WORDS
  const NVM_OFFSET_SM_IRK: nat := NVM_OFFSET_SM_DIV + 1
  /** Where the services' words begin. */
  const NVM_MAX_APP_MEMORY_WORDS: nat := NVM_OFFSET_SM_IRK + MAX_WORDS_IRK

  /** TGAP(conn_param_timeout), the spacing of parameter update retries. */
  const GAP_CONN_PARAM_TIMEOUT: nat := 30 * SECOND
  /** TGAP(conn_pause_peripheral) */
  const TGAP_CPP_PERIOD: nat := 5 * SECOND
  /** TGAP(conn_pause_central) */
  const TGAP_CPC_PERIOD: nat := 1 * SECOND
  const HT_TEMP_MEAS_TIME: nat := 40 * SECOND
  const BONDING_CHANCE_TIMER: nat := 30 * SECOND

  const MAX_NUM_CONN_PARAM_UPDATE_REQS: nat := 4
  const CPU_SELF_PARAMS_MAX_ATTEMPTS: nat := 2

  const PREFERRED_MAX_CON_INTERVAL: Word := 0x001B
  const PREFERRED_MIN_CON_INTERVAL: Word := 0x001B
  const PREFERRED_SLAVE_LATENCY: Word := 0x0004
  const PREFERRED_SUPERVISION_TIMEOUT: Word := 0x03E8
  const APPLE_MAX_CON_INTERVAL: Word := 0x001B
  const APPLE_MIN_CON_INTERVAL: Word := 0x0006
  const APPLE_SLAVE_LATENCY: Word := 0x0004
  const APPLE_SUPERVISION_TIMEOUT: Word := 0x0258

  const PREFERRED_PARAMS: ConnParams :=
    ConnParams(PREFERRED_MIN_CON_INTERVAL, PREFERRED_MAX_CON_INTERVAL, PREFERRED_SLAVE_LATENCY, PREFERRED_SUPERVISION_TIMEOUT)
  const APPLE_PARAMS: ConnParams :=
    ConnParams(APPLE_MIN_CON_INTERVAL, APPLE_MAX_CON_INTERVAL, APPLE_SLAVE_LATENCY, APPLE_SUPERVISION_TIMEOUT)

  // ---- events -----------------------------------------------------------------

  /** The outcome reported with SM_SIMPLE_PAIRING_COMPLETE_IND. */
  datatype PairingStatus = PairingSuccess | PairingRepeatedAttempts | PairingFailed

  /** The reason reported with LM_EV_DISCONNECT_COMPLETE: supervision timeout,
      termination by the local host, or anything else (the remote user). */
  datatype DisconnectReason = ConnTimeout | ConnTermLocalHost | OtherReason

  /** The flags of GATT_ACCESS_IND: a completed permitted write, a permitted
      read, or any other combination. */
  datatype AccessKind = WriteAccess | ReadAccess | OtherAccess

  /** The events AppProcessLmEvent receives. */
  datatype LmEvent =
    | GattAddDbCfm(dbOk: bool)
    | GattCancelConnectCfm
    | LmConnectionComplete(interval: Word, latency: Word, timeout: Word)
    | GattConnectCfm(connected: bool, cid: Word, peer: TypedBdAddr)
    | SmKeysInd(hasDiv: bool, div: Word, hasId: bool, keyIrk: Irk)
    | SmPairingAuthInd
    | SmSimplePairingCompleteInd(status: PairingStatus, bondPeer: TypedBdAddr)
    | LmEncryptionChange(changeOk: bool, encEnable: bool)
    | SmDivApproveInd(divCid: Word, requested: Word)
    | LsConnParamUpdateCfm(updateOk: bool)
    | LmConnectionUpdate(newInterval: Word, newLatency: Word, newTimeout: Word)
    | LsConnParamUpdateInd
    | GattAccessInd(accCid: Word, handle: Word, kind: AccessKind, offset: Word, value: seq<Byte>)
    | GattDisconnectInd
    | GattDisconnectCfm
    | LmDisconnectComplete(reason: DisconnectReason)
    | OtherLmEvent

  /** The events AppProcessSystemEvent receives. */
  datatype SysEvent = BatteryLow | PioChanged(cause: bv32, level: bv32) | OtherSysEvent

  /** Everything that can wake the application up. */
  datatype Event = Lm(lm: LmEvent) | System(sys: SysEvent) | TimerExpiry(n: nat)

  // ---- small steps on the whole device -------------------------------------

  /** ReportPanic: the firmware stops the application. */
  function Panicked(s: Sys, code: PanicCode): Sys
  {
    s.(fw := WithPanic(s.fw, code))
  }

  function Requested(s: Sys, r: Request): Sys
  {
    s.(fw := WithRequest(s.fw, r))
  }

  /** SoundBuzzer on the whole device. */
  function SysSoundBuzzer(s: Sys, t: BeepType): Sys
  {
    var (hw, f) := HwSoundBuzzer(s.hw, s.fw, t);
    s.(hw := hw, fw := f)
  }

  /** BatteryUpdateLevel for the current connection. */
  function SysBatteryUpdateLevel(s: Sys, env: Env): Sys
  {
    var (b, f) := BatteryUpdateLevel(s.batt, s.fw, env.handles, s.ht.stUcid);
    s.(batt := b, fw := f)
  }

  /** HealthThermoBondingNotify, then BatteryBondingNotify. */
  function SysBondingNotify(s: Sys): Sys
  {
    var f := HealthThermoBondingNotify(s.thermo, s.fw, s.ht.bonded);
    s.(fw := BatteryBondingNotify(s.batt, f, s.ht.bonded))
  }

  /** The stored connection parameters are not the preferred ones. */
  predicate ParamsOutOfRange(ht: HtState)
  {
    ht.connInterval < PREFERRED_MIN_CON_INTERVAL || ht.connInterval > PREFERRED_MAX_CON_INTERVAL
    || ht.connLatency < PREFERRED_SLAVE_LATENCY
  }

  /** The parameter update timer `cpu_timer_value` long, replacing the old one. */
  function ArmCpuTimer(s: Sys, duration: nat, cb: Callback): Sys
  {
    var f := WithoutTimer(s.fw, s.ht.cpuTid);
    s.(ht := s.ht.(cpuTid := NewTimer(f), cpuTimerValue := duration), fw := WithTimer(f, duration, cb))
  }

  // ---- htDataInit -------------------------------------------------------------

  /** The part of htDataInit on the application record: the three timers
      are cancelled and the connection is forgotten. */
  function ClearConnectionRecord(s: Sys): Sys
  {
    var f1 := WithoutTimer(s.fw, s.ht.appTid);
    var f2 := WithoutTimer(f1, s.ht.cpuTid);
    var f3 := WithoutTimer(f2, s.ht.bondingTid);
    s.(ht := s.ht.(appTid := TimerInvalid, cpuTid := TimerInvalid, cpuTimerValue := 0, bondingTid := TimerInvalid,
                   stUcid := GATT_INVALID_UCID, encryptEnabled := false,
                   connInterval := 0, connLatency := 0, connTimeout := 0),
       fw := f3)
  }

  /** The part of htDataInit that initialises the hardware data and the services. */
  function ServicesDataInit(s: Sys): Sys
  {
    var (hw, f) := HtHwDataInit(s.hw, s.fw);
    s.(hw := hw, fw := f, gap := GapDataInit(s.gap),
       batt := BatteryDataInit(s.batt, s.ht.bonded), thermo := HealthThermoDataInit(s.thermo, s.ht.bonded))
  }

  /** htDataInit */
  function HtDataInit(s: Sys): Sys
  {
    ServicesDataInit(ClearConnectionRecord(s))
  }

  // ---- AppSetState --------------------------------------------------------------

  /** appInitExit */
  function AppInitExit(s: Sys): Sys
  {
    if s.ht.bonded && !GattIsAddressResolvableRandom(s.ht.bondedBdAddr) then
      Requested(s, AddWhiteListDevice(s.ht.bondedBdAddr))
    else s
  }

  /** appAdvertisingExit */
  function AppAdvertisingExit(s: Sys): Sys
  {
    s.(ht := s.ht.(appTid := TimerInvalid), fw := WithoutTimer(s.fw, s.ht.appTid))
  }

  /** The exit action of the state the device is in. */
  function ExitState(s: Sys): Sys
  {
    if s.ht.state == AppStateInit then AppInitExit(s)
    else if s.ht.state == Disconnecting then HtDataInit(s)
    else if s.ht.state == FastAdvertising || s.ht.state == SlowAdvertising then AppAdvertisingExit(s)
    else s
  }

  /** The entry action of the state the device is in. */
  function EnterState(s: Sys, env: Env): Sys
  {
    if s.ht.state == FastAdvertising then SysSoundBuzzer(GattStartAdverts(s, env, true), BeepTwice)
    else if s.ht.state == SlowAdvertising then GattStartAdverts(s, env, false)
    else if s.ht.state == Idle then SysSoundBuzzer(s, BeepLong)
    else if s.ht.state == Connected then
      if !GattIsAddressResolvableRandom(s.ht.conBdAddr) then Requested(s, SmRequestSecurityLevel(s.ht.conBdAddr)) else s
    else if s.ht.state == Disconnecting then Requested(s, GattDisconnectReq(s.ht.stUcid))
    else s
  }

  /** The state after the exit action, with the new state committed. */
  function LeaveFor(s: Sys, newState: AppState): Sys
  {
    var s1 := ExitState(s);
    s1.(ht := s1.ht.(state := newState))
  }

  /** AppSetState */
  function AppSetState(s: Sys, env: Env, newState: AppState): Sys
  {
    if s.ht.state == newState then s else EnterState(LeaveFor(s, newState), env)
  }

  // ---- the persistent store -----------------------------------------------------

  /** The five words a typed address is stored as. */
  function AddrWords(a: TypedBdAddr): (ws: seq<Word>)
    ensures |ws| == TYPED_BD_ADDR_WORDS
  {
    [a.addrType, a.addr.lap % 0x1_0000, a.addr.lap / 0x1_0000, a.addr.uap, a.addr.nap]
  }

  /** The typed address five stored words describe. */
  function WordsAddr(ws: seq<Word>): (a: TypedBdAddr)
    requires |ws| == TYPED_BD_ADDR_WORDS
  {
    assert (ws[2] as int) * 0x1_0000 <= 0xFFFF_0000;
    TypedBdAddr(ws[0], BdAddr((ws[1] as int) + (ws[2] as int) * 0x1_0000, ws[3] % 0x100, ws[4]))
  }

  /** The bonding record as readPersistentStore reads it when the sanity word
      is intact: the flag, then the address only when bonded, the key only for
      a resolvable address, and the diversifier in any case. */
  function ReadBondingRecord(s: Sys): Sys
  {
    var m := s.fw.nvm;
    var bonded := NvmWord(m, NVM_OFFSET_BONDED_FLAG) != 0;
    var addr := if bonded then WordsAddr(NvmWords(m, NVM_OFFSET_BONDED_ADDR, TYPED_BD_ADDR_WORDS)) else s.ht.bondedBdAddr;
    var irk: Irk := if bonded && GattIsAddressResolvableRandom(addr) then NvmWords(m, NVM_OFFSET_SM_IRK, MAX_WORDS_IRK) else s.ht.irk;
    s.(ht := s.ht.(bonded := bonded, bondedBdAddr := addr, irk := irk, diversifier := NvmWord(m, NVM_OFFSET_SM_DIV)))
  }

  /** A fresh bonding record: the sanity word, not bonded, diversifier 0. */
  function InitBondingRecord(s: Sys): Sys
  {
    var f1 := WithNvmWords(s.fw, NVM_OFFSET_SANITY_WORD, [NVM_SANITY_MAGIC]);
    var f2 := WithNvmWords(f1, NVM_OFFSET_BONDED_FLAG, [0]);
    var f3 := WithNvmWords(f2, NVM_OFFSET_SM_DIV, [0]);
    s.(ht := s.ht.(bonded := false, diversifier := 0), fw := f3)
  }

  /** The sanity word marks a store this application wrote. */
  predicate StoreIntact(nvm: map<nat, Word>)
  {
    NvmWord(nvm, NVM_OFFSET_SANITY_WORD) == NVM_SANITY_MAGIC
  }

  /** What readPersistentStore demands of an intact store: a name length the
      GAP service can have written. */
  predicate StoreReadable(nvm: map<nat, Word>)
  {
    StoreIntact(nvm) ==> StoredLengthValid(nvm, NVM_MAX_APP_MEMORY_WORDS)
  }

  /** The GAP service's part of readPersistentStore, and the offset after it. */
  function GapStore(s: Sys): (Sys, nat)
    requires StoreReadable(s.fw.nvm)
  {
    if StoreIntact(s.fw.nvm) then
      var r := ReadBondingRecord(s);
      var (g, off) := GapReadDataFromNvm(r.gap, r.fw, NVM_MAX_APP_MEMORY_WORDS);
      (r.(gap := g), off)
    else
      var r := InitBondingRecord(s);
      var (g, f, off) := GapInitWriteDataToNvm(r.gap, r.fw, NVM_MAX_APP_MEMORY_WORDS);
      (r.(gap := g, fw := f), off)
  }

  /** The two services that keep a configuration only for a bonded host. */
  function ServicesReadStore(s: Sys, offset: nat): Sys
  {
    var (t, off) := HealthThermoReadDataFromNvm(s.thermo, s.fw, s.ht.bonded, offset);
    var (b, _) := BatteryReadDataFromNvm(s.batt, s.fw, s.ht.bonded, off);
    s.(thermo := t, batt := b)
  }

  /** readPersistentStore */
  function ReadPersistentStore(s: Sys): Sys
    requires StoreReadable(s.fw.nvm)
  {
    var (s1, off) := GapStore(s);
    ServicesReadStore(s1, off)
  }

  // ---- AppInit --------------------------------------------------------------------

  /** The part of AppInit before readPersistentStore: the timers are forgotten,
      the battery level is reset and the GAP data is initialised. */
  function InitBeforeStore(s: Sys): Sys
  {
    s.(fw := s.fw.(armed := map[]), batt := BatteryInitChipReset(s.batt), gap := GapDataInit(s.gap))
  }

  /** The part of AppInit after readPersistentStore. */
  function InitAfterStore(s: Sys): Sys
  {
    var s1 := HtDataInit(Requested(s, SmInit(s.ht.diversifier)));
    s1.(ht := s1.ht.(state := AppStateInit), fw := WithRequest(s1.fw, GattAddDatabaseReq))
  }

  /** AppInit */
  function AppInit(s: Sys): Sys
    requires StoreReadable(s.fw.nvm)
  {
    InitAfterStore(ReadPersistentStore(InitBeforeStore(s)))
  }

  // ---- timer handlers -------------------------------------------------------------

  /** The parameters asked for on the n-th request since the count was reset. */
  function ProfileFor(n: nat): ConnParams
  {
    if n <= CPU_SELF_PARAMS_MAX_ATTEMPTS then PREFERRED_PARAMS else APPLE_PARAMS
  }

  /** The part of requestConnParamUpdate once the timer is known to be current. */
  function SendConnParamUpdate(s: Sys): Sys
  {
    var n := (s.ht.numConnUpdateReq + 1) % 0x100;
    s.(ht := s.ht.(numConnUpdateReq := n), fw := WithRequest(s.fw, ConnParamUpdateReq(s.ht.conBdAddr, ProfileFor(n))))
  }

  /** requestConnParamUpdate */
  function RequestConnParamUpdate(s: Sys, tid: TimerId): Sys
  {
    if s.ht.cpuTid != tid then s
    else
      var s1 := s.(ht := s.ht.(cpuTid := TimerInvalid, cpuTimerValue := 0));
      if s1.ht.state == Connected then SendConnParamUpdate(s1) else s1
  }

  /** htTempMeasTimerHandler */
  function HtTempMeasTimerHandler(s: Sys, tid: TimerId): Sys
  {
    if s.ht.appTid != tid then s
    else
      var s1 := s.(ht := s.ht.(appTid := TimerInvalid));
      if s1.ht.state == Connected then
        s1.(ht := s1.ht.(appTid := NewTimer(s1.fw)), fw := WithTimer(s1.fw, HT_TEMP_MEAS_TIME, TempMeasTimerCb))
      else s1
  }

  /** handleGapCppTimerExpiry */
  function HandleGapCppTimerExpiry(s: Sys, tid: TimerId): Sys
  {
    if s.ht.cpuTid != tid then s
    else
      s.(ht := s.ht.(cpuTid := NewTimer(s.fw), cpuTimerValue := TGAP_CPC_PERIOD),
         fw := WithTimer(s.fw, TGAP_CPC_PERIOD, RequestConnParamUpdateCb))
  }

  /** handleBondingChanceTimerExpiry */
  function HandleBondingChanceTimerExpiry(s: Sys, env: Env, tid: TimerId): Sys
  {
    if s.ht.bondingTid != tid then s
    else AppSetState(s.(ht := s.ht.(bondingTid := TimerInvalid)), env, Disconnecting)
  }

  /** The first part of HandleExtraLongButtonPress: three beeps, and the bond
      is forgotten here and in the store. */
  function ForgetBond(s: Sys): Sys
  {
    var s1 := SysSoundBuzzer(s.(hw := s.hw.(buttonTid := TimerInvalid)), BeepThrice);
    s1.(ht := s1.ht.(bonded := false), fw := WithNvmWords(s1.fw, NVM_OFFSET_BONDED_FLAG, [0]))
  }

  /** After forgetting the bond while connected: drop the link, clear the white list. */
  function BondRemovalDropLink(s: Sys, env: Env): Sys
  {
    Requested(AppSetState(AppAdvertisingExit(s), env, Disconnecting), ResetWhiteList)
  }

  /** After forgetting the bond while advertising: stop the adverts and
      remember the press for the cancel confirmation. */
  function BondRemovalStopAdverts(s: Sys): Sys
  {
    var s1 := HtDataInit(s);
    s1.(ht := s1.ht.(pairingButtonPressed := true), fw := GattStopAdverts(s1.fw))
  }

  /** After forgetting the bond when idle or initialising: clear the white
      list and advertise fast. */
  function BondRemovalRestart(s: Sys, env: Env): Sys
  {
    AppSetState(Requested(HtDataInit(s), ResetWhiteList), env, FastAdvertising)
  }

  /** What HandleExtraLongButtonPress does after forgetting the bond, by state. */
  function AfterBondRemoval(s: Sys, env: Env): Sys
  {
    match s.ht.state
    case Connected => BondRemovalDropLink(s, env)
    case FastAdvertising | SlowAdvertising => BondRemovalStopAdverts(s)
    case Disconnecting => Requested(s, ResetWhiteList)
    case AppStateInit | Idle => BondRemovalRestart(s, env)
  }

  /** HandleExtraLongButtonPress */
  function HandleExtraLongButtonPress(s: Sys, env: Env, tid: TimerId): Sys
  {
    if s.hw.buttonTid != tid then s else AfterBondRemoval(ForgetBond(s), env)
  }

  /** The timer callback registered as `cb`, called with the expired handle. */
  function OnTimer(s: Sys, env: Env, cb: Callback, tid: TimerId): Sys
  {
    match cb
    case RequestConnParamUpdateCb => RequestConnParamUpdate(s, tid)
    case GapCppTimerExpiryCb => HandleGapCppTimerExpiry(s, tid)
    case TempMeasTimerCb => HtTempMeasTimerHandler(s, tid)
    case BondingChanceTimerCb => HandleBondingChanceTimerExpiry(s, env, tid)
    case AdvertTimerCb => GattAdvertTimerHandler(s, tid)
    case BuzzerTimerCb =>
      var (hw, f) := HwBuzzerTimerHandler(s.hw, s.fw);
      s.(hw := hw, fw := f)
    case ExtraLongButtonPressCb => HandleExtraLongButtonPress(s, env, tid)
  }

  /** A timer expires: the firmware forgets it and calls its callback. */
  function TimerExpired(s: Sys, env: Env, n: nat): Sys
  {
    if n !in s.fw.armed then s
    else OnTimer(s.(fw := WithoutTimer(s.fw, Timer(n))), env, s.fw.armed[n].cb, Timer(n))
  }

  // ---- firmware event handlers -----------------------------------------------------

  /** handleSignalGattAddDbCfm */
  function HandleSignalGattAddDbCfm(s: Sys, env: Env, dbOk: bool): Sys
  {
    if s.ht.state != AppStateInit then Panicked(s, PanicInvalidState)
    else if dbOk then AppSetState(s, env, FastAdvertising)
    else Panicked(s, PanicDbRegistration)
  }

  /** The adverts stopped for a bond removal: the white list is cleared and
      fast advertising starts again. */
  function ReadvertiseAfterBondRemoval(s: Sys, env: Env): Sys
  {
    var s1 := Requested(s.(ht := s.ht.(pairingButtonPressed := false)), ResetWhiteList);
    if s1.ht.state == FastAdvertising then GattStartAdverts(s1, env, true) else AppSetState(s1, env, FastAdvertising)
  }

  /** handleSignalGattCancelConnectCfm */
  function HandleSignalGattCancelConnectCfm(s: Sys, env: Env): Sys
  {
    if s.ht.state != FastAdvertising && s.ht.state != SlowAdvertising then Panicked(s, PanicInvalidState)
    else if s.ht.pairingButtonPressed then ReadvertiseAfterBondRemoval(s, env)
    else if s.ht.state == FastAdvertising then AppSetState(s, env, SlowAdvertising)
    else AppSetState(s, env, Idle)
  }

  /** handleSignalLmEvConnectionComplete and handleSignalLmConnectionUpdate:
      the connection parameters in use. */
  function StoreConnParams(s: Sys, interval: Word, latency: Word, timeout: Word): Sys
  {
    s.(ht := s.ht.(connInterval := interval, connLatency := latency, connTimeout := timeout))
  }

  /** The connected host used a resolvable address that the stored key does not resolve. */
  predicate UnknownResolvableHost(ht: HtState, env: Env, peer: TypedBdAddr)
  {
    ht.bonded && GattIsAddressResolvableRandom(ht.bondedBdAddr) && !env.privacyMatch(peer, ht.irk)
  }

  /** The end of a successful connect: Connected, then the 5 s pause before
      negotiating when the parameters are not the preferred ones. */
  function EnterConnected(s: Sys, env: Env): Sys
  {
    var s1 := AppSetState(s, env, Connected);
    if s1.ht.cpuTid == TimerInvalid && ParamsOutOfRange(s1.ht) then
      ArmCpuTimer(s1.(ht := s1.ht.(numConnUpdateReq := 0)), TGAP_CPP_PERIOD, GapCppTimerExpiryCb)
    else s1
  }

  /** handleSignalGattConnectCfm */
  function HandleSignalGattConnectCfm(s: Sys, env: Env, connected: bool, cid: Word, peer: TypedBdAddr): Sys
  {
    if s.ht.state != FastAdvertising && s.ht.state != SlowAdvertising then Panicked(s, PanicInvalidState)
    else if connected then
      var s1 := s.(ht := s.ht.(stUcid := cid, conBdAddr := peer));
      if UnknownResolvableHost(s1.ht, env, peer) then AppSetState(s1, env, Disconnecting)
      else EnterConnected(s1, env)
    else if s.ht.state == SlowAdvertising then AppSetState(s, env, FastAdvertising)
    else GattStartAdverts(s, env, true)
  }

  /** handleSignalSmKeysInd */
  function HandleSignalSmKeysInd(s: Sys, hasDiv: bool, div: Word, hasId: bool, keyIrk: Irk): Sys
  {
    if s.ht.state != Connected then Panicked(s, PanicInvalidState)
    else
      var s1 := if hasDiv then s.(ht := s.ht.(diversifier := div), fw := WithNvmWords(s.fw, NVM_OFFSET_SM_DIV, [div])) else s;
      if GattIsAddressResolvableRandom(s1.ht.conBdAddr) && hasId then
        s1.(ht := s1.ht.(irk := keyIrk), fw := WithNvmWords(s1.fw, NVM_OFFSET_SM_IRK, keyIrk))
      else s1
  }

  /** handleSignalSmPairingAuthInd */
  function HandleSignalSmPairingAuthInd(s: Sys): Sys
  {
    if s.ht.state != Connected then Panicked(s, PanicInvalidState)
    else Requested(s, SmPairingAuthRsp(!s.ht.bonded))
  }

  /** A successful pairing: the bond is recorded and persisted, a host with a
      fixed address goes on the white list, and the services persist their
      configuration. */
  function RecordBond(s: Sys, peer: TypedBdAddr): Sys
  {
    SysBondingNotify(WriteBond(s, peer))
  }

  /** The application's own part of recording a bond, before the services. */
  function WriteBond(s: Sys, peer: TypedBdAddr): Sys
  {
    var f1 := WithNvmWords(s.fw, NVM_OFFSET_BONDED_FLAG, [1]);
    var s1 := s.(ht := s.ht.(bonded := true, bondedBdAddr := peer), fw := WithNvmWords(f1, NVM_OFFSET_BONDED_ADDR, AddrWords(peer)));
    if !GattIsAddressResolvableRandom(peer) then Requested(s1, AddWhiteListDevice(peer)) else s1
  }

  /** handleSignalSmSimplePairingCompleteInd */
  function HandleSignalSmSimplePairingCompleteInd(s: Sys, env: Env, status: PairingStatus, peer: TypedBdAddr): Sys
  {
    if s.ht.state != Connected then s
    else if status == PairingSuccess then RecordBond(s, peer)
    else if status == PairingRepeatedAttempts then AppSetState(s, env, Disconnecting)
    else if s.ht.bonded then
      s.(ht := s.ht.(encryptEnabled := false, bondingTid := NewTimer(s.fw)),
         fw := WithTimer(s.fw, BONDING_CHANCE_TIMER, BondingChanceTimerCb))
    else s
  }

  /** The link became encrypted: the bonding chance timer stops, the battery
      level is sent and the measurement timer starts. */
  function EncryptionOn(s: Sys, env: Env): Sys
  {
    var s1 := s.(ht := s.ht.(bondingTid := TimerInvalid), fw := WithoutTimer(s.fw, s.ht.bondingTid));
    HtTempMeasTimerHandler(SysBatteryUpdateLevel(s1, env), TimerInvalid)
  }

  /** handleSignalLMEncryptionChange */
  function HandleSignalLmEncryptionChange(s: Sys, env: Env, changeOk: bool, encEnable: bool): Sys
  {
    if s.ht.state != Connected then Panicked(s, PanicInvalidState)
    else if !changeOk then s
    else
      var s1 := s.(ht := s.ht.(encryptEnabled := encEnable));
      if encEnable then EncryptionOn(s1, env) else s1
  }

  /** handleSignalSmDivApproveInd */
  function HandleSignalSmDivApproveInd(s: Sys, cid: Word, div: Word): Sys
  {
    if s.ht.state != Connected then Panicked(s, PanicInvalidState)
    else Requested(s, SmDivApproval(cid, s.ht.bonded && s.ht.diversifier == div))
  }

  /** handleSignalLsConnParamUpdateCfm */
  function HandleSignalLsConnParamUpdateCfm(s: Sys, updateOk: bool): Sys
  {
    if s.ht.state != Connected then Panicked(s, PanicInvalidState)
    else if !updateOk && s.ht.numConnUpdateReq < MAX_NUM_CONN_PARAM_UPDATE_REQS then
      ArmCpuTimer(s, GAP_CONN_PARAM_TIMEOUT, RequestConnParamUpdateCb)
    else s
  }

  /** handleSignalLmConnectionUpdate */
  function HandleSignalLmConnectionUpdate(s: Sys, interval: Word, latency: Word, timeout: Word): Sys
  {
    if s.ht.state != Connected && s.ht.state != Disconnecting then Panicked(s, PanicInvalidState)
    else StoreConnParams(s, interval, latency, timeout)
  }

  /** handleSignalLsConnParamUpdateInd */
  function HandleSignalLsConnParamUpdateInd(s: Sys): Sys
  {
    if s.ht.state != Connected then Panicked(s, PanicInvalidState)
    else
      var s1 := s.(ht := s.ht.(cpuTid := TimerInvalid, cpuTimerValue := 0), fw := WithoutTimer(s.fw, s.ht.cpuTid));
      if ParamsOutOfRange(s1.ht) then
        ArmCpuTimer(s1.(ht := s1.ht.(numConnUpdateReq := 0)), GAP_CONN_PARAM_TIMEOUT, RequestConnParamUpdateCb)
      else s1
  }

  /** The central is still busy: the 1 s pause starts again. */
  function RestartCpcPause(s: Sys): Sys
  {
    if s.ht.cpuTimerValue == TGAP_CPC_PERIOD && s.ht.cpuTid != TimerInvalid then
      ArmCpuTimer(s, TGAP_CPC_PERIOD, RequestConnParamUpdateCb)
    else s
  }

  /** A write was handled: with the link encrypted a reading is sent at once
      by restarting the measurement timer. */
  function AfterAccessWrite(s: Sys): Sys
  {
    if s.ht.encryptEnabled then HtTempMeasTimerHandler(AppAdvertisingExit(s), TimerInvalid) else s
  }

  /** What a write of `value` to `handle` demands: a configuration descriptor
      is written with at least two bytes. */
  predicate AccessAllowed(env: Env, e: LmEvent)
  {
    e.GattAccessInd? && e.kind == WriteAccess ==> CccdWriteSized(env.handles, e.handle, e.value)
  }

  /** handleSignalGattAccessInd */
  function HandleSignalGattAccessInd(s: Sys, env: Env, cid: Word, handle: Word, kind: AccessKind, offset: Word, value: seq<Byte>): Sys
    requires kind == WriteAccess ==> CccdWriteSized(env.handles, handle, value)
  {
    if s.ht.state != Connected then Panicked(s, PanicInvalidState)
    else
      var s1 := RestartCpcPause(s);
      if kind == WriteAccess then AfterAccessWrite(HtGatt.HandleAccessWrite(s1, env, cid, handle, value))
      else if kind == ReadAccess then HtGatt.HandleAccessRead(s1, env, cid, handle, offset)
      else Requested(s1, AccessRsp(cid, handle, RequestNotSupported, 0, []))
  }

  /** The state to move to once the link is gone. */
  function DisconnectTarget(ht: HtState, env: Env, reason: DisconnectReason): AppState
  {
    if reason == ConnTimeout then FastAdvertising
    else if reason == ConnTermLocalHost then
      if ht.state == Connected then FastAdvertising
      else if ht.bonded then
        if UnknownResolvableHost(ht, env, ht.conBdAddr) then FastAdvertising else Idle
      else FastAdvertising
    else if !ht.bonded then FastAdvertising
    else Idle
  }

  /** The first part of handleSignalLmDisconnectComplete, in every state. */
  function ForgetLink(s: Sys): Sys
  {
    s.(ht := s.ht.(bondingTid := TimerInvalid, connInterval := 0, connLatency := 0, connTimeout := 0),
       fw := WithoutTimer(s.fw, s.ht.bondingTid))
  }

  /** handleSignalLmDisconnectComplete */
  function HandleSignalLmDisconnectComplete(s: Sys, env: Env, reason: DisconnectReason): Sys
  {
    var s1 := ForgetLink(s);
    if s1.ht.state != Connected && s1.ht.state != Disconnecting then Panicked(s1, PanicInvalidState)
    else
      var s2 := if s1.ht.state == Connected then HtDataInit(s1) else s1;
      AppSetState(s2, env, DisconnectTarget(s2.ht, env, reason))
  }

  /** AppProcessLmEvent */
  function AppProcessLmEvent(s: Sys, env: Env, e: LmEvent): Sys
    requires AccessAllowed(env, e)
  {
    match e
    case GattAddDbCfm(ok) => HandleSignalGattAddDbCfm(s, env, ok)
    case GattCancelConnectCfm => HandleSignalGattCancelConnectCfm(s, env)
    case LmConnectionComplete(i, l, t) => StoreConnParams(s, i, l, t)
    case GattConnectCfm(ok, cid, peer) => HandleSignalGattConnectCfm(s, env, ok, cid, peer)
    case SmKeysInd(hasDiv, div, hasId, irk) => HandleSignalSmKeysInd(s, hasDiv, div, hasId, irk)
    case SmPairingAuthInd => HandleSignalSmPairingAuthInd(s)
    case SmSimplePairingCompleteInd(status, peer) => HandleSignalSmSimplePairingCompleteInd(s, env, status, peer)
    case LmEncryptionChange(ok, enc) => HandleSignalLmEncryptionChange(s, env, ok, enc)
    case SmDivApproveInd(cid, div) => HandleSignalSmDivApproveInd(s, cid, div)
    case LsConnParamUpdateCfm(ok) => HandleSignalLsConnParamUpdateCfm(s, ok)
    case LmConnectionUpdate(i, l, t) => HandleSignalLmConnectionUpdate(s, i, l, t)
    case LsConnParamUpdateInd => HandleSignalLsConnParamUpdateInd(s)
    case GattAccessInd(cid, handle, kind, offset, value) => HandleSignalGattAccessInd(s, env, cid, handle, kind, offset, value)
    case GattDisconnectInd => s
    case GattDisconnectCfm => s
    case LmDisconnectComplete(reason) => HandleSignalLmDisconnectComplete(s, env, reason)
    case OtherLmEvent => s
  }

  /** HandleShortButtonPress: the record is sent on the current connection. */
  function HandleShortButtonPress(s: Sys, env: Env, val: seq<Byte>): Sys
    requires |val| >= MAX_TEMP_MEAS_SIZE
  {
    var (t, f, _, _) := HealthThermoSendTempReading(s.thermo, s.fw, env.handles, s.ht.stUcid, val);
    s.(thermo := t, fw := f)
  }

  /** HandlePIOChangedEvent, which ends by sending the record it built. The
      first byte is left to the sender, which overwrites it. */
  function PioChangedEvent(s: Sys, env: Env, cause: bv32, level: bv32): Sys
  {
    var (hw, f, out) := HwPioChanged(s.hw, s.fw, cause, level);
    HandleShortButtonPress(s.(hw := hw, fw := f), env, [0] + out)
  }

  /** AppProcessSystemEvent */
  function AppProcessSystemEvent(s: Sys, env: Env, e: SysEvent): Sys
  {
    match e
    case BatteryLow => if s.ht.state == Connected then SysBatteryUpdateLevel(s, env) else s
    case PioChanged(cause, level) => PioChangedEvent(s, env, cause, level)
    case OtherSysEvent => s
  }

  /** The firmware delivers one event; after a panic nothing runs. */
  function Step(s: Sys, env: Env, e: Event): Sys
    requires e.Lm? ==> AccessAllowed(env, e.lm)
  {
    if s.fw.halted.Some? then s
    else
      match e
      case Lm(ev) => AppProcessLmEvent(s, env, ev)
      case System(ev) => AppProcessSystemEvent(s, env, ev)
      case TimerExpiry(n) => TimerExpired(s, env, n)
  }

  // ---- the operations on the device objects ------------------------------------------
  //
  // Each method runs one routine of the application on the device's objects
  // and ends in the state the function of the same routine describes.

  /** SoundBuzzer */
  method Beep(app: App, t: BeepType)
    requires app.Valid()
    modifies app.hw, app.fw
    ensures app.Valid() && app.State() == SysSoundBuzzer(old(app.State()), t)
  {
    app.hw.SoundBuzzer(t);
  }

  /** BatteryUpdateLevel on the current connection. */
  method SendBatteryLevel(app: App, env: Env)
    requires app.Valid() && env.handles == app.handles
    modifies app.batt, app.fw
    ensures app.Valid() && app.State() == SysBatteryUpdateLevel(old(app.State()), env)
  {
    app.batt.UpdateLevel(app.ht.stUcid);
  }

  /** HealthThermoBondingNotify and BatteryBondingNotify. */
  method NotifyBonding(app: App)
    requires app.Valid()
    modifies app.fw
    ensures app.Valid() && app.State() == SysBondingNotify(old(app.State()))
  {
    app.thermo.BondingNotify(app.ht.bonded);
    app.batt.BondingNotify(app.ht.bonded);
  }

  /** Replaces the parameter update timer with one `duration` long. */
  method StartCpuTimer(app: App, duration: nat, cb: Callback)
    requires app.Valid()
    modifies app, app.fw
    ensures app.Valid() && app.State() == ArmCpuTimer(old(app.State()), duration, cb)
  {
    app.fw.TimerDelete(app.ht.cpuTid);
    var t := app.fw.TimerCreate(duration, cb);
    app.ht := app.ht.(cpuTid := t, cpuTimerValue := duration);
  }

  method ClearConnection(app: App)
    requires app.Valid()
    modifies app, app.fw
    ensures app.Valid() && app.State() == ClearConnectionRecord(old(app.State()))
  {
    app.fw.TimerDelete(app.ht.appTid);
    app.ht := app.ht.(appTid := TimerInvalid);
    app.fw.TimerDelete(app.ht.cpuTid);
    app.ht := app.ht.(cpuTid := TimerInvalid, cpuTimerValue := 0);
    app.fw.TimerDelete(app.ht.bondingTid);
    app.ht := app.ht.(bondingTid := TimerInvalid);
    app.ht := app.ht.(stUcid := GATT_INVALID_UCID, encryptEnabled := false,
                      connInterval := 0, connLatency := 0, connTimeout := 0);
  }

  method InitServicesData(app: App)
    requires app.Valid()
    modifies app.hw, app.gap, app.batt, app.thermo, app.fw
    ensures app.Valid() && app.State() == ServicesDataInit(old(app.State()))
  {
    app.hw.DataInit();
    app.gap.DataInit();
    app.batt.DataInit(app.ht.bonded);
    app.thermo.DataInit(app.ht.bonded);
  }

  /** htDataInit */
  method DataInit(app: App)
    requires app.Valid()
    modifies app, app.hw, app.gap, app.batt, app.thermo, app.fw
    ensures app.Valid() && app.State() == HtDataInit(old(app.State()))
  {
    ClearConnection(app);
    InitServicesData(app);
  }

  /** appInitExit */
  method InitExit(app: App)
    requires app.Valid()
    modifies app.fw
    ensures app.Valid() && app.State() == AppInitExit(old(app.State()))
  {
    if app.ht.bonded && !GattIsAddressResolvableRandom(app.ht.bondedBdAddr) {
      app.fw.Issue(AddWhiteListDevice(app.ht.bondedBdAddr));
    }
  }

  /** appAdvertisingExit */
  method AdvertisingExit(app: App)
    requires app.Valid()
    modifies app, app.fw
    ensures app.Valid() && app.State() == AppAdvertisingExit(old(app.State()))
  {
    app.fw.TimerDelete(app.ht.appTid);
    app.ht := app.ht.(appTid := TimerInvalid);
  }

  /** The exit half of AppSetState. */
  method Exit(app: App)
    requires app.Valid()
    modifies app, app.hw, app.gap, app.batt, app.thermo, app.fw
    ensures app.Valid() && app.State() == ExitState(old(app.State()))
  {
    if app.ht.state == AppStateInit {
      InitExit(app);
    } else if app.ht.state == Disconnecting {
      DataInit(app);
    } else if app.ht.state == FastAdvertising || app.ht.state == SlowAdvertising {
      AdvertisingExit(app);
    }
  }

  /** The entry half of AppSetState. */
  method Enter(app: App, env: Env)
    requires app.Valid()
    modifies app, app.hw, app.gap.devName, app.fw
    ensures app.Valid() && app.State() == EnterState(old(app.State()), env)
  {
    if app.ht.state == FastAdvertising {
      StartAdverts(app, env, true);
      Beep(app, BeepTwice);
    } else if app.ht.state == SlowAdvertising {
      StartAdverts(app, env, false);
    } else if app.ht.state == Idle {
      Beep(app, BeepLong);
    } else if app.ht.state == Connected {
      if !GattIsAddressResolvableRandom(app.ht.conBdAddr) {
        app.fw.Issue(SmRequestSecurityLevel(app.ht.conBdAddr));
      }
    } else if app.ht.state == Disconnecting {
      app.fw.Issue(GattDisconnectReq(app.ht.stUcid));
    }
  }

  /** AppSetState */
  method SetState(app: App, env: Env, newState: AppState)
    requires app.Valid()
    modifies app.Repr()
    ensures app.Valid() && app.State() == AppSetState(old(app.State()), env, newState)
  {
    if app.ht.state != newState {
      Exit(app);
      app.ht := app.ht.(state := newState);
      Enter(app, env);
    }
  }

  /** The bonding record of an intact store. */
  method LoadBondingRecord(app: App)
    requires app.Valid()
    modifies app
    ensures app.Valid() && app.State() == ReadBondingRecord(old(app.State()))
  {
    var m := app.fw.nvm;
    var flag := app.fw.NvmRead(NVM_OFFSET_BONDED_FLAG, 1);
    var ht := app.ht.(bonded := flag[0] != 0);
    if ht.bonded {
      var ws := app.fw.NvmRead(NVM_OFFSET_BONDED_ADDR, TYPED_BD_ADDR_WORDS);
      assert ws == NvmWords(m, NVM_OFFSET_BONDED_ADDR, TYPED_BD_ADDR_WORDS);
      ht := ht.(bondedBdAddr := WordsAddr(ws));
      if GattIsAddressResolvableRandom(ht.bondedBdAddr) {
        var irk := app.fw.NvmRead(NVM_OFFSET_SM_IRK, MAX_WORDS_IRK);
        assert irk == NvmWords(m, NVM_OFFSET_SM_IRK, MAX_WORDS_IRK);
        ht := ht.(irk := irk);
      }
    }
    var div := app.fw.NvmRead(NVM_OFFSET_SM_DIV, 1);
    ht := ht.(diversifier := div[0]);
    assert ht == ReadBondingRecord(old(app.State())).ht;
    app.ht := ht;
  }

  /** The bonding record of a store this application did not write. */
  method WriteFreshBondingRecord(app: App)
    requires app.Valid()
    modifies app, app.fw
    ensures app.Valid() && app.State() == InitBondingRecord(old(app.State()))
  {
    app.fw.NvmWrite(NVM_OFFSET_SANITY_WORD, [NVM_SANITY_MAGIC]);
    app.ht := app.ht.(bonded := false);
    app.fw.NvmWrite(NVM_OFFSET_BONDED_FLAG, [0]);
    app.ht := app.ht.(diversifier := 0);
    app.fw.NvmWrite(NVM_OFFSET_SM_DIV, [0]);
  }

  /** The intact branch of readPersistentStore, up to the GAP service. */
  method LoadIntactStore(app: App) returns (offset: nat)
    requires app.Valid() && StoreIntact(app.fw.nvm) && StoredLengthValid(app.fw.nvm, NVM_MAX_APP_MEMORY_WORDS)
    modifies app, app.gap, app.gap.devName
    ensures app.Valid() && (app.State(), offset) == GapStore(old(app.State()))
  {
    LoadBondingRecord(app);
    offset := app.gap.ReadDataFromNvm(NVM_MAX_APP_MEMORY_WORDS);
  }

  /** The other branch: the store is written afresh, up to the GAP service. */
  method InitFreshStore(app: App) returns (offset: nat)
    requires app.Valid() && !StoreIntact(app.fw.nvm)
    modifies app, app.gap, app.gap.devName, app.fw
    ensures app.Valid() && (app.State(), offset) == GapStore(old(app.State()))
  {
    WriteFreshBondingRecord(app);
    offset := app.gap.InitWriteDataToNvm(NVM_MAX_APP_MEMORY_WORDS);
  }

  /** The bonding record and the GAP service's words, and the offset after them. */
  method LoadGapStore(app: App) returns (offset: nat)
    requires app.Valid() && StoreReadable(app.fw.nvm)
    modifies app, app.gap, app.gap.devName, app.fw
    ensures app.Valid() && (app.State(), offset) == GapStore(old(app.State()))
  {
    var sanity := app.fw.NvmRead(NVM_OFFSET_SANITY_WORD, 1);
    if sanity[0] == NVM_SANITY_MAGIC {
      offset := LoadIntactStore(app);
    } else {
      offset := InitFreshStore(app);
    }
  }

  /** The thermometer's and the battery's part of readPersistentStore. */
  method LoadServicesStore(app: App, offset: nat)
    requires app.Valid()
    modifies app.batt, app.thermo
    ensures app.Valid() && app.State() == ServicesReadStore(old(app.State()), offset)
  {
    var next := app.thermo.ReadDataFromNvm(app.ht.bonded, offset);
    next := app.batt.ReadDataFromNvm(app.ht.bonded, next);
  }

  /** readPersistentStore */
  method LoadPersistentStore(app: App)
    requires app.Valid() && StoreReadable(app.fw.nvm)
    modifies app, app.gap, app.gap.devName, app.batt, app.thermo, app.fw
    ensures app.Valid() && app.State() == ReadPersistentStore(old(app.State()))
  {
    var offset := LoadGapStore(app);
    LoadServicesStore(app, offset);
  }

  /** The start of AppInit: the timer table, the battery level and the GAP data. */
  method PrepareInit(app: App)
    requires app.Valid()
    modifies app.gap, app.batt, app.fw
    ensures app.Valid() && app.State() == InitBeforeStore(old(app.State()))
  {
    app.fw.TimerInit();
    app.batt.InitChipReset();
    app.gap.DataInit();
  }

  /** The end of AppInit: the security manager, htDataInit, the init state
      and the database. */
  method FinishInit(app: App)
    requires app.Valid()
    modifies app, app.hw, app.gap, app.batt, app.thermo, app.fw
    ensures app.Valid() && app.State() == InitAfterStore(old(app.State()))
  {
    app.fw.Issue(SmInit(app.ht.diversifier));
    DataInit(app);
    RegisterDatabase(app);
  }

  /** The last steps of AppInit: the init state, and the request to add the
      attribute database. */
  method RegisterDatabase(app: App)
    requires app.Valid()
    modifies app, app.fw
    ensures app.Valid()
    ensures app.State() == old(app.State()).(ht := old(app.ht).(state := AppStateInit),
                                             fw := WithRequest(old(app.fw.State()), GattAddDatabaseReq))
  {
    app.fw.Issue(GattAddDatabaseReq);
    app.ht := app.ht.(state := AppStateInit);
  }

  /** AppInit; the SDK set-up calls have no state of their own here. */
  method Init(app: App)
    requires app.Valid() && StoreReadable(app.fw.nvm)
    modifies app.Repr()
    ensures app.Valid() && app.State() == AppInit(old(app.State()))
  {
    PrepareInit(app);
    LoadPersistentStore(app);
    FinishInit(app);
  }

  /** The request requestConnParamUpdate sends while connected. */
  method SendParamUpdate(app: App)
    requires app.Valid()
    modifies app, app.fw
    ensures app.Valid() && app.State() == SendConnParamUpdate(old(app.State()))
  {
    var n := (app.ht.numConnUpdateReq + 1) % 0x100;
    var params := if n <= CPU_SELF_PARAMS_MAX_ATTEMPTS then PREFERRED_PARAMS else APPLE_PARAMS;
    ghost var s0 := app.State();
    app.fw.Issue(ConnParamUpdateReq(app.ht.conBdAddr, params));
    assert app.State() == s0.(fw := WithRequest(s0.fw, ConnParamUpdateReq(s0.ht.conBdAddr, ProfileFor(n))));
    app.ht := app.ht.(numConnUpdateReq := n);
  }

  /** requestConnParamUpdate */
  method OnConnParamUpdateTimer(app: App, tid: TimerId)
    requires app.Valid()
    modifies app, app.fw
    ensures app.Valid() && app.State() == RequestConnParamUpdate(old(app.State()), tid)
  {
    if app.ht.cpuTid == tid {
      app.ht := app.ht.(cpuTid := TimerInvalid, cpuTimerValue := 0);
      if app.ht.state == Connected {
        SendParamUpdate(app);
      }
    }
  }

  /** htTempMeasTimerHandler */
  method OnTempMeasTimer(app: App, tid: TimerId)
    requires app.Valid()
    modifies app, app.fw
    ensures app.Valid() && app.State() == HtTempMeasTimerHandler(old(app.State()), tid)
  {
    if tid == app.ht.appTid {
      app.ht := app.ht.(appTid := TimerInvalid);
      if app.ht.state == Connected {
        var t := app.fw.TimerCreate(HT_TEMP_MEAS_TIME, TempMeasTimerCb);
        app.ht := app.ht.(appTid := t);
      }
    }
  }

  /** handleGapCppTimerExpiry */
  method OnCppTimer(app: App, tid: TimerId)
    requires app.Valid()
    modifies app, app.fw
    ensures app.Valid() && app.State() == HandleGapCppTimerExpiry(old(app.State()), tid)
  {
    if app.ht.cpuTid == tid {
      var t := app.fw.TimerCreate(TGAP_CPC_PERIOD, RequestConnParamUpdateCb);
      app.ht := app.ht.(cpuTid := t, cpuTimerValue := TGAP_CPC_PERIOD);
    }
  }

  /** handleBondingChanceTimerExpiry */
  method OnBondingChanceTimer(app: App, env: Env, tid: TimerId)
    requires app.Valid()
    modifies app.Repr()
    ensures app.Valid() && app.State() == HandleBondingChanceTimerExpiry(old(app.State()), env, tid)
  {
    if app.ht.bondingTid == tid {
      app.ht := app.ht.(bondingTid := TimerInvalid);
      SetState(app, env, Disconnecting);
    }
  }

  /** The first part of HandleExtraLongButtonPress. */
  method ForgetBondOnPress(app: App)
    requires app.Valid()
    modifies app, app.hw, app.fw
    ensures app.Valid() && app.State() == ForgetBond(old(app.State()))
  {
    app.hw.buttonTid := TimerInvalid;
    Beep(app, BeepThrice);
    app.ht := app.ht.(bonded := false);
    app.fw.NvmWrite(NVM_OFFSET_BONDED_FLAG, [0]);
  }

  method DropLinkForBondRemoval(app: App, env: Env)
    requires app.Valid()
    modifies app.Repr()
    ensures app.Valid() && app.State() == BondRemovalDropLink(old(app.State()), env)
  {
    AdvertisingExit(app);
    SetState(app, env, Disconnecting);
    app.fw.Issue(ResetWhiteList);
  }

  method StopAdvertsForBondRemoval(app: App)
    requires app.Valid()
    modifies app, app.hw, app.gap, app.batt, app.thermo, app.fw
    ensures app.Valid() && app.State() == BondRemovalStopAdverts(old(app.State()))
  {
    DataInit(app);
    app.ht := app.ht.(pairingButtonPressed := true);
    StopAdverts(app);
  }

  method RestartForBondRemoval(app: App, env: Env)
    requires app.Valid()
    modifies app.Repr()
    ensures app.Valid() && app.State() == BondRemovalRestart(old(app.State()), env)
  {
    DataInit(app);
    app.fw.Issue(ResetWhiteList);
    SetState(app, env, FastAdvertising);
  }

  /** The rest of HandleExtraLongButtonPress, by state. */
  method RemoveBondByState(app: App, env: Env)
    requires app.Valid()
    modifies app.Repr()
    ensures app.Valid() && app.State() == AfterBondRemoval(old(app.State()), env)
  {
    match app.ht.state
    case Connected => DropLinkForBondRemoval(app, env);
    case FastAdvertising | SlowAdvertising => StopAdvertsForBondRemoval(app);
    case Disconnecting => app.fw.Issue(ResetWhiteList);
    case AppStateInit | Idle => RestartForBondRemoval(app, env);
  }

  /** HandleExtraLongButtonPress */
  method OnExtraLongPress(app: App, env: Env, tid: TimerId)
    requires app.Valid()
    modifies app.Repr()
    ensures app.Valid() && app.State() == HandleExtraLongButtonPress(old(app.State()), env, tid)
  {
    if tid == app.hw.buttonTid {
      ForgetBondOnPress(app);
      RemoveBondByState(app, env);
    }
  }

  /** The callback a timer was created with, called with its handle. */
  method RunTimerCallback(app: App, env: Env, cb: Callback, tid: TimerId)
    requires app.Valid()
    modifies app.Repr()
    ensures app.Valid() && app.State() == OnTimer(old(app.State()), env, cb, tid)
  {
    match cb
    case RequestConnParamUpdateCb => OnConnParamUpdateTimer(app, tid);
    case GapCppTimerExpiryCb => OnCppTimer(app, tid);
    case TempMeasTimerCb => OnTempMeasTimer(app, tid);
    case BondingChanceTimerCb => OnBondingChanceTimer(app, env, tid);
    case AdvertTimerCb => AdvertTimerHandler(app, tid);
    case BuzzerTimerCb => app.hw.BuzzerTimerHandler();
    case ExtraLongButtonPressCb => OnExtraLongPress(app, env, tid);
  }

  /** Timer `n` expires. */
  method OnTimerExpiry(app: App, env: Env, n: nat)
    requires app.Valid()
    modifies app.Repr()
    ensures app.Valid() && app.State() == TimerExpired(old(app.State()), env, n)
  {
    var cb := app.fw.TimerFire(n);
    if cb.Some? {
      RunTimerCallback(app, env, cb.value, Timer(n));
    } else {
      assert app.fw.armed == old(app.fw.armed);
    }
  }

  /** handleSignalGattAddDbCfm */
  method OnGattAddDbCfm(app: App, env: Env, dbOk: bool)
    requires app.Valid()
    modifies app.Repr()
    ensures app.Valid() && app.State() == HandleSignalGattAddDbCfm(old(app.State()), env, dbOk)
  {
    if app.ht.state != AppStateInit {
      app.fw.Panic(PanicInvalidState);
    } else if dbOk {
      SetState(app, env, FastAdvertising);
    } else {
      app.fw.Panic(PanicDbRegistration);
    }
  }

  /** handleSignalGattCancelConnectCfm */
  method OnGattCancelConnectCfm(app: App, env: Env)
    requires app.Valid()
    modifies app.Repr()
    ensures app.Valid() && app.State() == HandleSignalGattCancelConnectCfm(old(app.State()), env)
  {
    if app.ht.state != FastAdvertising && app.ht.state != SlowAdvertising {
      app.fw.Panic(PanicInvalidState);
    } else if app.ht.pairingButtonPressed {
      Readvertise(app, env);
    } else if app.ht.state == FastAdvertising {
      SetState(app, env, SlowAdvertising);
    } else {
      SetState(app, env, Idle);
    }
  }

  /** The pairing button branch of handleSignalGattCancelConnectCfm. */
  method Readvertise(app: App, env: Env)
    requires app.Valid()
    modifies app.Repr()
    ensures app.Valid() && app.State() == ReadvertiseAfterBondRemoval(old(app.State()), env)
  {
    ghost var s0 := app.State();
    app.ht := app.ht.(pairingButtonPressed := false);
    app.fw.Issue(ResetWhiteList);
    assert app.State() == Requested(s0.(ht := s0.ht.(pairingButtonPressed := false)), ResetWhiteList);
    if app.ht.state == FastAdvertising {
      StartAdverts(app, env, true);
    } else {
      SetState(app, env, FastAdvertising);
    }
  }

  /** handleSignalLmEvConnectionComplete, and the update of
      handleSignalLmConnectionUpdate. */
  method SaveConnParams(app: App, interval: Word, latency: Word, timeout: Word)
    requires app.Valid()
    modifies app
    ensures app.Valid() && app.State() == StoreConnParams(old(app.State()), interval, latency, timeout)
  {
    app.ht := app.ht.(connInterval := interval, connLatency := latency, connTimeout := timeout);
  }

  /** The connected branch of handleSignalGattConnectCfm. */
  method EnterConnectedState(app: App, env: Env)
    requires app.Valid()
    modifies app.Repr()
    ensures app.Valid() && app.State() == EnterConnected(old(app.State()), env)
  {
    SetState(app, env, Connected);
    if app.ht.cpuTid == TimerInvalid && ParamsOutOfRange(app.ht) {
      app.ht := app.ht.(numConnUpdateReq := 0);
      StartCpuTimer(app, TGAP_CPP_PERIOD, GapCppTimerExpiryCb);
    }
  }

  /** handleSignalGattConnectCfm */
  method OnGattConnectCfm(app: App, env: Env, connected: bool, cid: Word, peer: TypedBdAddr)
    requires app.Valid()
    modifies app.Repr()
    ensures app.Valid() && app.State() == HandleSignalGattConnectCfm(old(app.State()), env, connected, cid, peer)
  {
    if app.ht.state != FastAdvertising && app.ht.state != SlowAdvertising {
      app.fw.Panic(PanicInvalidState);
    } else if connected {
      app.ht := app.ht.(stUcid := cid, conBdAddr := peer);
      if UnknownResolvableHost(app.ht, env, peer) {
        SetState(app, env, Disconnecting);
      } else {
        EnterConnectedState(app, env);
      }
    } else if app.ht.state == SlowAdvertising {
      SetState(app, env, FastAdvertising);
    } else {
      StartAdverts(app, env, true);
    }
  }

  /** handleSignalSmKeysInd */
  method OnSmKeysInd(app: App, hasDiv: bool, div: Word, hasId: bool, keyIrk: Irk)
    requires app.Valid()
    modifies app, app.fw
    ensures app.Valid() && app.State() == HandleSignalSmKeysInd(old(app.State()), hasDiv, div, hasId, keyIrk)
  {
    if app.ht.state != Connected {
      app.fw.Panic(PanicInvalidState);
    } else {
      if hasDiv {
        app.ht := app.ht.(diversifier := div);
        app.fw.NvmWrite(NVM_OFFSET_SM_DIV, [div]);
      }
      if GattIsAddressResolvableRandom(app.ht.conBdAddr) && hasId {
        app.ht := app.ht.(irk := keyIrk);
        app.fw.NvmWrite(NVM_OFFSET_SM_IRK, keyIrk);
      }
    }
  }

  /** handleSignalSmPairingAuthInd */
  method OnSmPairingAuthInd(app: App)
    requires app.Valid()
    modifies app.fw
    ensures app.Valid() && app.State() == HandleSignalSmPairingAuthInd(old(app.State()))
  {
    if app.ht.state != Connected {
      app.fw.Panic(PanicInvalidState);
    } else {
      app.fw.Issue(SmPairingAuthRsp(!app.ht.bonded));
    }
  }

  /** The success branch of handleSignalSmSimplePairingCompleteInd. */
  method SaveBond(app: App, peer: TypedBdAddr)
    requires app.Valid()
    modifies app, app.fw
    ensures app.Valid() && app.State() == RecordBond(old(app.State()), peer)
  {
    ghost var s0 := app.State();
    app.ht := app.ht.(bonded := true, bondedBdAddr := peer);
    app.fw.NvmWrite(NVM_OFFSET_BONDED_FLAG, [1]);
    app.fw.NvmWrite(NVM_OFFSET_BONDED_ADDR, AddrWords(peer));
    if !GattIsAddressResolvableRandom(peer) {
      app.fw.Issue(AddWhiteListDevice(peer));
    }
    assert app.State() == WriteBond(s0, peer);
    NotifyBonding(app);
  }

  /** handleSignalSmSimplePairingCompleteInd */
  method OnSmSimplePairingCompleteInd(app: App, env: Env, status: PairingStatus, peer: TypedBdAddr)
    requires app.Valid()
    modifies app.Repr()
    ensures app.Valid() && app.State() == HandleSignalSmSimplePairingCompleteInd(old(app.State()), env, status, peer)
  {
    if app.ht.state == Connected {
      if status == PairingSuccess {
        SaveBond(app, peer);
      } else if status == PairingRepeatedAttempts {
        SetState(app, env, Disconnecting);
      } else if app.ht.bonded {
        app.ht := app.ht.(encryptEnabled := false);
        var t := app.fw.TimerCreate(BONDING_CHANCE_TIMER, BondingChanceTimerCb);
        app.ht := app.ht.(bondingTid := t);
      }
    }
  }

  /** The encryption-enabled branch of handleSignalLMEncryptionChange. */
  method StartEncryptedLink(app: App, env: Env)
    requires app.Valid() && env.handles == app.handles
    modifies app, app.batt, app.fw
    ensures app.Valid() && app.State() == EncryptionOn(old(app.State()), env)
  {
    app.fw.TimerDelete(app.ht.bondingTid);
    app.ht := app.ht.(bondingTid := TimerInvalid);
    SendBatteryLevel(app, env);
    OnTempMeasTimer(app, TimerInvalid);
  }

  /** handleSignalLMEncryptionChange */
  method OnLmEncryptionChange(app: App, env: Env, changeOk: bool, encEnable: bool)
    requires app.Valid() && env.handles == app.handles
    modifies app, app.batt, app.fw
    ensures app.Valid() && app.State() == HandleSignalLmEncryptionChange(old(app.State()), env, changeOk, encEnable)
  {
    if app.ht.state != Connected {
      app.fw.Panic(PanicInvalidState);
    } else if changeOk {
      app.ht := app.ht.(encryptEnabled := encEnable);
      if encEnable {
        StartEncryptedLink(app, env);
      }
    }
  }

  /** handleSignalSmDivApproveInd */
  method OnSmDivApproveInd(app: App, cid: Word, div: Word)
    requires app.Valid()
    modifies app.fw
    ensures app.Valid() && app.State() == HandleSignalSmDivApproveInd(old(app.State()), cid, div)
  {
    if app.ht.state != Connected {
      app.fw.Panic(PanicInvalidState);
    } else {
      var approve := false;
      if app.ht.bonded && app.ht.diversifier == div {
        approve := true;
      }
      app.fw.Issue(SmDivApproval(cid, approve));
    }
  }

  /** handleSignalLsConnParamUpdateCfm */
  method OnLsConnParamUpdateCfm(app: App, updateOk: bool)
    requires app.Valid()
    modifies app, app.fw
    ensures app.Valid() && app.State() == HandleSignalLsConnParamUpdateCfm(old(app.State()), updateOk)
  {
    if app.ht.state != Connected {
      app.fw.Panic(PanicInvalidState);
    } else if !updateOk && app.ht.numConnUpdateReq < MAX_NUM_CONN_PARAM_UPDATE_REQS {
      StartCpuTimer(app, GAP_CONN_PARAM_TIMEOUT, RequestConnParamUpdateCb);
    }
  }

  /** handleSignalLmConnectionUpdate */
  method OnLmConnectionUpdate(app: App, interval: Word, latency: Word, timeout: Word)
    requires app.Valid()
    modifies app, app.fw
    ensures app.Valid() && app.State() == HandleSignalLmConnectionUpdate(old(app.State()), interval, latency, timeout)
  {
    if app.ht.state != Connected && app.ht.state != Disconnecting {
      app.fw.Panic(PanicInvalidState);
    } else {
      SaveConnParams(app, interval, latency, timeout);
    }
  }

  /** handleSignalLsConnParamUpdateInd */
  method OnLsConnParamUpdateInd(app: App)
    requires app.Valid()
    modifies app, app.fw
    ensures app.Valid() && app.State() == HandleSignalLsConnParamUpdateInd(old(app.State()))
  {
    if app.ht.state != Connected {
      app.fw.Panic(PanicInvalidState);
    } else {
      app.fw.TimerDelete(app.ht.cpuTid);
      app.ht := app.ht.(cpuTid := TimerInvalid, cpuTimerValue := 0);
      if ParamsOutOfRange(app.ht) {
        app.ht := app.ht.(numConnUpdateReq := 0);
        StartCpuTimer(app, GAP_CONN_PARAM_TIMEOUT, RequestConnParamUpdateCb);
      }
    }
  }

  /** The start of handleSignalGattAccessInd. */
  method RestartCpc(app: App)
    requires app.Valid()
    modifies app, app.fw
    ensures app.Valid() && app.State() == RestartCpcPause(old(app.State()))
  {
    if app.ht.cpuTimerValue == TGAP_CPC_PERIOD && app.ht.cpuTid != TimerInvalid {
      StartCpuTimer(app, TGAP_CPC_PERIOD, RequestConnParamUpdateCb);
    }
  }

  /** The end of the write branch of handleSignalGattAccessInd. */
  method SendAfterWrite(app: App)
    requires app.Valid()
    modifies app, app.fw
    ensures app.Valid() && app.State() == AfterAccessWrite(old(app.State()))
  {
    if app.ht.encryptEnabled {
      AdvertisingExit(app);
      OnTempMeasTimer(app, TimerInvalid);
    }
  }

  /** handleSignalGattAccessInd */
  method OnGattAccessInd(app: App, env: Env, cid: Word, handle: Word, kind: AccessKind, offset: Word, value: seq<Byte>)
    requires app.Valid() && env.handles == app.handles
    requires kind == WriteAccess ==> CccdWriteSized(env.handles, handle, value)
    modifies app.Repr()
    ensures app.Valid() && app.State() == HandleSignalGattAccessInd(old(app.State()), env, cid, handle, kind, offset, value)
  {
    if app.ht.state != Connected {
      app.fw.Panic(PanicInvalidState);
    } else {
      RestartCpc(app);
      if kind == WriteAccess {
        AccessWrite(app, env, cid, handle, value);
        SendAfterWrite(app);
      } else if kind == ReadAccess {
        AccessRead(app, env, cid, handle, offset);
      } else {
        app.fw.Issue(AccessRsp(cid, handle, RequestNotSupported, 0, []));
      }
    }
  }

  /** handleSignalLmDisconnectComplete */
  method OnLmDisconnectComplete(app: App, env: Env, reason: DisconnectReason)
    requires app.Valid()
    modifies app.Repr()
    ensures app.Valid() && app.State() == HandleSignalLmDisconnectComplete(old(app.State()), env, reason)
  {
    ghost var s0 := app.State();
    app.fw.TimerDelete(app.ht.bondingTid);
    app.ht := app.ht.(bondingTid := TimerInvalid, connInterval := 0, connLatency := 0, connTimeout := 0);
    ghost var s1 := ForgetLink(s0);
    assert app.State() == s1;
    if app.ht.state != Connected && app.ht.state != Disconnecting {
      app.fw.Panic(PanicInvalidState);
    } else {
      if app.ht.state == Connected {
        DataInit(app);
      }
      ghost var s2 := if s1.ht.state == Connected then HtDataInit(s1) else s1;
      assert app.State() == s2;
      SetState(app, env, DisconnectTarget(app.ht, env, reason));
    }
  }

  /** The security manager's events and the encryption change. */
  predicate SecurityEvent(e: LmEvent)
  {
    e.SmKeysInd? || e.SmPairingAuthInd? || e.SmSimplePairingCompleteInd? || e.LmEncryptionChange? || e.SmDivApproveInd?
  }

  /** The connection parameter events and attribute accesses. */
  predicate ConnectedLinkEvent(e: LmEvent)
  {
    e.LsConnParamUpdateCfm? || e.LmConnectionUpdate? || e.LsConnParamUpdateInd? || e.GattAccessInd?
  }

  method ProcessSecurityEvent(app: App, env: Env, e: LmEvent)
    requires app.Valid() && env.handles == app.handles && SecurityEvent(e)
    modifies app.Repr()
    ensures app.Valid() && app.State() == AppProcessLmEvent(old(app.State()), env, e)
  {
    if e.SmKeysInd? {
      OnSmKeysInd(app, e.hasDiv, e.div, e.hasId, e.keyIrk);
    } else if e.SmPairingAuthInd? {
      OnSmPairingAuthInd(app);
    } else if e.SmSimplePairingCompleteInd? {
      OnSmSimplePairingCompleteInd(app, env, e.status, e.bondPeer);
    } else if e.LmEncryptionChange? {
      OnLmEncryptionChange(app, env, e.changeOk, e.encEnable);
    } else {
      OnSmDivApproveInd(app, e.divCid, e.requested);
    }
  }

  method ProcessConnectedLinkEvent(app: App, env: Env, e: LmEvent)
    requires app.Valid() && env.handles == app.handles && ConnectedLinkEvent(e) && AccessAllowed(env, e)
    modifies app.Repr()
    ensures app.Valid() && app.State() == AppProcessLmEvent(old(app.State()), env, e)
  {
    if e.LsConnParamUpdateCfm? {
      OnLsConnParamUpdateCfm(app, e.updateOk);
    } else if e.LmConnectionUpdate? {
      OnLmConnectionUpdate(app, e.newInterval, e.newLatency, e.newTimeout);
    } else if e.LsConnParamUpdateInd? {
      OnLsConnParamUpdateInd(app);
    } else {
      OnGattAccessInd(app, env, e.accCid, e.handle, e.kind, e.offset, e.value);
    }
  }

  /** The database, advertising, connect and disconnect events. */
  method ProcessLinkEvent(app: App, env: Env, e: LmEvent)
    requires app.Valid() && env.handles == app.handles && !SecurityEvent(e) && !ConnectedLinkEvent(e)
    modifies app.Repr()
    ensures app.Valid() && app.State() == AppProcessLmEvent(old(app.State()), env, e)
  {
    if e.GattAddDbCfm? {
      OnGattAddDbCfm(app, env, e.dbOk);
    } else if e.GattCancelConnectCfm? {
      OnGattCancelConnectCfm(app, env);
    } else if e.LmConnectionComplete? {
      SaveConnParams(app, e.interval, e.latency, e.timeout);
    } else if e.GattConnectCfm? {
      OnGattConnectCfm(app, env, e.connected, e.cid, e.peer);
    } else if e.LmDisconnectComplete? {
      OnLmDisconnectComplete(app, env, e.reason);
    }
  }

  /** AppProcessLmEvent */
  method ProcessLmEvent(app: App, env: Env, e: LmEvent)
    requires app.Valid() && env.handles == app.handles && AccessAllowed(env, e)
    modifies app.Repr()
    ensures app.Valid() && app.State() == AppProcessLmEvent(old(app.State()), env, e)
  {
    if SecurityEvent(e) {
      ProcessSecurityEvent(app, env, e);
    } else if ConnectedLinkEvent(e) {
      ProcessConnectedLinkEvent(app, env, e);
    } else {
      ProcessLinkEvent(app, env, e);
    }
  }

  /** HandleShortButtonPress: the record in `val` goes out on the current
      connection; the sender writes its count into the first byte. */
  method ShortButtonPress(app: App, env: Env, val: array<Byte>)
    requires app.Valid() && env.handles == app.handles && val.Length >= MAX_TEMP_MEAS_SIZE
    modifies app.thermo, app.fw, val
    ensures app.Valid() && app.State() == HandleShortButtonPress(old(app.State()), env, old(val[..]))
  {
    var _ := app.thermo.SendTempReading(app.ht.stUcid, val);
  }

  /** HandlePIOChangedEvent: the buttons are debounced and counted into a
      fresh record, which is then sent. */
  method OnPioChanged(app: App, env: Env, cause: bv32, level: bv32)
    requires app.Valid() && env.handles == app.handles
    modifies app.hw, app.thermo, app.fw
    ensures app.Valid() && app.State() == PioChangedEvent(old(app.State()), env, cause, level)
  {
    var val := new Byte[MAX_TEMP_MEAS_SIZE](_ => 0);
    app.hw.HandlePioChanged(cause, level, val);
    assert val[..] == [0] + val[1..];
    ShortButtonPress(app, env, val);
  }

  /** AppProcessSystemEvent */
  method ProcessSystemEvent(app: App, env: Env, e: SysEvent)
    requires app.Valid() && env.handles == app.handles
    modifies app.hw, app.batt, app.thermo, app.fw
    ensures app.Valid() && app.State() == AppProcessSystemEvent(old(app.State()), env, e)
  {
    match e
    case BatteryLow =>
      if app.ht.state == Connected {
        SendBatteryLevel(app, env);
      }
    case PioChanged(cause, level) => OnPioChanged(app, env, cause, level);
    case OtherSysEvent =>
  }

  /** The firmware hands the application one event; after a panic nothing runs. */
  method Deliver(app: App, env: Env, e: Event)
    requires app.Valid() && env.handles == app.handles
    requires e.Lm? ==> AccessAllowed(env, e.lm)
    modifies app.Repr()
    ensures app.Valid() && app.State() == Step(old(app.State()), env, e)
  {
    if app.fw.halted.None? {
      match e
      case Lm(ev) => ProcessLmEvent(app, env, ev);
      case System(ev) => ProcessSystemEvent(app, env, ev);
      case TimerExpiry(n) => OnTimerExpiry(app, env, n);
    }
  }
}
