// The advertising controller and the attribute dispatcher: what goes into
// the advertising and scan response packets, when the advert times out, and
// which service answers a read or a write of an attribute.

module HtGatt {
  import opened Sdk
  import opened GattDb
  import opened GapService
  import opened BatteryService
  import opened HealthThermoService
  import opened DevInfoService
  import opened HtData

  /** The payload of an advertising or scan response packet. */
  const MAX_ADV_DATA_LEN: nat := 31
  /** The AD flags element the GAP layer adds to every advert. */
  const AD_FLAGS_LENGTH: nat := 3
  const SHORTENED_DEV_NAME_LEN: nat := 8
  const TX_POWER_VALUE_LENGTH: nat := 2
  const AD_TYPE_APPEARANCE: Byte := 0x19
  const APPEARANCE_THERMOMETER_VALUE: Word := 0x0300
  const UUID_HEALTH_THERMOMETER_SERVICE: Word := 0x1809

  const FC_ADVERTISING_INTERVAL_MIN: nat := 60 * MILLISECOND
  const FC_ADVERTISING_INTERVAL_MAX: nat := 60 * MILLISECOND
  const RP_ADVERTISING_INTERVAL_MIN: nat := 1280 * MILLISECOND
  const RP_ADVERTISING_INTERVAL_MAX: nat := 1280 * MILLISECOND
  const FAST_CONNECTION_ADVERT_TIMEOUT_VALUE: nat := 30 * SECOND
  const SLOW_CONNECTION_ADVERT_TIMEOUT_VALUE: nat := 1 * MINUTE

  /** The appearance element: AD type, then the appearance value low byte first. */
  const DEVICE_APPEARANCE: seq<Word> := [AD_TYPE_APPEARANCE] + LittleEndian16(APPEARANCE_THERMOMETER_VALUE)

  /** The advert space taken before the name: the flags, then the UUID list,
      the appearance and the transmit power, each with its length byte. */
  const ADV_DATA_BEFORE_NAME: nat :=
    AD_FLAGS_LENGTH + (3 + 1) + (|DEVICE_APPEARANCE| + 1) + (TX_POWER_VALUE_LENGTH + 1)

  // ---- addresses ----------------------------------------------------------

  /** GattIsAddressResolvableRandom */
  predicate GattIsAddressResolvableRandom(a: TypedBdAddr)
  {
    a.addrType == L2CA_RANDOM_ADDR_TYPE
    && (a.addr.nap as bv16) & BD_ADDR_NAP_RANDOM_TYPE_MASK == BD_ADDR_NAP_RANDOM_TYPE_RESOLVABLE
  }

  /** A resolvable private address is a random address whose two top NAP bits are 01. */
  lemma ResolvableMeansTopBits01(a: TypedBdAddr)
    ensures GattIsAddressResolvableRandom(a) <==>
      a.addrType == L2CA_RANDOM_ADDR_TYPE && 0x4000 <= (a.addr.nap as bv16) < 0x8000
  {
    TopBits01(a.addr.nap as bv16);
  }

  lemma TopBits01(n: bv16)
    ensures n & 0xC000 == 0x4000 <==> 0x4000 <= n < 0x8000
  {
  }

  // ---- advertising data ---------------------------------------------------

  /** The service UUID list element: AD type, then the Health Thermometer
      service UUID low byte first. */
  function ServiceUuidList(): (ad: seq<Word>)
    ensures |ad| == 3 && ad[0] == AD_TYPE_SERVICE_UUID_16BIT_LIST
    ensures ad[1] < 0x100 && ad[2] < 0x100 && ReadUint16(ad[1..]) == UUID_HEALTH_THERMOMETER_SERVICE
  {
    [AD_TYPE_SERVICE_UUID_16BIT_LIST, 0x09, 0x18]
  }

  /** uint16 subtraction, which wraps below zero. */
  function Sub16(a: Word, b: Word): (d: Word)
    ensures b <= a ==> d == a - b
    ensures a < b ==> d == a - b + 0x1_0000
  {
    (a - b) % 0x1_0000
  }

  /** Where addDeviceNameToAdvData puts the name. */
  datatype NamePlacement = CompleteInAdvert | CompleteInScanRsp | ShortInAdvert | ShortInScanRsp

  /** The first of the four rules that fits, for a name element of `nameAdLen`
      cells (AD type and name) after `advLen` and `scanLen` cells are used. */
  function ChooseNamePlacement(nameAdLen: nat, advLen: Word, scanLen: Word): NamePlacement
  {
    if nameAdLen + 1 <= Sub16(MAX_ADV_DATA_LEN, advLen) then CompleteInAdvert
    else if nameAdLen + 1 <= Sub16(MAX_ADV_DATA_LEN, scanLen) then CompleteInScanRsp
    else if Sub16(MAX_ADV_DATA_LEN, advLen) >= SHORTENED_DEV_NAME_LEN + 2 then ShortInAdvert
    else ShortInScanRsp
  }

  /** The number of cells of the name buffer stored for a placement. */
  function NameCells(p: NamePlacement, nameAdLen: nat, scanLen: Word): nat
  {
    match p
    case CompleteInAdvert => nameAdLen
    case CompleteInScanRsp => nameAdLen
    case ShortInAdvert => SHORTENED_DEV_NAME_LEN
    case ShortInScanRsp => Sub16(MAX_ADV_DATA_LEN, scanLen)
  }

  function PlacementSrc(p: NamePlacement): AdSrc
  {
    if p.CompleteInAdvert? || p.ShortInAdvert? then AdvertData else ScanRspData
  }

  function PlacementAdType(p: NamePlacement): Byte
  {
    if p.CompleteInAdvert? || p.CompleteInScanRsp? then AD_TYPE_LOCAL_NAME_COMPLETE else AD_TYPE_LOCAL_NAME_SHORT
  }

  /** The name is shortened only when the complete name fits in neither packet,
      and each placement stores no more than its packet can take. */
  lemma PlacementFits(nameAdLen: nat, advLen: Word, scanLen: Word)
    ensures var p := ChooseNamePlacement(nameAdLen, advLen, scanLen);
      && (p.CompleteInAdvert? <==> nameAdLen + 1 <= Sub16(MAX_ADV_DATA_LEN, advLen))
      && (p.CompleteInAdvert? || p.CompleteInScanRsp? <==>
            nameAdLen + 1 <= Sub16(MAX_ADV_DATA_LEN, advLen) || nameAdLen + 1 <= Sub16(MAX_ADV_DATA_LEN, scanLen))
      && (p.CompleteInAdvert? ==> NameCells(p, nameAdLen, scanLen) + 1 <= Sub16(MAX_ADV_DATA_LEN, advLen))
      && (p.CompleteInScanRsp? ==> NameCells(p, nameAdLen, scanLen) + 1 <= Sub16(MAX_ADV_DATA_LEN, scanLen))
      && (p.ShortInAdvert? ==> NameCells(p, nameAdLen, scanLen) + 2 <= Sub16(MAX_ADV_DATA_LEN, advLen))
      && (p.ShortInScanRsp? ==> NameCells(p, nameAdLen, scanLen) <= nameAdLen)
  {
  }

  /** addDeviceNameToAdvData: the name buffer with its AD type cell set, and the store request. */
  function AddDeviceNameToAdvData(g: GapState, f: FwState, advLen: Word, scanLen: Word): (GapState, FwState)
  {
    var (buf, nameAdLen) := GapGetNameAndLength(g);
    var p := ChooseNamePlacement(nameAdLen, advLen, scanLen);
    var n := NameCells(p, nameAdLen, scanLen);
    var buf' := buf[0 := PlacementAdType(p)];
    assert n <= |buf'| by { PlacementFits(nameAdLen, advLen, scanLen); }
    (g.(name := buf'), WithRequest(f, StoreAdvScanData(buf'[..n], PlacementSrc(p))))
  }

  /** From the one place it is called, the complete name is always sent: in
      the advert when it is at most 15 characters long, otherwise in the scan
      response. */
  lemma NameNeverShortened(g: GapState, f: FwState)
    ensures var (g', f') := AddDeviceNameToAdvData(g, f, ADV_DATA_BEFORE_NAME, 0);
      var n := 1 + StrLen(g.name, 1);
      && |f'.log| == |f.log| + 1
      && f'.log[|f.log|] == StoreAdvScanData(g'.name[..n], if n <= 16 then AdvertData else ScanRspData)
      && g'.name[0] == AD_TYPE_LOCAL_NAME_COMPLETE
      && g'.name[1..] == g.name[1..]
  {
    var (buf, nameAdLen) := GapGetNameAndLength(g);
    assert nameAdLen <= 21;
  }

  /** The advertising requests gattSetAdvertParams makes before the name. */
  function AdvertRequests(fast: bool, txPower: Byte): (rs: seq<Request>)
    ensures |rs| == 7
  {
    var (mn, mx) := if fast then (FC_ADVERTISING_INTERVAL_MIN, FC_ADVERTISING_INTERVAL_MAX)
                    else (RP_ADVERTISING_INTERVAL_MIN, RP_ADVERTISING_INTERVAL_MAX);
    [GapSetModeReq, GapSetAdvInterval(mn, mx),
     StoreAdvScanData([], AdvertData), StoreAdvScanData([], ScanRspData),
     StoreAdvScanData(ServiceUuidList(), AdvertData),
     StoreAdvScanData(DEVICE_APPEARANCE, AdvertData),
     StoreAdvScanData([AD_TYPE_TX_POWER, txPower], AdvertData)]
  }

  /** gattSetAdvertParams: the name buffer and the firmware afterwards. */
  function GattSetAdvertParams(g: GapState, f: FwState, fast: bool, txPower: Byte): (GapState, FwState)
  {
    AddDeviceNameToAdvData(g, f.(log := f.log + AdvertRequests(fast, txPower)), ADV_DATA_BEFORE_NAME, 0)
  }

  /** The connect filter: white list only for a bonded peer with a fixed address. */
  function ConnectFilterFor(ht: HtState): ConnectFilter
  {
    if ht.bonded && !GattIsAddressResolvableRandom(ht.bondedBdAddr) then WhitelistPublic else UndirectedPublic
  }

  function AdvertTimeout(fast: bool): nat
  {
    if fast then FAST_CONNECTION_ADVERT_TIMEOUT_VALUE else SLOW_CONNECTION_ADVERT_TIMEOUT_VALUE
  }

  /** gattSetAdvertParams on the whole device. */
  function SysSetAdvertParams(s: Sys, fast: bool, txPower: Byte): Sys
  {
    var (g, f) := GattSetAdvertParams(s.gap, s.fw, fast, txPower);
    s.(gap := g, fw := f)
  }

  /** The end of GattStartAdverts: the connect request, then a fresh advert
      timer in place of whatever timer the application had running. */
  function ArmAdvertTimer(s: Sys, filter: ConnectFilter, fast: bool): Sys
  {
    var f := WithoutTimer(WithRequest(s.fw, GattConnectReq(filter)), s.ht.appTid);
    s.(ht := s.ht.(appTid := NewTimer(f)), fw := WithTimer(f, AdvertTimeout(fast), AdvertTimerCb))
  }

  /** GattStartAdverts */
  function GattStartAdverts(s: Sys, env: Env, fast: bool): Sys
  {
    var s1 := SysSetAdvertParams(s.(ht := s.ht.(stUcid := GATT_INVALID_UCID)), fast, env.txPower);
    ArmAdvertTimer(s1, ConnectFilterFor(s.ht), fast)
  }

  /** GattStopAdverts */
  function GattStopAdverts(f: FwState): (g: FwState)
  {
    WithRequest(f, GattCancelConnectReq)
  }

  /** Starting adverts forgets the connection, connects through the white list
      exactly for a bonded peer with a fixed address, replaces the advert timer
      by a fresh one of the right length, and changes nothing else in the
      application record. */
  lemma StartAdvertsContract(s: Sys, env: Env, fast: bool)
    requires TimersFresh(s.fw) && Issued(s.fw, s.ht.appTid)
    ensures var s' := GattStartAdverts(s, env, fast);
      && s'.ht == s.ht.(stUcid := GATT_INVALID_UCID, appTid := s'.ht.appTid)
      && s'.ht.appTid.Timer? && s'.ht.appTid.n in s'.fw.armed
      && s'.fw.armed[s'.ht.appTid.n] == TimerEntry(AdvertTimeout(fast), AdvertTimerCb)
      && (s.ht.appTid.Timer? ==> s.ht.appTid.n !in s'.fw.armed)
      && s'.fw.log[|s'.fw.log| - 1] == GattConnectReq(ConnectFilterFor(s.ht))
      && (ConnectFilterFor(s.ht) == WhitelistPublic <==> s.ht.bonded && !GattIsAddressResolvableRandom(s.ht.bondedBdAddr))
      && TimersFresh(s'.fw)
  {
  }

  /** gattAdvertTimerHandler */
  function GattAdvertTimerHandler(s: Sys, tid: TimerId): Sys
  {
    if s.ht.appTid == tid then
      var s1 := s.(ht := s.ht.(appTid := TimerInvalid));
      if s.ht.state == FastAdvertising || s.ht.state == SlowAdvertising then s1.(fw := GattStopAdverts(s1.fw))
      else s1
    else s
  }

  /** A stale advert timer changes nothing; the current one is forgotten and
      stops advertising exactly in the two advertising states. */
  lemma AdvertTimerContract(s: Sys, tid: TimerId)
    ensures var s' := GattAdvertTimerHandler(s, tid);
      && (s.ht.appTid != tid ==> s' == s)
      && (s.ht.appTid == tid ==>
            && s'.ht == s.ht.(appTid := TimerInvalid)
            && s'.fw == if s.ht.state in {FastAdvertising, SlowAdvertising} then GattStopAdverts(s.fw) else s.fw)
  {
  }

  // ---- attribute access ---------------------------------------------------

  /** HandleAccessRead */
  function HandleAccessRead(s: Sys, env: Env, cid: Word, handle: Word, offset: Word): Sys
  {
    var h := env.handles;
    if GapCheckHandleRange(h, handle) then
      s.(fw := WithRequest(s.fw, GapHandleAccessRead(s.gap, h, cid, handle, offset)))
    else if HealthThermoCheckHandleRange(h, handle) then
      s.(fw := WithRequest(s.fw, HealthThermoHandleAccessRead(s.thermo, h, cid, handle)))
    else if BatteryCheckHandleRange(h, handle) then
      var (b, f) := BatteryHandleAccessRead(s.batt, s.fw, h, cid, handle);
      s.(batt := b, fw := f)
    else if DevInfoCheckHandleRange(h, handle) then
      var (id, r) := DevInfoHandleAccessRead(s.devInfo, h, cid, handle, env.bdAddr);
      s.(devInfo := id, fw := WithRequest(s.fw, r))
    else
      s.(fw := WithRequest(s.fw, AccessRsp(cid, handle, ReadNotPermitted, 0, [])))
  }

  /** The client configuration descriptors are written with at least two bytes. */
  predicate CccdWriteSized(h: HandleMap, handle: Word, value: seq<Byte>)
  {
    (handle == h.tempMeasCfg || handle == h.battLevelCfg) ==> |value| >= 2
  }

  /** HandleAccessWrite */
  function HandleAccessWrite(s: Sys, env: Env, cid: Word, handle: Word, value: seq<Byte>): Sys
    requires CccdWriteSized(env.handles, handle, value)
  {
    var h := env.handles;
    if GapCheckHandleRange(h, handle) then
      var (g, f) := GapHandleAccessWrite(s.gap, s.fw, h, cid, handle, value);
      s.(gap := g, fw := f)
    else if HealthThermoCheckHandleRange(h, handle) then
      var (t, f) := HealthThermoHandleAccessWrite(s.thermo, s.fw, h, s.ht.bonded, cid, handle, value);
      s.(thermo := t, fw := f)
    else if BatteryCheckHandleRange(h, handle) then
      var (b, f) := BatteryHandleAccessWrite(s.batt, s.fw, h, s.ht.bonded, cid, handle, value);
      s.(batt := b, fw := f)
    else
      s.(fw := WithRequest(s.fw, AccessRsp(cid, handle, WriteNotPermitted, 0, [])))
  }

  /** With a well-formed database every read reaches the service owning the
      handle, and a handle owned by none is refused. */
  lemma ReadRoutedToOwner(s: Sys, env: Env, cid: Word, handle: Word, offset: Word)
    requires WellFormed(env.handles)
    ensures var h := env.handles; var s' := HandleAccessRead(s, env, cid, handle, offset);
      && s'.ht == s.ht && s'.hw == s.hw && s'.gap == s.gap && s'.thermo == s.thermo
      && (InRange(h.gapStart, h.gapEnd, handle) ==>
            s' == s.(fw := WithRequest(s.fw, GapHandleAccessRead(s.gap, h, cid, handle, offset))))
      && (InRange(h.htStart, h.htEnd, handle) ==>
            s' == s.(fw := WithRequest(s.fw, HealthThermoHandleAccessRead(s.thermo, h, cid, handle))))
      && (InRange(h.battStart, h.battEnd, handle) ==>
            (s'.batt, s'.fw) == BatteryHandleAccessRead(s.batt, s.fw, h, cid, handle) && s'.devInfo == s.devInfo)
      && (InRange(h.devInfoStart, h.devInfoEnd, handle) ==>
            (s'.devInfo, s'.fw.log[|s.fw.log|]) == DevInfoHandleAccessRead(s.devInfo, h, cid, handle, env.bdAddr)
            && s'.batt == s.batt && |s'.fw.log| == |s.fw.log| + 1)
      && (!InRange(h.gapStart, h.gapEnd, handle) && !InRange(h.htStart, h.htEnd, handle)
          && !InRange(h.battStart, h.battEnd, handle) && !InRange(h.devInfoStart, h.devInfoEnd, handle) ==>
            s' == s.(fw := WithRequest(s.fw, AccessRsp(cid, handle, ReadNotPermitted, 0, []))))
  {
  }

  /** Writes reach the GAP, Health Thermometer and Battery services only: a
      Device Information handle, like a handle owned by no service, is refused
      and nothing but the response changes. */
  lemma WriteRouting(s: Sys, env: Env, cid: Word, handle: Word, value: seq<Byte>)
    requires WellFormed(env.handles) && CccdWriteSized(env.handles, handle, value)
    ensures var h := env.handles; var s' := HandleAccessWrite(s, env, cid, handle, value);
      && s'.ht == s.ht && s'.hw == s.hw && s'.devInfo == s.devInfo
      && (InRange(h.gapStart, h.gapEnd, handle) ==>
            (s'.gap, s'.fw) == GapHandleAccessWrite(s.gap, s.fw, h, cid, handle, value))
      && (InRange(h.htStart, h.htEnd, handle) ==>
            (s'.thermo, s'.fw) == HealthThermoHandleAccessWrite(s.thermo, s.fw, h, s.ht.bonded, cid, handle, value))
      && (InRange(h.battStart, h.battEnd, handle) ==>
            (s'.batt, s'.fw) == BatteryHandleAccessWrite(s.batt, s.fw, h, s.ht.bonded, cid, handle, value))
      && (!InRange(h.gapStart, h.gapEnd, handle) && !InRange(h.htStart, h.htEnd, handle)
          && !InRange(h.battStart, h.battEnd, handle) ==>
            s' == s.(fw := WithRequest(s.fw, AccessRsp(cid, handle, WriteNotPermitted, 0, []))))
  {
  }

  // ---- the operations on the device ---------------------------------------

  /** GetSupported16BitUUIDServiceList: fills the start of the caller's buffer. */
  method GetSupported16BitUuidServiceList(buf: array<Word>) returns (len: Word)
    requires buf.Length >= MAX_ADV_DATA_LEN
    modifies buf
    ensures len == 3 && buf[..len] == ServiceUuidList()
    ensures buf[len..] == old(buf[len..])
  {
    var i := 0;
    buf[i] := AD_TYPE_SERVICE_UUID_16BIT_LIST;
    i := i + 1;
    buf[i] := UUID_HEALTH_THERMOMETER_SERVICE % 0x100;
    i := i + 1;
    buf[i] := UUID_HEALTH_THERMOMETER_SERVICE / 0x100;
    i := i + 1;
    len := i;
  }

  /** addDeviceNameToAdvData: sets the AD type cell of the name buffer in place. */
  method AddDeviceNameToAdv(app: App, advLen: Word, scanLen: Word)
    requires app.Valid()
    modifies app.gap.devName, app.fw
    ensures app.Valid()
    ensures (app.gap.State(), app.fw.State()) == AddDeviceNameToAdvData(old(app.gap.State()), old(app.fw.State()), advLen, scanLen)
  {
    var g := app.gap;
    var nameAdLen := StrLen(g.devName[..], 0);
    assert nameAdLen == GapGetNameAndLength(g.State()).1;
    var p := ChooseNamePlacement(nameAdLen, advLen, scanLen);
    PlacementFits(nameAdLen, advLen, scanLen);
    var n := NameCells(p, nameAdLen, scanLen);
    g.devName[0] := AD_TYPE_LOCAL_NAME_COMPLETE;
    if p.ShortInAdvert? || p.ShortInScanRsp? {
      g.devName[0] := AD_TYPE_LOCAL_NAME_SHORT;
    }
    assert g.devName[..] == old(g.devName[..])[0 := PlacementAdType(p)];
    app.fw.Issue(StoreAdvScanData(g.devName[..n], PlacementSrc(p)));
  }

  /** The first four requests of gattSetAdvertParams: the mode, the advertising
      interval and the two cleared advertising data stores. */
  method IssueModeAndInterval(fw: Firmware, fast: bool)
    modifies fw
    ensures fw.State() == old(fw.State()).(log := old(fw.log) + AdvertRequests(fast, 0)[..4])
  {
    var mn, mx := RP_ADVERTISING_INTERVAL_MIN, RP_ADVERTISING_INTERVAL_MAX;
    if fast {
      mn, mx := FC_ADVERTISING_INTERVAL_MIN, FC_ADVERTISING_INTERVAL_MAX;
    }
    ghost var l0 := fw.log;
    fw.Issue(GapSetModeReq);
    fw.Issue(GapSetAdvInterval(mn, mx));
    fw.Issue(StoreAdvScanData([], AdvertData));
    fw.Issue(StoreAdvScanData([], ScanRspData));
    assert fw.log == l0 + [GapSetModeReq, GapSetAdvInterval(mn, mx), StoreAdvScanData([], AdvertData), StoreAdvScanData([], ScanRspData)];
  }

  /** The three advertising data fields gattSetAdvertParams adds before the
      name: the service list, the appearance and the transmit power. */
  method IssueAdFields(fw: Firmware, uuids: seq<Word>, txPower: Byte)
    modifies fw
    ensures fw.State() == old(fw.State()).(log := old(fw.log) +
      [StoreAdvScanData(uuids, AdvertData), StoreAdvScanData(DEVICE_APPEARANCE, AdvertData),
       StoreAdvScanData([AD_TYPE_TX_POWER, txPower], AdvertData)])
  {
    ghost var l0 := fw.log;
    fw.Issue(StoreAdvScanData(uuids, AdvertData));
    fw.Issue(StoreAdvScanData(DEVICE_APPEARANCE, AdvertData));
    fw.Issue(StoreAdvScanData([AD_TYPE_TX_POWER, txPower], AdvertData));
    assert fw.log == l0 + [StoreAdvScanData(uuids, AdvertData), StoreAdvScanData(DEVICE_APPEARANCE, AdvertData),
                           StoreAdvScanData([AD_TYPE_TX_POWER, txPower], AdvertData)];
  }

  /** The part of gattSetAdvertParams before the name: it issues the fixed
      advertising requests and adds up the advert space they use. */
  method IssueAdvertRequests(fw: Firmware, fast: bool, txPower: Byte) returns (lengthAddedToAdv: nat)
    modifies fw
    ensures lengthAddedToAdv == ADV_DATA_BEFORE_NAME
    ensures fw.State() == old(fw.State()).(log := old(fw.log) + AdvertRequests(fast, txPower))
  {
    var advertData := new Word[MAX_ADV_DATA_LEN];
    var length := GetSupported16BitUuidServiceList(advertData);
    var uuids := advertData[..length];
    assert uuids == ServiceUuidList();
    lengthAddedToAdv := AD_FLAGS_LENGTH;
    IssueModeAndInterval(fw, fast);
    lengthAddedToAdv := lengthAddedToAdv + length + 1 + |DEVICE_APPEARANCE| + 1 + TX_POWER_VALUE_LENGTH + 1;
    IssueAdFields(fw, uuids, txPower);
    assert AdvertRequests(fast, txPower) == AdvertRequests(fast, 0)[..4] +
      [StoreAdvScanData(uuids, AdvertData), StoreAdvScanData(DEVICE_APPEARANCE, AdvertData),
       StoreAdvScanData([AD_TYPE_TX_POWER, txPower], AdvertData)];
  }

  /** gattSetAdvertParams */
  method SetAdvertParams(app: App, fast: bool, txPower: Byte)
    requires app.Valid()
    modifies app.gap.devName, app.fw
    ensures app.Valid()
    ensures app.State() == SysSetAdvertParams(old(app.State()), fast, txPower)
  {
    var lengthAddedToAdv := IssueAdvertRequests(app.fw, fast, txPower);
    AddDeviceNameToAdv(app, lengthAddedToAdv, 0);
  }

  /** GattStartAdverts */
  method StartAdverts(app: App, env: Env, fast: bool)
    requires app.Valid()
    modifies app, app.gap.devName, app.fw
    ensures app.Valid()
    ensures app.State() == GattStartAdverts(old(app.State()), env, fast)
  {
    app.ht := app.ht.(stUcid := GATT_INVALID_UCID);
    SetAdvertParams(app, fast, env.txPower);
    var filter := UndirectedPublic;
    if app.ht.bonded && !GattIsAddressResolvableRandom(app.ht.bondedBdAddr) {
      filter := WhitelistPublic;
    }
    ConnectAndArm(app, filter, fast);
  }

  /** The end of GattStartAdverts. */
  method ConnectAndArm(app: App, filter: ConnectFilter, fast: bool)
    requires app.Valid()
    modifies app, app.fw
    ensures app.Valid()
    ensures app.State() == ArmAdvertTimer(old(app.State()), filter, fast)
  {
    app.fw.Issue(GattConnectReq(filter));
    var timeout := if fast then FAST_CONNECTION_ADVERT_TIMEOUT_VALUE else SLOW_CONNECTION_ADVERT_TIMEOUT_VALUE;
    app.fw.TimerDelete(app.ht.appTid);
    var tid := app.fw.TimerCreate(timeout, AdvertTimerCb);
    app.ht := app.ht.(appTid := tid);
  }

  /** GattStopAdverts */
  method StopAdverts(app: App)
    modifies app.fw
    ensures app.fw.State() == GattStopAdverts(old(app.fw.State()))
  {
    app.fw.Issue(GattCancelConnectReq);
  }

  /** gattAdvertTimerHandler */
  method AdvertTimerHandler(app: App, tid: TimerId)
    requires app.Valid()
    modifies app, app.fw
    ensures app.Valid()
    ensures app.State() == GattAdvertTimerHandler(old(app.State()), tid)
  {
    if app.ht.appTid == tid {
      app.ht := app.ht.(appTid := TimerInvalid);
      if app.ht.state == FastAdvertising || app.ht.state == SlowAdvertising {
        StopAdverts(app);
      }
    }
  }

  /** HandleAccessRead */
  method AccessRead(app: App, env: Env, cid: Word, handle: Word, offset: Word)
    requires app.Valid() && env.handles == app.handles
    modifies app.batt, app.devInfo, app.fw
    ensures app.Valid()
    ensures app.State() == HandleAccessRead(old(app.State()), env, cid, handle, offset)
  {
    if GapCheckHandleRange(app.handles, handle) {
      app.gap.HandleAccessRead(cid, handle, offset);
    } else if HealthThermoCheckHandleRange(app.handles, handle) {
      app.thermo.HandleAccessRead(cid, handle);
    } else if BatteryCheckHandleRange(app.handles, handle) {
      app.batt.HandleAccessRead(cid, handle);
    } else if DevInfoCheckHandleRange(app.handles, handle) {
      app.devInfo.HandleAccessRead(cid, handle, env.bdAddr);
    } else {
      app.fw.Issue(AccessRsp(cid, handle, ReadNotPermitted, 0, []));
    }
  }

  /** HandleAccessWrite */
  method AccessWrite(app: App, env: Env, cid: Word, handle: Word, value: seq<Byte>)
    requires app.Valid() && env.handles == app.handles && CccdWriteSized(env.handles, handle, value)
    modifies app.gap, app.gap.devName, app.thermo, app.batt, app.fw
    ensures app.Valid()
    ensures app.State() == HandleAccessWrite(old(app.State()), env, cid, handle, value)
  {
    if GapCheckHandleRange(app.handles, handle) {
      app.gap.HandleAccessWrite(cid, handle, value);
    } else if HealthThermoCheckHandleRange(app.handles, handle) {
      app.thermo.HandleAccessWrite(app.ht.bonded, cid, handle, value);
    } else if BatteryCheckHandleRange(app.handles, handle) {
      app.batt.HandleAccessWrite(app.ht.bonded, cid, handle, value);
    } else {
      app.fw.Issue(AccessRsp(cid, handle, WriteNotPermitted, 0, []));
    }
  }
}
