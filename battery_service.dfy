// The Battery service: the battery level characteristic, read on demand and
// notified when it changes, and its client configuration, kept in NVM for a
// bonded collector.

module BatteryService {
  import opened Sdk
  import opened GattDb

  const BATTERY_LEVEL_FULL: nat := 100
  const BATTERY_FULL_BATTERY_VOLTAGE: nat := 3000   // mV
  const BATTERY_FLAT_BATTERY_VOLTAGE: nat := 1800   // mV
  const BATTERY_SERVICE_NVM_MEMORY_WORDS: nat := 1
  const BATTERY_NVM_LEVEL_CLIENT_CONFIG_OFFSET: nat := 0

  /** g_batt_data */
  datatype BattState = BattState(level: Byte, levelClientConfig: Word, nvmOffset: nat)

  /** readBatteryLevel: the battery voltage (mV) as a percentage between flat and full.
      The source computes in 32 bits; a 16-bit voltage cannot overflow that. */
  function ReadBatteryLevel(voltage: Word): (level: Byte)
    ensures level <= BATTERY_LEVEL_FULL
    ensures voltage <= BATTERY_FLAT_BATTERY_VOLTAGE ==> level == 0
    ensures voltage >= BATTERY_FULL_BATTERY_VOLTAGE ==> level == BATTERY_LEVEL_FULL
    ensures BATTERY_FLAT_BATTERY_VOLTAGE <= voltage <= BATTERY_FULL_BATTERY_VOLTAGE ==>
      level * 1200 <= (voltage - BATTERY_FLAT_BATTERY_VOLTAGE) * 100 < (level + 1) * 1200
  {
    var v := if voltage < BATTERY_FLAT_BATTERY_VOLTAGE then BATTERY_FLAT_BATTERY_VOLTAGE else voltage;
    var lvl := ((v - BATTERY_FLAT_BATTERY_VOLTAGE) * 100) / (BATTERY_FULL_BATTERY_VOLTAGE - BATTERY_FLAT_BATTERY_VOLTAGE);
    if lvl > 100 then 100 else lvl
  }

  /** A higher voltage never reads as a lower level. */
  lemma ReadBatteryLevelMonotonic(v1: Word, v2: Word)
    requires v1 <= v2
    ensures ReadBatteryLevel(v1) <= ReadBatteryLevel(v2)
  {
    var l1: int, l2: int := ReadBatteryLevel(v1), ReadBatteryLevel(v2);
    if BATTERY_FLAT_BATTERY_VOLTAGE <= v1 && v2 <= BATTERY_FULL_BATTERY_VOLTAGE {
      assert l1 * 1200 < (l2 + 1) * 1200;
    }
  }

  /** BatteryDataInit */
  function BatteryDataInit(b: BattState, bonded: bool): (b': BattState)
    ensures !bonded ==> b'.levelClientConfig == CLIENT_CONFIG_NONE
    ensures bonded ==> b' == b
    ensures b'.(levelClientConfig := b.levelClientConfig) == b
  {
    if !bonded then b.(levelClientConfig := CLIENT_CONFIG_NONE) else b
  }

  /** BatteryInitChipReset */
  function BatteryInitChipReset(b: BattState): (b': BattState)
    ensures b' == b.(level := 0)
  {
    b.(level := 0)
  }

  /** BatteryHandleAccessRead */
  function BatteryHandleAccessRead(b: BattState, f: FwState, h: HandleMap, cid: Word, handle: Word): (BattState, FwState)
  {
    if handle == h.battLevel then
      var lvl := ReadBatteryLevel(f.voltage);
      (b.(level := lvl), WithRequest(f, AccessRsp(cid, handle, Success, 1, [lvl])))
    else if handle == h.battLevelCfg then
      (b, WithRequest(f, AccessRsp(cid, handle, Success, 2, LittleEndian16(b.levelClientConfig))))
    else
      (b, WithRequest(f, AccessRsp(cid, handle, ReadNotPermitted, 0, [])))
  }

  /** The client may configure notifications on or off, nothing else. */
  predicate AcceptedConfig(c: Word)
  {
    c == CLIENT_CONFIG_NOTIFICATION || c == CLIENT_CONFIG_NONE
  }

  /** The part of BatteryHandleAccessWrite before the response is sent. */
  function BatteryWriteConfig(b: BattState, f: FwState, h: HandleMap, bonded: bool, handle: Word, value: seq<Byte>)
    : (BattState, FwState, GattStatus)
    requires handle == h.battLevelCfg ==> |value| >= 2
  {
    if handle == h.battLevelCfg then
      var c := ReadUint16(value);
      if AcceptedConfig(c) then
        (b.(levelClientConfig := c),
         if bonded then WithNvmWords(f, b.nvmOffset + BATTERY_NVM_LEVEL_CLIENT_CONFIG_OFFSET, [c]) else f,
         Success)
      else (b, f, DescImproperConfig)
    else (b, f, WriteNotPermitted)
  }

  /** BatteryHandleAccessWrite */
  function BatteryHandleAccessWrite(b: BattState, f: FwState, h: HandleMap, bonded: bool, cid: Word, handle: Word, value: seq<Byte>)
    : (BattState, FwState)
    requires handle == h.battLevelCfg ==> |value| >= 2
  {
    var (b1, f1, rc) := BatteryWriteConfig(b, f, h, bonded, handle, value);
    var f2 := WithRequest(f1, AccessRsp(cid, handle, rc, 0, []));
    if NotifyBitSet(b1.levelClientConfig) then
      BatteryUpdateLevel(b1.(level := 0xFF), f2, h, cid)
    else (b1, f2)
  }

  /** BatteryUpdateLevel */
  function BatteryUpdateLevel(b: BattState, f: FwState, h: HandleMap, ucid: Word): (BattState, FwState)
  {
    var cur := ReadBatteryLevel(f.voltage);
    if b.level != cur && ucid != GATT_INVALID_UCID && NotifyBitSet(b.levelClientConfig) then
      (b.(level := cur), WithRequest(f, CharValueNotification(ucid, h.battLevel, [cur])))
    else (b, f)
  }

  /** BatteryReadDataFromNVM: the new state and the next free NVM offset. */
  function BatteryReadDataFromNvm(b: BattState, f: FwState, bonded: bool, offset: nat): (BattState, nat)
  {
    (b.(nvmOffset := offset,
        levelClientConfig := if bonded then NvmWord(f.nvm, offset + BATTERY_NVM_LEVEL_CLIENT_CONFIG_OFFSET)
                             else b.levelClientConfig),
     offset + BATTERY_SERVICE_NVM_MEMORY_WORDS)
  }

  /** BatteryCheckHandleRange */
  function BatteryCheckHandleRange(h: HandleMap, handle: Word): (inside: bool)
    ensures inside <==> h.battStart <= handle <= h.battEnd
  {
    InRange(h.battStart, h.battEnd, handle)
  }

  /** BatteryBondingNotify */
  function BatteryBondingNotify(b: BattState, f: FwState, bonded: bool): FwState
  {
    if bonded then WithNvmWords(f, b.nvmOffset + BATTERY_NVM_LEVEL_CLIENT_CONFIG_OFFSET, [b.levelClientConfig]) else f
  }

  // ---- properties -------------------------------------------------------

  /** A level update notifies exactly when the level changed, the link is up and
      notifications are enabled; the cached level moves only when it notifies. */
  lemma UpdateLevelNotifiesOnChange(b: BattState, f: FwState, h: HandleMap, ucid: Word)
    ensures var (b', f') := BatteryUpdateLevel(b, f, h, ucid);
      var cur := ReadBatteryLevel(f.voltage);
      var notify := b.level != cur && ucid != GATT_INVALID_UCID && NotifyBitSet(b.levelClientConfig);
      && (notify ==> b'.level == cur && f'.log == f.log + [CharValueNotification(ucid, h.battLevel, [cur])])
      && (!notify ==> b' == b && f' == f)
  {
  }

  /** Reading the level characteristic reports the current level and caches it. */
  lemma ReadLevelIsCurrent(b: BattState, f: FwState, h: HandleMap, cid: Word)
    ensures var (b', f') := BatteryHandleAccessRead(b, f, h, cid, h.battLevel);
      var lvl := ReadBatteryLevel(f.voltage);
      b'.level == lvl && lvl <= BATTERY_LEVEL_FULL && f'.log == f.log + [AccessRsp(cid, h.battLevel, Success, 1, [lvl])]
  {
  }

  /** A write of the configuration is accepted exactly for "none" and
      "notification"; an accepted one is stored, and kept in NVM when bonded. */
  lemma WriteConfigAcceptance(b: BattState, f: FwState, h: HandleMap, bonded: bool, value: seq<Byte>)
    requires |value| >= 2
    ensures var (b1, f1, rc) := BatteryWriteConfig(b, f, h, bonded, h.battLevelCfg, value);
      var c := ReadUint16(value);
      && (rc == Success <==> AcceptedConfig(c))
      && (rc != Success ==> rc == DescImproperConfig && b1 == b && f1 == f)
      && (rc == Success ==> b1.levelClientConfig == c)
      && (rc == Success && bonded ==> NvmWord(f1.nvm, b.nvmOffset) == c)
      && (!bonded ==> f1 == f)
  {
  }

  /** A write to any other battery handle is refused and changes nothing. */
  lemma WriteOtherHandleRefused(b: BattState, f: FwState, h: HandleMap, bonded: bool, handle: Word, value: seq<Byte>)
    requires handle != h.battLevelCfg
    ensures BatteryWriteConfig(b, f, h, bonded, handle, value) == (b, f, WriteNotPermitted)
  {
  }

  /** Once notifications are on, any write on a valid connection is followed at
      once by a notification of the current level. */
  lemma WriteWithNotificationsSendsLevel(b: BattState, f: FwState, h: HandleMap, bonded: bool, cid: Word, handle: Word, value: seq<Byte>)
    requires handle == h.battLevelCfg ==> |value| >= 2
    requires cid != GATT_INVALID_UCID
    requires NotifyBitSet(BatteryWriteConfig(b, f, h, bonded, handle, value).0.levelClientConfig)
    ensures var (b', f') := BatteryHandleAccessWrite(b, f, h, bonded, cid, handle, value);
      var cur := ReadBatteryLevel(f.voltage);
      var rc := BatteryWriteConfig(b, f, h, bonded, handle, value).2;
      && b'.level == cur
      && |f'.log| >= 2
      && f'.log[|f'.log| - 2] == AccessRsp(cid, handle, rc, 0, [])
      && f'.log[|f'.log| - 1] == CharValueNotification(cid, h.battLevel, [cur])
  {
    var (b1, f1, rc) := BatteryWriteConfig(b, f, h, bonded, handle, value);
    assert f1.voltage == f.voltage;
  }

  /** NVM layout: the service's block starts where it is told and is one word long. */
  lemma ReadDataFromNvmLayout(b: BattState, f: FwState, bonded: bool, offset: nat)
    ensures var (b', next) := BatteryReadDataFromNvm(b, f, bonded, offset);
      && b'.nvmOffset == offset && next == offset + 1
      && (bonded ==> b'.levelClientConfig == NvmWord(f.nvm, offset))
      && (!bonded ==> b'.levelClientConfig == b.levelClientConfig)
  {
  }

  /** What a bonded device keeps in NVM is what it reads back after a reset. */
  lemma BondingNotifyRoundTrip(b: BattState, f: FwState, offset: nat)
    requires b.nvmOffset == offset
    ensures var f' := BatteryBondingNotify(b, f, true);
      BatteryReadDataFromNvm(b.(levelClientConfig := 0), f', true, offset).0.levelClientConfig == b.levelClientConfig
  {
  }

  // ---- the service object -----------------------------------------------

  class Battery {
    var level: Byte
    var levelClientConfig: Word
    var nvmOffset: nat
    const fw: Firmware
    const handles: HandleMap

    function State(): BattState
      reads this
    {
      BattState(level, levelClientConfig, nvmOffset)
    }

    constructor (fw: Firmware, handles: HandleMap)
      ensures State() == BattState(0, 0, 0)
      ensures this.fw == fw && this.handles == handles
    {
      level := 0;
      levelClientConfig := 0;
      nvmOffset := 0;
      this.fw := fw;
      this.handles := handles;
    }

    method DataInit(bonded: bool)
      modifies this
      ensures State() == BatteryDataInit(old(State()), bonded)
    {
      if !bonded {
        levelClientConfig := CLIENT_CONFIG_NONE;
      }
    }

    method InitChipReset()
      modifies this
      ensures State() == BatteryInitChipReset(old(State()))
    {
      level := 0;
    }

    method HandleAccessRead(cid: Word, handle: Word)
      modifies this, fw
      ensures (State(), fw.State()) == BatteryHandleAccessRead(old(State()), old(fw.State()), handles, cid, handle)
    {
      if handle == handles.battLevel {
        level := ReadBatteryLevel(fw.voltage);
        fw.Issue(AccessRsp(cid, handle, Success, 1, [level]));
      } else if handle == handles.battLevelCfg {
        fw.Issue(AccessRsp(cid, handle, Success, 2, LittleEndian16(levelClientConfig)));
      } else {
        fw.Issue(AccessRsp(cid, handle, ReadNotPermitted, 0, []));
      }
    }

    method HandleAccessWrite(bonded: bool, cid: Word, handle: Word, value: seq<Byte>)
      requires handle == handles.battLevelCfg ==> |value| >= 2
      modifies this, fw
      ensures (State(), fw.State()) == BatteryHandleAccessWrite(old(State()), old(fw.State()), handles, bonded, cid, handle, value)
    {
      var rc := Success;
      if handle == handles.battLevelCfg {
        var clientConfig := ReadUint16(value);
        if clientConfig == CLIENT_CONFIG_NOTIFICATION || clientConfig == CLIENT_CONFIG_NONE {
          levelClientConfig := clientConfig;
          if bonded {
            fw.NvmWrite(nvmOffset + BATTERY_NVM_LEVEL_CLIENT_CONFIG_OFFSET, [clientConfig]);
          }
        } else {
          rc := DescImproperConfig;
        }
      } else {
        rc := WriteNotPermitted;
      }
      fw.Issue(AccessRsp(cid, handle, rc, 0, []));
      if NotifyBitSet(levelClientConfig) {
        level := 0xFF;
        UpdateLevel(cid);
      }
    }

    method UpdateLevel(ucid: Word)
      modifies this, fw
      ensures (State(), fw.State()) == BatteryUpdateLevel(old(State()), old(fw.State()), handles, ucid)
    {
      var cur := ReadBatteryLevel(fw.voltage);
      var oldLevel := level;
      if oldLevel != cur {
        if ucid != GATT_INVALID_UCID && NotifyBitSet(levelClientConfig) {
          fw.Issue(CharValueNotification(ucid, handles.battLevel, [cur]));
          level := cur;
        }
      }
    }

    method ReadDataFromNvm(bonded: bool, offset: nat) returns (next: nat)
      modifies this
      ensures (State(), next) == BatteryReadDataFromNvm(old(State()), fw.State(), bonded, offset)
    {
      nvmOffset := offset;
      if bonded {
        var ws := fw.NvmRead(offset + BATTERY_NVM_LEVEL_CLIENT_CONFIG_OFFSET, 1);
        levelClientConfig := ws[0];
      }
      next := offset + BATTERY_SERVICE_NVM_MEMORY_WORDS;
    }

    method BondingNotify(bonded: bool)
      modifies fw
      ensures fw.State() == BatteryBondingNotify(State(), old(fw.State()), bonded)
    {
      if bonded {
        fw.NvmWrite(nvmOffset + BATTERY_NVM_LEVEL_CLIENT_CONFIG_OFFSET, [levelClientConfig]);
      }
    }
  }
}
