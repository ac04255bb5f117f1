// The Health Thermometer service as this product uses it: the "temperature
// measurement" characteristic carries a five-byte key/sensor record
// (send counter, heart-rate counter, GHG counter, switch byte, battery level)
// that is notified to the collector, and its client configuration is kept in
// NVM for a bonded collector.

module HealthThermoService {
  import opened Sdk
  import opened GattDb

  const HEALTH_THERMO_SERVICE_NVM_MEMORY_WORDS: nat := 1
  const HEALTH_THERMO_NVM_TEMP_CLIENT_CONFIG_OFFSET: nat := 0
  const MAX_TEMP_MEAS_SIZE: nat := 5

  /** HT_SR_DATA: the last record sent. */
  datatype SrData = SrData(sendcnt: Byte, heartcnt: Byte, ghgcnt: Byte, anjstate: Byte, batlevel: Byte)

  /** g_ht_serv_data, send_count and g_ht_sr_data together. */
  datatype ThermoState = ThermoState(
    indCfmPending: bool,
    tempClientConfig: Word,
    nvmOffset: nat,
    sendCount: Byte,
    sr: SrData)

  function SrBytes(sr: SrData): (bytes: seq<Word>)
    ensures |bytes| == MAX_TEMP_MEAS_SIZE
  {
    [sr.sendcnt, sr.heartcnt, sr.ghgcnt, sr.anjstate, sr.batlevel]
  }

  /** HealthThermoDataInit */
  function HealthThermoDataInit(t: ThermoState, bonded: bool): (t': ThermoState)
    ensures t'.tempClientConfig == if bonded then t.tempClientConfig else CLIENT_CONFIG_NONE
    ensures t'.(tempClientConfig := t.tempClientConfig) == t
  {
    t.(tempClientConfig := if !bonded then CLIENT_CONFIG_NONE else t.tempClientConfig)
  }

  /** HealthThermoHandleAccessRead: the response it sends. */
  function HealthThermoHandleAccessRead(t: ThermoState, h: HandleMap, cid: Word, handle: Word): Request
  {
    if handle == h.tempMeas then AccessRsp(cid, handle, Success, MAX_TEMP_MEAS_SIZE, SrBytes(t.sr))
    else if handle == h.tempMeasCfg then AccessRsp(cid, handle, Success, 2, LittleEndian16(t.tempClientConfig))
    else AccessRsp(cid, handle, IrqProceed, 0, [])
  }

  /** The client may configure notifications on or off, nothing else. */
  predicate AcceptedConfig(c: Word)
  {
    c == CLIENT_CONFIG_NOTIFICATION || c == CLIENT_CONFIG_NONE
  }

  /** HealthThermoHandleAccessWrite */
  function HealthThermoHandleAccessWrite(t: ThermoState, f: FwState, h: HandleMap, bonded: bool, cid: Word, handle: Word, value: seq<Byte>)
    : (ThermoState, FwState)
    requires handle == h.tempMeasCfg ==> |value| >= 2
  {
    if handle == h.tempMeasCfg then
      var c := ReadUint16(value);
      if AcceptedConfig(c) then
        var f1 := if bonded then WithNvmWords(f, t.nvmOffset + HEALTH_THERMO_NVM_TEMP_CLIENT_CONFIG_OFFSET, [c]) else f;
        (t.(tempClientConfig := c), WithRequest(f1, AccessRsp(cid, handle, Success, 0, [])))
      else (t, WithRequest(f, AccessRsp(cid, handle, DescImproperConfig, 0, [])))
    else (t, WithRequest(f, AccessRsp(cid, handle, WriteNotPermitted, 0, [])))
  }

  /** The send counter after one more record: it wraps from 0xFF to 0. */
  function NextSendCount(c: Byte): (c': Byte)
    ensures c' == (c + 1) % 0x100
  {
    if c == 0xFF then 0 else c + 1
  }

  /** HealthThermoSendTempReading: the new state, the firmware, whether a
      notification went out, and the caller's record with its first byte
      replaced by the send counter. */
  function HealthThermoSendTempReading(t: ThermoState, f: FwState, h: HandleMap, ucid: Word, value: seq<Byte>)
    : (ThermoState, FwState, bool, seq<Byte>)
    requires |value| >= MAX_TEMP_MEAS_SIZE
  {
    var c := NextSendCount(t.sendCount);
    var v := value[0 := c];
    var t' := t.(sendCount := c, sr := SrData(c, v[1], v[2], v[3], v[4]));
    if ucid != GATT_INVALID_UCID && NotifyBitSet(t.tempClientConfig) then
      (t', WithRequest(f, CharValueNotification(ucid, h.tempMeas, v[..MAX_TEMP_MEAS_SIZE])), true, v)
    else (t', f, false, v)
  }

  /** HealthThermoReadDataFromNVM: the new state and the next free NVM offset. */
  function HealthThermoReadDataFromNvm(t: ThermoState, f: FwState, bonded: bool, offset: nat): (ThermoState, nat)
  {
    (t.(nvmOffset := offset,
        tempClientConfig := if bonded then NvmWord(f.nvm, offset + HEALTH_THERMO_NVM_TEMP_CLIENT_CONFIG_OFFSET)
                            else t.tempClientConfig),
     offset + HEALTH_THERMO_SERVICE_NVM_MEMORY_WORDS)
  }

  /** HealthThermoCheckHandleRange */
  function HealthThermoCheckHandleRange(h: HandleMap, handle: Word): (inside: bool)
    ensures inside <==> h.htStart <= handle <= h.htEnd
  {
    InRange(h.htStart, h.htEnd, handle)
  }

  /** HealthThermoBondingNotify */
  function HealthThermoBondingNotify(t: ThermoState, f: FwState, bonded: bool): FwState
  {
    if bonded then WithNvmWords(f, t.nvmOffset + HEALTH_THERMO_NVM_TEMP_CLIENT_CONFIG_OFFSET, [t.tempClientConfig]) else f
  }

  // ---- properties -------------------------------------------------------

  /** Sending a record stamps it with the next counter value, remembers it for
      later reads, and notifies it exactly when connected with notifications on. */
  lemma SendTempReadingContract(t: ThermoState, f: FwState, h: HandleMap, ucid: Word, value: seq<Byte>)
    requires |value| >= MAX_TEMP_MEAS_SIZE
    ensures var (t', f', sent, v) := HealthThermoSendTempReading(t, f, h, ucid, value);
      && t'.sendCount == (t.sendCount + 1) % 0x100
      && |v| == |value| && v[0] == t'.sendCount && v[1..] == value[1..]
      && (sent <==> ucid != GATT_INVALID_UCID && NotifyBitSet(t.tempClientConfig))
      && (sent ==> f'.log == f.log + [CharValueNotification(ucid, h.tempMeas, v[..MAX_TEMP_MEAS_SIZE])])
      && (!sent ==> f' == f)
      && t'.tempClientConfig == t.tempClientConfig
  {
  }

  /** A read of the measurement returns exactly the record last sent (or offered). */
  lemma ReadReturnsLastRecord(t: ThermoState, f: FwState, h: HandleMap, ucid: Word, value: seq<Byte>, cid: Word)
    requires |value| >= MAX_TEMP_MEAS_SIZE
    ensures var (t', _, _, v) := HealthThermoSendTempReading(t, f, h, ucid, value);
      HealthThermoHandleAccessRead(t', h, cid, h.tempMeas) == AccessRsp(cid, h.tempMeas, Success, 5, v[..MAX_TEMP_MEAS_SIZE])
  {
  }

  /** The send counter runs through all 256 values: after 256 records it is back. */
  lemma {:induction false} SendCountPeriod(c: Byte, k: nat)
    ensures SendCountAfter(c, k) == (c + k) % 0x100
  {
    if k > 0 {
      SendCountPeriod(c, k - 1);
      ByteIncrement(c + k - 1);
    }
  }

  function SendCountAfter(c: Byte, k: nat): Byte
  {
    if k == 0 then c else NextSendCount(SendCountAfter(c, k - 1))
  }

  /** A write of the configuration is accepted exactly for "none" and
      "notification"; an accepted one is stored, and kept in NVM when bonded;
      the response carries the verdict. */
  lemma WriteConfigAcceptance(t: ThermoState, f: FwState, h: HandleMap, bonded: bool, cid: Word, value: seq<Byte>)
    requires |value| >= 2
    ensures var (t', f') := HealthThermoHandleAccessWrite(t, f, h, bonded, cid, h.tempMeasCfg, value);
      var c := ReadUint16(value);
      var rc := if AcceptedConfig(c) then Success else DescImproperConfig;
      && f'.log == f.log + [AccessRsp(cid, h.tempMeasCfg, rc, 0, [])]
      && (AcceptedConfig(c) ==> t' == t.(tempClientConfig := c))
      && (!AcceptedConfig(c) ==> t' == t && f'.nvm == f.nvm)
      && (AcceptedConfig(c) && bonded ==> NvmWord(f'.nvm, t.nvmOffset) == c)
      && (!bonded ==> f'.nvm == f.nvm)
  {
  }

  /** A write to any other handle is refused and changes nothing but the log. */
  lemma WriteOtherHandleRefused(t: ThermoState, f: FwState, h: HandleMap, bonded: bool, cid: Word, handle: Word, value: seq<Byte>)
    requires handle != h.tempMeasCfg
    ensures HealthThermoHandleAccessWrite(t, f, h, bonded, cid, handle, value)
         == (t, WithRequest(f, AccessRsp(cid, handle, WriteNotPermitted, 0, [])))
  {
  }

  /** What a bonded device keeps in NVM is what it reads back after a reset. */
  lemma BondingNotifyRoundTrip(t: ThermoState, f: FwState, offset: nat)
    requires t.nvmOffset == offset
    ensures var f' := HealthThermoBondingNotify(t, f, true);
      HealthThermoReadDataFromNvm(t.(tempClientConfig := 0), f', true, offset).0.tempClientConfig == t.tempClientConfig
  {
  }

  // ---- the service object -----------------------------------------------

  class Thermo {
    var indCfmPending: bool
    var tempClientConfig: Word
    var nvmOffset: nat
    var sendCount: Byte
    var sr: SrData
    const fw: Firmware
    const handles: HandleMap

    function State(): ThermoState
      reads this
    {
      ThermoState(indCfmPending, tempClientConfig, nvmOffset, sendCount, sr)
    }

    constructor (fw: Firmware, handles: HandleMap)
      ensures State() == ThermoState(false, 0, 0, 0, SrData(0, 0, 0, 0, 0))
      ensures this.fw == fw && this.handles == handles
    {
      indCfmPending := false;
      tempClientConfig := 0;
      nvmOffset := 0;
      sendCount := 0;
      sr := SrData(0, 0, 0, 0, 0);
      this.fw := fw;
      this.handles := handles;
    }

    method DataInit(bonded: bool)
      modifies this
      ensures State() == HealthThermoDataInit(old(State()), bonded)
    {
      if !bonded {
        tempClientConfig := CLIENT_CONFIG_NONE;
      }
    }

    method HandleAccessRead(cid: Word, handle: Word)
      modifies fw
      ensures fw.State() == WithRequest(old(fw.State()), HealthThermoHandleAccessRead(State(), handles, cid, handle))
    {
      var rsp;
      if handle == handles.tempMeas {
        rsp := AccessRsp(cid, handle, Success, MAX_TEMP_MEAS_SIZE,
                         [sr.sendcnt, sr.heartcnt, sr.ghgcnt, sr.anjstate, sr.batlevel]);
      } else if handle == handles.tempMeasCfg {
        rsp := AccessRsp(cid, handle, Success, 2, LittleEndian16(tempClientConfig));
      } else {
        rsp := AccessRsp(cid, handle, IrqProceed, 0, []);
      }
      fw.Issue(rsp);
    }

    method HandleAccessWrite(bonded: bool, cid: Word, handle: Word, value: seq<Byte>)
      requires handle == handles.tempMeasCfg ==> |value| >= 2
      modifies this, fw
      ensures (State(), fw.State()) == HealthThermoHandleAccessWrite(old(State()), old(fw.State()), handles, bonded, cid, handle, value)
    {
      var rc := Success;
      if handle == handles.tempMeasCfg {
        var clientConfig := ReadUint16(value);
        if clientConfig == CLIENT_CONFIG_NOTIFICATION || clientConfig == CLIENT_CONFIG_NONE {
          tempClientConfig := clientConfig;
          if bonded {
            fw.NvmWrite(nvmOffset + HEALTH_THERMO_NVM_TEMP_CLIENT_CONFIG_OFFSET, [clientConfig]);
          }
        } else {
          rc := DescImproperConfig;
        }
      } else {
        rc := WriteNotPermitted;
      }
      fw.Issue(AccessRsp(cid, handle, rc, 0, []));
    }

    /** The caller's record is updated in place; the result says whether it was notified. */
    method SendTempReading(ucid: Word, value: array<Byte>) returns (sent: bool)
      requires value.Length >= MAX_TEMP_MEAS_SIZE
      modifies this, fw, value
      ensures (State(), fw.State(), sent, value[..]) == HealthThermoSendTempReading(old(State()), old(fw.State()), handles, ucid, old(value[..]))
    {
      if sendCount == 0xFF {
        sendCount := 0;
      } else {
        sendCount := sendCount + 1;
      }
      value[0] := sendCount;
      sr := SrData(sendCount, value[1], value[2], value[3], value[4]);
      if ucid != GATT_INVALID_UCID && NotifyBitSet(tempClientConfig) {
        fw.Issue(CharValueNotification(ucid, handles.tempMeas, value[..MAX_TEMP_MEAS_SIZE]));
        sent := true;
      } else {
        sent := false;
      }
    }

    method ReadDataFromNvm(bonded: bool, offset: nat) returns (next: nat)
      modifies this
      ensures (State(), next) == HealthThermoReadDataFromNvm(old(State()), fw.State(), bonded, offset)
    {
      nvmOffset := offset;
      if bonded {
        var ws := fw.NvmRead(offset + HEALTH_THERMO_NVM_TEMP_CLIENT_CONFIG_OFFSET, 1);
        tempClientConfig := ws[0];
      }
      next := offset + HEALTH_THERMO_SERVICE_NVM_MEMORY_WORDS;
    }

    method BondingNotify(bonded: bool)
      modifies fw
      ensures fw.State() == HealthThermoBondingNotify(State(), old(fw.State()), bonded)
    {
      if bonded {
        fw.NvmWrite(nvmOffset + HEALTH_THERMO_NVM_TEMP_CLIENT_CONFIG_OFFSET, [tempClientConfig]);
      }
    }
  }
}
