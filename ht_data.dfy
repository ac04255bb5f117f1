// The application's own record, g_ht_data, the connection state machine's
// states, and the whole device: the record together with the hardware data,
// the four services and the firmware they share.

module HtData {
  import opened Sdk
  import opened GattDb
  import opened HtHw
  import opened GapService
  import opened BatteryService
  import opened HealthThermoService
  import opened DevInfoService

  /** app_state */
  datatype AppState = AppStateInit | FastAdvertising | SlowAdvertising | Connected | Disconnecting | Idle

  /** HT_DATA_T */
  datatype HtState = HtState(
    state: AppState,
    appTid: TimerId,
    conBdAddr: TypedBdAddr,
    stUcid: Word,
    bonded: bool,
    bondedBdAddr: TypedBdAddr,
    diversifier: Word,
    cpuTid: TimerId,           // con_param_update_tid
    cpuTimerValue: nat,        // cpu_timer_value
    irk: Irk,                  // central_device_irk
    numConnUpdateReq: Byte,
    encryptEnabled: bool,
    pairingButtonPressed: bool,
    bondingTid: TimerId,       // bonding_reattempt_tid
    connInterval: Word,
    connLatency: Word,
    connTimeout: Word)

  const ZERO_IRK: Irk := [0, 0, 0, 0, 0, 0, 0, 0]

  /** The record as the loader leaves it: all zero, no timers. */
  const HT_POWER_ON: HtState :=
    HtState(AppStateInit, TimerInvalid, ZERO_ADDR, 0, false, ZERO_ADDR, 0, TimerInvalid, 0, ZERO_IRK,
            0, false, false, TimerInvalid, 0, 0, 0)

  /** The whole device: every global record and the firmware. */
  datatype Sys = Sys(
    ht: HtState,
    hw: HwState,
    gap: GapState,
    batt: BattState,
    thermo: ThermoState,
    devInfo: seq<Byte>,
    fw: FwState)

  /** What the application reads but never changes: the attribute handles of
      its database, the transmit power level, the device's own address (None
      when it cannot be read), and SMPrivacyMatchAddress, which resolves a
      resolvable private address with an identity resolving key. */
  datatype Env = Env(handles: HandleMap, txPower: Byte, bdAddr: Option<BdAddr>, privacyMatch: (TypedBdAddr, Irk) -> bool)

  /** g_ht_data and the records it works with. The application record is
      one field, reassigned as a whole whenever a handler changes part of it;
      the hardware data, the services and the firmware are objects of their own. */
  class App {
    var ht: HtState

    const hw: HwData
    const gap: Gap
    const batt: Battery
    const thermo: Thermo
    const devInfo: DevInfo
    const fw: Firmware
    const handles: HandleMap

    /** Everything a handler may change. */
    function Repr(): set<object>
    {
      {this, hw, gap, gap.devName, batt, thermo, devInfo, fw}
    }

    /** All parts share one firmware and one attribute database. It reads
        only constant fields, so once true it stays true. */
    predicate Linked()
    {
      && hw.fw == fw && gap.fw == fw && batt.fw == fw && thermo.fw == fw && devInfo.fw == fw
      && gap.handles == handles && batt.handles == handles && thermo.handles == handles && devInfo.handles == handles
    }

    /** The parts are linked and the name buffer is well formed. */
    predicate Valid()
      reads gap, gap.devName
    {
      Linked() && gap.Valid()
    }

    function State(): Sys
      requires Valid()
      reads this, hw, gap, gap.devName, batt, thermo, devInfo, fw
    {
      Sys(ht, hw.State(), gap.State(), batt.State(), thermo.State(), devInfo.systemId, fw.State())
    }

    /** The device after power-on, before AppInit runs. */
    constructor (nvm0: map<nat, Word>, voltage0: Word, handles: HandleMap)
      ensures Valid() && fresh(Repr())
      ensures State() == Sys(HT_POWER_ON, HW_POWER_ON, GapRec(15, INITIAL_DEVICE_NAME, 0), BattState(0, 0, 0),
                           ThermoState(false, 0, 0, 0, SrData(0, 0, 0, 0, 0)), [0, 0, 0, 0, 0, 0, 0, 0],
                           FwState([], 0, map[], nvm0, false, voltage0, None))
    {
      var f := new Firmware(nvm0, voltage0);
      ht := HT_POWER_ON;
      fw := f;
      hw := new HwData(f);
      gap := new Gap(f, handles);
      batt := new Battery(f, handles);
      thermo := new Thermo(f, handles);
      devInfo := new DevInfo(f, handles);
      this.handles := handles;
    }
  }
}
