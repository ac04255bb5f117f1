# Health Thermometer peripheral on the CSR uEnergy SDK

This project models a single-connection Bluetooth LE peripheral built on the
CSR uEnergy SDK. The peripheral carries key and sensor information over a Health
Thermometer service. The model covers:

- **`HealthThermometer`** — the application in `health_thermometer.c`:
  - the connection state machine: init, fast and slow advertising, connected,
    disconnecting and idle, with its exit and entry actions;
  - the connection parameter negotiator: the TGAP(conn_pause_peripheral) 5 s and
    TGAP(conn_pause_central) 1 s pauses, 30 s retries, a budget of four requests
    and two parameter profiles;
  - the bonding coordinator: pairing authorisation, diversifier approval, the
    30 s bonding-chance timer and storing the IRK and diversifier;
  - the disconnect-reason table;
  - bond removal by an extra-long button press;
  - the persistent store with its fixed word offsets;
  - the dispatch of firmware events and timer expiries.
- **`HtGatt`** — `ht_gatt.c`:
  - the advertising controller: the 31-byte payload budget, device-name
    placement, the whitelist or open connect filter and the advert timeout;
  - the attribute read and write routers;
  - the resolvable-private-address test.
- **`BatteryService`, `HealthThermoService`, `GapService`, `DevInfoService`** —
  the four services. They cover CCCD validation, the voltage-to-percentage
  mapping, the wrapping send counter, the device name and its store, and the
  System ID layout.
- **`HtHw`** — `ht_hw.c`:
  - the buzzer sequencer, driven by a timer and a beep count;
  - the button decoder: the switch byte, the edge-counted press counters and
    the output record.
- **`Sdk`** — the part of the firmware the application sees, reduced to values:
  - each request the application makes is appended to a log;
  - timers come from a fresh-handle allocator and live in an armed map;
  - the NVM is a map from word offset to word;
  - the PWM is a flag;
  - a panic halts the device.
- **`GattDb`** — the attribute handles of the generated database. They are a
  parameter with non-overlapping service ranges.
- **`HtData`** — the application record `g_ht_data` and the device as a whole.

Each C global record is a class whose fields the methods update. A datatype
snapshot gives its `State()`. Each handler has a specification function from
the device before the event to the device after it. The handler's method is
proved to end in the state that function gives. `HtProofs` proves the
application's properties about those functions for every device state.

## Model

| member | source | states |
|---|---|---|
| Sdk.WithRequest | health_thermometer.c:1837-1840 | A request is appended to the log as its last entry and nothing else of the firmware changes |
| Sdk.WithTimer | health_thermometer.c:774-777 | TimerCreate hands out a handle never handed out before, arms it with its duration and callback, leaves every other armed timer as it was and keeps handles fresh |
| Sdk.WithoutTimer | health_thermometer.c:167-176 | TimerDelete disarms only that timer (an invalid id disarms nothing), keeps the others and changes nothing else |
| Sdk.WithPanic | health_thermometer.c:1604-1608 | ReportPanic halts the device with its code and changes nothing else |
| Sdk.NvmWords | nvm_access.c:71-87 | Nvm_Read of n words returns exactly n words, word i being the stored word at offset + i |
| Sdk.StoreWords | nvm_access.c:107-143 | Nvm_Write replaces exactly the words in [offset, offset + n) with the given ones and leaves every other word |
| Sdk.WithNvmWords | nvm_access.c:107-143 | An NVM write changes only the store |
| Sdk.NvmRoundTrip | nvm_access.c:71-143 | Reading back the words just written returns them |
| Sdk.NvmWriteLocal | nvm_access.c:107-143 | A write leaves every word outside its range as it was |
| Sdk.ByteIncrement | health_thermo_service.c:283-290 | Incrementing a byte counter that wraps at 0xFF agrees with incrementing modulo 256 |
| Sdk.LittleEndian16 | battery_service.c:225 | BufWriteUint16 writes two bytes, low byte first, that add up to the value |
| Sdk.Uint16RoundTrip | battery_service.c:267 | BufReadUint16 of what BufWriteUint16 wrote is the original value |
| Sdk.NotifyBitSetMeansOdd | app_gatt.h:80-94 | The notification bit of a client configuration is set iff the value is odd |
| Sdk.Firmware.constructor | health_thermometer.c:1892-1895 | After power-on the log is empty, no timer is armed, PWM is off and the NVM and voltage are as given |
| Sdk.Firmware.Issue | health_thermometer.c:1846 | Issuing a request appends it to the log |
| Sdk.Firmware.TimerInit | health_thermometer.c:1921 | TimerInit disarms every timer |
| Sdk.Firmware.TimerCreate | health_thermometer.c:464-466 | Returns the fresh handle and arms it |
| Sdk.Firmware.TimerDelete | health_thermometer.c:167-168 | Disarms the given timer |
| Sdk.Firmware.TimerFire | ht_gatt.c:491-492 | The SDK dispatches expiries itself, so no application line does this; a timer armed by a TimerCreate such as the cited one is disarmed when it expires and the callback it was created with is returned; an unarmed one yields no callback |
| Sdk.Firmware.NvmWrite | nvm_access.c:107-143 | Writes the words at the offset |
| Sdk.Firmware.NvmRead | nvm_access.c:71-87 | Returns the n stored words at the offset |
| Sdk.Firmware.EnablePwm | ht_hw.c:358 | PioEnablePWM switches the buzzer PWM |
| Sdk.Firmware.SetVoltage | battery_service.c:110 | The battery voltage read by BatteryReadVoltage is replaced |
| Sdk.Firmware.Panic | health_thermometer.c:1604-1608 | Halts the device with the code |
| BatteryService.ReadBatteryLevel | battery_service.c:104-131 | The level is at most 100, 0 at or below 1800 mV, 100 at or above 3000 mV, and in between the integer quotient of (v - 1800) * 100 by 1200 |
| BatteryService.ReadBatteryLevelMonotonic | battery_service.c:110-130 | The level never decreases as the voltage rises |
| BatteryService.BatteryDataInit | battery_service.c:150-160 | The client configuration is reset to none only when not bonded; nothing else changes |
| BatteryService.BatteryInitChipReset | battery_service.c:175-182 | After a chip reset the stored level is 0 |
| BatteryService.BatteryCheckHandleRange | battery_service.c:419-424 | True iff the handle lies in the service's range, both ends included |
| BatteryService.UpdateLevelNotifiesOnChange | battery_service.c:337-367 | A notification of the current level is sent, and the level stored, iff the level changed, the connection is valid and notifications are enabled; otherwise nothing changes |
| BatteryService.ReadLevelIsCurrent | battery_service.c:199-240 | A read of the level returns 1 byte holding the current level, at most 100, and refreshes the stored level |
| BatteryService.WriteConfigAcceptance | battery_service.c:263-303 | A CCCD write succeeds iff the value is none or notification; success stores it, and persists it at nvm_offset only when bonded; failure yields desc_improper_config and changes nothing |
| BatteryService.WriteOtherHandleRefused | battery_service.c:300-303 | A write to any other handle yields write_not_permitted and changes nothing |
| BatteryService.WriteWithNotificationsSendsLevel | battery_service.c:307-319 | After a write that leaves notifications enabled on a valid connection, the response is followed by a notification of the current level, whichever handle was written |
| BatteryService.ReadDataFromNvmLayout | battery_service.c:383-403 | The offset is recorded and advanced by exactly 1; the CCCD is read from the store only when bonded |
| BatteryService.BondingNotifyRoundTrip | battery_service.c:440-455 | The CCCD written when bonding is what the next read of the store returns |
| BatteryService.Battery.constructor | battery_service.c:150-160 | The record starts zeroed and shares the firmware and handles |
| BatteryService.Battery.DataInit | battery_service.c:150-160 | BatteryDataInit on the record |
| BatteryService.Battery.InitChipReset | battery_service.c:175-182 | BatteryInitChipReset on the record |
| BatteryService.Battery.HandleAccessRead | battery_service.c:199-240 | The record and firmware end as the read's specification gives |
| BatteryService.Battery.HandleAccessWrite | battery_service.c:257-321 | The record and firmware end as the write's specification gives |
| BatteryService.Battery.UpdateLevel | battery_service.c:337-367 | The record and firmware end as the level update's specification gives |
| BatteryService.Battery.ReadDataFromNvm | battery_service.c:383-403 | The record and next offset are as the store read's specification gives |
| BatteryService.Battery.BondingNotify | battery_service.c:440-455 | The firmware ends as the bonding notification's specification gives |
| HealthThermoService.SrBytes | health_thermo_service.c:291-296 | The snapshot is exactly five bytes |
| HealthThermoService.HealthThermoDataInit | health_thermo_service.c:119-131 | The CCCD is reset to none only when not bonded; nothing else changes, and ind_cfm_pending in particular is left as it was |
| HealthThermoService.NextSendCount | health_thermo_service.c:283-290 | The send count goes up by one and wraps from 0xFF to 0 |
| HealthThermoService.HealthThermoCheckHandleRange | health_thermo_service.c:382-387 | True iff the handle lies in the service's range, both ends included |
| HealthThermoService.SendTempReadingContract | health_thermo_service.c:281-309 | The count is incremented modulo 256 and written into value[0], the rest of the value is kept, and a five-byte notification is sent (TRUE) iff the connection is valid and notifications are enabled, otherwise nothing is sent |
| HealthThermoService.ReadReturnsLastRecord | health_thermo_service.c:157-170 | A read of the measurement returns the five bytes of the last record sent |
| HealthThermoService.SendCountPeriod | health_thermo_service.c:283-290 | After k sends the count is the start plus k modulo 256 |
| HealthThermoService.WriteConfigAcceptance | health_thermo_service.c:227-256 | A CCCD write succeeds iff the value is none or notification (indication is refused with desc_improper_config); success stores it, and persists it only when bonded |
| HealthThermoService.WriteOtherHandleRefused | health_thermo_service.c:254-260 | Any other handle gets write_not_permitted and the record is unchanged |
| HealthThermoService.BondingNotifyRoundTrip | health_thermo_service.c:403-416 | The CCCD written when bonding is what the next read of the store returns |
| HealthThermoService.Thermo.constructor | health_thermo_service.c:119-131 | The record starts zeroed and shares the firmware and handles |
| HealthThermoService.Thermo.DataInit | health_thermo_service.c:119-131 | HealthThermoDataInit on the record |
| HealthThermoService.Thermo.HandleAccessRead | health_thermo_service.c:148-190 | Issues the response the read's specification gives |
| HealthThermoService.Thermo.HandleAccessWrite | health_thermo_service.c:207-262 | The record and firmware end as the write's specification gives |
| HealthThermoService.Thermo.SendTempReading | health_thermo_service.c:281-309 | The record, firmware, result and the caller's array end as the send's specification gives |
| HealthThermoService.Thermo.ReadDataFromNvm | health_thermo_service.c:344-366 | The record and next offset are as the store read's specification gives |
| HealthThermoService.Thermo.BondingNotify | health_thermo_service.c:403-416 | The firmware ends as the bonding notification's specification gives |
| GapService.StrLen | gap_service.c:174-175 | The length is that of the NUL-terminated string from the given index: all bytes before it are non-zero and it stops at the first zero |
| GapService.WithName | gap_service.c:145-148 | The copied bytes follow the AD-type byte and a NUL follows them |
| GapService.StoredNameLength | gap_service.c:140-143 | The stored length is the given one clamped to 20 |
| GapService.GapCheckHandleRange | gap_service.c:353-358 | True iff the handle lies in the service's range, both ends included |
| GapService.GapGetNameAndLength | gap_service.c:375-379 | Returns the name buffer and the string length counted from the AD-type byte, one more than the name length |
| GapService.WriteThenReadName | gap_service.c:246-267 | After a name write, a read at offset 0 returns the first min(len, 20) bytes written |
| GapService.ReadAtOffset | gap_service.c:207-215 | A read below the length returns the length - offset bytes from the offset; at or past it, invalid_offset with no data |
| GapService.NamePersists | gap_service.c:104-152 | After a name update the store holds a valid length, and reading the store back yields the same name and advances the offset by 21 |
| GapService.DataInitLength | gap_service.c:171-176 | GapDataInit sets the length to the string length after the AD-type byte: unchanged when the name has no NUL, shorter when it has one |
| GapService.Gap.constructor | gap_service.c:171-176 | The record starts with the initial device name |
| GapService.Gap.WriteDeviceNameToNvm | gap_service.c:104-120 | Writes the length and the name at the record's offset |
| GapService.Gap.UpdateDeviceName | gap_service.c:135-152 | The record and firmware end as the name update's specification gives |
| GapService.Gap.DataInit | gap_service.c:171-176 | GapDataInit on the record |
| GapService.Gap.HandleAccessRead | gap_service.c:193-229 | Issues the response the read's specification gives |
| GapService.Gap.HandleAccessWrite | gap_service.c:246-267 | The record and firmware end as the write's specification gives |
| GapService.Gap.ReadDataFromNvm | gap_service.c:282-308 | The record and next offset are as the store read's specification gives |
| GapService.Gap.InitWriteDataToNvm | gap_service.c:324-337 | The record, firmware and next offset are as the first store write's specification gives |
| DevInfoService.Low8 | dev_info_service.c:110-117 | A uint8 assignment keeps the low eight bits |
| DevInfoService.SystemId | dev_info_service.c:101-125 | The System ID is eight bytes beginning 0xFF, 0xFE |
| DevInfoService.SystemIdAddr | dev_info_service.c:110-117 | Decoding a System ID yields a 24-bit lap |
| DevInfoService.SplitBytes24 | dev_info_service.c:110-112 | The three bytes taken from lap >> 16, lap >> 8 and lap put back together give the low 24 bits of the lap |
| DevInfoService.DivTwice | dev_info_service.c:110-111 | Two shifts by 8 are one shift by 16 |
| DevInfoService.ModOfSplit | dev_info_service.c:110-112 | A value split at 2^24 has that remainder |
| DevInfoService.SystemIdRoundTrip | dev_info_service.c:101-125 | The System ID determines the address (lap to 24 bits), so its layout loses nothing but the lap's top byte |
| DevInfoService.DevInfoCheckHandleRange | dev_info_service.c:197-202 | True iff the handle lies in the service's range, both ends included |
| DevInfoService.ReadSystemIdOutcome | dev_info_service.c:146-181 | The read succeeds iff the handle is the System ID and the address can be read, then with the 8-byte ID of that address; other handles get irq_proceed |
| DevInfoService.DevInfo.constructor | dev_info_service.c:146-181 | The scratch System ID starts zeroed |
| DevInfoService.DevInfo.HandleAccessRead | dev_info_service.c:146-181 | The scratch ID and the response are as the read's specification gives |
| HtHw.FirstToneLength | ht_hw.c:370-393 | A long beep's first tone uses the long timer, every other the short one |
| HtHw.SoundBuzzerContract | ht_hw.c:353-423 | The old buzzer timer is deleted, the count is 0 and the type stored; PWM is on and one timer armed with the first tone's length iff the type is not off |
| HtHw.BuzzerTimerHandlerPreserves | ht_hw.c:131-237 | An expiry keeps the buzzer consistent: a timer is armed iff a beep is still playing |
| HtHw.ExpiryAdvancesPattern | ht_hw.c:139-216 | Each expiry moves the buzzer one step along its pattern's PWM and timer sequence |
| HtHw.PatternPlays | ht_hw.c:131-237 | After k expiries the buzzer is at step k of the pattern (short, long: one tone; twice: tone, gap, tone; thrice: three tones with gaps), and it is off with no timer once the pattern ends |
| HtHw.SwitchByteBits | ht_hw.c:446-520 | Bit i of the switch byte is cleared iff the edge that clears it occurred |
| HtHw.CountEdge | ht_hw.c:521-547 | The button state follows the level and the counter goes up, wrapping at 0xFF, only on an up-to-down transition |
| HtHw.CountRunCounts | ht_hw.c:521-574 | Over any run of edges the counter grows by the number of up-to-down transitions, modulo 256 |
| HtHw.PioChangedOutput | ht_hw.c:439-582 | The record is bp_count, ghg_count, the switch byte and the battery level; the left button arms or cancels the extra-long timer; counters of buttons not in the cause are unchanged; nothing is logged and no NVM changes |
| HtHw.HwData.constructor | ht_hw.c:330-337 | The hardware record starts as at power-on |
| HtHw.HwData.DataInit | ht_hw.c:330-337 | HtHwDataInit on the record |
| HtHw.HwData.SoundBuzzer | ht_hw.c:353-423 | The record and firmware end as SoundBuzzer's specification gives |
| HtHw.HwData.BuzzerTimerHandler | ht_hw.c:131-237 | The record and firmware end as the buzzer handler's specification gives |
| HtHw.HwData.CountEdgeStep | ht_hw.c:521-547 | Computes one counted edge |
| HtHw.HwData.LeftButton | ht_hw.c:448-483 | The record and firmware end as the left button's specification gives |
| HtHw.HwData.SwitchBits | ht_hw.c:446-520 | Builds the switch byte by clearing bits in turn |
| HtHw.HwData.Counters | ht_hw.c:521-574 | The counters end as the counting specification gives |
| HtHw.HwData.HandlePioChanged | ht_hw.c:439-582 | The record, firmware and val[1..4] end as the PIO handler's specification gives; val[0] is untouched |
| HtData.App.constructor | health_thermometer.c:1892-1895 | The device at power-on: every record zeroed, the initial name, no timers |
| HtGatt.ResolvableMeansTopBits01 | ht_gatt.c:557-567 | An address is resolvable iff it is random and its nap's top two bits are 01 |
| HtGatt.TopBits01 | ht_gatt.c:562-565 | The mask test equals the range test on the nap |
| HtGatt.ServiceUuidList | ht_gatt.c:529-541 | The list is three bytes: the AD type and then 0x1809 low byte first |
| HtGatt.Sub16 | ht_gatt.c:108-152 | The uint16 difference wraps below zero |
| HtGatt.PlacementFits | ht_gatt.c:108-159 | The name goes complete in the advert iff it fits there, complete in one of the two iff it fits in either, and each placement stays within its 31-byte budget |
| HtGatt.NameNeverShortened | ht_gatt.c:200-284 | After the flags, UUID list, appearance and tx power, the complete name (the AD type set to complete) goes in one store request, in the advert up to 16 bytes and in the scan response beyond |
| HtGatt.AdvertRequests | ht_gatt.c:176-284 | gattSetAdvertParams issues seven requests before the name |
| HtGatt.StartAdvertsContract | ht_gatt.c:446-494 | st_ucid is invalid, the old app_tid is deleted and a fresh one armed for 30 s (fast) or 60 s (slow), and the connect request uses the whitelist iff bonded to a non-resolvable address |
| HtGatt.AdvertTimerContract | ht_gatt.c:299-322 | A stale id changes nothing; the current one clears app_tid and stops adverts only while advertising |
| HtGatt.ReadRoutedToOwner | ht_gatt.c:343-381 | A read goes to the first service whose range holds the handle, in the order GAP, Health Thermometer, Battery, Device Info; others get read_not_permitted |
| HtGatt.WriteRouting | ht_gatt.c:397-430 | A write goes to GAP, Health Thermometer or Battery by range; any other handle, Device Info's included, gets write_not_permitted |
| HtGatt.GetSupported16BitUuidServiceList | ht_gatt.c:529-541 | Fills the first three cells with the UUID list, returns 3 and leaves the rest |
| HtGatt.AddDeviceNameToAdv | ht_gatt.c:89-161 | The name buffer and firmware end as the placement's specification gives |
| HtGatt.IssueModeAndInterval | ht_gatt.c:202-228 | Logs the mode, the interval and the two clearing store requests |
| HtGatt.IssueAdFields | ht_gatt.c:233-280 | Logs the UUID list, appearance and tx power AD elements |
| HtGatt.IssueAdvertRequests | ht_gatt.c:200-280 | Logs all seven requests and returns the advert length used before the name |
| HtGatt.SetAdvertParams | ht_gatt.c:176-284 | The device ends as gattSetAdvertParams's specification gives |
| HtGatt.StartAdverts | ht_gatt.c:446-494 | The device ends as GattStartAdverts's specification gives |
| HtGatt.ConnectAndArm | ht_gatt.c:476-493 | Logs the connect request and arms the advert timer as specified |
| HtGatt.StopAdverts | ht_gatt.c:509-512 | Logs the cancel connect request |
| HtGatt.AdvertTimerHandler | ht_gatt.c:299-322 | The device ends as the advert timer handler's specification gives |
| HtGatt.AccessRead | ht_gatt.c:343-381 | The device ends as the read router's specification gives |
| HtGatt.AccessWrite | ht_gatt.c:397-430 | The device ends as the write router's specification gives |
| HealthThermometer.AddrWords | health_thermometer.c:951-953 | A typed address is stored as exactly five words |
| HealthThermometer.Beep | health_thermometer.c:1813-1826 | The device ends as SoundBuzzer on the hardware record gives |
| HealthThermometer.SendBatteryLevel | health_thermometer.c:1998-2003 | The device ends as BatteryUpdateLevel on the current connection gives |
| HealthThermometer.NotifyBonding | health_thermometer.c:978-983 | Both services' bonding notifications run |
| HealthThermometer.StartCpuTimer | health_thermometer.c:774-777 | Arms the connection parameter timer and records its handle |
| HealthThermometer.ClearConnection | health_thermometer.c:164-186 | The three timers are deleted and invalid, st_ucid invalid, encryption off and the connection parameters and cpu_timer_value zero |
| HealthThermometer.InitServicesData | health_thermometer.c:188-198 | The hardware, GAP, Battery and Health Thermometer records are initialised |
| HealthThermometer.DataInit | health_thermometer.c:164-200 | The device ends as htDataInit's specification gives |
| HealthThermometer.InitExit | health_thermometer.c:492-507 | The device ends as appInitExit's specification gives |
| HealthThermometer.AdvertisingExit | health_thermometer.c:523-528 | The device ends as appAdvertisingExit's specification gives |
| HealthThermometer.Exit | health_thermometer.c:1766-1802 | Runs the exit action of the state left |
| HealthThermometer.Enter | health_thermometer.c:1808-1851 | Runs the entry action of the state entered |
| HealthThermometer.SetState | health_thermometer.c:1757-1853 | The device ends as AppSetState's specification gives |
| HealthThermometer.LoadBondingRecord | health_thermometer.c:237-274 | Reads the flag, the address, the IRK when resolvable, and the diversifier |
| HealthThermometer.WriteFreshBondingRecord | health_thermometer.c:286-312 | Writes the sanity word, a cleared flag and a zero diversifier |
| HealthThermometer.LoadIntactStore | health_thermometer.c:234-279 | Loads a store whose sanity word is intact, then the GAP data |
| HealthThermometer.InitFreshStore | health_thermometer.c:280-319 | Initialises a store whose sanity word is wrong, then the GAP data |
| HealthThermometer.LoadGapStore | health_thermometer.c:218-319 | Chooses between the two by the sanity word and returns the next offset |
| HealthThermometer.LoadServicesStore | health_thermometer.c:321-331 | Reads the Health Thermometer and Battery words in turn |
| HealthThermometer.LoadPersistentStore | health_thermometer.c:215-333 | The device ends as readPersistentStore's specification gives |
| HealthThermometer.PrepareInit | health_thermometer.c:1921-1948 | Timers, battery level and GAP name are initialised before the store is read |
| HealthThermometer.FinishInit | health_thermometer.c:1956-1972 | SMInit with the diversifier, htDataInit, the init state and the database request |
| HealthThermometer.RegisterDatabase | health_thermometer.c:1967-1972 | The state becomes init and the database request is logged; nothing else changes |
| HealthThermometer.Init | health_thermometer.c:1914-1974 | The device ends as AppInit's specification gives |
| HealthThermometer.SendParamUpdate | health_thermometer.c:369-395 | The request count goes up modulo 256 and a request with the profile for that count is logged |
| HealthThermometer.OnConnParamUpdateTimer | health_thermometer.c:349-418 | The device ends as requestConnParamUpdate's specification gives |
| HealthThermometer.OnTempMeasTimer | health_thermometer.c:434-476 | The device ends as htTempMeasTimerHandler's specification gives |
| HealthThermometer.OnCppTimer | health_thermometer.c:669-678 | The device ends as handleGapCppTimerExpiry's specification gives |
| HealthThermometer.OnBondingChanceTimer | health_thermometer.c:1379-1389 | The device ends as handleBondingChanceTimerExpiry's specification gives |
| HealthThermometer.ForgetBondOnPress | health_thermometer.c:1652-1668 | The press timer is cleared, three beeps sound, and the bond is forgotten in memory and in the store |
| HealthThermometer.DropLinkForBondRemoval | health_thermometer.c:1674-1689 | While connected: app_tid deleted, Disconnecting entered, whitelist reset |
| HealthThermometer.StopAdvertsForBondRemoval | health_thermometer.c:1693-1708 | While advertising: htDataInit, the pairing button flag set and adverts stopped |
| HealthThermometer.RestartForBondRemoval | health_thermometer.c:1723-1735 | In init or idle: htDataInit, whitelist reset and fast advertising entered |
| HealthThermometer.RemoveBondByState | health_thermometer.c:1671-1738 | Runs the bond removal branch of the current state |
| HealthThermometer.OnExtraLongPress | health_thermometer.c:1650-1742 | The device ends as HandleExtraLongButtonPress's specification gives |
| HealthThermometer.RunTimerCallback | health_thermometer.c:1008-1011 | Runs the handler a timer was created with, as the TimerCreate calls register them (the cited one registers handleBondingChanceTimerExpiry; the others are at health_thermometer.c:464, 674, 774, 1167, 1264 and 1313, ht_gatt.c:491 and ht_hw.c:234, 419 and 462); the dispatch itself belongs to the SDK |
| HealthThermometer.OnTimerExpiry | ht_hw.c:462-465 | The SDK dispatches expiries itself, so no application line does this; a timer registered as at the cited TimerCreate is disarmed on expiry and its callback run, and an unarmed one does nothing |
| HealthThermometer.OnGattAddDbCfm | health_thermometer.c:543-568 | The device ends as handleSignalGattAddDbCfm's specification gives |
| HealthThermometer.OnGattCancelConnectCfm | health_thermometer.c:583-631 | The device ends as handleSignalGattCancelConnectCfm's specification gives |
| HealthThermometer.Readvertise | health_thermometer.c:592-607 | With the pairing button pressed: the flag cleared, the whitelist reset and fast adverts restarted |
| HealthThermometer.SaveConnParams | health_thermometer.c:646-653 | Stores interval, latency and timeout |
| HealthThermometer.EnterConnectedState | health_thermometer.c:735-777 | Enters Connected and starts the negotiation when the parameters are out of range and no timer runs |
| HealthThermometer.OnGattConnectCfm | health_thermometer.c:693-807 | The device ends as handleSignalGattConnectCfm's specification gives |
| HealthThermometer.OnSmKeysInd | health_thermometer.c:822-870 | The device ends as handleSignalSmKeysInd's specification gives |
| HealthThermometer.OnSmPairingAuthInd | health_thermometer.c:887-910 | The device ends as handleSignalSmPairingAuthInd's specification gives |
| HealthThermometer.SaveBond | health_thermometer.c:940-982 | Records the bond in memory and in the store, whitelists a non-resolvable peer and notifies the services |
| HealthThermometer.OnSmSimplePairingCompleteInd | health_thermometer.c:926-1023 | The device ends as handleSignalSmSimplePairingCompleteInd's specification gives |
| HealthThermometer.StartEncryptedLink | health_thermometer.c:1049-1069 | Encryption on: bonding-chance timer deleted, battery level sent, temperature timer started |
| HealthThermometer.OnLmEncryptionChange | health_thermometer.c:1038-1080 | The device ends as handleSignalLMEncryptionChange's specification gives |
| HealthThermometer.OnSmDivApproveInd | health_thermometer.c:1095-1131 | The device ends as handleSignalSmDivApproveInd's specification gives |
| HealthThermometer.OnLsConnParamUpdateCfm | health_thermometer.c:1146-1180 | The device ends as handleSignalLsConnParamUpdateCfm's specification gives |
| HealthThermometer.OnLmConnectionUpdate | health_thermometer.c:1193-1215 | The device ends as handleSignalLmConnectionUpdate's specification gives |
| HealthThermometer.OnLsConnParamUpdateInd | health_thermometer.c:1230-1279 | The device ends as handleSignalLsConnParamUpdateInd's specification gives |
| HealthThermometer.RestartCpc | health_thermometer.c:1309-1315 | During the central pause the 1 s timer is deleted and armed again |
| HealthThermometer.SendAfterWrite | health_thermometer.c:1331-1342 | After a write on an encrypted link the temperature timer is restarted |
| HealthThermometer.OnGattAccessInd | health_thermometer.c:1295-1365 | The device ends as handleSignalGattAccessInd's specification gives |
| HealthThermometer.OnLmDisconnectComplete | health_thermometer.c:1407-1531 | The device ends as handleSignalLmDisconnectComplete's specification gives |
| HealthThermometer.ProcessSecurityEvent | health_thermometer.c:2065-2096 | Dispatches the security manager and encryption events |
| HealthThermometer.ProcessConnectedLinkEvent | health_thermometer.c:2106-2134 | Dispatches the parameter update events and attribute accesses |
| HealthThermometer.ProcessLinkEvent | health_thermometer.c:2040-2062 | Dispatches the database, cancel, connect and disconnect events; other events change nothing |
| HealthThermometer.ProcessLmEvent | health_thermometer.c:2031-2171 | The device ends as AppProcessLmEvent's specification gives |
| HealthThermometer.ShortButtonPress | health_thermometer.c:1625-1634 | The record is sent on the current connection |
| HealthThermometer.OnPioChanged | ht_hw.c:439-582 | Decodes the buttons into a record and sends it |
| HealthThermometer.ProcessSystemEvent | health_thermometer.c:1990-2015 | A low battery sends the level while connected; a PIO change runs the button handler |
| HealthThermometer.Deliver | health_thermometer.c:2031-2038 | One event is delivered to its handler; after a panic nothing runs |
| HtProofs.SetStateSame | health_thermometer.c:1761-1763 | Setting the current state again changes nothing |
| HtProofs.StartAdvertsRecord | ht_gatt.c:446-494 | Starting adverts changes only st_ucid and app_tid in g_ht_data |
| HtProofs.EnterRecord | health_thermometer.c:1808-1851 | An entry action changes at most st_ucid and app_tid in g_ht_data |
| HtProofs.ExitRecord | health_thermometer.c:1766-1802 | An exit action keeps the state, the bond and the request count, and leaves the CPU timer or invalidates it |
| HtProofs.SetStateCommits | health_thermometer.c:1805 | After AppSetState the state is the new one and the bond is kept |
| HtProofs.DataInitLeavesNegotiation | health_thermometer.c:164-200 | htDataInit leaves the request count, state and bond untouched |
| HtProofs.SetStateLeavesNegotiation | health_thermometer.c:1757-1853 | A state change leaves the request count untouched |
| HtProofs.ParamRequestProfile | health_thermometer.c:349-418 | A stale id changes nothing; otherwise the timer is cleared and, while connected, the count goes up within the budget of 4 and requests 1-2 use {27, 27, 4, 1000} and later ones {6, 27, 4, 600} |
| HtProofs.StartAdvertsLeavesNegotiation | ht_gatt.c:446-494 | Starting adverts leaves the request count untouched |
| HtProofs.BondingChanceKeepsBudget | health_thermometer.c:1379-1389 | The bonding-chance expiry keeps the request count within budget |
| HtProofs.ForgetBondRecord | health_thermometer.c:1663 | Forgetting the bond changes only the bonded flag of g_ht_data |
| HtProofs.DropLinkKeepsBudget | health_thermometer.c:1674-1689 | The connected branch of bond removal keeps the count within budget |
| HtProofs.StopAdvertsKeepsBudget | health_thermometer.c:1693-1708 | The advertising branch keeps the count within budget |
| HtProofs.RestartKeepsBudget | health_thermometer.c:1723-1735 | The init and idle branch keeps the count within budget |
| HtProofs.BondRemovalKeepsBudget | health_thermometer.c:1671-1738 | Bond removal in any state keeps the count within budget |
| HtProofs.ExtraLongKeepsBudget | health_thermometer.c:1650-1742 | The extra-long press keeps the count within budget |
| HtProofs.TimerKeepsBudget | health_thermometer.c:349-418 | Every timer callback keeps the count within budget |
| HtProofs.ConnectKeepsBudget | health_thermometer.c:693-807 | The connect confirmation keeps the count within budget |
| HtProofs.CancelKeepsBudget | health_thermometer.c:583-631 | The cancel confirmation keeps the count within budget |
| HtProofs.PairingKeepsBudget | health_thermometer.c:926-1023 | Pairing completion keeps the count within budget |
| HtProofs.EncryptionKeepsBudget | health_thermometer.c:1038-1080 | An encryption change keeps the count within budget |
| HtProofs.AccessRecord | ht_gatt.c:343-430 | Attribute reads and writes leave g_ht_data unchanged |
| HtProofs.AccessKeepsBudget | health_thermometer.c:1295-1365 | An attribute access keeps the count within budget |
| HtProofs.DisconnectKeepsBudget | health_thermometer.c:1407-1531 | A disconnect keeps the count within budget |
| HtProofs.AddDbKeepsBudget | health_thermometer.c:543-568 | The database confirmation keeps the count within budget |
| HtProofs.LmKeepsBudget | health_thermometer.c:2031-2171 | Every firmware event keeps the count within budget |
| HtProofs.SecurityKeepsBudget | health_thermometer.c:2065-2096 | Every security event keeps the count within budget |
| HtProofs.ConnectedLinkKeepsBudget | health_thermometer.c:2106-2134 | Every parameter update event and access keeps the count within budget |
| HtProofs.LinkKeepsBudget | health_thermometer.c:2040-2062 | Every other link event keeps the count within budget |
| HtProofs.StepKeepsBudget | health_thermometer.c:1160-1171 | Whatever event arrives, at most 4 requests follow each counter reset |
| HtProofs.ExitActions | health_thermometer.c:1766-1802 | Leaving init whitelists the bonded address iff bonded and not resolvable; leaving advertising deletes app_tid; leaving Disconnecting deletes all three timers, invalidates st_ucid and zeroes the connection parameters; leaving Connected or Idle does nothing |
| HtProofs.BeepKeepsTimer | ht_hw.c:353-423 | Sounding the buzzer leaves every other armed timer as it was |
| HtProofs.StartAdvertsTimer | ht_gatt.c:489-493 | app_tid is the freshly created handle |
| HtProofs.EnterAdvertising | health_thermometer.c:1810-1821 | Entering fast or slow advertising arms the advert timer, requests a connection with the right filter, and beeps twice when fast |
| HtProofs.EntryActions | health_thermometer.c:1808-1851 | Entering Connected requests security iff the peer is not resolvable; Disconnecting requests a disconnect; Idle beeps long; init does nothing |
| HtProofs.LeaveDisconnectingForAdverts | health_thermometer.c:1776-1821 | Going from Disconnecting to advertising deletes the CPU and bonding timers, then arms the advert timer |
| HtProofs.AdvertisingToConnected | health_thermometer.c:1786-1789 | Going from advertising to Connected deletes app_tid and changes nothing else in g_ht_data |
| HtProofs.ConnectStartsNegotiation | health_thermometer.c:742-777 | On connect, with no CPU timer and parameters out of range the count resets and the 5 s timer is armed; otherwise the negotiation is unchanged |
| HtProofs.ConnectUnknownHostDisconnects | health_thermometer.c:709-724 | A host that fails to resolve against the bonded IRK is disconnected |
| HtProofs.CppExpiryStartsCpc | health_thermometer.c:669-678 | A stale id changes nothing; the current one arms the 1 s timer |
| HtProofs.AccessRestartsCpc | health_thermometer.c:1309-1315 | During the 1 s pause the timer is deleted and armed again; otherwise nothing changes |
| HtProofs.AccessIndNegotiation | health_thermometer.c:1295-1365 | An access while connected restarts the central pause and keeps the count; a write on an encrypted link restarts the 40 s temperature timer |
| HtProofs.UpdateCfmRetry | health_thermometer.c:1160-1171 | A failed confirmation re-arms the 30 s retry only while the count is below 4; otherwise nothing changes |
| HtProofs.UpdateIndSettles | health_thermometer.c:1240-1269 | A peer update cancels the CPU timer; still out of range, it resets the count and arms the 30 s retry, otherwise cpu_timer_value is 0 |
| HtProofs.StaleTimerIgnored | health_thermometer.c:354-440 | A timer callback whose id is not the stored handle leaves the device unchanged |
| HtProofs.UnarmedTimerIgnored | health_thermometer.c:669-671 | The expiry of a timer that is not armed changes nothing |
| HtProofs.PairingAuthorisedIffNotBonded | health_thermometer.c:887-910 | While connected exactly one response is logged, authorising bonding iff not bonded; in other states a panic |
| HtProofs.DiversifierApprovedIffStored | health_thermometer.c:1095-1131 | While connected exactly one approval is logged, approving iff bonded and the diversifier is the stored one; in other states a panic |
| HtProofs.PairingFailurePolicy | health_thermometer.c:984-1021 | Repeated attempts disconnect; another failure while bonded arms the 30 s bonding-chance timer; otherwise, and outside Connected, nothing changes |
| HtProofs.EncryptionStopsBondingChance | health_thermometer.c:1047-1069 | Encryption enabled deletes the bonding-chance timer and starts the temperature timer if none runs |
| HtProofs.BondingChanceExpiryDisconnects | health_thermometer.c:1379-1389 | A stale id changes nothing; the current one clears the timer and disconnects |
| HtProofs.KeysStored | health_thermometer.c:822-870 | The diversifier is kept and stored when given; the IRK only when given and the peer is resolvable; nothing else changes |
| HtProofs.DisconnectTargetTable | health_thermometer.c:1441-1521 | Timeout and local termination from Connected go to fast advertising; local termination from Disconnecting goes to Idle iff bonded and not an unresolved resolvable peer; a remote one goes to Idle iff bonded |
| HtProofs.DisconnectMovesTo | health_thermometer.c:1407-1531 | From Connected or Disconnecting the handler ends in that target with no bonding timer |
| HtProofs.DisconnectTable | health_thermometer.c:1524-1528 | In any other state the disconnect is a panic |
| HtProofs.AddrWordsRoundTrip | health_thermometer.c:247-249 | An address read back from its five words is the address written |
| HtProofs.ReadPersistentStoreLayout | health_thermometer.c:215-333 | The store is laid out with GAP at 16, Health Thermometer at 37 and Battery at 38 |
| HtProofs.FreshStoreInitialised | health_thermometer.c:280-319 | A store with a wrong sanity word ends intact, with no bond and a zero diversifier |
| HtProofs.IntactStoreRead | health_thermometer.c:234-279 | An intact store is read unchanged: bonded iff the flag is set, the address, diversifier and, for a resolvable address, the IRK come from their words |
| HtProofs.InitAfterStoreState | health_thermometer.c:1956-1972 | After the store: init state, no timers, SMInit and the database request logged |
| HtProofs.AppInitState | health_thermometer.c:1914-1974 | AppInit ends in init with an intact store, no timers and the database request last |
| HtProofs.AppInitTakesUpBond | health_thermometer.c:234-261 | After AppInit the device is bonded iff the stored flag is set, to the stored address |
| HtProofs.BondingNotifyKeepsRecord | health_thermometer.c:978-983 | The services' notifications leave the application's store words alone |
| HtProofs.WriteBondStores | health_thermometer.c:940-973 | Bonding sets the flag to 1 and the address words, keeps the sanity word and whitelists a non-resolvable peer |
| HtProofs.RecordBondStores | health_thermometer.c:940-983 | The same holds after the services are notified |
| HtProofs.PairingSuccessRecordsBond | health_thermometer.c:935-983 | A successful pairing while connected records the bond in memory and in the store |
| HtProofs.BondSurvivesReset | health_thermometer.c:234-261 | After a successful pairing, a restart finds the device bonded to that peer |
| HtProofs.StoredBondTakenUp | health_thermometer.c:242-250 | A set flag and stored address are taken up by AppInit |
| HtProofs.BondRemovalWhileConnected | health_thermometer.c:1674-1689 | Removing the bond while connected disconnects the link and resets the whitelist |
| HtProofs.BondRemovalWhileAdvertising | health_thermometer.c:1693-1708 | While advertising it keeps the state, sets the pairing button flag and stops adverts |
| HtProofs.BondRemovalWhenIdle | health_thermometer.c:1723-1735 | In init or idle it goes to fast advertising |
| HtProofs.RestartAdvertisesFast | health_thermometer.c:1728-1734 | The init and idle branch ends in fast advertising |
| HtProofs.BondRemovalByState | health_thermometer.c:1671-1738 | All four branches of bond removal by state, Disconnecting resetting the whitelist only |
| HtProofs.BondRemovalKeepsStore | health_thermometer.c:1671-1738 | Bond removal keeps the bond forgotten, the store and the press timer cleared |
| HtProofs.DropLinkKeepsStore | health_thermometer.c:1674-1689 | The connected branch keeps them |
| HtProofs.RestartKeepsStore | health_thermometer.c:1723-1735 | The init and idle branch keeps them |
| HtProofs.ExitKeepsStore | health_thermometer.c:1766-1802 | Exit actions keep the store and the halted flag |
| HtProofs.StartAdvertsFrame | ht_gatt.c:446-494 | Starting adverts keeps the store and the hardware record |
| HtProofs.BuzzerFrame | ht_hw.c:353-423 | Sounding the buzzer keeps the store, the press timer and g_ht_data |
| HtProofs.EnterKeepsStore | health_thermometer.c:1808-1851 | Entry actions keep the store and the press timer |
| HtProofs.SetStateKeepsStore | health_thermometer.c:1757-1853 | A state change keeps the store and leaves the press timer or clears it |
| HtProofs.ExtraLongPressRemovesBond | health_thermometer.c:1650-1668 | A stale id changes nothing; the current one forgets the bond, clears the flag in the store and the press timer |
| HtProofs.ClearedFlagNoBond | health_thermometer.c:242-267 | A cleared flag in an intact store gives no bond after AppInit |
| HtProofs.RemovedBondStaysRemoved | health_thermometer.c:1650-1742 | After bond removal, a restart finds the device not bonded |

## Left out

- The SDK is not part of this model. Every request is a log entry, and the
  firmware accepts every request, so the `ls_err` panics after a refused request
  (`app_panic_set_advert_data`, `app_panic_add_whitelist`,
  `app_panic_con_param_update` and the like) are not modelled.
  `app_panic_invalid_state`, `app_panic_db_registration` and
  `app_panic_unexpected_beep_type` are modelled.
- NVM failures, the flash-only erase-and-rewrite `WriteApplicationAndServiceDataToNVM`
  and the I2C configuration in `nvm_access.c`: the store is a word map that always
  accepts a write, and a word never written reads as 0xFFFF.
- `HtInitHardware`, `GattInit`, `GattInstallServerWrite`, `SleepWakeOnUartRX`, the
  NVM configuration calls and `GattGetDatabase`: hardware and SDK set-up with no
  application state.
- The temperature read inside `htTempMeasTimerHandler` is commented out in the
  source; only the re-arming of the timer is modelled.
- `HealthThermoRegIndicationCfm` and `HealthThermoMeasIndConfigStatus` are
  commented out in the source.
- `SMPrivacyMatchAddress` is the `privacyMatch` parameter of `Env`. The transmit
  power level and the BD address read by `CSReadBdaddr` are inputs.
  `BatteryReadVoltage` reads the firmware's `voltage`.
- Time is not modelled beyond the configured duration of each timer. I/O and
  concurrency are not modelled; events arrive one at a time.
- The flags of `GATT_ACCESS_IND` are the three cases the handler distinguishes.
  The key bits of `SM_KEYS_IND` are booleans.
- The CCCD handlers read two bytes from the written value. The model asks of a
  CCCD write that it carries at least two bytes (`CccdWriteSized`), where the
  C code reads past a shorter value.
- HtHw.HwData.HandlePioChanged: the first byte of the record is left for the
  sender; the caller allocates it as 0, where the source leaves it
  indeterminate.
- The default branch of `SoundBuzzer` for an unknown beep type cannot be reached
  with the beep type as an enumeration.
- GapService.Gap.ReadDataFromNvm: requires that the stored length is at most 20
  (`StoredLengthValid`). The C code copies whatever length the store holds into
  a 20-byte buffer.
- HealthThermometer.LoadPersistentStore: requires `StoreReadable` (the stored name
  length is at most 20), for the same reason.
- DevInfoService.SystemIdRoundTrip: the lap is 24 bits in the Bluetooth address,
  but the model's lap is an unbounded integer, so the round trip recovers it
  modulo 2^24.
- `AppPowerOnReset` does nothing. `AppIsDeviceBonded` returns `bonded`, which is
  passed to the services as a parameter.
- The SDK's timer table has `MAX_APP_TIMERS` = 5 slots (health_thermometer.c:53,
  118, 1921), so a `TimerCreate` can fail and timer ids are reused. The model's
  allocator hands out a fresh handle every time and never runs out, so it does
  not capture a full table. This matters on a second failed pairing with a
  bonded peer, which creates `bonding_reattempt_tid` again without deleting the
  old timer (health_thermometer.c:1004-1011).
- The `ind_cfm_pending` field of the Health Thermometer record is kept, but
  nothing in the source writes it after its zero initialisation. Its clearing in
  `HealthThermoDataInit` and its writer `HealthThermoRegIndicationCfm` are
  commented out.
- HtProofs.SetStateKeepsStore: states only that the press timer is kept or
  cleared, not which, because `htDataInit` on leaving Disconnecting clears it.
