// The part of the CSR uEnergy firmware and SDK that the application calls.
//
// The application never sees the internals of these calls: every request it
// makes of the firmware is recorded, in order, in an output log; timers are
// handles handed out by a fresh-handle allocator; the non-volatile memory is a
// map from word offsets to 16-bit words; a panic halts the application.

module Sdk {

  /** An optional value. */
  datatype Option<T> = None | Some(value: T)

  // Timer durations are counted in microseconds.
  const MILLISECOND: nat := 1000
  const SECOND: nat := 1000 * MILLISECOND
  const MINUTE: nat := 60 * SECOND

  type Byte = x: int | 0 <= x < 0x100
  type Word = x: int | 0 <= x < 0x1_0000
  type Uint32 = x: int | 0 <= x < 0x1_0000_0000

  /** The connection identifier meaning "not connected". */
  const GATT_INVALID_UCID: Word := 0xFFFF

  /** A word of non-volatile memory that was never written. */
  const NVM_ERASED: Word := 0xFFFF

  // Address types of a typed Bluetooth device address.
  const L2CA_PUBLIC_ADDR_TYPE: Word := 0
  const L2CA_RANDOM_ADDR_TYPE: Word := 1

  // The two top bits of the NAP say which kind of random address it is.
  const BD_ADDR_NAP_RANDOM_TYPE_MASK: bv16 := 0xC000
  const BD_ADDR_NAP_RANDOM_TYPE_RESOLVABLE: bv16 := 0x4000

  // Client characteristic configuration values (gatt_client_config).
  const CLIENT_CONFIG_NONE: Word := 0
  const CLIENT_CONFIG_NOTIFICATION: Word := 1
  const CLIENT_CONFIG_INDICATION: Word := 2

  // Advertising data types (Bluetooth assigned numbers for AD types).
  const AD_TYPE_SERVICE_UUID_16BIT_LIST: Byte := 0x03
  const AD_TYPE_LOCAL_NAME_SHORT: Byte := 0x08
  const AD_TYPE_LOCAL_NAME_COMPLETE: Byte := 0x09
  const AD_TYPE_TX_POWER: Byte := 0x0A

  /** The lap is a 24-bit quantity held in a 32-bit word pair on this processor. */
  datatype BdAddr = BdAddr(lap: Uint32, uap: Byte, nap: Word)
  datatype TypedBdAddr = TypedBdAddr(addrType: Word, addr: BdAddr)

  const ZERO_ADDR: TypedBdAddr := TypedBdAddr(0, BdAddr(0, 0, 0))

  /** Identity resolving keys are eight words long. */
  const MAX_WORDS_IRK: nat := 8
  type Irk = s: seq<Word> | |s| == MAX_WORDS_IRK witness [0, 0, 0, 0, 0, 0, 0, 0]

  /** Timer handles; TimerInvalid is TIMER_INVALID. */
  datatype TimerId = TimerInvalid | Timer(n: nat)

  /** The application functions that are registered as timer callbacks. */
  datatype Callback =
    | RequestConnParamUpdateCb
    | GapCppTimerExpiryCb
    | TempMeasTimerCb
    | BondingChanceTimerCb
    | AdvertTimerCb
    | BuzzerTimerCb
    | ExtraLongButtonPressCb

  datatype TimerEntry = TimerEntry(duration: nat, cb: Callback)

  /** The status codes the application puts in its GATT access responses. */
  datatype GattStatus =
    | Success
    | ReadNotPermitted
    | WriteNotPermitted
    | InvalidOffset
    | IrqProceed
    | UnlikelyError
    | DescImproperConfig
    | RequestNotSupported

  /** Connection parameters as the application asks for them. */
  datatype ConnParams = ConnParams(minInterval: Word, maxInterval: Word, latency: Word, timeout: Word)

  datatype AdSrc = AdvertData | ScanRspData

  /** The connect_flags given with a connect request. */
  datatype ConnectFilter = UndirectedPublic | WhitelistPublic

  /** The panic codes of the conditions this model reaches. */
  datatype PanicCode = PanicDbRegistration | PanicInvalidState | PanicUnexpectedBeepType

  /** A request the application makes of the firmware. */
  datatype Request =
    | AccessRsp(cid: Word, handle: Word, status: GattStatus, length: nat, data: seq<Word>)
    | CharValueNotification(ucid: Word, handle: Word, data: seq<Word>)
    | ConnParamUpdateReq(peer: TypedBdAddr, params: ConnParams)
    | AddWhiteListDevice(peer: TypedBdAddr)
    | ResetWhiteList
    | GattConnectReq(filter: ConnectFilter)
    | GattCancelConnectReq
    | GattDisconnectReq(ucid: Word)
    | SmRequestSecurityLevel(peer: TypedBdAddr)
    | SmPairingAuthRsp(bond: bool)
    | SmDivApproval(cid: Word, approve: bool)
    | SmInit(diversifier: Word)
    | GattAddDatabaseReq
    | GapSetModeReq
    | GapSetAdvInterval(minInterval: nat, maxInterval: nat)
    | StoreAdvScanData(data: seq<Word>, src: AdSrc)

  /** Everything the firmware holds on the application's behalf. */
  datatype FwState = FwState(
    log: seq<Request>,
    nextTimer: nat,
    armed: map<nat, TimerEntry>,
    nvm: map<nat, Word>,
    pwmOn: bool,
    voltage: Word,
    halted: Option<PanicCode>)

  // ---- requests, timers, panic -------------------------------------------

  function WithRequest(f: FwState, r: Request): (g: FwState)
    ensures g.log == f.log + [r] && g.log[|f.log|] == r
    ensures g.(log := f.log) == f
  {
    f.(log := f.log + [r])
  }

  /** The handle TimerCreate hands out next. */
  function NewTimer(f: FwState): TimerId
  {
    Timer(f.nextTimer)
  }

  /** Every armed timer has a handle below the allocator's next value. */
  predicate TimersFresh(f: FwState)
  {
    forall n :: n in f.armed ==> n < f.nextTimer
  }

  /** A valid handle was handed out by the allocator. */
  predicate Issued(f: FwState, t: TimerId)
  {
    t.Timer? ==> t.n < f.nextTimer
  }

  function WithTimer(f: FwState, duration: nat, cb: Callback): (g: FwState)
    ensures g.nextTimer > f.nextTimer
    ensures f.nextTimer in g.armed && g.armed[f.nextTimer] == TimerEntry(duration, cb)
    ensures forall n :: n != f.nextTimer ==> (n in g.armed <==> n in f.armed)
    ensures forall n :: n != f.nextTimer && n in f.armed ==> g.armed[n] == f.armed[n]
    ensures TimersFresh(f) ==> TimersFresh(g) && f.nextTimer !in f.armed
    ensures g.(nextTimer := f.nextTimer, armed := f.armed) == f
  {
    f.(nextTimer := f.nextTimer + 1, armed := f.armed[f.nextTimer := TimerEntry(duration, cb)])
  }

  function WithoutTimer(f: FwState, t: TimerId): (g: FwState)
    ensures t.Timer? ==> t.n !in g.armed
    ensures forall n :: (t.TimerInvalid? || n != t.n) ==> (n in g.armed <==> n in f.armed)
    ensures forall n :: n in g.armed ==> n in f.armed && g.armed[n] == f.armed[n]
    ensures TimersFresh(f) ==> TimersFresh(g)
    ensures g.(armed := f.armed) == f
  {
    if t.Timer? then f.(armed := f.armed - {t.n}) else f
  }

  function WithPanic(f: FwState, code: PanicCode): (g: FwState)
    ensures g.halted == Some(code)
    ensures g.(halted := f.halted) == f
  {
    f.(halted := Some(code))
  }

  // ---- non-volatile memory -----------------------------------------------

  function NvmWord(m: map<nat, Word>, off: nat): Word
  {
    if off in m then m[off] else NVM_ERASED
  }

  /** The `n` words stored from offset `off` on. */
  function NvmWords(m: map<nat, Word>, off: nat, n: nat): (ws: seq<Word>)
    ensures |ws| == n
    ensures forall i :: 0 <= i < n ==> ws[i] == NvmWord(m, off + i)
    decreases n
  {
    if n == 0 then [] else [NvmWord(m, off)] + NvmWords(m, off + 1, n - 1)
  }

  /** The memory after writing `ws` from offset `off` on. */
  function StoreWords(m: map<nat, Word>, off: nat, ws: seq<Word>): (m': map<nat, Word>)
    ensures forall k: nat :: NvmWord(m', k) == if off <= k < off + |ws| then ws[k - off] else NvmWord(m, k)
    decreases |ws|
  {
    if |ws| == 0 then m else StoreWords(m[off := ws[0]], off + 1, ws[1..])
  }

  function WithNvmWords(f: FwState, off: nat, ws: seq<Word>): (g: FwState)
    ensures g.(nvm := f.nvm) == f
  {
    f.(nvm := StoreWords(f.nvm, off, ws))
  }

  /** Reading back what was just written gives exactly the words written. */
  lemma NvmRoundTrip(m: map<nat, Word>, off: nat, ws: seq<Word>)
    ensures NvmWords(StoreWords(m, off, ws), off, |ws|) == ws
  {
    var r := NvmWords(StoreWords(m, off, ws), off, |ws|);
    forall i | 0 <= i < |ws|
      ensures r[i] == ws[i]
    {
      assert r[i] == NvmWord(StoreWords(m, off, ws), off + i);
    }
  }

  /** A write leaves every word outside the written range as it was. */
  lemma NvmWriteLocal(m: map<nat, Word>, off: nat, ws: seq<Word>, k: nat)
    requires k < off || off + |ws| <= k
    ensures NvmWord(StoreWords(m, off, ws), k) == NvmWord(m, k)
  {
  }

  /** Incrementing an 8-bit counter wraps at 256 whether or not the value
      was reduced first. */
  lemma ByteIncrement(x: nat)
    ensures (x % 0x100 + 1) % 0x100 == (x + 1) % 0x100
  {
    var q, r := x / 0x100, x % 0x100;
    assert x == 0x100 * q + r;
    if r < 0xFF {
      assert (x + 1) / 0x100 == q;
    } else {
      assert (x + 1) / 0x100 == q + 1;
    }
  }

  // ---- byte order --------------------------------------------------------

  /** BufWriteUint16: a 16-bit value as two bytes, low byte first. */
  function LittleEndian16(v: Word): (bytes: seq<Word>)
    ensures |bytes| == 2 && bytes[0] < 0x100 && bytes[1] < 0x100
    ensures bytes[0] + 0x100 * bytes[1] == v
  {
    [v % 0x100, v / 0x100]
  }

  /** BufReadUint16: the 16-bit value held in the first two bytes. */
  function ReadUint16(bytes: seq<Byte>): (v: Word)
    requires |bytes| >= 2
  {
    bytes[0] as int + 0x100 * (bytes[1] as int)
  }

  lemma Uint16RoundTrip(v: Word)
    ensures ReadUint16(LittleEndian16(v)) == v
  {
  }

  /** True when bit 0 (notification) of a client configuration is set. */
  predicate NotifyBitSet(config: Word)
  {
    (config as bv16) & (CLIENT_CONFIG_NOTIFICATION as bv16) != 0
  }

  lemma NotifyBitSetMeansOdd(config: Word)
    ensures NotifyBitSet(config) <==> config % 2 == 1
  {
    var b := config as bv16;
    assert b & 1 == (if config % 2 == 1 then 1 else 0) as bv16;
  }

  // ---- the firmware object -----------------------------------------------

  class Firmware {
    var log: seq<Request>
    var nextTimer: nat
    var armed: map<nat, TimerEntry>
    var nvm: map<nat, Word>
    var pwmOn: bool
    var voltage: Word
    var halted: Option<PanicCode>

    function State(): FwState
      reads this
    {
      FwState(log, nextTimer, armed, nvm, pwmOn, voltage, halted)
    }

    /** The firmware at power-on: nothing requested, no timers, the given memory. */
    constructor (nvm0: map<nat, Word>, voltage0: Word)
      ensures State() == FwState([], 0, map[], nvm0, false, voltage0, None)
    {
      log := [];
      nextTimer := 0;
      armed := map[];
      nvm := nvm0;
      pwmOn := false;
      voltage := voltage0;
      halted := None;
    }

    method Issue(r: Request)
      modifies this
      ensures State() == WithRequest(old(State()), r)
    {
      log := log + [r];
    }

    /** TimerInit: forget every timer. */
    method TimerInit()
      modifies this
      ensures State() == old(State()).(armed := map[])
    {
      armed := map[];
    }

    method TimerCreate(duration: nat, cb: Callback) returns (t: TimerId)
      modifies this
      ensures t == NewTimer(old(State())) && t.Timer?
      ensures State() == WithTimer(old(State()), duration, cb)
    {
      t := Timer(nextTimer);
      armed := armed[nextTimer := TimerEntry(duration, cb)];
      nextTimer := nextTimer + 1;
    }

    method TimerDelete(t: TimerId)
      modifies this
      ensures State() == WithoutTimer(old(State()), t)
    {
      if t.Timer? {
        armed := armed - {t.n};
      }
    }

    /** A timer fires: its entry leaves the table and its callback is returned. */
    method TimerFire(n: nat) returns (cb: Option<Callback>)
      modifies this
      ensures n in old(armed) ==> cb == Some(old(armed)[n].cb)
      ensures n !in old(armed) ==> cb == None
      ensures State() == WithoutTimer(old(State()), Timer(n))
    {
      if n in armed {
        cb := Some(armed[n].cb);
      } else {
        cb := None;
      }
      armed := armed - {n};
    }

    method NvmWrite(off: nat, ws: seq<Word>)
      modifies this
      ensures State() == WithNvmWords(old(State()), off, ws)
    {
      nvm := StoreWords(nvm, off, ws);
    }

    method NvmRead(off: nat, n: nat) returns (ws: seq<Word>)
      ensures |ws| == n
      ensures forall i :: 0 <= i < n ==> ws[i] == NvmWord(nvm, off + i)
    {
      ws := NvmWords(nvm, off, n);
    }

    /** PioEnablePWM */
    method EnablePwm(on: bool)
      modifies this
      ensures State() == old(State()).(pwmOn := on)
    {
      pwmOn := on;
    }

    /** The battery voltage changes (the environment, not the application). */
    method SetVoltage(v: Word)
      modifies this
      ensures State() == old(State()).(voltage := v)
    {
      voltage := v;
    }

    /** Panic: the application stops. */
    method Panic(code: PanicCode)
      modifies this
      ensures State() == WithPanic(old(State()), code)
    {
      halted := Some(code);
    }
  }
}
