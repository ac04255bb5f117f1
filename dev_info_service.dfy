// The Device Information service: the System ID characteristic, computed
// from the device's Bluetooth address each time it is read.

module DevInfoService {
  import opened Sdk
  import opened GattDb

  /** The manufacturer identifier part of the System ID, bytes reversed. */
  const SYSTEM_ID_FIXED_CONSTANT: Word := 0xFFFE
  const SYSTEM_ID_LENGTH: nat := 8

  /** Truncation to uint8, as an assignment to a byte does. */
  function Low8(x: int): (b: Byte)
    requires x >= 0
    ensures b == x % 0x100
  {
    x % 0x100
  }

  /** getSystemId on an address that could be read. */
  function SystemId(a: BdAddr): (id: seq<Byte>)
    ensures |id| == SYSTEM_ID_LENGTH
    ensures id[0] == 0xFF && id[1] == 0xFE
  {
    [Low8(SYSTEM_ID_FIXED_CONSTANT / 0x100), Low8(SYSTEM_ID_FIXED_CONSTANT),
     Low8(a.lap / 0x1_0000), Low8(a.lap / 0x100), Low8(a.lap),
     Low8(a.nap / 0x100), Low8(a.nap),
     a.uap]
  }

  /** The address a System ID was computed from: the 24-bit lap most
      significant byte first, then the nap, then the uap. */
  function SystemIdAddr(id: seq<Byte>): (a: BdAddr)
    requires |id| == SYSTEM_ID_LENGTH
    ensures a.lap < 0x100_0000
  {
    BdAddr(id[2] as int * 0x1_0000 + id[3] as int * 0x100 + id[4], id[7], id[5] as int * 0x100 + id[6])
  }

  lemma SplitBytes24(x: int)
    requires 0 <= x
    ensures (x / 0x1_0000) % 0x100 * 0x1_0000 + (x / 0x100) % 0x100 * 0x100 + x % 0x100 == x % 0x100_0000
  {
    var b0, b1, b2 := x % 0x100, (x / 0x100) % 0x100, (x / 0x1_0000) % 0x100;
    var q1 := x / 0x100;
    var q2 := q1 / 0x100;
    var q3 := q2 / 0x100;
    DivTwice(x);
    assert x == q1 * 0x100 + b0;
    assert q1 == q2 * 0x100 + b1;
    assert q2 == q3 * 0x100 + b2;
    ModOfSplit(x, q3, b2 * 0x1_0000 + b1 * 0x100 + b0);
  }

  /** Dividing by 256 twice divides by 65536. */
  lemma DivTwice(x: int)
    requires 0 <= x
    ensures x / 0x100 / 0x100 == x / 0x1_0000
  {
    var q := x / 0x100 / 0x100;
    var r := x - q * 0x1_0000;
    assert x == (x / 0x100) * 0x100 + x % 0x100;
    assert x / 0x100 == q * 0x100 + (x / 0x100) % 0x100;
    assert 0 <= r < 0x1_0000;
  }

  /** A remainder below the divisor is the remainder. */
  lemma ModOfSplit(x: int, q: int, r: int)
    requires x == q * 0x100_0000 + r && 0 <= r < 0x100_0000
    ensures x % 0x100_0000 == r
  {
  }

  /** The System ID keeps all of the address the characteristic describes:
      the low 24 bits of the lap, the uap and the nap can be read back. */
  lemma SystemIdRoundTrip(a: BdAddr)
    ensures SystemIdAddr(SystemId(a)) == BdAddr(a.lap % 0x100_0000, a.uap, a.nap)
  {
    SplitBytes24(a.lap);
    var n: int := a.nap;
    assert n == (n / 0x100) * 0x100 + n % 0x100;
    assert (n / 0x100) % 0x100 == n / 0x100;
  }

  /** DeviceInfoHandleAccessRead: the stored System ID and the response.
      `bdaddr` is what CSReadBdaddr returns, None when it fails. */
  function DevInfoHandleAccessRead(sysId: seq<Byte>, h: HandleMap, cid: Word, handle: Word, bdaddr: Option<BdAddr>)
    : (seq<Byte>, Request)
  {
    if handle == h.systemId then
      if bdaddr.Some? then
        var id := SystemId(bdaddr.value);
        (id, AccessRsp(cid, handle, Success, SYSTEM_ID_LENGTH, id))
      else (sysId, AccessRsp(cid, handle, UnlikelyError, SYSTEM_ID_LENGTH, []))
    else (sysId, AccessRsp(cid, handle, IrqProceed, 0, []))
  }

  /** DeviceInfoCheckHandleRange */
  function DevInfoCheckHandleRange(h: HandleMap, handle: Word): (inside: bool)
    ensures inside <==> h.devInfoStart <= handle <= h.devInfoEnd
  {
    InRange(h.devInfoStart, h.devInfoEnd, handle)
  }

  /** A read of the System ID succeeds exactly when the address can be read,
      and then carries eight bytes that describe that address; any other
      handle is left to the firmware. */
  lemma ReadSystemIdOutcome(sysId: seq<Byte>, h: HandleMap, cid: Word, handle: Word, bdaddr: Option<BdAddr>)
    ensures var (_, r) := DevInfoHandleAccessRead(sysId, h, cid, handle, bdaddr);
      && r.cid == cid && r.handle == handle
      && (r.status == Success <==> handle == h.systemId && bdaddr.Some?)
      && (r.status == Success ==> |r.data| == r.length == SYSTEM_ID_LENGTH
                                  && SystemIdAddr(r.data) == BdAddr(bdaddr.value.lap % 0x100_0000, bdaddr.value.uap, bdaddr.value.nap))
      && (handle != h.systemId ==> r.status == IrqProceed && r.length == 0)
  {
    if handle == h.systemId && bdaddr.Some? {
      SystemIdRoundTrip(bdaddr.value);
    }
  }

  // ---- the service object -----------------------------------------------

  /** g_dev_info_data */
  class DevInfo {
    var systemId: seq<Byte>
    const fw: Firmware
    const handles: HandleMap

    constructor (fw: Firmware, handles: HandleMap)
      ensures systemId == [0, 0, 0, 0, 0, 0, 0, 0]
      ensures this.fw == fw && this.handles == handles
    {
      systemId := [0, 0, 0, 0, 0, 0, 0, 0];
      this.fw := fw;
      this.handles := handles;
    }

    method HandleAccessRead(cid: Word, handle: Word, bdaddr: Option<BdAddr>)
      modifies this, fw
      ensures (systemId, fw.State()) ==
        var (id, r) := DevInfoHandleAccessRead(old(systemId), handles, cid, handle, bdaddr);
        (id, WithRequest(old(fw.State()), r))
    {
      var length := 0;
      var value := [];
      var rc := Success;
      if handle == handles.systemId {
        length := SYSTEM_ID_LENGTH;
        if bdaddr.Some? {
          systemId := SystemId(bdaddr.value);
          value := systemId;
        } else {
          rc := UnlikelyError;
        }
      } else {
        rc := IrqProceed;
      }
      fw.Issue(AccessRsp(cid, handle, rc, length, value));
    }
  }
}
