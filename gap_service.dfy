// The GAP service: the device name, readable by offset, writable by the
// collector, and kept in NVM together with its length.
//
// The name lives in g_device_name, a 22-cell buffer whose first cell holds the
// advertising data type and whose name part is NUL-terminated; on this
// word-addressed processor every cell, like every NVM cell, is one 16-bit word.

module GapService {
  import opened Sdk
  import opened GattDb

  const DEVICE_NAME_MAX_LENGTH: nat := 20
  const DEVICE_NAME_BUFFER_SIZE: nat := DEVICE_NAME_MAX_LENGTH + 2
  const GAP_SERVICE_NVM_MEMORY_WORDS: nat := 1 + DEVICE_NAME_MAX_LENGTH
  const GAP_NVM_DEVICE_LENGTH_OFFSET: nat := 0
  const GAP_NVM_DEVICE_NAME_OFFSET: nat := 1

  /** The initial contents of g_device_name: the AD type, "CSR Thermometer", NUL padding. */
  const INITIAL_DEVICE_NAME: seq<Word> :=
    [AD_TYPE_LOCAL_NAME_COMPLETE,
     'C' as int, 'S' as int, 'R' as int, ' ' as int,
     'T' as int, 'h' as int, 'e' as int, 'r' as int, 'm' as int, 'o' as int,
     'm' as int, 'e' as int, 't' as int, 'e' as int, 'r' as int,
     0, 0, 0, 0, 0, 0]

  /** g_gap_data with the buffer g_device_name it points into. */
  datatype GapRec = GapRec(length: Word, name: seq<Word>, nvmOffset: nat)

  /** The buffer has its fixed size, the AD type cell is set, the length is
      within the maximum and the name part is terminated right after it. */
  predicate GapValid(g: GapRec)
  {
    && |g.name| == DEVICE_NAME_BUFFER_SIZE
    && g.name[0] != 0
    && g.length <= DEVICE_NAME_MAX_LENGTH
    && g.name[1 + g.length] == 0
  }

  type GapState = g: GapRec | GapValid(g) witness GapRec(15, INITIAL_DEVICE_NAME, 0)

  /** StrLen from cell `from`: the distance to the first NUL, or to the end. */
  function StrLen(buf: seq<Word>, from: nat): (n: nat)
    requires from <= |buf|
    ensures from + n <= |buf|
    ensures forall i :: from <= i < from + n ==> buf[i] != 0
    ensures from + n < |buf| ==> buf[from + n] == 0
    ensures forall k :: from <= k < |buf| && buf[k] == 0 ==> from + n <= k
    decreases |buf| - from
  {
    if from == |buf| || buf[from] == 0 then 0 else 1 + StrLen(buf, from + 1)
  }

  /** The buffer after updateDeviceName stored `len` cells of `src` and the terminator. */
  function WithName(buf: seq<Word>, src: seq<Word>, len: nat): (buf': seq<Word>)
    requires len <= |src| && 2 + len <= |buf|
    ensures |buf'| == |buf|
    ensures buf'[0] == buf[0] && buf'[1..1 + len] == src[..len] && buf'[1 + len] == 0
  {
    seq(|buf|, k requires 0 <= k < |buf| => if 1 <= k < 1 + len then src[k - 1] else if k == 1 + len then 0 else buf[k])
  }

  /** gapWriteDeviceNameToNvm */
  function GapWriteDeviceNameToNvm(g: GapState, f: FwState): FwState
  {
    var f1 := WithNvmWords(f, g.nvmOffset + GAP_NVM_DEVICE_LENGTH_OFFSET, [g.length]);
    WithNvmWords(f1, g.nvmOffset + GAP_NVM_DEVICE_NAME_OFFSET, g.name[1..1 + g.length])
  }

  /** The number of name cells updateDeviceName keeps from a write of `n` bytes. */
  function StoredNameLength(n: nat): (len: nat)
    ensures len <= DEVICE_NAME_MAX_LENGTH && len <= n
    ensures n <= DEVICE_NAME_MAX_LENGTH ==> len == n
  {
    if n < DEVICE_NAME_MAX_LENGTH then n else DEVICE_NAME_MAX_LENGTH
  }

  /** updateDeviceName */
  function GapUpdateDeviceName(g: GapState, f: FwState, name: seq<Byte>): (GapState, FwState)
  {
    var len := StoredNameLength(|name|);
    var g' := g.(length := len, name := WithName(g.name, name, len));
    (g', GapWriteDeviceNameToNvm(g', f))
  }

  /** GapDataInit: the length is recomputed from the buffer. */
  function GapDataInit(g: GapState): GapState
  {
    g.(length := StrLen(g.name, 1))
  }

  /** GapHandleAccessRead: the response it sends. */
  function GapHandleAccessRead(g: GapState, h: HandleMap, cid: Word, handle: Word, offset: Word): Request
  {
    if handle == h.deviceName then
      if offset < g.length then AccessRsp(cid, handle, Success, g.length - offset, g.name[1 + offset..1 + g.length])
      else AccessRsp(cid, handle, InvalidOffset, 0, [])
    else AccessRsp(cid, handle, IrqProceed, 0, [])
  }

  /** GapHandleAccessWrite */
  function GapHandleAccessWrite(g: GapState, f: FwState, h: HandleMap, cid: Word, handle: Word, value: seq<Byte>)
    : (GapState, FwState)
  {
    if handle == h.deviceName then
      var (g', f') := GapUpdateDeviceName(g, f, value);
      (g', WithRequest(f', AccessRsp(cid, handle, Success, 0, [])))
    else (g, WithRequest(f, AccessRsp(cid, handle, WriteNotPermitted, 0, [])))
  }

  /** The GAP block of NVM holds a length this service could have written. */
  predicate StoredLengthValid(nvm: map<nat, Word>, offset: nat)
  {
    NvmWord(nvm, offset + GAP_NVM_DEVICE_LENGTH_OFFSET) <= DEVICE_NAME_MAX_LENGTH
  }

  /** GapReadDataFromNVM: the new state and the next free NVM offset. The
      stored length is used as it is, so it must be one this service wrote. */
  function GapReadDataFromNvm(g: GapState, f: FwState, offset: nat): (GapState, nat)
    requires StoredLengthValid(f.nvm, offset)
  {
    var len := NvmWord(f.nvm, offset + GAP_NVM_DEVICE_LENGTH_OFFSET);
    var words := NvmWords(f.nvm, offset + GAP_NVM_DEVICE_NAME_OFFSET, len);
    (GapRec(len, WithName(g.name, words, len), offset), offset + DEVICE_NAME_MAX_LENGTH + 1)
  }

  /** GapInitWriteDataToNVM: the new state, the firmware and the next free offset. */
  function GapInitWriteDataToNvm(g: GapState, f: FwState, offset: nat): (GapState, FwState, nat)
  {
    var g' := g.(nvmOffset := offset);
    (g', GapWriteDeviceNameToNvm(g', f), offset + DEVICE_NAME_MAX_LENGTH + 1)
  }

  /** GapCheckHandleRange */
  function GapCheckHandleRange(h: HandleMap, handle: Word): (inside: bool)
    ensures inside <==> h.gapStart <= handle <= h.gapEnd
  {
    InRange(h.gapStart, h.gapEnd, handle)
  }

  /** GapGetNameAndLength: the buffer and the length of AD type plus name. */
  function GapGetNameAndLength(g: GapState): (r: (seq<Word>, nat))
    ensures r.0 == g.name
    ensures r.1 == 1 + StrLen(g.name, 1) && r.1 <= 1 + g.length
  {
    (g.name, StrLen(g.name, 0))
  }

  // ---- properties -------------------------------------------------------

  /** A name written by the collector is what a read from offset 0 returns,
      cut to the maximum length. */
  lemma WriteThenReadName(g: GapState, f: FwState, h: HandleMap, cid: Word, value: seq<Byte>)
    requires 0 < |value|
    ensures var (g', _) := GapHandleAccessWrite(g, f, h, cid, h.deviceName, value);
      var len := StoredNameLength(|value|);
      GapHandleAccessRead(g', h, cid, h.deviceName, 0) == AccessRsp(cid, h.deviceName, Success, len, value[..len])
  {
  }

  /** Reads at an offset return the rest of the name; past its end they fail. */
  lemma ReadAtOffset(g: GapState, h: HandleMap, cid: Word, offset: Word)
    ensures var r := GapHandleAccessRead(g, h, cid, h.deviceName, offset);
      && (offset < g.length ==> r.status == Success && r.length == |r.data| == g.length - offset
                                 && r.data == g.name[1..1 + g.length][offset..])
      && (offset >= g.length ==> r.status == InvalidOffset && r.length == 0 && r.data == [])
  {
  }

  /** The name a collector writes survives a reset: the NVM block written by
      updateDeviceName reads back as the same length and name. */
  lemma NamePersists(g: GapState, f: FwState, value: seq<Byte>, g0: GapState)
    ensures var (g', f') := GapUpdateDeviceName(g, f, value);
      && StoredLengthValid(f'.nvm, g.nvmOffset)
      && var (g'', next) := GapReadDataFromNvm(g0, f', g.nvmOffset);
         && g''.length == g'.length
         && g''.name[1..1 + g''.length] == g'.name[1..1 + g'.length]
         && next == g.nvmOffset + GAP_SERVICE_NVM_MEMORY_WORDS
  {
    var (g', f') := GapUpdateDeviceName(g, f, value);
    var len := g'.length;
    var off := g.nvmOffset;
    var f1 := WithNvmWords(f, off, [len]);
    assert f'.nvm == StoreWords(f1.nvm, off + 1, g'.name[1..1 + len]);
    assert NvmWord(f'.nvm, off) == NvmWord(f1.nvm, off) == len;
    NvmRoundTrip(f1.nvm, off + 1, g'.name[1..1 + len]);
  }

  /** The length GapDataInit recomputes is the name up to its first NUL: a
      NUL-free name keeps its length, a name with a NUL in it is cut there. */
  lemma DataInitLength(g: GapState)
    ensures GapDataInit(g).length <= g.length
    ensures (forall i :: 1 <= i < 1 + g.length ==> g.name[i] != 0) ==> GapDataInit(g).length == g.length
    ensures forall i :: 1 <= i < 1 + g.length && g.name[i] == 0 ==> GapDataInit(g).length < g.length
  {
  }

  // ---- the service object -----------------------------------------------

  class Gap {
    var length: Word
    var nvmOffset: nat
    const devName: array<Word>
    const fw: Firmware
    const handles: HandleMap

    predicate Valid()
      reads this, devName
    {
      GapValid(GapRec(length, devName[..], nvmOffset))
    }

    function State(): GapState
      requires Valid()
      reads this, devName
    {
      GapRec(length, devName[..], nvmOffset)
    }

    constructor (fw: Firmware, handles: HandleMap)
      ensures Valid() && fresh(devName)
      ensures State() == GapRec(15, INITIAL_DEVICE_NAME, 0)
      ensures this.fw == fw && this.handles == handles
    {
      length := 15;
      nvmOffset := 0;
      devName := new Word[DEVICE_NAME_BUFFER_SIZE](i requires 0 <= i < DEVICE_NAME_BUFFER_SIZE => INITIAL_DEVICE_NAME[i]);
      this.fw := fw;
      this.handles := handles;
      new;
      assert devName[..] == INITIAL_DEVICE_NAME;
    }

    method WriteDeviceNameToNvm()
      requires Valid()
      modifies fw
      ensures fw.State() == GapWriteDeviceNameToNvm(State(), old(fw.State()))
    {
      fw.NvmWrite(nvmOffset + GAP_NVM_DEVICE_LENGTH_OFFSET, [length]);
      fw.NvmWrite(nvmOffset + GAP_NVM_DEVICE_NAME_OFFSET, devName[1..1 + length]);
    }

    /** updateDeviceName: the MemCopy of the new name into the buffer is a loop. */
    method UpdateDeviceName(name: seq<Byte>)
      requires Valid()
      modifies this, devName, fw
      ensures Valid()
      ensures (State(), fw.State()) == GapUpdateDeviceName(old(State()), old(fw.State()), name)
    {
      var len := StoredNameLength(|name|);
      var i := 0;
      while i < len
        invariant 0 <= i <= len
        invariant nvmOffset == old(nvmOffset) && fw.State() == old(fw.State())
        invariant forall k :: 0 <= k < devName.Length ==>
          devName[k] == if 1 <= k < 1 + i then name[k - 1] else old(devName[k])
      {
        devName[1 + i] := name[i];
        i := i + 1;
      }
      devName[1 + len] := 0;
      length := len;
      assert devName[..] == WithName(old(devName[..]), name, len);
      WriteDeviceNameToNvm();
    }

    method DataInit()
      requires Valid()
      modifies this
      ensures Valid() && State() == GapDataInit(old(State()))
    {
      length := StrLen(devName[..], 1);
    }

    method HandleAccessRead(cid: Word, handle: Word, offset: Word)
      requires Valid()
      modifies fw
      ensures fw.State() == WithRequest(old(fw.State()), GapHandleAccessRead(State(), handles, cid, handle, offset))
    {
      var rsp;
      if handle == handles.deviceName {
        if offset < length {
          rsp := AccessRsp(cid, handle, Success, length - offset, devName[1 + offset..1 + length]);
        } else {
          rsp := AccessRsp(cid, handle, InvalidOffset, 0, []);
        }
      } else {
        rsp := AccessRsp(cid, handle, IrqProceed, 0, []);
      }
      fw.Issue(rsp);
    }

    method HandleAccessWrite(cid: Word, handle: Word, value: seq<Byte>)
      requires Valid()
      modifies this, devName, fw
      ensures Valid()
      ensures (State(), fw.State()) == GapHandleAccessWrite(old(State()), old(fw.State()), handles, cid, handle, value)
    {
      var rc := Success;
      if handle == handles.deviceName {
        UpdateDeviceName(value);
      } else {
        rc := WriteNotPermitted;
      }
      fw.Issue(AccessRsp(cid, handle, rc, 0, []));
    }

    method ReadDataFromNvm(offset: nat) returns (next: nat)
      requires Valid() && StoredLengthValid(fw.nvm, offset)
      modifies this, devName
      ensures Valid()
      ensures (State(), next) == GapReadDataFromNvm(old(State()), fw.State(), offset)
    {
      var lenWord := fw.NvmRead(offset + GAP_NVM_DEVICE_LENGTH_OFFSET, 1);
      var len := lenWord[0];
      var words := fw.NvmRead(offset + GAP_NVM_DEVICE_NAME_OFFSET, len);
      var i := 0;
      while i < len
        invariant 0 <= i <= len <= DEVICE_NAME_MAX_LENGTH
        invariant forall k :: 0 <= k < devName.Length ==>
          devName[k] == if 1 <= k < 1 + i then words[k - 1] else old(devName[k])
      {
        devName[1 + i] := words[i];
        i := i + 1;
      }
      devName[1 + len] := 0;
      length := len;
      nvmOffset := offset;
      assert words == NvmWords(fw.nvm, offset + GAP_NVM_DEVICE_NAME_OFFSET, len);
      assert devName[..] == WithName(old(devName[..]), words, len);
      next := offset + DEVICE_NAME_MAX_LENGTH + 1;
    }

    method InitWriteDataToNvm(offset: nat) returns (next: nat)
      requires Valid()
      modifies this, fw
      ensures Valid()
      ensures (State(), fw.State(), next) == GapInitWriteDataToNvm(old(State()), old(fw.State()), offset)
    {
      nvmOffset := offset;
      WriteDeviceNameToNvm();
      next := offset + DEVICE_NAME_MAX_LENGTH + 1;
    }
  }
}
