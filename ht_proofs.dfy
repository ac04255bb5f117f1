// Properties of the application model: the state machine, the connection
// parameter negotiator, the bonding coordinator, the disconnect table and the
// persistent store, each proved of the handler functions for every device
// state and every event.

module HtProofs {
  import opened Sdk
  import opened GattDb
  import opened HtHw
  import opened GapService
  import opened BatteryService
  import opened HealthThermoService
  import opened DevInfoService
  import opened HtData
  import opened HtGatt
  import opened HealthThermometer

  // ---- properties: the state machine -----------------------------------------

  /** Asking for the state the device is already in does nothing at all. */
  lemma SetStateSame(s: Sys, env: Env)
    ensures AppSetState(s, env, s.ht.state) == s
  {
  }

  /** Entry actions touch only the connection id and the advert timer of the
      application record. */
  predicate AdvertFieldsOnly(ht: HtState, ht': HtState)
  {
    ht' == ht.(stUcid := ht'.stUcid, appTid := ht'.appTid)
  }

  lemma StartAdvertsRecord(s: Sys, env: Env, fast: bool)
    ensures AdvertFieldsOnly(s.ht, GattStartAdverts(s, env, fast).ht)
  {
  }

  lemma EnterRecord(s: Sys, env: Env)
    ensures AdvertFieldsOnly(s.ht, EnterState(s, env).ht)
  {
    if s.ht.state == FastAdvertising {
      StartAdvertsRecord(s, env, true);
    } else if s.ht.state == SlowAdvertising {
      StartAdvertsRecord(s, env, false);
    }
  }

  /** Exit actions keep the state, the bond and the negotiation count, and at
      most cancel the parameter update timer. */
  lemma ExitRecord(s: Sys)
    ensures var ht' := ExitState(s).ht;
      && ht'.state == s.ht.state && ht'.bonded == s.ht.bonded && ht'.bondedBdAddr == s.ht.bondedBdAddr
      && ht'.numConnUpdateReq == s.ht.numConnUpdateReq
      && (ht'.cpuTid == s.ht.cpuTid || ht'.cpuTid == TimerInvalid)
  {
  }

  /** A real transition ends in the state asked for, and leaves the bond alone. */
  lemma SetStateCommits(s: Sys, env: Env, newState: AppState)
    ensures AppSetState(s, env, newState).ht.state == newState
    ensures AppSetState(s, env, newState).ht.bonded == s.ht.bonded
    ensures AppSetState(s, env, newState).ht.bondedBdAddr == s.ht.bondedBdAddr
  {
    if s.ht.state != newState {
      ExitRecord(s);
      EnterRecord(LeaveFor(s, newState), env);
    }
  }

  // ---- properties: the connection parameter negotiator --------------------------

  /** The attempt budget: at most four requests since the count was reset, and
      a parameter update timer runs only while a request is still allowed. */
  predicate NegotiationBudget(ht: HtState)
  {
    ht.numConnUpdateReq <= MAX_NUM_CONN_PARAM_UPDATE_REQS
    && (ht.cpuTid.Timer? ==> ht.numConnUpdateReq < MAX_NUM_CONN_PARAM_UPDATE_REQS)
  }

  /** `s'` neither counted a request nor started a parameter update timer. */
  predicate NegotiationUntouched(s: Sys, s': Sys)
  {
    s'.ht.numConnUpdateReq == s.ht.numConnUpdateReq
    && (s'.ht.cpuTid == s.ht.cpuTid || s'.ht.cpuTid == TimerInvalid)
  }

  lemma DataInitLeavesNegotiation(s: Sys)
    ensures NegotiationUntouched(s, HtDataInit(s))
    ensures HtDataInit(s).ht.state == s.ht.state && HtDataInit(s).ht.bonded == s.ht.bonded
  {
  }

  /** State changes never count a request or start a parameter update timer. */
  lemma SetStateLeavesNegotiation(s: Sys, env: Env, newState: AppState)
    ensures NegotiationUntouched(s, AppSetState(s, env, newState))
  {
    if s.ht.state != newState {
      ExitRecord(s);
      EnterRecord(LeaveFor(s, newState), env);
    }
  }

  /** requestConnParamUpdate on the current timer: the timer is forgotten and,
      when connected, the count goes up by one (never past the budget) and the
      request carries the preferred parameters for the first two attempts and
      the fallback parameters after that. A stale timer changes nothing. */
  lemma ParamRequestProfile(s: Sys, tid: TimerId)
    requires NegotiationBudget(s.ht) && tid.Timer?
    ensures var s' := RequestConnParamUpdate(s, tid);
      && (s.ht.cpuTid != tid ==> s' == s)
      && (s.ht.cpuTid == tid ==>
            && s'.ht.cpuTid == TimerInvalid && s'.ht.cpuTimerValue == 0
            && (s.ht.state == Connected ==>
                  && s'.ht.numConnUpdateReq == s.ht.numConnUpdateReq + 1 <= MAX_NUM_CONN_PARAM_UPDATE_REQS
                  && s'.fw.log == s.fw.log
                     + [ConnParamUpdateReq(s.ht.conBdAddr,
                          if s'.ht.numConnUpdateReq <= 2
                          then ConnParams(0x1B, 0x1B, 4, 1000)
                          else ConnParams(6, 0x1B, 4, 600))])
            && (s.ht.state != Connected ==> s'.fw == s.fw && s'.ht.numConnUpdateReq == s.ht.numConnUpdateReq))
      && NegotiationBudget(s'.ht)
  {
  }

  /** Starting adverts and stopping them do not touch the negotiation. */
  lemma StartAdvertsLeavesNegotiation(s: Sys, env: Env, fast: bool)
    ensures NegotiationUntouched(s, GattStartAdverts(s, env, fast))
  {
    StartAdvertsRecord(s, env, fast);
  }

  lemma BondingChanceKeepsBudget(s: Sys, env: Env, tid: TimerId)
    requires NegotiationBudget(s.ht)
    ensures NegotiationBudget(HandleBondingChanceTimerExpiry(s, env, tid).ht)
  {
    if s.ht.bondingTid == tid {
      SetStateLeavesNegotiation(s.(ht := s.ht.(bondingTid := TimerInvalid)), env, Disconnecting);
    }
  }

  lemma ForgetBondRecord(s: Sys)
    ensures ForgetBond(s).ht == s.ht.(bonded := false)
  {
  }

  lemma DropLinkKeepsBudget(s: Sys, env: Env)
    requires NegotiationBudget(s.ht)
    ensures NegotiationBudget(BondRemovalDropLink(s, env).ht)
  {
    SetStateLeavesNegotiation(AppAdvertisingExit(s), env, Disconnecting);
  }

  lemma StopAdvertsKeepsBudget(s: Sys)
    requires NegotiationBudget(s.ht)
    ensures NegotiationBudget(BondRemovalStopAdverts(s).ht)
  {
    DataInitLeavesNegotiation(s);
  }

  lemma RestartKeepsBudget(s: Sys, env: Env)
    requires NegotiationBudget(s.ht)
    ensures NegotiationBudget(BondRemovalRestart(s, env).ht)
  {
    DataInitLeavesNegotiation(s);
    SetStateLeavesNegotiation(Requested(HtDataInit(s), ResetWhiteList), env, FastAdvertising);
  }

  lemma BondRemovalKeepsBudget(s: Sys, env: Env)
    requires NegotiationBudget(s.ht)
    ensures NegotiationBudget(AfterBondRemoval(s, env).ht)
  {
    if s.ht.state == Connected {
      DropLinkKeepsBudget(s, env);
    } else if s.ht.state == FastAdvertising || s.ht.state == SlowAdvertising {
      StopAdvertsKeepsBudget(s);
    } else if s.ht.state == AppStateInit || s.ht.state == Idle {
      RestartKeepsBudget(s, env);
    }
  }

  lemma ExtraLongKeepsBudget(s: Sys, env: Env, tid: TimerId)
    requires NegotiationBudget(s.ht)
    ensures NegotiationBudget(HandleExtraLongButtonPress(s, env, tid).ht)
  {
    if s.hw.buttonTid == tid {
      ForgetBondRecord(s);
      BondRemovalKeepsBudget(ForgetBond(s), env);
    }
  }

  lemma TimerKeepsBudget(s: Sys, env: Env, cb: Callback, n: nat)
    requires NegotiationBudget(s.ht)
    ensures NegotiationBudget(OnTimer(s, env, cb, Timer(n)).ht)
  {
    match cb
    case RequestConnParamUpdateCb => ParamRequestProfile(s, Timer(n));
    case BondingChanceTimerCb => BondingChanceKeepsBudget(s, env, Timer(n));
    case ExtraLongButtonPressCb => ExtraLongKeepsBudget(s, env, Timer(n));
    case _ =>
  }

  lemma ConnectKeepsBudget(s: Sys, env: Env, connected: bool, cid: Word, peer: TypedBdAddr)
    requires NegotiationBudget(s.ht)
    ensures NegotiationBudget(HandleSignalGattConnectCfm(s, env, connected, cid, peer).ht)
  {
    if s.ht.state == FastAdvertising || s.ht.state == SlowAdvertising {
      var s1 := s.(ht := s.ht.(stUcid := cid, conBdAddr := peer));
      if connected {
        SetStateLeavesNegotiation(s1, env, Disconnecting);
        SetStateLeavesNegotiation(s1, env, Connected);
      } else {
        SetStateLeavesNegotiation(s, env, FastAdvertising);
        StartAdvertsLeavesNegotiation(s, env, true);
      }
    }
  }

  lemma CancelKeepsBudget(s: Sys, env: Env)
    requires NegotiationBudget(s.ht)
    ensures NegotiationBudget(HandleSignalGattCancelConnectCfm(s, env).ht)
  {
    var s1 := Requested(s.(ht := s.ht.(pairingButtonPressed := false)), ResetWhiteList);
    StartAdvertsLeavesNegotiation(s1, env, true);
    SetStateLeavesNegotiation(s1, env, FastAdvertising);
    SetStateLeavesNegotiation(s, env, SlowAdvertising);
    SetStateLeavesNegotiation(s, env, Idle);
  }

  lemma PairingKeepsBudget(s: Sys, env: Env, status: PairingStatus, peer: TypedBdAddr)
    requires NegotiationBudget(s.ht)
    ensures NegotiationBudget(HandleSignalSmSimplePairingCompleteInd(s, env, status, peer).ht)
  {
    SetStateLeavesNegotiation(s, env, Disconnecting);
  }

  lemma EncryptionKeepsBudget(s: Sys, env: Env, changeOk: bool, encEnable: bool)
    requires NegotiationBudget(s.ht)
    ensures NegotiationBudget(HandleSignalLmEncryptionChange(s, env, changeOk, encEnable).ht)
  {
  }

  /** Attribute accesses leave the application record alone. */
  lemma AccessRecord(s: Sys, env: Env, cid: Word, handle: Word, offset: Word, value: seq<Byte>)
    requires CccdWriteSized(env.handles, handle, value)
    ensures HtGatt.HandleAccessWrite(s, env, cid, handle, value).ht == s.ht
    ensures HtGatt.HandleAccessRead(s, env, cid, handle, offset).ht == s.ht
  {
  }

  lemma AccessKeepsBudget(s: Sys, env: Env, cid: Word, handle: Word, kind: AccessKind, offset: Word, value: seq<Byte>)
    requires kind == WriteAccess ==> CccdWriteSized(env.handles, handle, value)
    requires NegotiationBudget(s.ht)
    ensures NegotiationBudget(HandleSignalGattAccessInd(s, env, cid, handle, kind, offset, value).ht)
  {
    if s.ht.state == Connected {
      var s1 := RestartCpcPause(s);
      assert NegotiationBudget(s1.ht);
      if kind == WriteAccess {
        AccessRecord(s1, env, cid, handle, offset, value);
      } else if kind == ReadAccess {
        AccessRecord(s1, env, cid, handle, offset, [0, 0]);
      }
    }
  }

  lemma DisconnectKeepsBudget(s: Sys, env: Env, reason: DisconnectReason)
    requires NegotiationBudget(s.ht)
    ensures NegotiationBudget(HandleSignalLmDisconnectComplete(s, env, reason).ht)
  {
    var s1 := ForgetLink(s);
    if s1.ht.state == Connected || s1.ht.state == Disconnecting {
      var s2 := if s1.ht.state == Connected then HtDataInit(s1) else s1;
      SetStateLeavesNegotiation(s2, env, DisconnectTarget(s2.ht, env, reason));
    }
  }

  lemma AddDbKeepsBudget(s: Sys, env: Env, dbOk: bool)
    requires NegotiationBudget(s.ht)
    ensures NegotiationBudget(HandleSignalGattAddDbCfm(s, env, dbOk).ht)
  {
    SetStateLeavesNegotiation(s, env, FastAdvertising);
  }

  lemma LmKeepsBudget(s: Sys, env: Env, e: LmEvent)
    requires AccessAllowed(env, e)
    requires NegotiationBudget(s.ht)
    ensures NegotiationBudget(AppProcessLmEvent(s, env, e).ht)
  {
    if SecurityEvent(e) {
      SecurityKeepsBudget(s, env, e);
    } else if ConnectedLinkEvent(e) {
      ConnectedLinkKeepsBudget(s, env, e);
    } else {
      LinkKeepsBudget(s, env, e);
    }
  }

  lemma SecurityKeepsBudget(s: Sys, env: Env, e: LmEvent)
    requires SecurityEvent(e) && NegotiationBudget(s.ht)
    ensures NegotiationBudget(AppProcessLmEvent(s, env, e).ht)
  {
    if e.SmSimplePairingCompleteInd? {
      PairingKeepsBudget(s, env, e.status, e.bondPeer);
    } else if e.LmEncryptionChange? {
      EncryptionKeepsBudget(s, env, e.changeOk, e.encEnable);
    }
  }

  lemma ConnectedLinkKeepsBudget(s: Sys, env: Env, e: LmEvent)
    requires ConnectedLinkEvent(e) && AccessAllowed(env, e) && NegotiationBudget(s.ht)
    ensures NegotiationBudget(AppProcessLmEvent(s, env, e).ht)
  {
    if e.GattAccessInd? {
      AccessKeepsBudget(s, env, e.accCid, e.handle, e.kind, e.offset, e.value);
    }
  }

  lemma LinkKeepsBudget(s: Sys, env: Env, e: LmEvent)
    requires !SecurityEvent(e) && !ConnectedLinkEvent(e) && NegotiationBudget(s.ht)
    ensures NegotiationBudget(AppProcessLmEvent(s, env, e).ht)
  {
    if e.GattAddDbCfm? {
      AddDbKeepsBudget(s, env, e.dbOk);
    } else if e.GattCancelConnectCfm? {
      CancelKeepsBudget(s, env);
    } else if e.GattConnectCfm? {
      ConnectKeepsBudget(s, env, e.connected, e.cid, e.peer);
    } else if e.LmDisconnectComplete? {
      DisconnectKeepsBudget(s, env, e.reason);
    }
  }

  /** Every event keeps the attempt budget: at most four parameter update
      requests follow each reset of the count. */
  lemma StepKeepsBudget(s: Sys, env: Env, e: Event)
    requires e.Lm? ==> AccessAllowed(env, e.lm)
    requires NegotiationBudget(s.ht)
    ensures NegotiationBudget(Step(s, env, e).ht)
  {
    if s.fw.halted.None? {
      match e
      case TimerExpiry(n) =>
        if n in s.fw.armed {
          TimerKeepsBudget(s.(fw := WithoutTimer(s.fw, Timer(n))), env, s.fw.armed[n].cb, n);
        }
      case System(_) =>
      case Lm(ev) => LmKeepsBudget(s, env, ev);
    }
  }

  // ---- properties: exit and entry actions ----------------------------------------

  /** The exit actions, by the state left. */
  lemma ExitActions(s: Sys)
    ensures var s' := ExitState(s);
      && (s.ht.state == AppStateInit ==>
            && s'.ht == s.ht && s'.fw.armed == s.fw.armed
            && s'.fw.log == s.fw.log + if s.ht.bonded && !GattIsAddressResolvableRandom(s.ht.bondedBdAddr)
                                       then [AddWhiteListDevice(s.ht.bondedBdAddr)] else [])
      && (s.ht.state == FastAdvertising || s.ht.state == SlowAdvertising ==>
            && s'.ht == s.ht.(appTid := TimerInvalid) && s'.fw.log == s.fw.log
            && (s.ht.appTid.Timer? ==> s.ht.appTid.n !in s'.fw.armed))
      && (s.ht.state == Disconnecting ==>
            && s'.ht.appTid == TimerInvalid && s'.ht.cpuTid == TimerInvalid && s'.ht.bondingTid == TimerInvalid
            && s'.ht.stUcid == GATT_INVALID_UCID && !s'.ht.encryptEnabled && s'.ht.cpuTimerValue == 0
            && s'.ht.connInterval == 0 && s'.ht.connLatency == 0 && s'.ht.connTimeout == 0
            && s'.ht.bonded == s.ht.bonded && s'.ht.bondedBdAddr == s.ht.bondedBdAddr
            && (s.ht.appTid.Timer? ==> s.ht.appTid.n !in s'.fw.armed)
            && (s.ht.cpuTid.Timer? ==> s.ht.cpuTid.n !in s'.fw.armed)
            && (s.ht.bondingTid.Timer? ==> s.ht.bondingTid.n !in s'.fw.armed)
            && s'.fw.log == s.fw.log)
      && (s.ht.state == Connected || s.ht.state == Idle ==> s' == s)
      && s'.fw.nextTimer == s.fw.nextTimer && s'.hw.buzzerTid == s.hw.buzzerTid
      && (TimersFresh(s.fw) ==> TimersFresh(s'.fw))
  {
  }

  /** Starting adverts and then sounding a pattern keeps the advert timer. */
  lemma BeepKeepsTimer(s: Sys, t: BeepType, k: nat)
    requires TimersFresh(s.fw) && Issued(s.fw, s.hw.buzzerTid)
    requires k in s.fw.armed && s.hw.buzzerTid != Timer(k)
    ensures var s' := SysSoundBuzzer(s, t);
      && s'.ht == s.ht && s'.fw.log == s.fw.log && s'.hw.beepType == t
      && k in s'.fw.armed && s'.fw.armed[k] == s.fw.armed[k]
  {
    SoundBuzzerContract(s.hw, s.fw, t);
  }

  /** The advert timer is the next handle the allocator gives out. */
  lemma StartAdvertsTimer(s: Sys, env: Env, fast: bool)
    ensures var s' := GattStartAdverts(s, env, fast);
      s'.ht.appTid == Timer(s.fw.nextTimer) && s'.fw.nextTimer == s.fw.nextTimer + 1 && s'.hw == s.hw
  {
  }

  /** Every timer running in `f'` was running in `f` or is newer than all of them. */
  predicate OnlyNewTimers(f: FwState, f': FwState)
  {
    forall k :: k in f'.armed ==> k in f.armed || k >= f.nextTimer
  }

  /** Entering an advertising state starts adverts with a fresh advert timer
      of the right length; fast advertising also beeps twice. */
  lemma EnterAdvertising(s: Sys, env: Env, fast: bool)
    requires s.ht.state == if fast then FastAdvertising else SlowAdvertising
    requires TimersFresh(s.fw) && Issued(s.fw, s.ht.appTid) && Issued(s.fw, s.hw.buzzerTid)
    ensures var s' := EnterState(s, env);
      && s'.ht == s.ht.(stUcid := GATT_INVALID_UCID, appTid := s'.ht.appTid)
      && s'.ht.appTid.Timer? && s'.ht.appTid.n in s'.fw.armed
      && s'.fw.armed[s'.ht.appTid.n] == TimerEntry(AdvertTimeout(fast), AdvertTimerCb)
      && s'.fw.log[|s'.fw.log| - 1] == GattConnectReq(ConnectFilterFor(s.ht))
      && (fast ==> s'.hw.beepType == BeepTwice)
      && OnlyNewTimers(s.fw, s'.fw)
  {
    var s1 := GattStartAdverts(s, env, fast);
    assert EnterState(s, env) == if fast then SysSoundBuzzer(s1, BeepTwice) else s1;
    StartAdvertsContract(s, env, fast);
    StartAdvertsTimer(s, env, fast);
    assert OnlyNewTimers(s.fw, s1.fw);
    if fast {
      BeepKeepsTimer(s1, BeepTwice, s.fw.nextTimer);
      SoundBuzzerContract(s1.hw, s1.fw, BeepTwice);
    }
  }

  /** The entry actions of the other states. */
  lemma EntryActions(s: Sys, env: Env)
    ensures var s' := EnterState(s, env);
      && (s.ht.state == Connected ==>
            && s'.ht == s.ht
            && s'.fw.log == s.fw.log + if GattIsAddressResolvableRandom(s.ht.conBdAddr) then []
                                       else [SmRequestSecurityLevel(s.ht.conBdAddr)])
      && (s.ht.state == Disconnecting ==> s' == Requested(s, GattDisconnectReq(s.ht.stUcid)))
      && (s.ht.state == Idle ==> s'.ht == s.ht && s'.fw.log == s.fw.log && s'.hw.beepType == BeepLong)
      && (s.ht.state == AppStateInit ==> s' == s)
  {
  }

  /** Exit runs before entry: leaving Disconnecting for advertising cancels
      every timer of the old connection, yet the advert timer the entry action
      starts is running afterwards. */
  lemma LeaveDisconnectingForAdverts(s: Sys, env: Env, fast: bool)
    requires s.ht.state == Disconnecting
    requires TimersFresh(s.fw) && Issued(s.fw, s.ht.appTid) && Issued(s.fw, s.hw.buzzerTid)
    requires Issued(s.fw, s.ht.cpuTid) && Issued(s.fw, s.ht.bondingTid)
    ensures var target := if fast then FastAdvertising else SlowAdvertising;
      var s' := AppSetState(s, env, target);
      && s'.ht.state == target
      && s'.ht.appTid.Timer? && s'.ht.appTid.n in s'.fw.armed
      && s'.fw.armed[s'.ht.appTid.n] == TimerEntry(AdvertTimeout(fast), AdvertTimerCb)
      && s'.ht.cpuTid == TimerInvalid && s'.ht.bondingTid == TimerInvalid && s'.ht.stUcid == GATT_INVALID_UCID
      && (s.ht.cpuTid.Timer? ==> s.ht.cpuTid.n !in s'.fw.armed)
      && (s.ht.bondingTid.Timer? ==> s.ht.bondingTid.n !in s'.fw.armed)
  {
    var target := if fast then FastAdvertising else SlowAdvertising;
    var s1 := LeaveFor(s, target);
    ExitActions(s);
    assert s1.ht.appTid == TimerInvalid && TimersFresh(s1.fw) && Issued(s1.fw, s1.hw.buzzerTid);
    EnterAdvertising(s1, env, fast);
    assert AppSetState(s, env, target) == EnterState(s1, env);
  }

  // ---- properties: negotiation start, debounce and retry ---------------------------

  /** Leaving advertising for Connected cancels the advert timer and changes
      nothing else in the application record. */
  lemma AdvertisingToConnected(s: Sys, env: Env)
    requires s.ht.state == FastAdvertising || s.ht.state == SlowAdvertising
    ensures var s' := AppSetState(s, env, Connected);
      && s'.ht == s.ht.(appTid := TimerInvalid, state := Connected)
      && s'.fw.nextTimer == s.fw.nextTimer
      && (TimersFresh(s.fw) ==> TimersFresh(s'.fw))
  {
    ExitActions(s);
    EntryActions(LeaveFor(s, Connected), env);
  }

  /** A connection from a known host enters Connected; when no parameter
      update is pending and the link's interval is not 27 or its latency is
      below 4, the count is reset and the 5 s pause starts. */
  lemma ConnectStartsNegotiation(s: Sys, env: Env, cid: Word, peer: TypedBdAddr)
    requires s.ht.state == FastAdvertising || s.ht.state == SlowAdvertising
    requires !UnknownResolvableHost(s.ht, env, peer) && TimersFresh(s.fw)
    ensures var s' := HandleSignalGattConnectCfm(s, env, true, cid, peer);
      var start := s.ht.cpuTid == TimerInvalid && (s.ht.connInterval != 0x1B || s.ht.connLatency < 4);
      && s'.ht.state == Connected && s'.ht.stUcid == cid && s'.ht.conBdAddr == peer
      && (start ==>
            && s'.ht.numConnUpdateReq == 0 && s'.ht.cpuTimerValue == TGAP_CPP_PERIOD
            && s'.ht.cpuTid.Timer? && s'.ht.cpuTid.n in s'.fw.armed
            && s'.fw.armed[s'.ht.cpuTid.n] == TimerEntry(5 * SECOND, GapCppTimerExpiryCb))
      && (!start ==>
            && s'.ht.cpuTid == s.ht.cpuTid && s'.ht.numConnUpdateReq == s.ht.numConnUpdateReq
            && s'.ht.cpuTimerValue == s.ht.cpuTimerValue)
  {
    AdvertisingToConnected(s.(ht := s.ht.(stUcid := cid, conBdAddr := peer)), env);
  }

  /** A host whose resolvable address the stored key does not resolve is
      disconnected at once. */
  lemma ConnectUnknownHostDisconnects(s: Sys, env: Env, cid: Word, peer: TypedBdAddr)
    requires s.ht.state == FastAdvertising || s.ht.state == SlowAdvertising
    requires s.ht.bonded && GattIsAddressResolvableRandom(s.ht.bondedBdAddr) && !env.privacyMatch(peer, s.ht.irk)
    ensures var s' := HandleSignalGattConnectCfm(s, env, true, cid, peer);
      s'.ht.state == Disconnecting && s'.fw.log[|s'.fw.log| - 1] == GattDisconnectReq(cid)
  {
    var s1 := s.(ht := s.ht.(stUcid := cid, conBdAddr := peer));
    ExitActions(s1);
    EntryActions(LeaveFor(s1, Disconnecting), env);
  }

  /** The end of the 5 s pause starts the 1 s pause before the request. */
  lemma CppExpiryStartsCpc(s: Sys, tid: TimerId)
    ensures var s' := HandleGapCppTimerExpiry(s, tid);
      && (s.ht.cpuTid != tid ==> s' == s)
      && (s.ht.cpuTid == tid ==>
            && s'.ht == s.ht.(cpuTid := Timer(s.fw.nextTimer), cpuTimerValue := 1 * SECOND)
            && s'.fw.armed[s.fw.nextTimer] == TimerEntry(1 * SECOND, RequestConnParamUpdateCb))
  {
  }

  /** While the 1 s pause runs, each attribute access starts it again. */
  lemma AccessRestartsCpc(s: Sys)
    requires TimersFresh(s.fw) && Issued(s.fw, s.ht.cpuTid)
    ensures var s' := RestartCpcPause(s);
      && (s.ht.cpuTimerValue == TGAP_CPC_PERIOD && s.ht.cpuTid.Timer? ==>
            && s.ht.cpuTid.n !in s'.fw.armed
            && s'.ht == s.ht.(cpuTid := Timer(s.fw.nextTimer))
            && s'.fw.armed[s.fw.nextTimer] == TimerEntry(1 * SECOND, RequestConnParamUpdateCb))
      && (!(s.ht.cpuTimerValue == TGAP_CPC_PERIOD && s.ht.cpuTid.Timer?) ==> s' == s)
  {
  }

  /** The access handler's timers: the debounce, then a fresh measurement
      timer after a write on an encrypted link. */
  lemma AccessIndNegotiation(s: Sys, env: Env, cid: Word, handle: Word, kind: AccessKind, offset: Word, value: seq<Byte>)
    requires kind == WriteAccess ==> CccdWriteSized(env.handles, handle, value)
    requires s.ht.state == Connected
    ensures var s' := HandleSignalGattAccessInd(s, env, cid, handle, kind, offset, value);
      && s'.ht.cpuTid == RestartCpcPause(s).ht.cpuTid
      && s'.ht.numConnUpdateReq == s.ht.numConnUpdateReq
      && (kind == WriteAccess && s.ht.encryptEnabled ==>
            s'.ht.appTid.Timer? && s'.fw.armed[s'.ht.appTid.n] == TimerEntry(40 * SECOND, TempMeasTimerCb))
  {
    var s1 := RestartCpcPause(s);
    if kind == WriteAccess {
      AccessRecord(s1, env, cid, handle, offset, value);
    } else if kind == ReadAccess {
      AccessRecord(s1, env, cid, handle, offset, [0, 0]);
    }
  }

  /** A refused update is retried after 30 s only while fewer than four
      requests were made; anything else ends the negotiation. */
  lemma UpdateCfmRetry(s: Sys, updateOk: bool)
    requires s.ht.state == Connected && TimersFresh(s.fw) && Issued(s.fw, s.ht.cpuTid)
    ensures var s' := HandleSignalLsConnParamUpdateCfm(s, updateOk);
      && (!updateOk && s.ht.numConnUpdateReq < 4 ==>
            && (s.ht.cpuTid.Timer? ==> s.ht.cpuTid.n !in s'.fw.armed)
            && s'.ht == s.ht.(cpuTid := Timer(s.fw.nextTimer), cpuTimerValue := 30 * SECOND)
            && s'.fw.armed[s.fw.nextTimer] == TimerEntry(30 * SECOND, RequestConnParamUpdateCb))
      && (updateOk || s.ht.numConnUpdateReq >= 4 ==> s' == s)
  {
  }

  /** An update the central made cancels the pending timer; parameters that
      are still not the preferred ones reset the count and arm the 30 s retry
      directly, without the 5 s and 1 s pauses. */
  lemma UpdateIndSettles(s: Sys)
    requires s.ht.state == Connected && TimersFresh(s.fw) && Issued(s.fw, s.ht.cpuTid)
    ensures var s' := HandleSignalLsConnParamUpdateInd(s);
      var retry := s.ht.connInterval != 0x1B || s.ht.connLatency < 4;
      && (s.ht.cpuTid.Timer? ==> s.ht.cpuTid.n !in s'.fw.armed)
      && (retry ==>
            && s'.ht == s.ht.(cpuTid := Timer(s.fw.nextTimer), cpuTimerValue := 30 * SECOND, numConnUpdateReq := 0)
            && s'.fw.armed[s.fw.nextTimer] == TimerEntry(30 * SECOND, RequestConnParamUpdateCb))
      && (!retry ==> s'.ht == s.ht.(cpuTid := TimerInvalid, cpuTimerValue := 0))
  {
  }

  // ---- properties: stale timers -------------------------------------------------------

  /** A callback given a handle other than the one the application holds for
      it changes nothing; the buzzer, which keeps no such check, is the
      exception. */
  lemma StaleTimerIgnored(s: Sys, env: Env, cb: Callback, tid: TimerId)
    requires cb != BuzzerTimerCb
    requires cb == RequestConnParamUpdateCb || cb == GapCppTimerExpiryCb ==> tid != s.ht.cpuTid
    requires cb == TempMeasTimerCb || cb == AdvertTimerCb ==> tid != s.ht.appTid
    requires cb == BondingChanceTimerCb ==> tid != s.ht.bondingTid
    requires cb == ExtraLongButtonPressCb ==> tid != s.hw.buttonTid
    ensures OnTimer(s, env, cb, tid) == s
  {
  }

  /** Only a running timer can expire. */
  lemma UnarmedTimerIgnored(s: Sys, env: Env, n: nat)
    requires n !in s.fw.armed
    ensures TimerExpired(s, env, n) == s
  {
  }

  // ---- properties: the bonding coordinator -------------------------------------------

  /** Pairing is authorised exactly when no host is bonded yet. */
  lemma PairingAuthorisedIffNotBonded(s: Sys)
    ensures var s' := HandleSignalSmPairingAuthInd(s);
      && (s.ht.state == Connected ==>
            && s'.ht == s.ht && |s'.fw.log| == |s.fw.log| + 1 && s'.fw.log[..|s.fw.log|] == s.fw.log
            && s'.fw.log[|s.fw.log|].SmPairingAuthRsp?
            && (s'.fw.log[|s.fw.log|].bond <==> !s.ht.bonded))
      && (s.ht.state != Connected ==> s'.fw.halted == Some(PanicInvalidState))
  {
  }

  /** A diversifier is approved exactly when a host is bonded and it is the stored one. */
  lemma DiversifierApprovedIffStored(s: Sys, cid: Word, div: Word)
    ensures var s' := HandleSignalSmDivApproveInd(s, cid, div);
      && (s.ht.state == Connected ==>
            && s'.ht == s.ht && |s'.fw.log| == |s.fw.log| + 1 && s'.fw.log[..|s.fw.log|] == s.fw.log
            && s'.fw.log[|s.fw.log|].SmDivApproval? && s'.fw.log[|s.fw.log|].cid == cid
            && (s'.fw.log[|s.fw.log|].approve <==> s.ht.bonded && div == s.ht.diversifier))
      && (s.ht.state != Connected ==> s'.fw.halted == Some(PanicInvalidState))
  {
  }

  /** A failed pairing: repeated attempts disconnect; any other failure of a
      bonded host gives it 30 s to encrypt; an unbonded host is left alone.
      Outside Connected the event is ignored. */
  lemma PairingFailurePolicy(s: Sys, env: Env, status: PairingStatus, peer: TypedBdAddr)
    requires status != PairingSuccess
    ensures var s' := HandleSignalSmSimplePairingCompleteInd(s, env, status, peer);
      && (s.ht.state != Connected ==> s' == s)
      && (s.ht.state == Connected && status == PairingRepeatedAttempts ==>
            s'.ht.state == Disconnecting && s'.fw.log == s.fw.log + [GattDisconnectReq(s.ht.stUcid)])
      && (s.ht.state == Connected && status == PairingFailed && s.ht.bonded ==>
            && s'.ht == s.ht.(encryptEnabled := false, bondingTid := Timer(s.fw.nextTimer))
            && s'.fw.armed[s.fw.nextTimer] == TimerEntry(30 * SECOND, BondingChanceTimerCb))
      && (s.ht.state == Connected && status == PairingFailed && !s.ht.bonded ==> s' == s)
  {
    if s.ht.state == Connected && status == PairingRepeatedAttempts {
      ExitActions(s);
      EntryActions(LeaveFor(s, Disconnecting), env);
    }
  }

  /** The link is encrypted: the bonding chance timer stops and, when no
      measurement timer is running, a 40 s one starts. */
  lemma EncryptionStopsBondingChance(s: Sys, env: Env)
    requires s.ht.state == Connected && TimersFresh(s.fw) && Issued(s.fw, s.ht.bondingTid)
    ensures var s' := HandleSignalLmEncryptionChange(s, env, true, true);
      && s'.ht.encryptEnabled && s'.ht.bondingTid == TimerInvalid
      && (s.ht.bondingTid.Timer? ==> s.ht.bondingTid.n !in s'.fw.armed)
      && (s.ht.appTid == TimerInvalid ==>
            s'.ht.appTid.Timer? && s'.fw.armed[s'.ht.appTid.n] == TimerEntry(40 * SECOND, TempMeasTimerCb))
      && (s.ht.appTid != TimerInvalid ==> s'.ht.appTid == s.ht.appTid)
      && s'.ht.state == Connected
  {
  }

  /** A bonded host that has not re-encrypted within 30 s is disconnected. */
  lemma BondingChanceExpiryDisconnects(s: Sys, env: Env, tid: TimerId)
    requires s.ht.state == Connected
    ensures var s' := HandleBondingChanceTimerExpiry(s, env, tid);
      && (s.ht.bondingTid != tid ==> s' == s)
      && (s.ht.bondingTid == tid ==>
            && s'.ht.state == Disconnecting && s'.ht.bondingTid == TimerInvalid
            && s'.fw.log == s.fw.log + [GattDisconnectReq(s.ht.stUcid)])
  {
    if s.ht.bondingTid == tid {
      var s1 := s.(ht := s.ht.(bondingTid := TimerInvalid));
      ExitActions(s1);
      EntryActions(LeaveFor(s1, Disconnecting), env);
    }
  }

  /** The keys a pairing distributes: the diversifier is kept and stored in
      any case, the identity key only for a host with a resolvable address. */
  lemma KeysStored(s: Sys, hasDiv: bool, div: Word, hasId: bool, keyIrk: Irk)
    requires s.ht.state == Connected
    ensures var s' := HandleSignalSmKeysInd(s, hasDiv, div, hasId, keyIrk);
      var storeIrk := hasId && GattIsAddressResolvableRandom(s.ht.conBdAddr);
      && s'.ht.diversifier == (if hasDiv then div else s.ht.diversifier)
      && (hasDiv ==> NvmWord(s'.fw.nvm, NVM_OFFSET_SM_DIV) == div)
      && s'.ht.irk == (if storeIrk then keyIrk else s.ht.irk)
      && (storeIrk ==> NvmWords(s'.fw.nvm, NVM_OFFSET_SM_IRK, MAX_WORDS_IRK) == keyIrk)
      && s'.ht == s.ht.(diversifier := s'.ht.diversifier, irk := s'.ht.irk)
      && s'.fw.log == s.fw.log
  {
    var s1 := if hasDiv then s.(ht := s.ht.(diversifier := div), fw := WithNvmWords(s.fw, NVM_OFFSET_SM_DIV, [div])) else s;
    var storeIrk := hasId && GattIsAddressResolvableRandom(s.ht.conBdAddr);
    var s2 := if storeIrk then s1.(ht := s1.ht.(irk := keyIrk), fw := WithNvmWords(s1.fw, NVM_OFFSET_SM_IRK, keyIrk)) else s1;
    assert HandleSignalSmKeysInd(s, hasDiv, div, hasId, keyIrk) == s2;
    if hasDiv {
      NvmRoundTrip(s.fw.nvm, NVM_OFFSET_SM_DIV, [div]);
    }
    if storeIrk {
      NvmRoundTrip(s1.fw.nvm, NVM_OFFSET_SM_IRK, keyIrk);
      NvmWriteLocal(s1.fw.nvm, NVM_OFFSET_SM_IRK, keyIrk, NVM_OFFSET_SM_DIV);
    }
  }

  // ---- properties: the disconnect table ----------------------------------------------

  /** Where the device goes when the link is gone, by reason and state. */
  lemma DisconnectTargetTable(ht: HtState, env: Env, reason: DisconnectReason)
    requires ht.state == Connected || ht.state == Disconnecting
    ensures var t := DisconnectTarget(ht, env, reason);
      && (reason == ConnTimeout ==> t == FastAdvertising)
      && (reason == ConnTermLocalHost && ht.state == Connected ==> t == FastAdvertising)
      && (reason == ConnTermLocalHost && ht.state == Disconnecting ==>
            t == if ht.bonded && !(GattIsAddressResolvableRandom(ht.bondedBdAddr) && !env.privacyMatch(ht.conBdAddr, ht.irk))
                 then Idle else FastAdvertising)
      && (reason == OtherReason ==> t == if ht.bonded then Idle else FastAdvertising)
  {
  }

  /** The end of a disconnect once the state is known to be one that expects it. */
  lemma DisconnectMovesTo(s: Sys, env: Env, reason: DisconnectReason)
    requires s.ht.state == Connected || s.ht.state == Disconnecting
    ensures var s' := HandleSignalLmDisconnectComplete(s, env, reason);
      s'.ht.state == DisconnectTarget(s.ht, env, reason) && s'.ht.bondingTid == TimerInvalid
  {
    var s1 := ForgetLink(s);
    var s2 := if s1.ht.state == Connected then HtDataInit(s1) else s1;
    assert DisconnectTarget(s2.ht, env, reason) == DisconnectTarget(s.ht, env, reason);
    var target := DisconnectTarget(s2.ht, env, reason);
    ExitRecord(s2);
    EnterRecord(LeaveFor(s2, target), env);
  }

  /** The link is gone: from Connected or Disconnecting the device moves to
      the state the table gives, with the bonding chance timer cancelled;
      in any other state the application panics. */
  lemma DisconnectTable(s: Sys, env: Env, reason: DisconnectReason)
    ensures var s' := HandleSignalLmDisconnectComplete(s, env, reason);
      && (s.ht.state != Connected && s.ht.state != Disconnecting ==> s'.fw.halted == Some(PanicInvalidState))
      && (s.ht.state == Connected || s.ht.state == Disconnecting ==>
            s'.ht.state == DisconnectTarget(s.ht, env, reason) && s'.ht.bondingTid == TimerInvalid)
  {
    if s.ht.state == Connected || s.ht.state == Disconnecting {
      DisconnectMovesTo(s, env, reason);
    }
  }

  // ---- properties: the persistent store ------------------------------------------------

  /** A typed address read back from its five words is the address written. */
  lemma AddrWordsRoundTrip(a: TypedBdAddr)
    ensures WordsAddr(AddrWords(a)) == a
  {
    var lap: int := a.addr.lap;
    assert lap % 0x1_0000 + (lap / 0x1_0000) * 0x1_0000 == lap;
  }

  /** Where the services keep their words once the store has been read. */
  predicate StoreLayout(s: Sys)
  {
    s.gap.nvmOffset == NVM_MAX_APP_MEMORY_WORDS
    && s.thermo.nvmOffset == NVM_MAX_APP_MEMORY_WORDS + DEVICE_NAME_MAX_LENGTH + 1
    && s.batt.nvmOffset == NVM_MAX_APP_MEMORY_WORDS + DEVICE_NAME_MAX_LENGTH + 2
  }

  /** The services' blocks follow one another after the bonding record: the
      name at 16 (a length word and 20 name words), the thermometer's
      configuration at 37 and the battery's at 38. */
  lemma ReadPersistentStoreLayout(s: Sys)
    requires StoreReadable(s.fw.nvm)
    ensures StoreLayout(ReadPersistentStore(s))
    ensures ReadPersistentStore(s).gap.nvmOffset == 16
    ensures ReadPersistentStore(s).thermo.nvmOffset == 37 && ReadPersistentStore(s).batt.nvmOffset == 38
  {
  }

  /** A store without the sanity word is initialised: the word is written, no
      host is bonded and the diversifier is 0, here and in the store, and the
      store is one the next power-on can read. */
  lemma FreshStoreInitialised(s: Sys)
    requires !StoreIntact(s.fw.nvm)
    ensures var s' := ReadPersistentStore(s);
      && StoreIntact(s'.fw.nvm) && StoreReadable(s'.fw.nvm)
      && !s'.ht.bonded && s'.ht.diversifier == 0
      && NvmWord(s'.fw.nvm, NVM_OFFSET_BONDED_FLAG) == 0 && NvmWord(s'.fw.nvm, NVM_OFFSET_SM_DIV) == 0
  {
  }

  /** An intact store is only read, and the bond it records is taken up. */
  lemma IntactStoreRead(s: Sys)
    requires StoreIntact(s.fw.nvm) && StoreReadable(s.fw.nvm)
    ensures var s' := ReadPersistentStore(s); var m := s.fw.nvm;
      && s'.fw == s.fw
      && (s'.ht.bonded <==> NvmWord(m, NVM_OFFSET_BONDED_FLAG) != 0)
      && (s'.ht.bonded ==> s'.ht.bondedBdAddr == WordsAddr(NvmWords(m, NVM_OFFSET_BONDED_ADDR, TYPED_BD_ADDR_WORDS)))
      && s'.ht.diversifier == NvmWord(m, NVM_OFFSET_SM_DIV)
      && (s'.ht.bonded && GattIsAddressResolvableRandom(s'.ht.bondedBdAddr) ==>
            s'.ht.irk == NvmWords(m, NVM_OFFSET_SM_IRK, MAX_WORDS_IRK))
  {
  }

  /** The end of AppInit: the connection record is cleared, the state is
      init and the security manager and the database are set up, in that order. */
  lemma InitAfterStoreState(s: Sys)
    ensures var s' := InitAfterStore(s);
      && s'.ht.state == AppStateInit && s'.fw.nvm == s.fw.nvm && (StoreLayout(s) ==> StoreLayout(s'))
      && s'.ht.appTid == TimerInvalid && s'.ht.cpuTid == TimerInvalid && s'.ht.bondingTid == TimerInvalid
      && s'.ht.stUcid == GATT_INVALID_UCID && s'.ht.diversifier == s.ht.diversifier
      && s'.ht.bonded == s.ht.bonded && s'.ht.bondedBdAddr == s.ht.bondedBdAddr
      && s'.fw.log == s.fw.log + [SmInit(s.ht.diversifier), GattAddDatabaseReq]
  {
  }

  /** AppInit ends in the init state with no application timer running, the
      store read and laid out, the database registration requested. */
  lemma AppInitState(s: Sys)
    requires StoreReadable(s.fw.nvm)
    ensures var s' := AppInit(s);
      && s'.ht.state == AppStateInit && StoreLayout(s') && StoreIntact(s'.fw.nvm)
      && s'.ht.appTid == TimerInvalid && s'.ht.cpuTid == TimerInvalid && s'.ht.bondingTid == TimerInvalid
      && s'.ht.stUcid == GATT_INVALID_UCID
      && s'.fw.log[|s'.fw.log| - 1] == GattAddDatabaseReq
      && s'.fw.log[|s'.fw.log| - 2] == SmInit(s'.ht.diversifier)
  {
    var s1 := InitBeforeStore(s);
    var s2 := ReadPersistentStore(s1);
    ReadPersistentStoreLayout(s1);
    if !StoreIntact(s1.fw.nvm) {
      FreshStoreInitialised(s1);
    } else {
      IntactStoreRead(s1);
    }
    InitAfterStoreState(s2);
  }

  /** The bond AppInit takes up from an intact store: the flag and the address. */
  lemma AppInitTakesUpBond(s: Sys)
    requires StoreIntact(s.fw.nvm) && StoreReadable(s.fw.nvm)
    ensures var s' := AppInit(s); var m := s.fw.nvm;
      && (s'.ht.bonded <==> NvmWord(m, NVM_OFFSET_BONDED_FLAG) != 0)
      && (s'.ht.bonded ==> s'.ht.bondedBdAddr == WordsAddr(NvmWords(m, NVM_OFFSET_BONDED_ADDR, TYPED_BD_ADDR_WORDS)))
  {
    var s1 := InitBeforeStore(s);
    IntactStoreRead(s1);
    InitAfterStoreState(ReadPersistentStore(s1));
  }

  /** The services' bonding notifications write only their own blocks, past
      the bonding record. */
  lemma BondingNotifyKeepsRecord(s: Sys)
    requires StoreLayout(s)
    ensures var s' := SysBondingNotify(s);
      && s'.ht == s.ht && s'.fw.log == s.fw.log
      && forall k :: 0 <= k <= NVM_MAX_APP_MEMORY_WORDS ==> NvmWord(s'.fw.nvm, k) == NvmWord(s.fw.nvm, k)
  {
  }

  /** The application's write of the bond: the flag and the address are
      stored, the words AppInit checks first are left alone, and a host with a
      fixed address goes on the white list. */
  lemma WriteBondStores(s: Sys, peer: TypedBdAddr)
    ensures var s' := WriteBond(s, peer); var m := s'.fw.nvm;
      && s'.ht == s.ht.(bonded := true, bondedBdAddr := peer)
      && s'.gap == s.gap && s'.thermo == s.thermo && s'.batt == s.batt
      && NvmWord(m, NVM_OFFSET_BONDED_FLAG) == 1
      && NvmWords(m, NVM_OFFSET_BONDED_ADDR, TYPED_BD_ADDR_WORDS) == AddrWords(peer)
      && NvmWord(m, NVM_OFFSET_SANITY_WORD) == NvmWord(s.fw.nvm, NVM_OFFSET_SANITY_WORD)
      && NvmWord(m, NVM_MAX_APP_MEMORY_WORDS) == NvmWord(s.fw.nvm, NVM_MAX_APP_MEMORY_WORDS)
      && s'.fw.log == s.fw.log + if GattIsAddressResolvableRandom(peer) then [] else [AddWhiteListDevice(peer)]
  {
    var f1 := WithNvmWords(s.fw, NVM_OFFSET_BONDED_FLAG, [1]);
    NvmRoundTrip(f1.nvm, NVM_OFFSET_BONDED_ADDR, AddrWords(peer));
  }

  /** recordBond: the application's write, then the services' own blocks. */
  lemma RecordBondStores(s: Sys, peer: TypedBdAddr)
    requires StoreLayout(s)
    ensures var s' := RecordBond(s, peer); var m := s'.fw.nvm;
      && s'.ht == s.ht.(bonded := true, bondedBdAddr := peer)
      && NvmWord(m, NVM_OFFSET_BONDED_FLAG) == 1
      && NvmWords(m, NVM_OFFSET_BONDED_ADDR, TYPED_BD_ADDR_WORDS) == AddrWords(peer)
      && NvmWord(m, NVM_OFFSET_SANITY_WORD) == NvmWord(s.fw.nvm, NVM_OFFSET_SANITY_WORD)
      && NvmWord(m, NVM_MAX_APP_MEMORY_WORDS) == NvmWord(s.fw.nvm, NVM_MAX_APP_MEMORY_WORDS)
      && s'.fw.log == s.fw.log + if GattIsAddressResolvableRandom(peer) then [] else [AddWhiteListDevice(peer)]
  {
    var s2 := WriteBond(s, peer);
    WriteBondStores(s, peer);
    BondingNotifyKeepsRecord(s2);
    var m2 := s2.fw.nvm;
    var m := SysBondingNotify(s2).fw.nvm;
    assert NvmWords(m, NVM_OFFSET_BONDED_ADDR, TYPED_BD_ADDR_WORDS) == NvmWords(m2, NVM_OFFSET_BONDED_ADDR, TYPED_BD_ADDR_WORDS);
  }

  /** A successful pairing records the bond: see RecordBondStores. */
  lemma PairingSuccessRecordsBond(s: Sys, env: Env, peer: TypedBdAddr)
    requires s.ht.state == Connected && StoreLayout(s)
    ensures var s' := HandleSignalSmSimplePairingCompleteInd(s, env, PairingSuccess, peer); var m := s'.fw.nvm;
      && s'.ht == s.ht.(bonded := true, bondedBdAddr := peer)
      && NvmWord(m, NVM_OFFSET_BONDED_FLAG) == 1
      && NvmWords(m, NVM_OFFSET_BONDED_ADDR, TYPED_BD_ADDR_WORDS) == AddrWords(peer)
      && NvmWord(m, NVM_OFFSET_SANITY_WORD) == NvmWord(s.fw.nvm, NVM_OFFSET_SANITY_WORD)
      && NvmWord(m, NVM_MAX_APP_MEMORY_WORDS) == NvmWord(s.fw.nvm, NVM_MAX_APP_MEMORY_WORDS)
      && s'.fw.log == s.fw.log + if GattIsAddressResolvableRandom(peer) then [] else [AddWhiteListDevice(peer)]
  {
    assert HandleSignalSmSimplePairingCompleteInd(s, env, PairingSuccess, peer) == RecordBond(s, peer);
    RecordBondStores(s, peer);
  }

  /** The bond outlives a reset: after a successful pairing on an intact
      store, the next AppInit finds the same host bonded. */
  lemma BondSurvivesReset(s: Sys, env: Env, peer: TypedBdAddr)
    requires s.ht.state == Connected && StoreLayout(s) && StoreIntact(s.fw.nvm) && StoreReadable(s.fw.nvm)
    ensures var s' := HandleSignalSmSimplePairingCompleteInd(s, env, PairingSuccess, peer);
      && StoreReadable(s'.fw.nvm)
      && AppInit(s').ht.bonded && AppInit(s').ht.bondedBdAddr == peer
  {
    var s' := HandleSignalSmSimplePairingCompleteInd(s, env, PairingSuccess, peer);
    PairingSuccessRecordsBond(s, env, peer);
    StoredBondTakenUp(s', peer);
  }

  /** An intact store holding a bond for `peer` gives AppInit that bond. */
  lemma StoredBondTakenUp(s: Sys, peer: TypedBdAddr)
    requires StoreIntact(s.fw.nvm) && StoreReadable(s.fw.nvm) && NvmWord(s.fw.nvm, NVM_OFFSET_BONDED_FLAG) == 1
    requires NvmWords(s.fw.nvm, NVM_OFFSET_BONDED_ADDR, TYPED_BD_ADDR_WORDS) == AddrWords(peer)
    ensures AppInit(s).ht.bonded && AppInit(s).ht.bondedBdAddr == peer
  {
    AddrWordsRoundTrip(peer);
    AppInitTakesUpBond(s);
  }

  // ---- properties: bond removal ------------------------------------------------------

  /** Removing the bond while connected drops the link and clears the white list. */
  lemma BondRemovalWhileConnected(s: Sys, env: Env)
    requires s.ht.state == Connected
    ensures var s' := AfterBondRemoval(s, env);
      s'.ht.state == Disconnecting && s'.fw.log[|s'.fw.log| - 1] == ResetWhiteList
  {
    SetStateCommits(AppAdvertisingExit(s), env, Disconnecting);
  }

  /** Removing the bond while advertising stops the adverts; the white list is
      cleared once the cancel is confirmed. */
  lemma BondRemovalWhileAdvertising(s: Sys, env: Env)
    requires s.ht.state == FastAdvertising || s.ht.state == SlowAdvertising
    ensures var s' := AfterBondRemoval(s, env);
      && s'.ht.state == s.ht.state && s'.ht.pairingButtonPressed
      && s'.fw.log[|s'.fw.log| - 1] == GattCancelConnectReq
  {
  }

  /** Removing the bond when idle or initialising starts fast advertising. */
  lemma BondRemovalWhenIdle(s: Sys, env: Env)
    requires s.ht.state == AppStateInit || s.ht.state == Idle
    ensures AfterBondRemoval(s, env).ht.state == FastAdvertising
  {
    RestartAdvertisesFast(s, env);
  }

  lemma RestartAdvertisesFast(s: Sys, env: Env)
    ensures BondRemovalRestart(s, env).ht.state == FastAdvertising
  {
    SetStateCommits(Requested(HtDataInit(s), ResetWhiteList), env, FastAdvertising);
  }

  /** After the bond is forgotten, by state: a connection is ended, adverts
      are stopped to be restarted open, a disconnect already under way goes
      on, and otherwise fast advertising starts. */
  lemma BondRemovalByState(s: Sys, env: Env)
    ensures var s' := AfterBondRemoval(s, env);
      && (s.ht.state == Connected ==>
            s'.ht.state == Disconnecting && s'.fw.log[|s'.fw.log| - 1] == ResetWhiteList)
      && (s.ht.state == FastAdvertising || s.ht.state == SlowAdvertising ==>
            && s'.ht.state == s.ht.state && s'.ht.pairingButtonPressed
            && s'.fw.log[|s'.fw.log| - 1] == GattCancelConnectReq)
      && (s.ht.state == Disconnecting ==> s' == Requested(s, ResetWhiteList))
      && (s.ht.state == AppStateInit || s.ht.state == Idle ==> s'.ht.state == FastAdvertising)
  {
    if s.ht.state == Connected {
      BondRemovalWhileConnected(s, env);
    } else if s.ht.state == FastAdvertising || s.ht.state == SlowAdvertising {
      BondRemovalWhileAdvertising(s, env);
    } else if s.ht.state == AppStateInit || s.ht.state == Idle {
      BondRemovalWhenIdle(s, env);
    }
  }

  /** Whatever the state, the rest of the press neither writes the store nor
      brings back the bond or the press timer. */
  lemma BondRemovalKeepsStore(s: Sys, env: Env)
    requires !s.ht.bonded && s.hw.buttonTid == TimerInvalid
    ensures var s' := AfterBondRemoval(s, env);
      !s'.ht.bonded && s'.fw.nvm == s.fw.nvm && s'.hw.buttonTid == TimerInvalid
  {
    match s.ht.state
    case Connected => DropLinkKeepsStore(s, env);
    case FastAdvertising | SlowAdvertising =>
    case Disconnecting =>
    case AppStateInit | Idle => RestartKeepsStore(s, env);
  }

  lemma DropLinkKeepsStore(s: Sys, env: Env)
    requires !s.ht.bonded && s.hw.buttonTid == TimerInvalid
    ensures var s' := BondRemovalDropLink(s, env);
      !s'.ht.bonded && s'.fw.nvm == s.fw.nvm && s'.hw.buttonTid == TimerInvalid
  {
    var s1 := AppAdvertisingExit(s);
    SetStateCommits(s1, env, Disconnecting);
    SetStateKeepsStore(s1, env, Disconnecting);
  }

  lemma RestartKeepsStore(s: Sys, env: Env)
    requires !s.ht.bonded && s.hw.buttonTid == TimerInvalid
    ensures var s' := BondRemovalRestart(s, env);
      !s'.ht.bonded && s'.fw.nvm == s.fw.nvm && s'.hw.buttonTid == TimerInvalid
  {
    var s1 := Requested(HtDataInit(s), ResetWhiteList);
    SetStateCommits(s1, env, FastAdvertising);
    SetStateKeepsStore(s1, env, FastAdvertising);
  }

  /** Exit and entry actions never write the store or panic, and at most
      cancel the button timer. */
  lemma ExitKeepsStore(s: Sys)
    ensures var s' := ExitState(s);
      && s'.fw.nvm == s.fw.nvm && s'.fw.halted == s.fw.halted
      && (s'.hw.buttonTid == s.hw.buttonTid || s'.hw.buttonTid == TimerInvalid)
  {
  }

  lemma StartAdvertsFrame(s: Sys, env: Env, fast: bool)
    ensures var s' := GattStartAdverts(s, env, fast);
      s'.fw.nvm == s.fw.nvm && s'.fw.halted == s.fw.halted && s'.hw == s.hw
  {
  }

  lemma BuzzerFrame(s: Sys, t: BeepType)
    ensures var s' := SysSoundBuzzer(s, t);
      s'.fw.nvm == s.fw.nvm && s'.fw.halted == s.fw.halted && s'.hw.buttonTid == s.hw.buttonTid && s'.ht == s.ht
  {
  }

  lemma EnterKeepsStore(s: Sys, env: Env)
    ensures var s' := EnterState(s, env);
      s'.fw.nvm == s.fw.nvm && s'.fw.halted == s.fw.halted && s'.hw.buttonTid == s.hw.buttonTid
  {
    if s.ht.state == FastAdvertising {
      StartAdvertsFrame(s, env, true);
      BuzzerFrame(GattStartAdverts(s, env, true), BeepTwice);
    } else if s.ht.state == SlowAdvertising {
      StartAdvertsFrame(s, env, false);
    } else if s.ht.state == Idle {
      BuzzerFrame(s, BeepLong);
    }
  }

  lemma SetStateKeepsStore(s: Sys, env: Env, newState: AppState)
    ensures var s' := AppSetState(s, env, newState);
      && s'.fw.nvm == s.fw.nvm && s'.fw.halted == s.fw.halted
      && (s'.hw.buttonTid == s.hw.buttonTid || s'.hw.buttonTid == TimerInvalid)
  {
    if s.ht.state != newState {
      ExitKeepsStore(s);
      EnterKeepsStore(LeaveFor(s, newState), env);
    }
  }

  /** The extra long press forgets the bond, here and in the store, whatever
      the state; a stale press timer changes nothing. */
  lemma ExtraLongPressRemovesBond(s: Sys, env: Env, tid: TimerId)
    ensures var s' := HandleExtraLongButtonPress(s, env, tid);
      && (s.hw.buttonTid != tid ==> s' == s)
      && (s.hw.buttonTid == tid ==>
            && !s'.ht.bonded && NvmWord(s'.fw.nvm, NVM_OFFSET_BONDED_FLAG) == 0
            && s'.hw.buttonTid == TimerInvalid
            && s'.fw.nvm == StoreWords(s.fw.nvm, NVM_OFFSET_BONDED_FLAG, [0]))
  {
    if s.hw.buttonTid == tid {
      ForgetBondRecord(s);
      BondRemovalKeepsStore(ForgetBond(s), env);
    }
  }

  /** A readable store whose bonded flag is clear gives AppInit no bond. */
  lemma ClearedFlagNoBond(s: Sys)
    requires StoreIntact(s.fw.nvm) && StoreReadable(s.fw.nvm) && NvmWord(s.fw.nvm, NVM_OFFSET_BONDED_FLAG) == 0
    ensures !AppInit(s).ht.bonded
  {
    AppInitTakesUpBond(s);
  }

  /** After a bond removal the next AppInit finds no host bonded. */
  lemma RemovedBondStaysRemoved(s: Sys, env: Env, tid: TimerId)
    requires s.hw.buttonTid == tid && StoreIntact(s.fw.nvm) && StoreReadable(s.fw.nvm)
    ensures var s' := HandleExtraLongButtonPress(s, env, tid);
      StoreReadable(s'.fw.nvm) && !AppInit(s').ht.bonded
  {
    var s' := HandleExtraLongButtonPress(s, env, tid);
    ExtraLongPressRemovesBond(s, env, tid);
    NvmWriteLocal(s.fw.nvm, NVM_OFFSET_BONDED_FLAG, [0], NVM_OFFSET_SANITY_WORD);
    NvmWriteLocal(s.fw.nvm, NVM_OFFSET_BONDED_FLAG, [0], NVM_MAX_APP_MEMORY_WORDS);
    ClearedFlagNoBond(s');
  }
}
