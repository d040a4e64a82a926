/**
 The handshake timer: in which resting states it runs, for what and for how long, over every run with any
 outcomes of the writes.
 */
module ShipTimers {
  import opened Basics
  import opened ShipModel
  import opened ShipEndpoint
  import T = ShipTable

  // ---------------------------------------------------------------- the law

  /** The timer of every resting state but the pending one. */
  predicate TimerOf(s: State, t: Timer) {
    match s
    case CmiClientWait => t == Timer(true, WaitForReady, 10 * SECOND)
    case CmiServerWait => t == Timer(true, WaitForReady, 10 * SECOND)
    case HelloReadyListen => t == Timer(true, WaitForReady, 60 * SECOND)
    case ProtServerListenProposal => t == Timer(true, WaitForReady, 10 * SECOND)
    case ProtServerListenConfirm => t == Timer(true, WaitForReady, 10 * SECOND)
    case ProtClientListenChoice => t == Timer(true, WaitForReady, 10 * SECOND)
    case AccessMethodsRequest => t == Timer(true, WaitForReady, 10 * SECOND)
    case _ => !t.running
  }

  /** The time by which a message of the peer lengthens the wait of a pending end. */
  function Grants(m: Message): Option<nat> {
    if m.CloseMessage? then None else
    match AsHello(Some(m))
    case Some(HelloBody(Ready, w, _)) => w
    case Some(HelloBody(Pending, w, None)) => w
    case _ => None
  }

  /** What a peer that is pending itself says about its wait, which is remembered. */
  predicate Announces(e: Event) {
    e.kind.Receive? && Grants(e.kind.m).Some? && AsHello(Some(e.kind.m)).value.phase == Pending
  }

  predicate Sets(e: Event) {
    e.kind.Timeout? || (e.kind.Receive? && Grants(e.kind.m).Some?)
  }

  /** The last event that concerns the timer. */
  function LastSet(es: seq<Event>): (r: Option<Event>)
    ensures r.Some? ==> Sets(r.value)
  {
    if es == [] then None
    else if Sets(es[|es| - 1]) then Some(es[|es| - 1])
    else LastSet(es[..|es| - 1])
  }

  /** The wait remembered; a timeout that the hub does not allow to wait for leaves 66 microseconds if there is none. */
  function Remembered(es: seq<Event>): int {
    if es == [] then 0 else
    var e := es[|es| - 1];
    var before := Remembered(es[..|es| - 1]);
    if Announces(e) then WaitingDuration(Grants(e.kind.m).value)
    else if e.kind.Timeout? && !e.hub.waitAllowed && before == 0 then 66_000
    else before
  }

  /** The timer of a pending end that has seen some events since it became pending. */
  predicate PendingTimer(t: Timer, es: seq<Event>) {
    match LastSet(es)
    case None => t == Timer(true, WaitForReady, 60 * SECOND)
    case Some(e) =>
      if e.kind.Timeout? then
        t == Timer(true, ProlongRequestReply, if Remembered(es) == 0 then 60 * SECOND else Remembered(es))
      else
        var d := WaitingDuration(Grants(e.kind.m).value);
        if d >= 30 * SECOND then t == Timer(true, SendProlongationRequest, d - 30 * SECOND) else !t.running
  }

  /** The events that found the endpoint pending. */
  function WhilePending(c: Conn, es: seq<Event>): seq<Event>
    decreases |es|
  {
    if es == [] then [] else
    (if c.state == HelloPendingListen then [es[0]] else []) + WhilePending(Step(c, es[0]), es[1..])
  }

  // ---------------------------------------------------------------- what the handlers keep

  /** The connection is closed for good if it was shut down, and is shut down after an error. */
  predicate Shut(c: Conn) {
    (c.shutdown ==> !c.open) && (c.state == Error ==> c.shutdown)
  }

  predicate Timely(c: Conn) {
    Shut(c) && T.Fitting(c.role, c.state) && c.state != HelloPendingListen && (!c.shutdown ==> TimerOf(c.state, c.timer))
  }

  /** The same connection, shut down or with the same timer. */
  predicate Same(c: Conn, d: Conn) {
    && (d.shutdown ==> !d.open) && (c.shutdown ==> d.shutdown) && d.role == c.role && d.lastWaiting == c.lastWaiting
    && (!d.shutdown ==> d.timer == c.timer)
  }

  lemma SendSame(c: Conn, m: Message)
    requires c.shutdown ==> !c.open
    ensures Same(c, Send(c, m).0) && Same(c, Write(c, m).0)
    ensures Same(c, c) && (StopTimer(c).shutdown ==> !StopTimer(c).open)
  {
  }

  lemma EnterSame(c: Conn, s: State)
    requires c.shutdown ==> !c.open
    ensures var d := SetState(c, s); d.shutdown == c.shutdown && d.open == c.open && d.role == c.role && d.lastWaiting == c.lastWaiting
    ensures s == HelloReadyInit || s == HelloPendingInit ==> SetState(c, s).timer == Timer(true, WaitForReady, 60 * SECOND)
    ensures s == ProtClientListenChoice ==> SetState(c, s).timer == Timer(true, WaitForReady, 10 * SECOND)
    ensures s in {HelloOk, HelloAbort, HelloAbortDone, HelloRemoteAbortDone, HelloRejected, ProtClientOk} ==>
              !SetState(c, s).timer.running
    ensures s in {CmiClientSend, CmiClientWait, CmiClientEvaluate, CmiServerWait, CmiServerEvaluate, Hello, HelloReadyListen,
                  HelloPendingListen, ProtServerInit, ProtServerListenProposal, ProtServerListenConfirm, ProtServerOk,
                  ProtClientInit, PinCheckInit, PinCheckListen, PinCheckOk, AccessMethodsRequest, Approved, Complete} ==>
              SetState(c, s).timer == c.timer
  {
  }

  lemma TimelyShut(c: Conn)
    requires Timely(c)
    ensures c.shutdown ==> !c.open
    ensures StopTimer(c).shutdown ==> !StopTimer(c).open
  {
  }

  /** A state with a timer of its own is entered. */
  lemma EnterTimely(c: Conn, s: State)
    requires (c.shutdown ==> !c.open) && T.Fitting(c.role, s)
    requires || s == HelloAbortDone || s == HelloRemoteAbortDone || s == ProtClientListenChoice
             || (s in {CmiClientWait, CmiServerWait, HelloReadyListen, ProtServerListenProposal, ProtServerListenConfirm,
                       PinCheckListen, AccessMethodsRequest, Complete} && TimerOf(s, c.timer))
    ensures Timely(SetState(c, s))
  {
    EnterSame(c, s);
    hide SetState;
  }

  /** A state is entered with a fresh timer of ten seconds. */
  lemma ArmedTimely(c: Conn, s: State)
    requires c.shutdown ==> !c.open
    requires s == AccessMethodsRequest || (c.role == Server && (s == ProtServerListenProposal || s == ProtServerListenConfirm))
    ensures Timely(SetState(Arm(c, WaitForReady, CMI_TIMEOUT), s))
  {
    hide SetState;
    EnterTimely(Arm(c, WaitForReady, CMI_TIMEOUT), s);
  }

  lemma FailTimely(c: Conn)
    requires c.shutdown ==> !c.open
    ensures Timely(Fail(c))
  {
  }

  lemma AbortProtocolTimely(c: Conn, reason: AbortReason)
    requires c.shutdown ==> !c.open
    ensures Timely(AbortProtocol(c, reason))
  {
    var d := StopTimer(c);
    SendSame(d, HandshakeErrorMessage(reason));
    var e := Send(d, HandshakeErrorMessage(reason)).0;
    hide Send;
    EnterSame(e, Error);
  }

  lemma AbortTimely(c: Conn)
    requires c.shutdown ==> !c.open
    ensures Timely(SendAborted(c)) && Timely(AbortHello(c))
  {
    SendAbortedTimely(c);
    EnterSame(c, HelloAbort);
    SendAbortedTimely(SetState(c, HelloAbort));
    hide SendAborted, SetState;
  }

  lemma SendAbortedTimely(c: Conn)
    requires c.shutdown ==> !c.open
    ensures Timely(SendAborted(c))
  {
    hide Send, SetState, Fail, Timely, TimerOf;
    SendSame(StopTimer(c), ABORTED);
    var d := Send(StopTimer(c), ABORTED).0;
    EnterTimely(d, HelloAbortDone);
    FailTimely(d);
  }

  lemma ReadyTimely(c: Conn)
    requires c.shutdown ==> !c.open
    ensures SendReady(c).shutdown ==> !SendReady(c).open
    ensures c.timer == Timer(true, WaitForReady, 60 * SECOND) ==> Timely(SendReady(c))
  {
    var d := Send(c, READY).0;
    SendSame(c, READY);
    AbortTimely(d);
    EnterSame(d, HelloReadyListen);
    assert AbortHello(d).shutdown ==> !AbortHello(d).open;
    hide Send, SetState, AbortHello, Timely;
    if Send(c, READY).1 && c.timer == Timer(true, WaitForReady, 60 * SECOND) { EnterTimely(d, HelloReadyListen) by { SentOpen(c, READY); } }
  }

  /** After a write that succeeded the timer is the same. */
  lemma SentOpen(c: Conn, m: Message)
    requires c.shutdown ==> !c.open
    ensures Send(c, m).1 ==> Send(c, m).0.timer == c.timer && !Send(c, m).0.shutdown
  {
  }

  /** An end that became pending in this event, or is not. */
  predicate JustPending(c: Conn, d: Conn) {
    if d.state == HelloPendingListen then
      && Shut(d) && d.role == Server && d.lastWaiting == c.lastWaiting
      && (!d.shutdown ==> d.timer == Timer(true, WaitForReady, 60 * SECOND))
    else Timely(d)
  }

  lemma PendingTimely(c: Conn, hub: Hub)
    requires (c.shutdown ==> !c.open) && c.role == Server && c.timer == Timer(true, WaitForReady, 60 * SECOND)
    ensures JustPending(c, SendPending(c, hub))
  {
    hide Send, SetState, AbortHello, Fail, Timely;
    SendSame(c, PENDING);
    var d := Send(c, PENDING).0;
    FailTimely(d);
    EnterSame(d, HelloPendingListen);
    AbortTimely(SetState(d, HelloPendingListen));
  }

  lemma HelloTimely(c: Conn, hub: Hub)
    requires c.shutdown ==> !c.open
    ensures JustPending(c, ChooseHello(SetState(c, Hello), hub))
  {
    hide SetState, SendReady, SendPending, Timely;
    EnterSame(c, Hello);
    var d := SetState(c, Hello);
    EnterSame(d, HelloReadyInit);
    EnterSame(d, HelloPendingInit);
    if hub.paired || hub.autoAccept || d.role == Client {
      ReadyTimely(SetState(d, HelloReadyInit));
    } else {
      PendingTimely(SetState(d, HelloPendingInit), hub);
    }
  }

  lemma AcceptTimely(c: Conn)
    requires c.shutdown ==> !c.open
    ensures Timely(AcceptHello(c))
  {
    hide SetState, Send, Fail, Timely;
    EnterSame(c, HelloOk);
    var d := SetState(c, HelloOk);
    if c.role == Server {
      EnterSame(d, ProtServerInit);
      ArmedTimely(SetState(d, ProtServerInit), ProtServerListenProposal);
    } else {
      EnterSame(d, ProtClientInit);
      var e := SetState(d, ProtClientInit);
      SendSame(e, ANNOUNCE);
      EnterTimely(Send(e, ANNOUNCE).0, ProtClientListenChoice);
      FailTimely(Send(e, ANNOUNCE).0);
    }
  }

  lemma PinTimely(c: Conn)
    requires (c.shutdown ==> !c.open) && !c.timer.running
    ensures Timely(StartPin(c))
  {
    hide SetState, Send, Fail, Timely;
    EnterSame(c, PinCheckInit);
    var d := SetState(c, PinCheckInit);
    SendSame(d, PIN_NONE);
    var e := Send(d, PIN_NONE).0;
    FailTimely(e);
    if Send(d, PIN_NONE).1 {
      SentOpen(d, PIN_NONE);
      EnterTimely(e, PinCheckListen);
    }
  }

  // ---------------------------------------------------------------- one message

  lemma ClientCmiTimely(c: Conn, hub: Hub, m: Message)
    requires c.shutdown ==> !c.open
    ensures JustPending(c, OnClientCmi(c, hub, Some(m)))
  {
    hide SetState, Write, Fail, ChooseHello, IsCmi, JustPending;
    EnterSame(c, CmiClientEvaluate);
    var d := SetState(c, CmiClientEvaluate);
    SendSame(d, CmiMessage);
    EvaluatedTimely(c, d, hub);
    EvaluatedTimely(c, Write(d, CmiMessage).0, hub);
  }

  lemma ServerCmiTimely(c: Conn, hub: Hub, m: Message)
    requires (c.shutdown ==> !c.open) && c.role == Server
    ensures JustPending(c, OnServerCmi(c, hub, Some(m)))
  {
    hide SetState, Write, Fail, ChooseHello, IsCmi, JustPending;
    EnterSame(c, CmiServerEvaluate);
    var d := SetState(c, CmiServerEvaluate);
    SendSame(d, CmiMessage);
    EvaluatedTimely(c, Write(d, CmiMessage).0, hub);
  }

  lemma EvaluatedTimely(c: Conn, d: Conn, hub: Hub)
    requires (d.shutdown ==> !d.open) && d.lastWaiting == c.lastWaiting
    ensures JustPending(c, Fail(d)) && JustPending(c, ChooseHello(SetState(d, Hello), hub))
  {
    hide Fail, ChooseHello, SetState, Timely;
    FailTimely(d);
    HelloTimely(d, hub);
  }

  lemma ReadyListenTimely(c: Conn, hub: Hub, m: Message)
    requires Timely(c) && c.state == HelloReadyListen
    ensures Timely(OnReadyListen(c, hub, Some(m)))
  {
    hide SetState, Send, AcceptHello, AbortHello, Fail, AsHello, Timely, Arm, TimerOf, T.Fitting, StopTimer;
    TimelyShut(c);
    var h := AsHello(Some(m));
    if h == None || h.value.phase == OtherPhase {
      AbortTimely(c);
    } else if h.value.phase == Ready {
      AcceptTimely(c);
    } else if h.value.phase == Aborted {
      RemoteAbortTimely(c);
    } else {
      RearmedTimely(c);
      AnswerTimely(if hub.waitAllowed then Arm(c, WaitForReady, HELLO_INIT) else c, READY);
    }
  }

  lemma RearmedTimely(c: Conn)
    requires Timely(c) && c.state == HelloReadyListen
    ensures Timely(Arm(c, WaitForReady, HELLO_INIT))
  {
  }

  lemma RemoteAbortTimely(c: Conn)
    requires c.shutdown ==> !c.open
    ensures Timely(SetState(c, HelloRemoteAbortDone))
  {
    EnterTimely(c, HelloRemoteAbortDone);
  }

  /** Answering a message without leaving the state. */
  lemma AnswerTimely(c: Conn, m: Message)
    requires Timely(c)
    ensures var (d, ok) := Send(c, m); Timely(if ok then d else Fail(d))
  {
    hide Fail, Send;
    SendSame(c, m);
    SentOpen(c, m);
    FailTimely(Send(c, m).0);
  }

  lemma ProposalTimely(c: Conn, m: Message)
    requires Timely(c) && c.state == ProtServerListenProposal && c.role == Server
    ensures Timely(OnProposal(c, Some(m)))
  {
    hide SetState, Send, AbortProtocol, Fail, AsHandshake, StopTimer, Timely;
    TimelyShut(c);
    AbortProtocolTimely(c, UnexpectedMessage);
    SendSame(StopTimer(c), SELECT);
    var d := Send(StopTimer(c), SELECT).0;
    assert d.role == c.role by { StopSame(c); }
    ArmedTimely(d, ProtServerListenConfirm);
    FailTimely(d);
  }

  lemma StopSame(c: Conn)
    ensures StopTimer(c).role == c.role && !StopTimer(c).timer.running
  {
  }

  lemma ConfirmTimely(c: Conn, m: Message)
    requires Timely(c) && c.state == ProtServerListenConfirm
    ensures Timely(OnConfirm(c, Some(m)))
  {
    hide SetState, StartPin, AbortProtocol, AsHandshake;
    AbortProtocolTimely(c, UnexpectedMessage);
    AbortProtocolTimely(c, SelectionMismatch);
    EnterSame(StopTimer(c), ProtServerOk);
    PinTimely(SetState(StopTimer(c), ProtServerOk));
  }

  lemma ChoiceTimely(c: Conn, m: Message)
    requires Timely(c) && c.state == ProtClientListenChoice
    ensures Timely(OnChoice(StopTimer(c), Some(m)))
  {
    hide SetState, StartPin, AbortProtocol, AsHandshake, Send, Fail, Timely, StopTimer;
    var b := StopTimer(c);
    TimelyShut(c);
    StoppedTwice(c);
    AbortProtocolTimely(b, UnexpectedMessage);
    AbortProtocolTimely(b, SelectionMismatch);
    SendSame(b, SELECT);
    var d := Send(b, SELECT).0;
    FailTimely(d);
    EnterSame(d, ProtClientOk);
    PinTimely(SetState(d, ProtClientOk));
  }

  lemma StoppedTwice(c: Conn)
    ensures StopTimer(StopTimer(c)) == StopTimer(c)
  {
  }

  lemma PinHeardTimely(c: Conn, m: Message)
    requires Timely(c) && c.state == PinCheckListen
    ensures Timely(OnPin(c, Some(m)))
  {
    hide RequestAccess, SetState, Fail, AsPin, Timely, StopTimer;
    TimelyShut(c);
    FailTimely(c);
    EnterSame(c, PinCheckOk);
    AccessRequested(SetState(c, PinCheckOk));
  }

  lemma AccessRequested(c: Conn)
    requires c.shutdown ==> !c.open
    ensures Timely(RequestAccess(c))
  {
    hide SetState, Send, Fail, Timely, StopTimer, Arm;
    SendSame(c, AccessRequestMessage);
    var d := Send(c, AccessRequestMessage).0;
    FailTimely(d);
    ArmedTimely(d, AccessMethodsRequest);
  }

  lemma AccessTimely(c: Conn, m: Message)
    requires Timely(c) && c.state == AccessMethodsRequest
    ensures Timely(OnAccess(c, Some(m)))
  {
    hide Send, Fail, AsAccess, Timely, Finish, StopTimer;
    TimelyShut(c);
    FailTimely(c);
    AnswerTimely(c, AccessMethodsMessage(Some(c.localId)));
    var a := AsAccess(Some(m));
    if a.Methods? && a.id.Some? { FinishTimely(c.(remoteId := a.id.value)); }
  }

  lemma FinishTimely(c: Conn)
    requires c.shutdown ==> !c.open
    ensures Timely(Finish(c))
  {
    hide SetState, Timely;
    EnterSame(c, Approved);
    EnterTimely(StopTimer(SetState(c, Approved).(reader := true)), Complete);
  }

  // ---------------------------------------------------------------- the pending state

  /** A pending end that has seen some events since it became pending. */
  predicate PendingSo(c: Conn, es: seq<Event>) {
    && c.state == HelloPendingListen && c.role == Server && (c.shutdown ==> !c.open)
    && (!c.shutdown ==> PendingTimer(c.timer, es)) && c.lastWaiting == Remembered(es)
  }

  /** Where a pending end is after the last of some events. */
  predicate PendingOr(c: Conn, es: seq<Event>) {
    if c.state == HelloPendingListen then PendingSo(c, es) else Timely(c)
  }

  lemma LastOf(es: seq<Event>, e: Event)
    ensures LastSet(es + [e]) == if Sets(e) then Some(e) else LastSet(es)
    ensures Remembered(es + [e]) == if Announces(e) then WaitingDuration(Grants(e.kind.m).value)
                                    else if e.kind.Timeout? && !e.hub.waitAllowed && Remembered(es) == 0 then 66_000
                                    else Remembered(es)
  {
    assert (es + [e])[..|es|] == es;
  }

  /** An event that does not concern the timer. */
  lemma NotConcerned(c: Conn, d: Conn, es: seq<Event>, e: Event)
    requires PendingSo(c, es) && !Sets(e) && d.state == HelloPendingListen && Same(c, d)
    ensures PendingSo(d, es + [e])
  {
    LastOf(es, e);
  }

  lemma PendingShut(c: Conn, es: seq<Event>)
    requires PendingSo(c, es)
    ensures c.state == HelloPendingListen && c.role == Server && (c.shutdown ==> !c.open)
    ensures StopTimer(c).shutdown ==> !StopTimer(c).open
  {
  }

  lemma TimelyIs(c: Conn, es: seq<Event>)
    requires Timely(c)
    ensures PendingOr(c, es)
  {
  }

  lemma PendingIs(c: Conn, es: seq<Event>)
    requires PendingSo(c, es)
    ensures PendingOr(c, es)
  {
  }

  /** More time was granted, and the timer is set for it. */
  lemma GrantedSo(c: Conn, es: seq<Event>, e: Event, last: int)
    requires PendingSo(c, es) && e.kind.Receive? && Grants(e.kind.m).Some?
    requires var d := WaitingDuration(Grants(e.kind.m).value); last == if Announces(e) then d else c.lastWaiting
    ensures var d := WaitingDuration(Grants(e.kind.m).value);
            var b := StopTimer(c).(lastWaiting := last);
            && (d >= 30 * SECOND ==> PendingSo(Arm(b, SendProlongationRequest, d - 30 * SECOND), es + [e]))
            && (d < 30 * SECOND ==> PendingSo(b, es + [e]))
  {
    hide Grants, Announces, WaitingDuration;
    LastOf(es, e);
  }

  lemma PeerPendingSo(c: Conn, es: seq<Event>, e: Event, hello: HelloBody)
    requires PendingSo(c, es) && e.kind.Receive? && !e.kind.m.CloseMessage?
    requires AsHello(Some(e.kind.m)) == Some(hello) && hello.phase == Pending
    ensures PendingOr(OnPeerPending(c, hello), es + [e])
  {
    hide PendingSo, PendingOr, Timely, AbortHello, Send, Fail, WaitingDuration, StopTimer, Arm, AsHello;
    PendingShut(c, es);
    if hello.waiting.Some? && hello.prolongation == None {
      var d := WaitingDuration(hello.waiting.value);
      var b := StopTimer(c).(lastWaiting := d);
      GrantedSo(c, es, e, d);
      AbortTimely(b);
      TimelyIs(AbortHello(b), es + [e]);
      if d >= PROLONG_MIN { PendingIs(OnPeerPending(c, hello), es + [e]); }
    } else if hello.waiting == None && hello.prolongation == Some(true) {
      SendSame(c, PENDING);
      var d := Send(c, PENDING).0;
      FailTimely(d);
      TimelyIs(Fail(d), es + [e]);
      NotConcerned(c, d, es, e);
      PendingIs(d, es + [e]);
    } else {
      AbortTimely(c);
      TimelyIs(AbortHello(c), es + [e]);
    }
  }

  lemma PendingListenSo(c: Conn, es: seq<Event>, e: Event)
    requires PendingSo(c, es) && e.kind.Receive? && !e.kind.m.CloseMessage?
    ensures PendingOr(OnPendingListen(c, Some(e.kind.m)), es + [e])
  {
    hide PendingSo, PendingOr, Timely, AbortHello, SetState, WaitingDuration, StopTimer, Arm, AsHello, OnPeerPending;
    PendingShut(c, es);
    var h := AsHello(Some(e.kind.m));
    var r := OnPendingListen(c, Some(e.kind.m));
    if h.Some? && h.value.phase == Pending {
      PeerPendingSo(c, es, e, h.value);
    } else if h.Some? && h.value.phase == Ready && h.value.waiting.Some? {
      var d := WaitingDuration(h.value.waiting.value);
      GrantedSo(c, es, e, c.lastWaiting);
      AbortTimely(StopTimer(c));
      if d >= PROLONG_THRESHOLD {
        PendingIs(Arm(StopTimer(c), SendProlongationRequest, d - 30 * SECOND), es + [e]) by { SameWait(c); }
      } else {
        TimelyIs(r, es + [e]);
      }
    } else if h.Some? && h.value.phase == Aborted {
      RemoteAbortTimely(c);
      TimelyIs(r, es + [e]);
    } else {
      AbortTimely(c);
      TimelyIs(r, es + [e]);
    }
  }

  lemma SameWait(c: Conn)
    ensures StopTimer(c).(lastWaiting := c.lastWaiting) == StopTimer(c) && StopTimer(c).timer.kind == c.timer.kind
    ensures StopTimer(c).lastWaiting == c.lastWaiting && StopTimer(c).role == c.role
  {
  }

  /** A prolongation was requested, and the reply is waited for. */
  lemma RequestedSo(c: Conn, d: Conn, es: seq<Event>, e: Event)
    requires PendingSo(c, es) && e.kind.Timeout? && d.state == HelloPendingListen && d.role == Server && (d.shutdown ==> !d.open)
    requires d.lastWaiting == if !e.hub.waitAllowed && c.lastWaiting == 0 then 66_000 else c.lastWaiting
    ensures PendingSo(Arm(d, ProlongRequestReply, if d.lastWaiting == 0 then 60 * SECOND else d.lastWaiting), es + [e])
  {
    LastOf(es, e);
  }

  lemma PendingTimeoutSo(c: Conn, es: seq<Event>, e: Event)
    requires PendingSo(c, es) && e.kind.Timeout?
    ensures PendingOr(OnTimeout(c, e.hub), es + [e])
  {
    hide PendingSo, PendingOr, Timely, AbortHello, Send, Fail, StopTimer, Arm;
    PendingShut(c, es);
    SameWait(c);
    var b := StopTimer(c);
    var r := OnTimeout(c, e.hub);
    SendSame(b, PROLONG);
    var (d, ok) := Send(b, PROLONG);
    FailTimely(d);
    AbortTimely(b);
    if !e.hub.waitAllowed && b.timer.kind != SendProlongationRequest {
      TimelyIs(r, es + [e]);
    } else if !ok {
      TimelyIs(r, es + [e]);
    } else {
      var f := if !e.hub.waitAllowed && d.lastWaiting == 0 then d.(lastWaiting := 66_000) else d;
      RequestedSo(c, f, es, e);
      PendingIs(r, es + [e]);
    }
  }

  lemma ApproveSo(c: Conn, es: seq<Event>, hub: Hub)
    requires PendingSo(c, es)
    ensures Timely(OnApprove(c, hub))
  {
    hide PendingSo, Timely, SendReady, AcceptHello, AbortHello, StopTimer;
    PendingShut(c, es);
    var a := StopTimer(Enter(c, HelloReadyInit));
    assert a.shutdown ==> !a.open by { EnteredShut(c, HelloReadyInit); }
    ReadyTimely(a);
    AcceptTimely(SendReady(a));
    AbortTimely(SendReady(a));
  }

  lemma EnteredShut(c: Conn, s: State)
    requires c.shutdown ==> !c.open
    ensures var d := StopTimer(Enter(c, s)); d.shutdown ==> !d.open
  {
  }

  lemma UserAbortTimely(c: Conn)
    requires (c.shutdown ==> !c.open) && (c.state == HelloPendingListen || c.state == HelloReadyListen)
    ensures Timely(OnAbort(c))
  {
    hide Timely, SendAborted, StopTimer, Enter;
    EnteredShut(c, HelloAbort);
    AbortTimely(StopTimer(Enter(c, HelloAbort)));
  }

  // ---------------------------------------------------------------- every other event

  /** The data connection is marked as closed, or messages are written, and the state stays. */
  lemma StaysSo(c: Conn, d: Conn, es: seq<Event>, e: Event)
    requires PendingOr(c, es) && d.state == c.state && Same(c, d) && (c.state == HelloPendingListen ==> !Sets(e))
    ensures PendingOr(d, if c.state == HelloPendingListen then es + [e] else es)
  {
    hide Sets;
    if c.state == HelloPendingListen { NotConcerned(c, d, es, e); }
  }

  lemma CloseMessageSame(c: Conn, hub: Hub, p: ClosePhase)
    requires c.shutdown ==> !c.open
    ensures var d := OnMessage(c, hub, CloseMessage(p)); Same(c, d) && d.state == c.state
  {
    SendSame(c, CloseMessage(Confirm));
    hide Send, OnWaiting;
  }

  lemma CloseSame(c: Conn, safe: bool)
    requires c.shutdown ==> !c.open
    ensures var d := OnClose(c, safe); Same(c, d) && d.state == c.state
  {
  }

  lemma ErrorTimely(c: Conn)
    requires (c.shutdown ==> !c.open) && Resting(c.state) && T.Fitting(c.role, c.state)
    ensures Timely(OnConnectionError(c)) && OnConnectionError(c).shutdown
  {
    hide SetState, Resting;
    EnterSame(c.(open := false), HelloRejected);
    EnterSame(c.(open := false), Error);
  }

  /** The states before hello, in which no wait is remembered. */
  predicate Before(s: State) {
    s == CmiInitStart || s == CmiClientWait || s == CmiServerWait
  }

  /** What holds between two events of a run, with the events that found the endpoint pending. */
  predicate Inv(c: Conn, es: seq<Event>) {
    Resting(c.state) && PendingOr(c, es) && (Before(c.state) ==> c.lastWaiting == 0 && es == [])
  }

  function Counted(c: Conn, es: seq<Event>, e: Event): seq<Event> {
    if c.state == HelloPendingListen then es + [e] else es
  }

  lemma JustPendingSo(c: Conn, d: Conn)
    requires JustPending(c, d) && c.lastWaiting == 0
    ensures PendingOr(d, [])
  {
  }

  lemma CmiSo(c: Conn, hub: Hub, m: Message)
    requires Timely(c) && c.lastWaiting == 0 && (c.state == CmiClientWait || c.state == CmiServerWait)
    ensures PendingOr(OnWaiting(c, hub, Some(m)), [])
  {
    hide PendingOr, Timely, JustPending, OnClientCmi, OnServerCmi, StopTimer;
    TimelyShut(c);
    if c.state == CmiClientWait {
      ClientCmiTimely(c, hub, m);
      JustPendingSo(c, OnClientCmi(c, hub, Some(m)));
    } else {
      TimelyFits(c);
      ServerCmiTimely(c, hub, m);
      JustPendingSo(c, OnServerCmi(c, hub, Some(m)));
    }
  }

  lemma TimelyFits(c: Conn)
    requires Timely(c)
    ensures T.Fitting(c.role, c.state) && c.state != HelloPendingListen && (c.state == Error ==> c.shutdown)
  {
  }

  lemma LaterTimely(c: Conn, hub: Hub, m: Message)
    requires Timely(c) && Resting(c.state) && !Before(c.state)
    ensures Timely(OnWaiting(c, hub, Some(m)))
  {
    hide Timely, Resting, OnReadyListen, OnProposal, OnConfirm, OnChoice, OnPin, OnAccess, StopTimer;
    TimelyFits(c);
    if c.state == HelloReadyListen { ReadyListenTimely(c, hub, m); }
    if c.state == ProtServerListenProposal { ProposalTimely(c, m); }
    if c.state == ProtServerListenConfirm { ConfirmTimely(c, m); }
    if c.state == ProtClientListenChoice { ChoiceTimely(c, m); }
    if c.state == PinCheckListen { PinHeardTimely(c, m); }
    if c.state == AccessMethodsRequest { AccessTimely(c, m); }
  }

  lemma MessageSo(c: Conn, es: seq<Event>, e: Event)
    requires Inv(c, es) && c.state != CmiInitStart && e.kind.Receive?
    ensures PendingOr(OnMessage(c, e.hub, e.kind.m), Counted(c, es, e))
  {
    var m := e.kind.m;
    hide PendingOr, Timely, OnWaiting, Resting, StopTimer, Sets, PendingSo;
    InvShut(c, es);
    if m.CloseMessage? {
      CloseMessageSame(c, e.hub, m.closePhase);
      NotSet(e);
      StaysSo(c, OnMessage(c, e.hub, m), es, e);
    } else if c.state == HelloPendingListen {
      PendingListenSo(c, es, e);
      assert OnMessage(c, e.hub, m) == OnPendingListen(c, Some(m)) by { PendingHandles(c, e.hub, m); }
    } else if Before(c.state) {
      CmiSo(c, e.hub, m);
    } else {
      LaterTimely(c, e.hub, m);
      TimelyIs(OnWaiting(c, e.hub, Some(m)), es);
    }
  }

  lemma PendingHandles(c: Conn, hub: Hub, m: Message)
    requires c.state == HelloPendingListen && !m.CloseMessage?
    ensures OnMessage(c, hub, m) == OnPendingListen(c, Some(m))
  {
  }

  lemma NotSet(e: Event)
    requires e.kind.Receive? ==> e.kind.m.CloseMessage?
    requires !e.kind.Timeout?
    ensures !Sets(e)
  {
  }

  lemma InvShut(c: Conn, es: seq<Event>)
    requires Inv(c, es)
    ensures (c.shutdown ==> !c.open) && T.Fitting(c.role, c.state)
    ensures if c.state == HelloPendingListen then PendingSo(c, es) else Timely(c)
  {
  }

  lemma TimeoutTimely(c: Conn, hub: Hub)
    requires Timely(c) && Resting(c.state)
    ensures Timely(OnTimeout(c, hub))
  {
    hide Timely, Resting, AbortHello, AbortProtocol, Fail, StopTimer, RequestProlongation, PendingTimeout;
    TimelyShut(c);
    var d := StopTimer(c);
    AbortTimely(d);
    AbortProtocolTimely(d, Timedout);
    FailTimely(d);
    TimelyFits(c);
    if !Waiting(c.state) { StoppedTimely(c); }
  }

  lemma StoppedTimely(c: Conn)
    requires Timely(c) && !Waiting(c.state)
    ensures Timely(StopTimer(c))
  {
  }

  lemma RunTimely(c: Conn)
    requires (c.shutdown ==> !c.open) && c.state == CmiInitStart
    ensures Timely(OnRun(c)) && (Before(OnRun(c).state) ==> OnRun(c).lastWaiting == c.lastWaiting)
  {
    hide SetState, Write, Fail, Timely;
    if c.role == Client {
      EnterSame(c, CmiClientSend);
      var d := SetState(c, CmiClientSend);
      SendSame(d, CmiMessage);
      var e := Write(d, CmiMessage).0;
      FailTimely(e);
      WaitsTimely(e, CmiClientWait);
    } else {
      WaitsTimely(c, CmiServerWait);
    }
  }

  lemma WaitsTimely(c: Conn, s: State)
    requires (c.shutdown ==> !c.open) && (s == if c.role == Client then CmiClientWait else CmiServerWait)
    ensures var d := Arm(SetState(c, s), WaitForReady, CMI_TIMEOUT); Timely(d) && d.lastWaiting == c.lastWaiting
  {
    hide SetState;
    EnterSame(c, s);
  }

  /** An event leaves the timer as the law says. */
  lemma StepSo(c: Conn, es: seq<Event>, e: Event)
    requires Inv(c, es) && Enabled(c, e)
    ensures PendingOr(Step(c, e), Counted(c, es, e))
  {
    var b := c.(net := e.net);
    hide PendingOr, PendingSo, Timely, Resting, Sets, OnRun, OnMessage, OnTimeout, OnApprove, OnAbort, OnConnectionError, OnClose,
         Counted, Inv;
    NetInv(c, es, e.net);
    InvShut(b, es);
    InvRests(b, es);
    CountedAs(c, b, es, e);
    match e.kind
    case Run =>
      RunTimely(b);
      TimelyIs(OnRun(b), Counted(c, es, e));
    case Receive(m) => MessageSo(b, es, e);
    case SpineData => KeptSo(b, b, es, e);
    case Timeout =>
      if c.state == HelloPendingListen {
        PendingTimeoutSo(b, es, e);
      } else {
        TimeoutTimely(b, e.hub);
        TimelyIs(OnTimeout(b, e.hub), Counted(c, es, e));
      }
    case Approve =>
      if c.state == HelloPendingListen {
        ApproveSo(b, es, e.hub);
        TimelyIs(OnApprove(b, e.hub), Counted(c, es, e));
      } else {
        KeptSo(b, OnApprove(b, e.hub), es, e) by { NotPending(b, e.hub); }
      }
    case AbortByUser => UserAbortSo(b, es, e);
    case ConnectionError =>
      ErrorTimely(b);
      TimelyIs(OnConnectionError(b), Counted(c, es, e));
    case Close(safe) =>
      CloseSame(b, safe);
      KeptSo(b, OnClose(b, safe), es, e);
  }

  lemma UserAbortSo(c: Conn, es: seq<Event>, e: Event)
    requires Inv(c, es) && e.kind.AbortByUser?
    ensures PendingOr(OnAbort(c), Counted(c, es, e))
  {
    hide PendingOr, PendingSo, Timely, Resting, Sets, Inv, SendAborted, StopTimer, Enter;
    InvShut(c, es);
    if c.state == HelloPendingListen || c.state == HelloReadyListen {
      UserAbortTimely(c);
      TimelyIs(OnAbort(c), Counted(c, es, e));
    } else {
      SendSame(c, CmiMessage);
      KeptSo(c, c, es, e);
    }
  }

  lemma NotPending(c: Conn, hub: Hub)
    requires c.state != HelloPendingListen && (c.shutdown ==> !c.open)
    ensures OnApprove(c, hub) == c && Same(c, c)
  {
  }

  lemma KeptSo(c: Conn, d: Conn, es: seq<Event>, e: Event)
    requires Inv(c, es) && d.state == c.state && (d == c || Same(c, d)) && !e.kind.Receive? && !e.kind.Timeout?
    ensures PendingOr(d, Counted(c, es, e))
  {
    hide PendingOr, Sets, Timely, PendingSo, Resting;
    InvShut(c, es);
    NotSet(e);
    SendSame(c, CmiMessage);
    StaysSo(c, d, es, e);
  }

  lemma NetInv(c: Conn, es: seq<Event>, net: seq<bool>)
    requires Inv(c, es)
    ensures Inv(c.(net := net), es)
  {
  }

  lemma InvRests(c: Conn, es: seq<Event>)
    requires Inv(c, es)
    ensures Resting(c.state)
  {
  }

  lemma CountedAs(c: Conn, d: Conn, es: seq<Event>, e: Event)
    requires c.state == d.state
    ensures Counted(c, es, e) == Counted(d, es, e) && (c.state != HelloPendingListen ==> Counted(c, es, e) == es)
    ensures c.state == HelloPendingListen ==> Counted(c, es, e) == es + [e]
  {
  }

  /** The states before hello are only left. */
  lemma NotBack(c: Conn, e: Event)
    requires Resting(c.state) && (c.shutdown ==> !c.open) && Enabled(c, e) && Before(Step(c, e).state)
    ensures Before(c.state) && Step(c, e).lastWaiting == c.lastWaiting
  {
    var b := c.(net := e.net);
    hide OnRun, OnMessage, OnTimeout, OnApprove, OnAbort, OnConnectionError, OnClose, Resting;
    match e.kind
    case Run => RunTimely(b);
    case Receive(m) => MessageLeaves(b, e.hub, m);
    case SpineData =>
    case Timeout => TimeoutLeaves(b, e.hub);
    case Approve => UserLeaves(b, e.hub);
    case AbortByUser => UserLeaves(b, e.hub);
    case ConnectionError => ErrorLeaves(b);
    case Close(safe) => CloseSame(b, safe);
  }

  lemma MessageLeaves(c: Conn, hub: Hub, m: Message)
    requires Resting(c.state) && c.state != CmiInitStart && (c.shutdown ==> !c.open)
    ensures Before(OnMessage(c, hub, m).state) ==> Before(c.state) && OnMessage(c, hub, m).lastWaiting == c.lastWaiting
  {
    hide OnWaiting, Resting;
    if m.CloseMessage? {
      CloseMessageSame(c, hub, m.closePhase);
    } else if c.state == HelloReadyListen || c.state == HelloPendingListen {
      HelloLeaves(c, hub, m);
    } else if c.state == CmiClientWait || c.state == CmiServerWait {
      CmiLeaves(c, hub, m);
    } else {
      ProtocolLeaves(c, hub, m);
    }
  }

  lemma CmiLeaves(c: Conn, hub: Hub, m: Message)
    requires c.state == CmiClientWait || c.state == CmiServerWait
    ensures !Before(OnWaiting(c, hub, Some(m)).state)
  {
    hide Fail, ChooseHello, Write, SetState, IsCmi;
  }

  lemma HelloLeaves(c: Conn, hub: Hub, m: Message)
    requires c.state == HelloReadyListen || c.state == HelloPendingListen
    ensures !Before(OnWaiting(c, hub, Some(m)).state)
  {
    hide Fail, AbortHello, AcceptHello, Send, SetState, StopTimer, Arm, AsHello, WaitingDuration, OnPendingListen, OnReadyListen;
    if c.state == HelloReadyListen { ReadyLeaves(c, hub, m); } else { PendingLeaves(c, m); }
  }

  lemma ReadyLeaves(c: Conn, hub: Hub, m: Message)
    requires c.state == HelloReadyListen
    ensures !Before(OnReadyListen(c, hub, Some(m)).state)
  {
    hide Fail, AbortHello, AcceptHello, Send, SetState, AsHello;
  }

  lemma PendingLeaves(c: Conn, m: Message)
    requires c.state == HelloPendingListen
    ensures !Before(OnPendingListen(c, Some(m)).state)
  {
    hide Fail, AbortHello, Send, SetState, StopTimer, AsHello, WaitingDuration;
  }

  lemma ProtocolLeaves(c: Conn, hub: Hub, m: Message)
    requires !Before(c.state) && c.state != HelloReadyListen && c.state != HelloPendingListen
    ensures !Before(OnWaiting(c, hub, Some(m)).state)
  {
    hide Fail, AbortProtocol, StartPin, RequestAccess, Finish, Send, SetState, StopTimer, Arm, AsHandshake, AsPin, AsAccess;
  }

  lemma TimeoutLeaves(c: Conn, hub: Hub)
    requires Resting(c.state)
    ensures Before(OnTimeout(c, hub).state) ==> c.state == CmiInitStart && OnTimeout(c, hub).lastWaiting == c.lastWaiting
  {
    hide Fail, AbortProtocol, AbortHello, Send;
  }

  lemma UserLeaves(c: Conn, hub: Hub)
    ensures Before(OnApprove(c, hub).state) ==> OnApprove(c, hub) == c
    ensures Before(OnAbort(c).state) ==> OnAbort(c) == c
  {
    hide SendAborted, AcceptHello, AbortHello, SendReady, StopTimer, Enter;
  }

  lemma ErrorLeaves(c: Conn)
    ensures !Before(OnConnectionError(c).state)
  {
    hide SetState;
  }

  lemma StepInv(c: Conn, es: seq<Event>, e: Event)
    requires Inv(c, es) && Enabled(c, e)
    ensures Inv(Step(c, e), Counted(c, es, e))
  {
    hide Step, PendingOr, Enabled, Resting;
    assert c.shutdown ==> !c.open by { InvShut(c, es); }
    StepSo(c, es, e);
    StepRests(c, e);
    if Before(Step(c, e).state) { NotBack(c, e); }
  }

  // ---------------------------------------------------------------- whole runs

  lemma {:induction false} RunInv(c: Conn, hs: seq<Event>, es: seq<Event>)
    requires Inv(c, hs) && EnabledRun(c, es)
    ensures Inv(RunAll(c, es), hs + WhilePending(c, es))
    decreases |es|
  {
    hide Inv, Step, Enabled;
    if es == [] {
      assert hs + [] == hs;
    } else {
      var d := Step(c, es[0]);
      StepInv(c, hs, es[0]);
      var more := Counted(c, hs, es[0]);
      RunInv(d, more, es[1..]);
      assert more + WhilePending(d, es[1..]) == hs + WhilePending(c, es);
    }
  }

  /**
   The handshake timer over any run of an endpoint, with any outcomes of its writes, until it is shut down: in
   which resting states it runs, for what, and for how long.
   */
  lemma TimersExact(c: Conn, es: seq<Event>)
    requires Initial(c) && EnabledRun(c, es)
    ensures var d := RunAll(c, es);
            && T.Settled(d)
            && (!d.shutdown && d.state != HelloPendingListen ==> TimerOf(d.state, d.timer))
            && (!d.shutdown && d.state == HelloPendingListen ==> PendingTimer(d.timer, WhilePending(c, es)))
  {
    assert Inv(c, []);
    hide Initial, EnabledRun, RunAll, WhilePending, TimerOf, PendingTimer;
    RunInv(c, [], es);
    assert [] + WhilePending(c, es) == WhilePending(c, es);
  }

  /**
   A pending end waits without a timer exactly when the last thing that concerned the timer was a peer, pending
   itself, that asked for less than thirty seconds.
   */
  lemma PendingWithoutTimer(c: Conn, es: seq<Event>)
    requires Initial(c) && EnabledRun(c, es)
    ensures var d := RunAll(c, es);
            var last := LastSet(WhilePending(c, es));
            d.state == HelloPendingListen && !d.shutdown ==>
              (!d.timer.running <==>
                 last.Some? && last.value.kind.Receive? && WaitingDuration(Grants(last.value.kind.m).value) < 30 * SECOND)
  {
    TimersExact(c, es);
    hide Initial, EnabledRun, RunAll, WhilePending, TimerOf, Grants, WaitingDuration;
  }

  // ---------------------------------------------------------------- one grant of time

  /**
   A pending end that is granted w milliseconds asks for more thirty seconds before they are over. With less
   than thirty seconds it aborts if the peer is ready; if the peer is pending too, it waits on without a timer,
   and aborts with less than one second.
   */
  lemma GrantExact(c: Conn, e: Event, w: nat)
    requires c.state == HelloPendingListen && c.open && !c.shutdown && e.kind.Receive? && Grants(e.kind.m) == Some(w)
    requires w * 1_000_000 < 0x8000_0000_0000_0000
    ensures var d := Step(c, e);
            && (w >= 30_000 ==>
                  && d.state == HelloPendingListen && d.timer.running && d.timer.kind == SendProlongationRequest
                  && d.timer.duration + 30_000_000_000 == w * 1_000_000)
            && (w < 30_000 && AsHello(Some(e.kind.m)).value.phase == Ready ==> d.state in {HelloAbortDone, Error})
            && (1_000 <= w < 30_000 && AsHello(Some(e.kind.m)).value.phase == Pending ==>
                  d.state == HelloPendingListen && !d.timer.running)
            && (w < 1_000 && AsHello(Some(e.kind.m)).value.phase == Pending ==> d.state in {HelloAbortDone, Error})
            && (d.state == HelloPendingListen ==> d.sent == c.sent && d.open)
  {
    hide AbortHello, AsHello;
    assert WaitingDuration(w) == w * MILLISECOND;
    hide WaitingDuration;
  }

  /** Of two ends of this implementation the pending one asks for more time before the timer of the ready one fires. */
  lemma AsksInTime(c: Conn, r: Conn, hub: Hub, net: seq<bool>)
    requires c.state == HelloPendingListen && c.open && !c.shutdown
    requires r.state == HelloReadyListen && TimerOf(r.state, r.timer)
    ensures var t := Step(c, Event(Receive(READY), hub, net)).timer;
            t.running && t.kind == SendProlongationRequest && 2 * t.duration == r.timer.duration
  {
    hide AbortHello;
    T.OwnMessages();
    assert WaitingDuration(60_000) == 60 * SECOND;
  }
}
