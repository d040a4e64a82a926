/**
 The pairing listener (pairing/listener.go): which request it accepts, and what that guarantees over whole
 runs with any number of activations and restarts.
 */
module PairingListener {
  import opened Basics
  import opened Letters
  import opened PairingRecord
  import opened RingBuffer

  datatype Failure =
    | Invalid(refusal: Refusal) | InvalidRecord | CurveNotSupported | InvalidDigest | CryptoFailed(error: MacError) | Replay

  /** The listening device. */
  datatype Local = Local(shipId: string, fingerprint: string)

  /**
   The listener with its history. log and times are the record of a run: the digests accepted, and the
   activation during which each was.
   */
  datatype Listener = Listener(
    local: Local, listening: bool, secret: seq<Byte>, requests: nat, lastError: Option<Failure>,
    entries: seq<Digest>, next: nat, stored: seq<Digest>, storedNext: int,
    activation: nat, log: seq<Digest>, times: seq<nat>)

  datatype Verdict = NotForUs | Fails(failure: Failure) | Accepts

  function DigestOf(t: Txt): Digest {
    Digest(t.alg, t.digest)
  }

  /** The checks of handlePairingRequest before the digest is compared. */
  function Screened(local: Local, t: Txt): Verdict {
    match Validate(t)
    case Some(r) => Fails(Invalid(r))
    case None =>
      if t.forId != local.shipId then NotForUs
      else if !EqualFold(TrimSpace(t.forPar), TrimSpace(local.fingerprint)) then Fails(InvalidRecord)
      else if t.trustCurve != SECP256R1 then Fails(CurveNotSupported)
      else if HexDecode(t.trustNonce) == None then Fails(InvalidRecord)
      else if HexDecode(t.digest) == None then Fails(InvalidDigest)
      else Accepts
  }

  /** All checks of handlePairingRequest, in its order. */
  function Judge(mac: Mac, s: Listener, t: Txt): Verdict
    requires s.next < |s.entries|
  {
    var v := Screened(s.local, t);
    if v != Accepts then v
    else
      match CalculateDigest(mac, s.secret, t.alg, HexDecode(t.trustNonce).value, t)
      case NoSum(e) => Fails(CryptoFailed(e))
      case Sum(value) =>
        if value != HexDecode(t.digest).value then Fails(InvalidDigest)
        else if DigestOf(t) in Recent(s.entries, s.next) then Fails(Replay)
        else Accepts
  }

  function Stopped(s: Listener): Listener {
    s.(listening := false, secret := [])
  }

  /** Recording in the history; saved says whether persistence took the new state. */
  function Record(s: Listener, d: Digest, saved: bool): Listener
    requires s.next < |s.entries|
  {
    var (entries, next) := Written(s.entries, s.next, d);
    var r := s.(entries := entries, next := next, log := s.log + [d], times := s.times + [s.activation]);
    if saved then r.(stored := entries, storedNext := next) else r
  }

  /** handlePairingRequest: the new state, and whether to go on searching. */
  function Request(mac: Mac, s: Listener, t: Txt, saved: bool): (Listener, bool)
    requires s.next < |s.entries|
  {
    var r := s.(requests := s.requests + 1);
    match Judge(mac, s, t)
    case NotForUs => (r, true)
    case Fails(f) => (r.(lastError := Some(f)), true)
    case Accepts => (Stopped(Record(r, DigestOf(t), saved)), false)
  }

  /** handleMdnsDiscovery. */
  function Discover(mac: Mac, s: Listener, t: Txt, saved: bool): (Listener, bool)
    requires s.next < |s.entries|
  {
    if !s.listening then (s, false)
    else if t.forId != s.local.shipId then (s, true)
    else Request(mac, s, t, saved)
  }

  /** ProcessPendingEntries: one record after the other until one is accepted. */
  function Pending(mac: Mac, s: Listener, ts: seq<Txt>, saved: bool): (r: Listener)
    requires s.next < |s.entries|
    ensures r.next < |r.entries|
    decreases |ts|
  {
    if ts == [] then s
    else
      var (r, more) := Discover(mac, s, ts[0], saved);
      if more then Pending(mac, r, ts[1..], saved) else r
  }

  datatype Event =
    | Started(secret: seq<Byte>, searchOk: bool)
    | StoppedByUser
    | Discovered(t: Txt, saved: bool)
    | Snapshot(ts: seq<Txt>, saved: bool)
    | Restarted

  /** StartListening. */
  function Start(s: Listener, secret: seq<Byte>, searchOk: bool): Listener {
    if |secret| != 16 || s.listening then s
    else
      var r := s.(listening := true, secret := secret, activation := s.activation + 1);
      if searchOk then r else Stopped(r)
  }

  /** The process starts anew with what persistence holds, at the same configured size. */
  function Restart(s: Listener): Listener
    requires s.next < |s.entries|
  {
    match Loaded(s.stored, s.storedNext, |s.entries|)
    case None => s
    case Some((entries, next)) =>
      s.(listening := false, secret := [], requests := 0, lastError := None, entries := entries, next := next)
  }

  function After(mac: Mac, s: Listener, e: Event): Listener
    requires s.next < |s.entries|
  {
    match e
    case Started(secret, ok) => Start(s, secret, ok)
    case StoppedByUser => Stopped(s)
    case Discovered(t, saved) => Discover(mac, s, t, saved).0
    case Snapshot(ts, saved) => Pending(mac, s, ts, saved)
    case Restarted => Restart(s)
  }

  // ---------------------------------------------------------------- the invariant

  /** Within any n + 1 consecutive acceptances no digest comes twice. */
  predicate NoReplay(log: seq<Digest>, n: nat) {
    forall i, j | 0 <= i < j < |log| && j - i <= n :: log[i] != log[j]
  }

  predicate Increasing(times: seq<nat>) {
    forall i, j | 0 <= i < j < |times| :: times[i] < times[j]
  }

  predicate ListenerOk(s: Listener) {
    && StandsFor(s.entries, s.next, s.log) && |s.entries| >= 10
    && (forall i | 0 <= i < |s.log| :: s.log[i].alg != "")
    && NoReplay(s.log, |s.entries|)
    && |s.times| == |s.log| && Increasing(s.times)
    && (forall i | 0 <= i < |s.times| :: if s.listening then s.times[i] < s.activation else s.times[i] <= s.activation)
  }

  /** Persistence holds the state of the history, or nothing while there is none. */
  predicate Saved(s: Listener) {
    (s.stored == s.entries && s.storedNext == s.next) || (s.stored == [] && s.log == [])
  }

  lemma AppendNoReplay(log: seq<Digest>, n: nat, d: Digest)
    requires NoReplay(log, n) && d !in Last(log, n)
    ensures NoReplay(log + [d], n)
  {
  }

  lemma AcceptKeeps(mac: Mac, s: Listener, t: Txt, saved: bool)
    requires ListenerOk(s) && s.listening && Judge(mac, s, t) == Accepts
    ensures ListenerOk(Request(mac, s, t, saved).0)
  {
    var d := DigestOf(t);
    assert Ok(t) && d.alg == HMAC_SHA256;
    assert d !in Recent(s.entries, s.next);
    hide Judge, Validate, StandsFor, Recent, Written;
    SeenExact(s.entries, s.next, s.log, d);
    AppendNoReplay(s.log, |s.entries|, d);
    WrittenStands(s.entries, s.next, s.log, d);
    WrittenSize(s.entries, s.next, d);
  }

  lemma WrittenSize(entries: seq<Digest>, next: nat, d: Digest)
    requires next < |entries|
    ensures |Written(entries, next, d).0| == |entries|
  {
  }

  lemma DiscoverKeeps(mac: Mac, s: Listener, t: Txt, saved: bool)
    requires ListenerOk(s)
    ensures ListenerOk(Discover(mac, s, t, saved).0)
  {
    hide Judge, StandsFor;
    assert s.next < |s.entries| by { StandsInRange(s.entries, s.next, s.log); }
    if s.listening && t.forId == s.local.shipId && Judge(mac, s, t) == Accepts { AcceptKeeps(mac, s, t, saved); }
  }

  lemma StandsInRange(entries: seq<Digest>, next: nat, log: seq<Digest>)
    requires StandsFor(entries, next, log)
    ensures next < |entries|
  {
  }

  lemma {:induction false} PendingKeeps(mac: Mac, s: Listener, ts: seq<Txt>, saved: bool)
    requires ListenerOk(s)
    ensures ListenerOk(Pending(mac, s, ts, saved))
    decreases |ts|
  {
    hide Discover;
    if ts != [] {
      DiscoverKeeps(mac, s, ts[0], saved);
      hide ListenerOk;
      var (r, more) := Discover(mac, s, ts[0], saved);
      if more { PendingKeeps(mac, r, ts[1..], saved); }
    }
  }

  lemma RestartKeeps(s: Listener)
    requires ListenerOk(s) && Saved(s)
    ensures ListenerOk(Restart(s))
  {
  }

  predicate EventOk(s: Listener, e: Event) {
    e.Restarted? ==> Saved(s)
  }

  lemma EventKeeps(mac: Mac, s: Listener, e: Event)
    requires ListenerOk(s) && EventOk(s, e)
    ensures ListenerOk(After(mac, s, e))
  {
    hide Discover, Pending, Restart, StandsFor, NoReplay;
    match e
    case Discovered(t, saved) => DiscoverKeeps(mac, s, t, saved);
    case Snapshot(ts, saved) => PendingKeeps(mac, s, ts, saved);
    case Restarted => RestartKeeps(s);
    case _ =>
  }

  // ---------------------------------------------------------------- whole runs

  /** A listener with an empty history of at least the specified size. */
  predicate Initial(s: Listener) {
    && |s.entries| >= 10 && s.entries == Blank(|s.entries|) && s.next == 0 && s.stored == []
    && !s.listening && s.log == [] && s.times == []
  }

  predicate Run(mac: Mac, s: Listener, es: seq<Event>)
    decreases |es|
  {
    es == [] || (s.next < |s.entries| && EventOk(s, es[0]) && Run(mac, After(mac, s, es[0]), es[1..]))
  }

  function AfterAll(mac: Mac, s: Listener, es: seq<Event>): Listener
    requires Run(mac, s, es)
    decreases |es|
  {
    if es == [] then s else AfterAll(mac, After(mac, s, es[0]), es[1..])
  }

  lemma {:induction false} RunKeeps(mac: Mac, s: Listener, es: seq<Event>)
    requires ListenerOk(s) && Run(mac, s, es)
    ensures ListenerOk(AfterAll(mac, s, es))
    decreases |es|
  {
    hide ListenerOk, After;
    if es != [] {
      EventKeeps(mac, s, es[0]);
      RunKeeps(mac, After(mac, s, es[0]), es[1..]);
    }
  }

  /**
   Over any run with any activations, snapshots and restarts from saved state: among any size + 1
   consecutive acceptances the digests differ, and no two acceptances fall into one activation.
   */
  lemma AcceptancesDistinct(mac: Mac, s: Listener, es: seq<Event>)
    requires Initial(s) && Run(mac, s, es)
    ensures var r := AfterAll(mac, s, es);
            && |r.times| == |r.log|
            && (forall i, j | 0 <= i < j < |r.log| && j - i <= |r.entries| :: r.log[i] != r.log[j])
            && (forall i, j | 0 <= i < j < |r.times| :: r.times[i] != r.times[j])
  {
    EmptyStands(|s.entries|);
    RunKeeps(mac, s, es);
  }

  /**
   Why the restart needs what was saved: after an acceptance whose save failed, a restarted listener with the
   same secret accepts the same record again if and only if the history it has loaded does not hold the digest.
   */
  lemma LostSaveReplays(mac: Mac, s: Listener, t: Txt)
    requires ListenerOk(s) && s.listening && |s.secret| == 16 && Judge(mac, s, t) == Accepts
    requires Loaded(s.stored, s.storedNext, |s.entries|).Some?
    ensures var (entries, next) := Loaded(s.stored, s.storedNext, |s.entries|).value;
            var again := Start(Restart(Request(mac, s, t, false).0), s.secret, true);
            && next < |entries| && again.next < |again.entries|
            && (Judge(mac, again, t) == Accepts <==> DigestOf(t) !in Recent(entries, next))
  {
    LoadedInRange(s.stored, s.storedNext, |s.entries|);
  }

  /** A new listener, an acceptance that is not saved, a restart, and the same record is accepted again. */
  lemma ReplayReachable(mac: Mac, s: Listener, t: Txt, secret: seq<Byte>)
    requires Initial(s) && |secret| == 16 && Judge(mac, Start(s, secret, true), t) == Accepts
    ensures var accepted := After(mac, After(mac, s, Started(secret, true)), Discovered(t, false));
            && accepted.next < |accepted.entries| && !Saved(accepted)
            && var again := After(mac, After(mac, accepted, Restarted), Started(secret, true));
               && again.next < |again.entries|
               && After(mac, again, Discovered(t, false)).log == [DigestOf(t), DigestOf(t)]
  {
    var started := Start(s, secret, true);
    assert t.forId == s.local.shipId;
    assert DigestOf(t).alg != "" && DigestOf(t) !in Blank(|s.entries|);
    EmptyStands(|s.entries|);
    hide Validate, CalculateDigest, HexDecode, TrimSpace, EqualFold;
    LostSaveReplays(mac, started, t);
  }
}
