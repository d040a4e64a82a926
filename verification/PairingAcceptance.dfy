/**
 What a listener accepts, said of the record and not of the checks: the digest has to be the one that the
 secret, the nonce and the ten signed fields give (pairing/listener.go, sections 7.3, 7.4 and 11 of the SHIP
 Pairing Service specification).
 */
module PairingAcceptance {
  import opened Basics
  import opened Letters
  import opened PairingRecord
  import L = PairingListener
  import R = RingBuffer

  /** The digest of the record is the one that this secret gives. */
  predicate Signs(mac: Mac, secret: seq<Byte>, t: Txt) {
    && secret != [] && HexDecode(t.trustNonce).Some?
    && HexDecode(t.digest) == Some(mac(Key(secret, HexDecode(t.trustNonce).value), Message(t)))
  }

  /** The record is addressed to this device: its SHIP ID, its certificate, and a curve it can use. */
  predicate ForUs(local: L.Local, t: Txt) {
    && t.forId == local.shipId && EqualFold(TrimSpace(t.forPar), TrimSpace(local.fingerprint)) && t.trustCurve == SECP256R1
  }

  predicate Deserves(mac: Mac, l: L.Listener, t: Txt) {
    l.listening && Ok(t) && ForUs(l.local, t) && Signs(mac, l.secret, t) && L.DigestOf(t) !in R.Last(l.log, |l.entries|)
  }

  lemma OkDecodes(t: Txt)
    requires Ok(t)
    ensures HexDecode(t.trustNonce).Some? && HexDecode(t.digest).Some? && t.alg == HMAC_SHA256
  {
    UppercaseDecodes(t.trustNonce, 16);
    UppercaseDecodes(t.digest, 32);
    hide HexDecode, BytesToHex;
  }

  /** A record is accepted if and only if it deserves it; then it is recorded, and listening ends. */
  lemma AcceptedExact(mac: Mac, l: L.Listener, t: Txt, saved: bool)
    requires L.ListenerOk(l) && l.next < |l.entries|
    ensures var r := L.Discover(mac, l, t, saved).0;
            && (r.log != l.log <==> Deserves(mac, l, t))
            && (if Deserves(mac, l, t) then r.log == l.log + [L.DigestOf(t)] && r.times == l.times + [l.activation] && !r.listening
                else r == l.(requests := r.requests, lastError := r.lastError))
  {
    if Ok(t) { OkDecodes(t); }
    if t.alg == HMAC_SHA256 { R.SeenExact(l.entries, l.next, l.log, L.DigestOf(t)); }
    hide Validate, HexDecode, TrimSpace, EqualFold, Message, L.ListenerOk, R.Recent, R.Last;
  }

  /** The certificate the record names. */
  predicate NamesUs(local: L.Local, t: Txt) {
    EqualFold(TrimSpace(t.forPar), TrimSpace(local.fingerprint))
  }

  /** What a listener remembers of a record it refuses: the first thing that is wrong with it. */
  lemma RefusalExact(mac: Mac, l: L.Listener, t: Txt, saved: bool)
    requires L.ListenerOk(l) && l.next < |l.entries| && l.listening && t.forId == l.local.shipId && !Deserves(mac, l, t)
    ensures var r := L.Discover(mac, l, t, saved).0;
            && r.requests == l.requests + 1 && r.lastError.Some?
            && (!Ok(t) <==> r.lastError.value.Invalid?)
            && (!Ok(t) ==> Validate(t) == Some(r.lastError.value.refusal))
            && (Ok(t) && !NamesUs(l.local, t) <==> r.lastError.value == L.InvalidRecord)
            && (Ok(t) && NamesUs(l.local, t) && t.trustCurve != SECP256R1 <==> r.lastError.value == L.CurveNotSupported)
            && (Ok(t) && ForUs(l.local, t) && l.secret == [] <==> r.lastError.value == L.CryptoFailed(InvalidSecret))
            && (Ok(t) && ForUs(l.local, t) && l.secret != [] && !Signs(mac, l.secret, t) <==> r.lastError.value == L.InvalidDigest)
            && (Ok(t) && ForUs(l.local, t) && Signs(mac, l.secret, t) <==> r.lastError.value == L.Replay)
  {
    if Ok(t) { OkDecodes(t); }
    if t.alg == HMAC_SHA256 { R.SeenExact(l.entries, l.next, l.log, L.DigestOf(t)); }
    hide Validate, HexDecode, TrimSpace, EqualFold, Message, L.ListenerOk, R.Recent, R.Last;
  }

  /** While it does not listen, or when the record is for another SHIP ID, nothing is remembered. */
  lemma OthersIgnored(mac: Mac, l: L.Listener, t: Txt, saved: bool)
    requires l.next < |l.entries| && (!l.listening || t.forId != l.local.shipId)
    ensures L.Discover(mac, l, t, saved) == (l, l.listening)
  {
  }

  /** Of several records the first one that deserves it is accepted, and the others are not looked at. */
  lemma {:induction false} FirstAccepted(mac: Mac, l: L.Listener, ts: seq<Txt>, saved: bool) returns (k: nat)
    requires L.ListenerOk(l) && l.next < |l.entries|
    ensures k <= |ts| && forall j | 0 <= j < k :: !Deserves(mac, l, ts[j])
    ensures var r := L.Pending(mac, l, ts, saved);
            if k < |ts| then Deserves(mac, l, ts[k]) && r.log == l.log + [L.DigestOf(ts[k])] && !r.listening
            else r == l.(requests := r.requests, lastError := r.lastError)
    decreases |ts|
  {
    hide Deserves, L.Discover;
    if ts == [] {
      k := 0;
    } else {
      var (m, more) := L.Discover(mac, l, ts[0], saved);
      AcceptedExact(mac, l, ts[0], saved);
      L.DiscoverKeeps(mac, l, ts[0], saved);
      GoesOn(mac, l, ts[0], saved);
      hide L.ListenerOk;
      if Deserves(mac, l, ts[0]) {
        k := 0;
      } else if more {
        var j := FirstAccepted(mac, m, ts[1..], saved);
        k := j + 1;
        forall t ensures Deserves(mac, m, t) <==> Deserves(mac, l, t) { SameDeserves(mac, l, m, t); }
        assert forall i | 0 < i < |ts| :: ts[i] == ts[1..][i - 1];
      } else {
        k := |ts|;
        forall t ensures !Deserves(mac, l, t) { IdleAcceptsNothing(mac, l, t); }
      }
    }
  }

  lemma IdleAcceptsNothing(mac: Mac, l: L.Listener, t: Txt)
    ensures Deserves(mac, l, t) ==> l.listening
  {
  }

  /** The search goes on unless the listener was idle or has accepted. */
  lemma GoesOn(mac: Mac, l: L.Listener, t: Txt, saved: bool)
    requires l.next < |l.entries|
    ensures L.Discover(mac, l, t, saved).1 <==> L.Discover(mac, l, t, saved).0.listening
  {
    hide L.Judge;
  }

  lemma SameDeserves(mac: Mac, l: L.Listener, m: L.Listener, t: Txt)
    requires m == l.(requests := m.requests, lastError := m.lastError)
    ensures Deserves(mac, m, t) <==> Deserves(mac, l, t)
  {
  }

  // ---------------------------------------------------------------- whole runs

  /** The secrets under which the activations of a run listened. */
  function Secrets(l: L.Listener, keys: map<nat, seq<Byte>>, e: L.Event): map<nat, seq<Byte>> {
    if e.Started? && |e.secret| == 16 && !l.listening then keys[l.activation + 1 := e.secret] else keys
  }

  function AllSecrets(mac: Mac, l: L.Listener, keys: map<nat, seq<Byte>>, es: seq<L.Event>): map<nat, seq<Byte>>
    requires L.Run(mac, l, es)
    decreases |es|
  {
    if es == [] then keys else AllSecrets(mac, L.After(mac, l, es[0]), Secrets(l, keys, es[0]), es[1..])
  }

  /** Some valid record for this device has the digest, and the secret signs it. */
  ghost predicate Vouched(mac: Mac, local: L.Local, secret: seq<Byte>, d: R.Digest) {
    exists t :: Ok(t) && ForUs(local, t) && Signs(mac, secret, t) && L.DigestOf(t) == d
  }

  ghost predicate AllVouched(mac: Mac, l: L.Listener, keys: map<nat, seq<Byte>>) {
    && |l.times| == |l.log|
    && (l.listening ==> l.activation in keys && keys[l.activation] == l.secret)
    && (forall a | a in keys :: a <= l.activation)
    && (forall i | 0 <= i < |l.log| :: l.times[i] <= l.activation)
    && (forall i | 0 <= i < |l.log| :: l.times[i] in keys && Vouched(mac, l.local, keys[l.times[i]], l.log[i]))
  }

  lemma AcceptVouches(mac: Mac, l: L.Listener, r: L.Listener, t: Txt, keys: map<nat, seq<Byte>>)
    requires AllVouched(mac, l, keys) && Deserves(mac, l, t)
    requires r.log == l.log + [L.DigestOf(t)] && r.times == l.times + [l.activation] && !r.listening
    requires r.local == l.local && r.activation == l.activation
    ensures AllVouched(mac, r, keys)
  {
    assert Vouched(mac, l.local, l.secret, L.DigestOf(t));
    hide Vouched, Deserves;
  }

  lemma DiscoverVouches(mac: Mac, l: L.Listener, t: Txt, saved: bool, keys: map<nat, seq<Byte>>)
    requires L.ListenerOk(l) && l.next < |l.entries| && AllVouched(mac, l, keys)
    ensures AllVouched(mac, L.Discover(mac, l, t, saved).0, keys)
  {
    var r := L.Discover(mac, l, t, saved).0;
    AcceptedExact(mac, l, t, saved);
    DiscoverConstants(mac, l, t, saved);
    hide L.Discover, L.ListenerOk, Vouched, Deserves;
    if Deserves(mac, l, t) { AcceptVouches(mac, l, r, t, keys); }
  }

  lemma DiscoverConstants(mac: Mac, l: L.Listener, t: Txt, saved: bool)
    requires l.next < |l.entries|
    ensures var r := L.Discover(mac, l, t, saved).0; r.local == l.local && r.activation == l.activation
  {
    hide L.Judge;
  }

  lemma {:induction false} PendingVouches(mac: Mac, l: L.Listener, ts: seq<Txt>, saved: bool, keys: map<nat, seq<Byte>>)
    requires L.ListenerOk(l) && l.next < |l.entries| && AllVouched(mac, l, keys)
    ensures AllVouched(mac, L.Pending(mac, l, ts, saved), keys)
    decreases |ts|
  {
    hide L.Discover, AllVouched;
    if ts != [] {
      var (m, more) := L.Discover(mac, l, ts[0], saved);
      DiscoverVouches(mac, l, ts[0], saved, keys);
      L.DiscoverKeeps(mac, l, ts[0], saved);
      hide L.ListenerOk;
      if more { PendingVouches(mac, m, ts[1..], saved, keys); }
    }
  }

  lemma EventVouches(mac: Mac, l: L.Listener, e: L.Event, keys: map<nat, seq<Byte>>)
    requires L.ListenerOk(l) && l.next < |l.entries| && AllVouched(mac, l, keys)
    ensures AllVouched(mac, L.After(mac, l, e), Secrets(l, keys, e))
  {
    hide L.Discover, L.Pending, L.ListenerOk, Vouched;
    match e
    case Discovered(t, saved) => DiscoverVouches(mac, l, t, saved, keys);
    case Snapshot(ts, saved) => PendingVouches(mac, l, ts, saved, keys);
    case _ =>
  }

  lemma {:induction false} RunVouches(mac: Mac, l: L.Listener, es: seq<L.Event>, keys: map<nat, seq<Byte>>)
    requires L.ListenerOk(l) && L.Run(mac, l, es) && AllVouched(mac, l, keys)
    ensures AllVouched(mac, L.AfterAll(mac, l, es), AllSecrets(mac, l, keys, es))
    decreases |es|
  {
    hide L.ListenerOk, L.After, AllVouched, Secrets;
    if es != [] {
      EventVouches(mac, l, es[0], keys);
      L.EventKeeps(mac, l, es[0]);
      RunVouches(mac, L.After(mac, l, es[0]), es[1..], Secrets(l, keys, es[0]));
    }
  }

  /**
   Over any run from a new listener: whatever was accepted in an activation was the digest of a valid record
   for this device that the secret of that activation signs.
   */
  lemma AcceptedWereSigned(mac: Mac, l: L.Listener, es: seq<L.Event>)
    requires L.Initial(l) && L.Run(mac, l, es)
    ensures var r := L.AfterAll(mac, l, es);
            var keys := AllSecrets(mac, l, map[], es);
            && |r.times| == |r.log|
            && forall i | 0 <= i < |r.log| :: r.times[i] in keys && Vouched(mac, r.local, keys[r.times[i]], r.log[i])
  {
    R.EmptyStands(|l.entries|);
    RunVouches(mac, l, es, map[]);
    hide L.Run, L.AfterAll, AllSecrets;
  }

  // ---------------------------------------------------------------- when it listens

  /**
   An idle listener starts with a secret of sixteen bytes, in a new activation, and stops again without its
   secret if the search cannot be started. Any other start is refused, and nothing changes.
   */
  lemma StartExact(l: L.Listener, secret: seq<Byte>, searchOk: bool)
    ensures var r := L.Start(l, secret, searchOk);
            && (|secret| != 16 || l.listening ==> r == l)
            && (|secret| == 16 && !l.listening ==>
                  && r.listening == searchOk && r.secret == (if searchOk then secret else []) && r.activation == l.activation + 1
                  && r == l.(listening := r.listening, secret := r.secret, activation := r.activation))
  {
  }

  /** A restarted listener is idle, has forgotten everything but its history, and goes on with the stored one. */
  lemma RestartExact(l: L.Listener, stored: seq<R.Digest>)
    requires l.next < |l.entries| == |l.stored| && l.storedNext >= 0 && R.StandsFor(l.stored, l.storedNext, stored)
    ensures var r := L.Restart(l);
            && !r.listening && r.secret == [] && r.requests == 0 && r.lastError == None && r.local == l.local
            && R.StandsFor(r.entries, r.next, stored) && r.stored == l.stored && r.storedNext == l.storedNext
  {
    R.ReloadSame(l.stored, l.storedNext);
    hide R.Recent, R.Window;
  }
}
