/**
 The two ends of pairing as objects: the listener with its history (pairing/listener.go) and the announcer
 (pairing/hub_integration.go), and the way of a record from one to the other.
 */
module PairingDevices {
  import opened Basics
  import opened Letters
  import opened PairingRecord
  import opened PairingTxt
  import opened RingBuffer
  import L = PairingListener

  class PairingListener {
    const mac: Mac
    const local: L.Local
    const history: RingBufferHistoryProvider
    var listening: bool
    var secret: seq<Byte>
    var requestsSeen: nat
    var lastError: Option<L.Failure>
    // The record of a run, as the specification keeps it.
    ghost var activation: nat
    ghost var log: seq<Digest>
    ghost var times: seq<nat>

    ghost predicate Valid()
      reads this, history, history.entries
    {
      history.Valid()
    }

    ghost function View(): L.Listener
      reads this, history, history.entries
    {
      L.Listener(local, listening, secret, requestsSeen, lastError, history.entries[..], history.next,
                 history.stored, history.storedNext, activation, log, times)
    }

    constructor (mac: Mac, local: L.Local, history: RingBufferHistoryProvider)
      requires history.Valid()
      ensures Valid() && this.mac == mac && this.local == local && this.history == history
      ensures !listening && log == [] && times == []
    {
      this.mac, this.local, this.history := mac, local, history;
      listening, secret, requestsSeen, lastError := false, [], 0, None;
      activation, log, times := 0, [], [];
    }

    method StopListeningInternal()
      modifies this
      ensures View() == L.Stopped(old(View()))
    {
      secret := [];
      listening := false;
    }

    method StartListening(secret: seq<Byte>, searchOk: bool) returns (ok: bool)
      requires Valid()
      modifies this
      ensures Valid() && View() == L.Start(old(View()), secret, searchOk)
      ensures ok <==> |secret| == 16 && !old(listening) && searchOk
    {
      if |secret| != 16 { return false; }
      if listening { return false; }
      this.secret := secret;
      listening := true;
      activation := activation + 1;
      if !searchOk {
        StopListeningInternal();
        return false;
      }
      ok := true;
    }

    method StopListening() returns (ok: bool)
      requires Valid()
      modifies this
      ensures Valid() && ok == old(listening)
      ensures View() == if ok then L.Stopped(old(View())) else old(View())
    {
      if !listening { return false; }
      StopListeningInternal();
      ok := true;
    }

    method NotifyFailure(f: L.Failure)
      modifies this
      ensures View() == old(View()).(lastError := Some(f))
    {
      lastError := Some(f);
    }

    /** The checks of handlePairingRequest that look at nothing but the record and this device. */
    method Screen(t: Txt) returns (v: L.Verdict)
      ensures v == L.Screened(local, t)
    {
      var refusal := Validate(t);
      if refusal.Some? { return L.Fails(L.Invalid(refusal.value)); }
      if t.forId != local.shipId { return L.NotForUs; }
      if !EqualFold(TrimSpace(t.forPar), TrimSpace(local.fingerprint)) { return L.Fails(L.InvalidRecord); }
      if t.trustCurve != SECP256R1 { return L.Fails(L.CurveNotSupported); }
      if HexDecode(t.trustNonce) == None { return L.Fails(L.InvalidRecord); }
      if HexDecode(t.digest) == None { return L.Fails(L.InvalidDigest); }
      v := L.Accepts;
    }

    method HandlePairingRequest(t: Txt, saved: bool) returns (goOn: bool)
      requires Valid()
      modifies this, history, history.entries
      ensures Valid() && history.entries == old(history.entries)
      ensures (View(), goOn) == L.Request(mac, old(View()), t, saved)
    {
      hide Validate, TrimSpace, EqualFold, HexDecode, L.Screened, Message, Recent;
      requestsSeen := requestsSeen + 1;
      var v := Screen(t);
      if v.NotForUs? { return true; }
      if v.Fails? {
        NotifyFailure(v.failure);
        return true;
      }
      HexOfAccepted(local, t);
      var nonce, expected := HexDecode(t.trustNonce).value, HexDecode(t.digest).value;
      var sum := CalculateDigest(mac, secret, t.alg, nonce, t);
      if sum.NoSum? {
        NotifyFailure(L.CryptoFailed(sum.error));
        return true;
      }
      if sum.value != expected {
        NotifyFailure(L.InvalidDigest);
        return true;
      }
      var seen := history.HasSeenDigest(t.alg, t.digest);
      if seen {
        NotifyFailure(L.Replay);
        return true;
      }
      history.RecordPairing(t.alg, t.digest, saved);
      log, times := log + [L.DigestOf(t)], times + [activation];
      StopListeningInternal();
      goOn := false;
    }

    static lemma HexOfAccepted(local: L.Local, t: Txt)
      requires L.Screened(local, t) == L.Accepts
      ensures HexDecode(t.trustNonce).Some? && HexDecode(t.digest).Some?
    {
    }

    method HandleMdnsDiscovery(t: Txt, saved: bool) returns (goOn: bool)
      requires Valid()
      modifies this, history, history.entries
      ensures Valid() && history.entries == old(history.entries)
      ensures (View(), goOn) == L.Discover(mac, old(View()), t, saved)
    {
      if !listening { return false; }
      if t.forId != local.shipId { return true; }
      goOn := HandlePairingRequest(t, saved);
    }

    method ProcessPendingEntries(ts: seq<Txt>, saved: bool)
      requires Valid()
      modifies this, history, history.entries
      ensures Valid() && View() == L.Pending(mac, old(View()), ts, saved)
    {
      hide L.Discover;
      var i := 0;
      while i < |ts|
        invariant 0 <= i <= |ts| && Valid() && history.entries == old(history.entries)
        invariant L.Pending(mac, View(), ts[i..], saved) == L.Pending(mac, old(View()), ts, saved)
      {
        assert ts[i..][0] == ts[i] && ts[i..][1..] == ts[i + 1..];
        var goOn := HandleMdnsDiscovery(ts[i], saved);
        if !goOn { return; }
        i := i + 1;
      }
    }
  }

  // ---------------------------------------------------------------- the announcer

  datatype Target = Target(ski: string, fingerprint: string, shipId: string, secret: seq<Byte>)

  const NO_TARGET := Target("", "", "", [])

  /** The announcing device. */
  datatype Own = Own(shipId: string, fingerprint: string)

  /** The record of AnnounceToDevice without its digest. */
  function Unsigned(target: Target, own: Own, nonce: seq<Byte>): Txt {
    Txt("1", FP_SHA256, target.shipId, target.fingerprint, own.shipId, own.fingerprint, SECP256R1, ADD_CU,
        BytesToHex(nonce), HMAC_SHA256, "")
  }

  function Announced(mac: Mac, secret: seq<Byte>, target: Target, own: Own, nonce: seq<Byte>): Txt {
    var t := Unsigned(target, own, nonce);
    t.(digest := BytesToHex(mac(Key(secret, nonce), Message(t))))
  }

  datatype AnnounceError = NotStarted | AlreadyActive | NoFingerprint | NoNonce | NoDigest(error: MacError) | NotPublished

  datatype Mode = ListenerMode | AnnouncerMode | BothModes | OtherMode

  datatype Configuration = Configuration(mode: Mode, secret: seq<Byte>, enabled: bool)

  class PairingAnnouncer {
    const mac: Mac
    var enabled: bool
    var secret: seq<Byte>
    var announcing: bool
    var currentTarget: Target
    var currentInstanceId: string
    // What is published at the moment.
    var published: Option<seq<string>>

    constructor (mac: Mac)
      ensures this.mac == mac && !enabled && !announcing && published == None
    {
      this.mac := mac;
      enabled, secret, announcing := false, [], false;
      currentTarget, currentInstanceId, published := NO_TARGET, "", None;
    }

    method EnablePairingService(config: Option<Configuration>) returns (ok: bool)
      modifies this
      ensures ok <==> config.Some? && !config.value.mode.OtherMode? && |config.value.secret| == 16
      ensures enabled == if ok then config.value.enabled else old(enabled)
      ensures secret == if ok then config.value.secret else old(secret)
      ensures announcing == old(announcing) && published == old(published)
      ensures currentTarget == old(currentTarget) && currentInstanceId == old(currentInstanceId)
    {
      if config == None { return false; }
      if config.value.mode.OtherMode? { return false; }
      if |config.value.secret| != 16 { return false; }
      secret, enabled := config.value.secret, config.value.enabled;
      ok := true;
    }

    /** AnnounceToDevice; nonce and instance are what the random source and the provider return. */
    method AnnounceToDevice(target: Target, own: Option<Own>, nonce: Option<seq<Byte>>, instance: Option<string>)
      returns (error: Option<AnnounceError>)
      modifies this
      ensures enabled == old(enabled) && secret == old(secret)
      ensures error == None <==>
              enabled && !old(announcing) && own.Some? && nonce.Some? && instance.Some? && secret != []
              && Ok(Announced(mac, secret, target, own.value, nonce.value))
      ensures error == None ==>
              && announcing && currentTarget == target && currentInstanceId == instance.value
              && published == Some(Entries(Fields(Announced(mac, secret, target, own.value, nonce.value))))
      ensures error.Some? ==>
              announcing == old(announcing) && published == old(published)
              && currentTarget == old(currentTarget) && currentInstanceId == old(currentInstanceId)
    {
      hide Entries, Fields, Message, Validate;
      if !enabled { return Some(NotStarted); }
      if announcing { return Some(AlreadyActive); }
      if own == None { return Some(NoFingerprint); }
      if nonce == None { return Some(NoNonce); }
      var t := Unsigned(target, own.value, nonce.value);
      var sum := CalculateDigest(mac, secret, HMAC_SHA256, nonce.value, t);
      if sum.NoSum? { return Some(NoDigest(sum.error)); }
      t := t.(digest := BytesToHex(sum.value));
      if Validate(t) != None { return Some(NotPublished); }
      var txt := ConvertToArray(t);
      if instance == None { return Some(NotPublished); }
      published := Some(txt);
      currentTarget, currentInstanceId, announcing := target, instance.value, true;
      error := None;
    }

    /** StopAnnouncement; withdrawn says whether the provider could withdraw the record. */
    method StopAnnouncement(withdrawn: bool) returns (ok: bool)
      modifies this
      ensures ok <==> old(announcing) && (old(currentInstanceId) == "" || withdrawn)
      ensures ok ==> !announcing && currentTarget == NO_TARGET && currentInstanceId == ""
      ensures ok && old(currentInstanceId) != "" ==> published == None
      ensures !ok ==> announcing == old(announcing) && published == old(published) && currentTarget == old(currentTarget)
      ensures enabled == old(enabled) && secret == old(secret)
    {
      if !announcing { return false; }
      if currentInstanceId != "" {
        if !withdrawn { return false; }
        published := None;
      }
      announcing, currentTarget, currentInstanceId := false, NO_TARGET, "";
      ok := true;
    }
  }

  // ---------------------------------------------------------------- from announcer to listener

  /** What a target and an announcing device must look like for the record to be published. */
  predicate Announceable(target: Target, own: Own) {
    && TrimSpace(target.shipId) != "" && TrimSpace(own.shipId) != ""
    && IsUppercaseHex(target.fingerprint, 64) && IsUppercaseHex(own.fingerprint, 64)
  }

  /** With a nonce and a digest of the specified lengths, exactly such records are valid. */
  lemma AnnouncedValid(mac: Mac, secret: seq<Byte>, target: Target, own: Own, nonce: seq<Byte>)
    requires |nonce| == NONCE_LENGTH && forall k, m :: |mac(k, m)| == 32
    ensures Ok(Announced(mac, secret, target, own, nonce)) <==> Announceable(target, own)
  {
  }

  /** The digest is not part of the message it is calculated over. */
  lemma MessageWithoutDigest(t: Txt, digest: string)
    ensures Message(t.(digest := digest)) == Message(t)
  {
  }

  /**
   Announcer and listener agree. A record announced for a listener's SHIP ID, fingerprint and secret arrives
   unchanged over the wire, and a listener that is listening accepts it exactly when its digest is not in
   the history.
   */
  lemma AnnouncementAccepted(mac: Mac, target: Target, own: Own, nonce: seq<Byte>, s: L.Listener)
    requires |nonce| == NONCE_LENGTH && forall k, m :: |mac(k, m)| == 32
    requires Announceable(target, own)
    requires s.next < |s.entries| && s.listening && s.secret != [] && s.local.shipId == target.shipId
    requires EqualFold(TrimSpace(target.fingerprint), TrimSpace(s.local.fingerprint))
    ensures var t := Announced(mac, s.secret, target, own, nonce);
            && Parse(Entries(Fields(t))).Some? && Process(Parse(Entries(Fields(t))).value) == Some(t)
            && (L.Judge(mac, s, t) == L.Accepts <==> L.DigestOf(t) !in Recent(s.entries, s.next))
            && (L.Judge(mac, s, t) == L.Accepts || L.Judge(mac, s, t) == L.Fails(L.Replay))
            && forall saved :: L.Discover(mac, s, t, saved).0.log
                               == if L.DigestOf(t) in Recent(s.entries, s.next) then s.log else s.log + [L.DigestOf(t)]
  {
    var u := Unsigned(target, own, nonce);
    var t := Announced(mac, s.secret, target, own, nonce);
    AnnouncedValid(mac, s.secret, target, own, nonce);
    WireRoundTrip(t);
    MessageWithoutDigest(u, t.digest);
    HexRoundTrip(nonce);
    HexRoundTrip(mac(Key(s.secret, nonce), Message(u)));
    hide Entries, Fields, Parse, Process, Message, Recent, EqualFold, TrimSpace, HexDecode, BytesToHex, Validate;
    assert CalculateDigest(mac, s.secret, t.alg, nonce, t) == Sum(mac(Key(s.secret, nonce), Message(u)));
  }
}
