/**
 The hub's pairing events as methods that update the registry and the replacement tracker in place
 (hub/hub_pairing.go, hub/hub_shipconnection.go, hub/addcu_replacement_tracker.go), each proved to do what
 TrustSlot says of it.
 */
module HubPairing {
  import opened Basics
  import opened Letters
  import opened TrustStore
  import opened TrustHub
  import opened TrustSlot

  class AddCuReplacementTracker {
    var pairedDeviceShipId: string
    var timerRunning: bool

    constructor ()
      ensures pairedDeviceShipId == "" && !timerRunning
    {
      pairedDeviceShipId, timerRunning := "", false;
    }

    method Start(shipId: string)
      modifies this
      ensures pairedDeviceShipId == shipId && timerRunning
    {
      timerRunning := false;
      pairedDeviceShipId := shipId;
      timerRunning := true;
    }

    method Stop(shipId: string)
      modifies this
      ensures if old(pairedDeviceShipId) != shipId
              then pairedDeviceShipId == old(pairedDeviceShipId) && timerRunning == old(timerRunning)
              else pairedDeviceShipId == "" && !timerRunning
    {
      if pairedDeviceShipId != shipId { return; }
      pairedDeviceShipId, timerRunning := "", false;
    }

    /** The timer has fired. */
    method Expire()
      modifies this
      ensures pairedDeviceShipId == "" && !timerRunning
    {
      pairedDeviceShipId, timerRunning := "", false;
    }

    predicate IsInReplacementWindow()
      reads this
    {
      pairedDeviceShipId != "" && timerRunning
    }
  }

  class Hub {
    const services: Registry
    const tracker: AddCuReplacementTracker

    ghost predicate Valid()
      reads this, services
    {
      services.Valid()
    }

    ghost function View(): Slot
      reads services, services.remoteServices, tracker
    {
      Slot(services.View(), tracker.pairedDeviceShipId, tracker.timerRunning)
    }

    constructor ()
      ensures Valid() && View() == Slot([], "", false) && SlotOk(View())
    {
      services := new Registry();
      tracker := new AddCuReplacementTracker();
    }

    method TrustedAddCuDevice() returns (r: Option<nat>)
      ensures r == TrustedAddCu(View().reg)
    {
      var i := 0;
      while i < |services.remoteServices|
        invariant 0 <= i <= |services.remoteServices|
        invariant TrustedAddCu(services.View()[..i]) == None
      {
        var s := services.remoteServices[i];
        assert services.View()[..i + 1][..i] == services.View()[..i] && services.View()[..i + 1][i] == s.View();
        if s.trusted && s.addCu && s.shipId != "" && s.fingerprint != "" {
          FirstAddCu(services.View(), i);
          return Some(i);
        }
        i := i + 1;
      }
      assert services.View()[..i] == services.View();
      r := None;
    }

    static lemma {:induction false} FirstAddCu(reg: seq<Entry>, i: nat)
      requires i < |reg| && TrustedAddCu(reg[..i + 1]) == Some(i)
      ensures TrustedAddCu(reg) == Some(i)
      decreases |reg|
    {
      if i + 1 < |reg| {
        assert reg[..|reg| - 1][..i + 1] == reg[..i + 1];
        FirstAddCu(reg[..|reg| - 1], i);
      } else {
        assert reg[..i + 1] == reg;
      }
    }

    /** Withdraw the trust in a record and remove it from the registry. */
    method RemoveService(service: ServiceDetails, ghost i: nat)
      requires Valid() && i < |services.remoteServices| && services.remoteServices[i] == service
      modifies services, service`trusted
      ensures Valid() && View() == old(View()).(reg := RemoveAt(old(View()).reg, i))
      ensures forall s | s in services.remoteServices :: s in old(services.remoteServices)
    {
      ghost var reg := services.View();
      service.trusted := false;
      assert forall j | 0 <= j < |reg| && j != i :: services.View()[j] == reg[j];
      services.RemoveServiceEntry(service, i);
      assert services.View() == RemoveAt(reg, i);
    }

    /** Remove a record from the registry and stop the timer if it runs for it. */
    method EvictService(i: nat)
      requires Valid() && i < |services.remoteServices|
      modifies services, services.remoteServices[i], tracker
      ensures Valid() && View() == Evict(old(View()), i)
      ensures forall s | s in services.remoteServices :: s in old(services.remoteServices)
    {
      var service := services.remoteServices[i];
      RemoveService(service, i);
      tracker.Stop(service.shipId);
    }

    /** The part of OnPairingSuccess that trusts the new device. */
    method TrustDevice(shipId: string, fingerprint: string, connected: bool)
      requires Valid()
      modifies services, services.remoteServices, tracker
      ensures Valid() && View() == Trust(old(View()), shipId, fingerprint, connected)
    {
      hide Merge;
      var made := ServiceDetails.NewServiceDetails("", fingerprint, shipId);
      if made == None { return; }
      var candidate := made.value;
      candidate.trusted, candidate.addCu := true, true;
      assert candidate.View() == NewService("", fingerprint, shipId).value.(trusted := true, addCu := true);
      assert services.View() == old(services.View());
      var service := services.MergeOrAddService(candidate);
      if service == None { return; }
      if !connected { tracker.Start(shipId); }
    }

    /** OnPairingSuccess; connected is what connectionForService answers. */
    method OnPairingSuccess(shipId: string, fingerprint: string, connected: bool)
      requires Valid()
      modifies services, services.remoteServices, tracker
      ensures Valid() && View() == PairingSuccess(old(View()), shipId, fingerprint, connected)
    {
      hide Trust, Evict, TrustedAddCu;
      if TrimSpace(fingerprint) == "" { return; }
      var replaced := TrustedAddCuDevice();
      if replaced.Some? && services.remoteServices[replaced.value].fingerprint != fingerprint {
        if tracker.IsInReplacementWindow() { return; }
        EvictService(replaced.value);
      }
      assert forall i | 0 <= i < |services.remoteServices| :: services.remoteServices[i] in old(services.remoteServices);
      TrustDevice(shipId, fingerprint, connected);
    }

    /** The trust part of UnregisterRemoteService. */
    method UnregisterRemoteService(ski: string, fingerprint: string, shipId: string)
      requires Valid()
      modifies services, services.remoteServices, tracker
      ensures Valid() && View() == Unregister(old(View()), ski, fingerprint, shipId)
    {
      hide Lookup;
      ghost var at := Lookup(services.View(), NormalizeSki(ski), fingerprint, shipId);
      var service := services.ServiceForIdentifierFull(ski, fingerprint, shipId);
      if service == None { return; }
      var isAddCu, id := service.value.addCu, service.value.shipId;
      RemoveService(service.value, at.value);
      if isAddCu { tracker.Stop(id); }
    }

    /** The trust part of RegisterRemoteService; connected is what connectionForService answers. */
    method RegisterRemoteService(ski: string, fingerprint: string, shipId: string, ipv4: string, addCu: bool, started: bool,
                                 connected: bool)
      requires Valid()
      modifies services, services.remoteServices, tracker
      ensures Valid() && View() == RegisterService(old(View()), ski, fingerprint, shipId, ipv4, addCu, started, connected)
    {
      hide Merge;
      var made := ServiceDetails.NewServiceDetails(ski, fingerprint, shipId);
      if made == None { return; }
      var candidate := made.value;
      candidate.ipv4, candidate.trusted, candidate.addCu := ipv4, true, addCu;
      assert Some(candidate.View()) == Candidate(Registered(ski, fingerprint, shipId, ipv4, addCu, started, connected));
      assert services.View() == old(services.View());
      var merged := services.MergeOrAddService(candidate);
      if merged == None || !started { return; }
      var service := merged.value;
      var isTrustedAddCu := service.trusted && service.addCu && service.shipId != "";
      if connected { return; }
      if isTrustedAddCu { tracker.Start(service.shipId); }
    }

    /** startAddCuReplacementTimersForOfflineDevices; online holds the positions of the connected entries. */
    method StartAddCuReplacementTimers(online: set<nat>)
      requires Valid()
      modifies tracker
      ensures Valid() && View() == StartTimers(old(View()), |services.remoteServices|, online)
    {
      var i := 0;
      while i < |services.remoteServices|
        invariant 0 <= i <= |services.remoteServices| && Valid() && services.View() == old(services.View())
        invariant View() == StartTimers(old(View()), i, online)
      {
        var service := services.remoteServices[i];
        assert services.View()[i] == service.View();
        if service.addCu && service.trusted && service.shipId != "" && i !in online { tracker.Start(service.shipId); }
        i := i + 1;
      }
    }

    /** The trust part of CancelPairing. */
    method CancelPairing(ski: string, fingerprint: string, shipId: string)
      requires Valid()
      modifies services.remoteServices
      ensures Valid() && View() == Cancel(old(View()), ski, fingerprint, shipId)
    {
      hide Lookup;
      ghost var at := Lookup(services.View(), NormalizeSki(ski), fingerprint, shipId);
      var service := services.ServiceForIdentifierFull(ski, fingerprint, shipId);
      if service == None { return; }
      ghost var reg := services.View();
      service.value.trusted := false;
      assert services.View() == reg[at.value := reg[at.value].(trusted := false)];
    }

    method ServiceForTrustedShipId(shipId: string) returns (r: Option<nat>)
      ensures r == TrustedNamed(View().reg, shipId)
    {
      var i := 0;
      while i < |services.remoteServices|
        invariant 0 <= i <= |services.remoteServices|
        invariant TrustedNamed(services.View()[..i], shipId) == None
      {
        var s := services.remoteServices[i];
        assert services.View()[..i + 1][..i] == services.View()[..i] && services.View()[..i + 1][i] == s.View();
        if s.trusted && s.shipId == shipId {
          FirstNamed(services.View(), shipId, i);
          return Some(i);
        }
        i := i + 1;
      }
      assert services.View()[..i] == services.View();
      r := None;
    }

    static lemma {:induction false} FirstNamed(reg: seq<Entry>, shipId: string, i: nat)
      requires i < |reg| && TrustedNamed(reg[..i + 1], shipId) == Some(i)
      ensures TrustedNamed(reg, shipId) == Some(i)
      decreases |reg|
    {
      if i + 1 < |reg| {
        assert reg[..|reg| - 1][..i + 1] == reg[..i + 1];
        FirstNamed(reg[..|reg| - 1], shipId, i);
      } else {
        assert reg[..i + 1] == reg;
      }
    }

    /** The part of ReportMdnsEntries for a device whose SKI is not known yet. */
    method ReportMdnsEntry(ski: string, shipId: string, valid: bool)
      requires Valid()
      modifies services, services.remoteServices
      ensures Valid() && View() == Discover(old(View()), ski, shipId, valid)
    {
      hide Lookup, Merge, TrustedNamed, Learn, NormalizeSki;
      var known := services.ServiceForIdentifierFull(ski, "", "");
      if known.Some? || shipId == "" { return; }
      var at := ServiceForTrustedShipId(shipId);
      if at == None || services.remoteServices[at.value].ski != "" || !valid { return; }
      LearnSki(at.value, ski);
    }

    /** SetSKI for an entry without one, and the merge after it. */
    method LearnSki(i: nat, ski: string)
      requires Valid() && i < |services.remoteServices| && services.remoteServices[i].ski == ""
      modifies services, services.remoteServices
      ensures Valid() && View() == Learn(old(View()), i, ski, "")
    {
      hide Merge, NormalizeSki;
      ghost var reg := services.View();
      var service := services.remoteServices[i];
      service.ski := NormalizeSki(ski);
      assert services.View() == reg[i := Learned(reg[i], ski, "")];
      var merged := services.MergeOrAddService(service);
    }

    /** The part of connectFoundService that reads the certificate of the device behind the entry at i. */
    method ReadRemoteCertificate(i: nat, ski: string, fingerprint: string)
      requires Valid() && i < |services.remoteServices|
      modifies services, services.remoteServices
      ensures Valid() && View() == ReadCertificate(old(View()), i, ski, fingerprint)
    {
      hide Merge;
      ghost var reg := services.View();
      var service := services.remoteServices[i];
      if service.ski == "" && ski != "" && service.fingerprint == fingerprint { service.ski := NormalizeSki(ski); }
      if service.fingerprint == "" && fingerprint != "" { service.fingerprint := fingerprint; }
      assert services.View() == reg[i := Learned(reg[i], if reg[i].fingerprint == fingerprint then ski else "", fingerprint)];
      var merged := services.MergeOrAddService(service);
    }

    /** The trust part of HandleConnectionClosed. */
    method HandleConnectionClosed(ski: string, completed: bool, superseded: bool)
      requires Valid()
      modifies tracker
      ensures Valid() && View() == ConnectionClosed(old(View()), ski, completed, superseded)
    {
      hide Lookup;
      if superseded { return; }
      ghost var at := Lookup(services.View(), NormalizeSki(ski), "", "");
      var service := services.ServiceForIdentifierFull(ski, "", "");
      if service == None || (!completed && !service.value.trusted) { return; }
      if service.value.addCu && service.value.shipId != "" { tracker.Start(service.value.shipId); }
    }

    /** The trust part of HandleShipHandshakeStateUpdate. */
    method HandleHandshakeStateUpdate(ski: string, helloOk: bool, complete: bool)
      requires Valid()
      modifies services.remoteServices, tracker
      ensures Valid() && View() == HandshakeUpdate(old(View()), ski, helloOk, complete)
    {
      hide Lookup;
      ghost var at := Lookup(services.View(), NormalizeSki(ski), "", "");
      var service := services.ServiceForIdentifierFull(ski, "", "");
      if service == None { return; }
      ghost var reg := services.View();
      if helloOk {
        service.value.trusted := true;
        assert services.View() == reg[at.value := reg[at.value].(trusted := true)];
      }
      if complete && service.value.addCu && service.value.shipId != "" { tracker.Stop(service.value.shipId); }
    }

    /** ReportServiceShipID: the record the candidate merges into may be another one than itself. */
    method ReportServiceShipId(ski: string, shipId: string)
      requires Valid()
      modifies services, services.remoteServices
      ensures Valid() && View() == ShipIdReported(old(View()), ski, shipId)
    {
      hide Lookup, Merge;
      ghost var at := Lookup(services.View(), NormalizeSki(ski), "", "");
      var service := services.ServiceForIdentifierFull(ski, "", "");
      if service == None { return; }
      if service.value.shipId == "" {
        ghost var reg := services.View();
        service.value.shipId := shipId;
        assert services.View() == reg[at.value := reg[at.value].(shipId := shipId)];
        var merged := services.MergeOrAddService(service.value);
      }
    }

    /** addService. */
    method AddService(candidate: ServiceDetails) returns (ok: bool)
      requires Valid()
      modifies services, services.remoteServices
      ensures Valid() && View() == AddOther(old(View()), old(candidate.View()))
      ensures ok <==> Merge(old(View()).reg, old(candidate.View())) != Failed
    {
      hide Merge;
      var merged := services.MergeOrAddService(candidate);
      ok := merged.Some?;
    }

    /** The replacement timer fires: trust stays as it is, and the listener may be reactivated. */
    method HandleAddCuReplacementTimeout() returns (reactivate: bool)
      requires Valid()
      modifies tracker
      ensures Valid() && View() == After(old(View()), Expired)
      ensures reactivate <==>
                var at := TrustedNamed(View().reg, old(tracker.pairedDeviceShipId)); at == None || View().reg[at.value].addCu
    {
      hide TrustedNamed;
      var expired := tracker.pairedDeviceShipId;
      tracker.Expire();
      var at := ServiceForTrustedShipId(expired);
      if at == None { return true; }
      reactivate := services.remoteServices[at.value].addCu;
    }
  }
}
