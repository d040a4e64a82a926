/**
 SPINE messages that come in before the handshake has completed (ship/connection_messaging.go): they are
 kept and handed over in order, and none is lost or delivered twice.
 */
module SpineBuffer {

  datatype Inbox = Inbox(reader: bool, buffer: seq<string>, delivered: seq<string>)

  datatype Event = Arrives(payload: string) | Approved

  function After(b: Inbox, e: Event): Inbox {
    match e
    case Arrives(p) => if b.reader then b.(delivered := b.delivered + [p]) else b.(buffer := b.buffer + [p])
    case Approved => Inbox(true, [], b.delivered + b.buffer)
  }

  const EMPTY := Inbox(false, [], [])

  function AfterAll(es: seq<Event>): Inbox {
    if es == [] then EMPTY else After(AfterAll(es[..|es| - 1]), es[|es| - 1])
  }

  function Payloads(es: seq<Event>): seq<string> {
    if es == [] then []
    else Payloads(es[..|es| - 1]) + (if es[|es| - 1].Arrives? then [es[|es| - 1].payload] else [])
  }

  /** What was delivered, followed by what is kept, is what arrived; nothing is kept once there is a reader. */
  lemma {:induction false} NothingLost(es: seq<Event>)
    ensures AfterAll(es).delivered + AfterAll(es).buffer == Payloads(es)
    ensures AfterAll(es).reader <==> Approved in es
    ensures Approved in es ==> AfterAll(es).buffer == []
    ensures Approved !in es ==> AfterAll(es).delivered == []
  {
    if es != [] {
      NothingLost(es[..|es| - 1]);
      assert es == es[..|es| - 1] + [es[|es| - 1]];
    }
  }

  /** The fields and methods of a SHIP connection that concern SPINE. */
  class SpineReceiver {
    var dataReaderSet: bool
    var spineBuffer: seq<string>
    // What the SPINE read handler was given.
    var handled: seq<string>

    ghost function View(): Inbox
      reads this
    {
      Inbox(dataReaderSet, spineBuffer, handled)
    }

    constructor ()
      ensures View() == EMPTY
    {
      dataReaderSet, spineBuffer, handled := false, [], [];
    }

    /** HandleIncomingWebsocketMessage for a message with a payload. */
    method HandleSpineMessage(payload: string)
      modifies this
      ensures View() == After(old(View()), Arrives(payload))
    {
      if !dataReaderSet {
        spineBuffer := spineBuffer + [payload];
        return;
      }
      handled := handled + [payload];
    }

    method ProcessBufferedSpineMessages()
      modifies this
      ensures View() == old(View()).(buffer := [], delivered := old(handled) + old(spineBuffer))
    {
      var i := 0;
      while i < |spineBuffer|
        invariant 0 <= i <= |spineBuffer| && spineBuffer == old(spineBuffer) && dataReaderSet == old(dataReaderSet)
        invariant handled == old(handled) + spineBuffer[..i]
      {
        handled := handled + [spineBuffer[i]];
        i := i + 1;
      }
      spineBuffer := [];
    }

    /** The part of approveHandshake that concerns SPINE. */
    method ApproveHandshake()
      modifies this
      ensures View() == After(old(View()), Approved)
    {
      dataReaderSet := true;
      ProcessBufferedSpineMessages();
    }
  }
}
