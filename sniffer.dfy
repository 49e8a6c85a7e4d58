/**
 * The DHCP relay of the node agent (pkg/networking/sniffer.go): it listens on
 * one interface, picks out DHCP replies meant for a client (UDP destination
 * port 68, section 4.1 of RFC 2131), reports every DHCPACK (message type 5,
 * section 9.6 of RFC 2132) it sees, and re-sends each such reply on a second
 * interface with its own address as Ethernet source.
 *
 * Frames arrive already decoded, as records. Sockets, the packet source,
 * serialisation and the channels are outside the model: the set-up calls'
 * outcomes, and for each received frame the outcomes of serialising and
 * writing it, are inputs; the stop channel and the closing of the packet
 * stream are events in the same input sequence; what the relay sends on
 * the `observed` channel and writes to the output handle is one trace.
 */
module DhcpRelay {
  import opened Wrappers
  import opened Errors

  /** layers.DHCPOptMessageType, option 53. */
  const DHCPOptMessageType: bv8 := 53
  /** layers.DHCPMsgTypeUnspecified. */
  const DHCPMsgTypeUnspecified: bv8 := 0
  /** layers.DHCPMsgTypeAck. */
  const DHCPMsgTypeAck: bv8 := 5
  /** The DHCP client port the relay selects on. */
  const DhcpClientPort: int := 68

  datatype DhcpOption = DhcpOption(optType: bv8, data: seq<bv8>)

  /** A received frame as gopacket decodes it: which layers are present, and the fields the relay reads. */
  datatype Frame = Frame(
    hasEth: bool,
    srcMac: seq<bv8>,
    hasUdp: bool,
    dstPort: int,
    hasDhcp: bool,
    options: seq<DhcpOption>,
    yourClientIP: seq<bv8>,
    clientHWAddr: seq<bv8>)

  /** What the relay reports on `observed`. */
  datatype DhcpAck = DhcpAck(ip: seq<bv8>, mac: seq<bv8>)

  datatype Event =
    | Received(frame: Frame, serialize: Option<Error>, write: Option<Error>)  // a frame, and the outcomes of re-sending it
    | StopSignal                                                              // a value on stopChan
    | StreamClosed                                                            // the packet channel was closed

  /**
   * What the loop does that can be seen outside: an acknowledgement sent on
   * the ack channel, or a frame handed to WritePacketData. The write is
   * recorded when it is attempted, so a frame whose write fails is one too;
   * the failure itself is the loop's end.
   */
  datatype Output = Observed(ack: DhcpAck) | WriteAttempted(frame: Frame)

  datatype End =
    | Returned(err: Option<Error>)  // RunDHCPSniffer returned
    | Crashed(reason: string)       // a run-time panic
    | Waiting                       // the input ran out while the loop still waits for the next event

  /** Outcomes of the set-up calls: the listen handle's address, or the failure of each call in turn. */
  datatype Setup = Setup(
    openIn: Result<seq<bv8>, Error>,
    promisc: Option<Error>,
    lookupOut: Option<Error>,
    setUp: Option<Error>,
    openOut: Option<Error>)

  /** Index of the first message-type option, or |options|. */
  function FirstMessageType(options: seq<DhcpOption>): (i: nat)
    ensures i <= |options|
    ensures i < |options| ==> options[i].optType == DHCPOptMessageType
    ensures forall j :: 0 <= j < i ==> options[j].optType != DHCPOptMessageType
  {
    if |options| == 0 then 0
    else if options[0].optType == DHCPOptMessageType then 0
    else 1 + FirstMessageType(options[1..])
  }

  /**
   * getOptionType: the first byte of the first message-type option, or
   * Unspecified when there is none. None stands for the index-out-of-range
   * panic when that option carries no data.
   */
  function GetOptionType(options: seq<DhcpOption>): (r: Option<bv8>)
    ensures var i := FirstMessageType(options);
      if i == |options| then r == Some(DHCPMsgTypeUnspecified)
      else if |options[i].data| == 0 then r == None
      else r == Some(options[i].data[0])
  {
    if |options| == 0 then Some(DHCPMsgTypeUnspecified)
    else if options[0].optType == DHCPOptMessageType then
      (if |options[0].data| == 0 then None else Some(options[0].data[0]))
    else GetOptionType(options[1..])
  }

  /** The frame is a DHCP reply to a client that the relay did not send itself. */
  predicate Survives(addr: seq<bv8>, f: Frame)
  {
    f.hasEth && f.srcMac != addr && f.hasUdp && f.dstPort == DhcpClientPort && f.hasDhcp
  }

  /** The frame the relay re-sends: the same frame with its own address as source. */
  function Rewrite(addr: seq<bv8>, f: Frame): (g: Frame)
    ensures g.srcMac == addr
    ensures g == f.(srcMac := addr)
  {
    f.(srcMac := addr)
  }

  /** The acknowledgement a DHCPACK frame yields. */
  function AckOf(f: Frame): DhcpAck
  {
    DhcpAck(f.yourClientIP, f.clientHWAddr)
  }

  predicate IsAck(f: Frame)
  {
    GetOptionType(f.options) == Some(DHCPMsgTypeAck)
  }

  /** The wrapped write failure, which names the output interface. */
  function WriteError(oface: string, e: Error): Error
  {
    Wrapped("Error writing to interface " + oface, e)
  }

  /**
   * One turn of the loop on one event: what it outputs and, when the loop
   * ends there, how. The ack, if any, is pushed before the frame is
   * serialised and written; a serialisation failure only skips the frame.
   */
  function Step(addr: seq<bv8>, oface: string, ev: Event): (seq<Output>, Option<End>)
  {
    match ev
    case StopSignal => ([], Some(Returned(None)))
    case StreamClosed => ([], Some(Returned(None)))
    case Received(f, serialize, write) =>
      if !Survives(addr, f) then ([], None)
      else match GetOptionType(f.options)
        case None => ([], Some(Crashed("index out of range")))
        case Some(t) =>
          var acks := if t == DHCPMsgTypeAck then [Observed(AckOf(f))] else [];
          if serialize.Some? then (acks, None)
          else if write.Some? then (acks + [WriteAttempted(Rewrite(addr, f))], Some(Returned(Some(WriteError(oface, write.value)))))
          else (acks + [WriteAttempted(Rewrite(addr, f))], None)
  }

  /** The loop over the events, from a listen handle with address `addr`. */
  function Relay(addr: seq<bv8>, oface: string, events: seq<Event>): (seq<Output>, End)
  {
    if |events| == 0 then ([], Waiting)
    else
      var (out, stop) := Step(addr, oface, events[0]);
      if stop.Some? then (out, stop.value)
      else
        var (rest, end) := Relay(addr, oface, events[1..]);
        (out + rest, end)
  }

  /** The first set-up failure, wrapped with the message that names the device. */
  function SetupError(iface: string, oface: string, setup: Setup): (r: Option<Error>)
    ensures r.None? <==>
      setup.openIn.Success? && setup.promisc.None? && setup.lookupOut.None? && setup.setUp.None? && setup.openOut.None?
  {
    if setup.openIn.Failure? then Some(Wrapped("Error opening connection to " + iface, setup.openIn.error))
    else if setup.promisc.Some? then Some(Wrapped("Error setting device " + iface + " to promiscuous mode", setup.promisc.value))
    else if setup.lookupOut.Some? then Some(Wrapped("Error getting device " + oface, setup.lookupOut.value))
    else if setup.setUp.Some? then Some(Wrapped("Error sett device " + oface + " to state up", setup.setUp.value))
    else if setup.openOut.Some? then Some(Wrapped("Error opening connection to " + oface, setup.openOut.value))
    else None
  }

  /** RunDHCPSniffer as a function of the set-up outcomes and the events. */
  function Sniff(iface: string, oface: string, setup: Setup, events: seq<Event>): (seq<Output>, End)
  {
    match SetupError(iface, oface, setup)
    case Some(e) => ([], Returned(Some(e)))
    case None => Relay(setup.openIn.value, oface, events)
  }

  /** RunDHCPSniffer: the set-up sequence, then the receive loop. */
  method RunDHCPSniffer(iface: string, oface: string, setup: Setup, events: seq<Event>)
    returns (trace: seq<Output>, end: End)
    ensures (trace, end) == Sniff(iface, oface, setup, events)
  {
    if setup.openIn.Failure? {
      return [], Returned(Some(Wrapped("Error opening connection to " + iface, setup.openIn.error)));
    }
    var addr := setup.openIn.value;
    if setup.promisc.Some? {
      return [], Returned(Some(Wrapped("Error setting device " + iface + " to promiscuous mode", setup.promisc.value)));
    }
    if setup.lookupOut.Some? {
      return [], Returned(Some(Wrapped("Error getting device " + oface, setup.lookupOut.value)));
    }
    if setup.setUp.Some? {
      return [], Returned(Some(Wrapped("Error sett device " + oface + " to state up", setup.setUp.value)));
    }
    if setup.openOut.Some? {
      return [], Returned(Some(Wrapped("Error opening connection to " + oface, setup.openOut.value)));
    }

    trace, end := RelayFrames(addr, oface, events);
  }

  /** The receive loop of RunDHCPSniffer on a listen handle with address `addr`. */
  method RelayFrames(addr: seq<bv8>, oface: string, events: seq<Event>) returns (trace: seq<Output>, end: End)
    ensures (trace, end) == Relay(addr, oface, events)
  {
    trace := [];
    var i := 0;
    assert events[0..] == events;
    assert [] + Relay(addr, oface, events).0 == Relay(addr, oface, events).0;
    while i < |events|
      invariant 0 <= i <= |events|
      invariant Relay(addr, oface, events) ==
        (trace + Relay(addr, oface, events[i..]).0, Relay(addr, oface, events[i..]).1)
    {
      RelayUnfold(addr, oface, events, i);
      ghost var rest := Relay(addr, oface, events[i + 1..]).0;
      match events[i]
      case StopSignal =>
        assert trace + [] == trace;
        return trace, Returned(None);
      case StreamClosed =>
        assert trace + [] == trace;
        return trace, Returned(None);
      case Received(f, serialize, write) =>
        var out, stop := HandleFrame(addr, oface, f, serialize, write);
        AppendAssoc(trace, out, rest, []);
        trace := trace + out;
        if stop.Some? {
          return trace, stop.value;
        }
        i := i + 1;
    }
    assert events[i..] == [];
    assert trace + [] == trace;
    return trace, Waiting;
  }

  /** The body of the receive loop for one received frame: what it outputs, and whether the loop ends. */
  method HandleFrame(addr: seq<bv8>, oface: string, f: Frame, serialize: Option<Error>, write: Option<Error>)
    returns (out: seq<Output>, stop: Option<End>)
    ensures (out, stop) == Step(addr, oface, Received(f, serialize, write))
  {
    out := [];
    // Filter out packets the relay sent, and anything but a DHCP reply to a client.
    if !f.hasEth || f.srcMac == addr || !f.hasUdp || f.dstPort != DhcpClientPort || !f.hasDhcp {
      return [], None;
    }
    var msgType := GetOptionType(f.options);
    if msgType.None? {
      return [], Some(Crashed("index out of range"));
    }
    if msgType.value == DHCPMsgTypeAck {
      out := [Observed(DhcpAck(f.yourClientIP, f.clientHWAddr))];
    }
    var resent := f.(srcMac := addr);
    if serialize.Some? {
      return out, None;
    }
    out := out + [WriteAttempted(resent)];
    if write.Some? {
      return out, Some(Returned(Some(Wrapped("Error writing to interface " + oface, write.value))));
    }
    return out, None;
  }

  lemma AppendAssoc<T>(a: seq<T>, b: seq<T>, c: seq<T>, d: seq<T>)
    ensures a + (b + c + d) == a + b + c + d
    ensures a + (b + c) == a + b + c
  {
  }

  /** The loop from event i on: one step, then, unless it ends the loop, the loop from i + 1. */
  lemma RelayUnfold(addr: seq<bv8>, oface: string, events: seq<Event>, i: nat)
    requires i < |events|
    ensures var (out, stop) := Step(addr, oface, events[i]);
      var (rest, end) := Relay(addr, oface, events[i + 1..]);
      Relay(addr, oface, events[i..]) == if stop.Some? then (out, stop.value) else (out + rest, end)
  {
    assert events[i..][0] == events[i] && events[i..][1..] == events[i + 1..];
  }

  /** Any set-up failure ends the run with an error before a single frame is read. */
  lemma SetupFailureReadsNothing(iface: string, oface: string, setup: Setup, events: seq<Event>)
    requires setup.openIn.Failure? || setup.promisc.Some? || setup.lookupOut.Some? || setup.setUp.Some? || setup.openOut.Some?
    ensures Sniff(iface, oface, setup, events).0 == []
    ensures Sniff(iface, oface, setup, events).1.Returned? && Sniff(iface, oface, setup, events).1.err.Some?
  {
  }

  /** A stop signal or a closed stream ends the loop with nil and nothing more is output. */
  lemma StopReturnsNil(addr: seq<bv8>, oface: string, ev: Event, events: seq<Event>)
    requires ev.StopSignal? || ev.StreamClosed?
    ensures Relay(addr, oface, [ev] + events) == ([], Returned(None))
  {
  }

  /** A dropped frame outputs nothing and the loop goes on with the next event. */
  lemma DroppedFrame(addr: seq<bv8>, oface: string, f: Frame, serialize: Option<Error>, write: Option<Error>, events: seq<Event>)
    requires !f.hasEth || f.srcMac == addr || !f.hasUdp || f.dstPort != DhcpClientPort || !f.hasDhcp
    ensures Relay(addr, oface, [Received(f, serialize, write)] + events) == Relay(addr, oface, events)
  {
    assert ([Received(f, serialize, write)] + events)[1..] == events;
    assert Step(addr, oface, Received(f, serialize, write)) == ([], None);
    var (rest, end) := Relay(addr, oface, events);
    assert [] + rest == rest;
  }

  /**
   * A surviving frame: an ACK is reported exactly once and before the
   * write; every surviving frame, ACK or not, is written with the relay's
   * own address unless serialising it fails, which only skips it; a write
   * failure ends the loop with an error naming the output interface.
   */
  lemma SurvivingFrame(addr: seq<bv8>, oface: string, f: Frame, serialize: Option<Error>, write: Option<Error>)
    requires Survives(addr, f) && GetOptionType(f.options).Some?
    ensures var (out, stop) := Step(addr, oface, Received(f, serialize, write));
      var acks := if IsAck(f) then [Observed(AckOf(f))] else [];
      (serialize.Some? ==> out == acks && stop.None?) &&
      (serialize.None? && write.None? ==> out == acks + [WriteAttempted(Rewrite(addr, f))] && stop.None?) &&
      (serialize.None? && write.Some? ==>
        out == acks + [WriteAttempted(Rewrite(addr, f))] && stop == Some(Returned(Some(WriteError(oface, write.value)))))
  {
  }

  /** Every frame the relay writes carries the listen handle's address as source. */
  lemma {:induction false} WritesCarryOwnAddress(addr: seq<bv8>, oface: string, events: seq<Event>)
    ensures forall k :: 0 <= k < |Relay(addr, oface, events).0| && Relay(addr, oface, events).0[k].WriteAttempted? ==>
      Relay(addr, oface, events).0[k].frame.srcMac == addr
  {
    if |events| > 0 {
      var (out, stop) := Step(addr, oface, events[0]);
      assert forall k :: 0 <= k < |out| && out[k].WriteAttempted? ==> out[k].frame.srcMac == addr;
      if stop.None? {
        WritesCarryOwnAddress(addr, oface, events[1..]);
      }
    }
  }

  /** The only error the loop itself returns is a write failure naming the output interface. */
  lemma {:induction false} LoopErrorIsWriteError(addr: seq<bv8>, oface: string, events: seq<Event>)
    ensures var end := Relay(addr, oface, events).1;
      end.Returned? && end.err.Some? ==> exists e :: end.err.value == WriteError(oface, e)
  {
    if |events| > 0 {
      var (out, stop) := Step(addr, oface, events[0]);
      if stop.None? {
        LoopErrorIsWriteError(addr, oface, events[1..]);
      } else if events[0].Received? && stop.value.Returned? && stop.value.err.Some? {
        assert stop.value.err.value == WriteError(oface, events[0].write.value);
      }
    }
  }

  /** The frames the relay hands to the write, in output order. */
  function Writes(trace: seq<Output>): seq<Frame>
  {
    if |trace| == 0 then []
    else (if trace[0].WriteAttempted? then [trace[0].frame] else []) + Writes(trace[1..])
  }

  /** The acknowledgements the relay reports, in output order. */
  function Acks(trace: seq<Output>): seq<DhcpAck>
  {
    if |trace| == 0 then []
    else (if trace[0].Observed? then [trace[0].ack] else []) + Acks(trace[1..])
  }

  lemma {:induction false} WritesConcat(a: seq<Output>, b: seq<Output>)
    ensures Writes(a + b) == Writes(a) + Writes(b)
  {
    if |a| > 0 {
      assert (a + b)[1..] == a[1..] + b;
      WritesConcat(a[1..], b);
    } else {
      assert a + b == b;
    }
  }

  lemma {:induction false} AcksConcat(a: seq<Output>, b: seq<Output>)
    ensures Acks(a + b) == Acks(a) + Acks(b)
  {
    if |a| > 0 {
      assert (a + b)[1..] == a[1..] + b;
      AcksConcat(a[1..], b);
    } else {
      assert a + b == b;
    }
  }

  /**
   * The event ends the loop: a stop signal, a closed stream, or a surviving
   * frame that either panics on its message type or fails to be written.
   */
  predicate Ends(addr: seq<bv8>, ev: Event)
  {
    ev.StopSignal? || ev.StreamClosed? ||
    (ev.Received? && Survives(addr, ev.frame) &&
     (GetOptionType(ev.frame.options).None? || (ev.serialize.None? && ev.write.Some?)))
  }

  /** The index of the first event that ends the loop, or |events|. */
  function FirstEnd(addr: seq<bv8>, events: seq<Event>): (k: nat)
    ensures k <= |events|
    ensures k < |events| ==> Ends(addr, events[k])
    ensures forall j :: 0 <= j < k ==> !Ends(addr, events[j])
  {
    if |events| == 0 then 0
    else if Ends(addr, events[0]) then 0
    else 1 + FirstEnd(addr, events[1..])
  }

  /**
   * The events whose frames the loop handles in full: those before the one
   * that ends it, and that one too when it is a frame whose write failed.
   */
  function Consumed(addr: seq<bv8>, events: seq<Event>): (c: seq<Event>)
    ensures |c| <= |events| && c == events[..|c|]
    ensures forall k :: 0 <= k < |c| ==> c[k].Received?
  {
    var k := FirstEnd(addr, events);
    if k < |events| && events[k].Received? && GetOptionType(events[k].frame.options).Some? then events[..k + 1]
    else events[..k]
  }

  /** A surviving frame whose message type is read and which is serialised: the loop writes it. */
  predicate Serialised(addr: seq<bv8>, ev: Event)
  {
    ev.Received? && Survives(addr, ev.frame) && GetOptionType(ev.frame.options).Some? && ev.serialize.None?
  }

  /** The serialised frames of the events, rewritten, in input order: the reference for what is written. */
  function Relayed(addr: seq<bv8>, events: seq<Event>): seq<Frame>
    requires forall k :: 0 <= k < |events| ==> events[k].Received?
  {
    if |events| == 0 then []
    else (if Serialised(addr, events[0]) then [Rewrite(addr, events[0].frame)] else []) + Relayed(addr, events[1..])
  }

  /** The acknowledgements of the surviving ACK frames, in input order. */
  function AckedFrames(addr: seq<bv8>, events: seq<Event>): seq<DhcpAck>
    requires forall k :: 0 <= k < |events| ==> events[k].Received?
  {
    if |events| == 0 then []
    else
      var f := events[0].frame;
      (if Survives(addr, f) && IsAck(f) then [AckOf(f)] else []) + AckedFrames(addr, events[1..])
  }

  /** An event that does not end the loop is consumed, followed by what the rest of the loop consumes. */
  lemma ConsumedCons(addr: seq<bv8>, events: seq<Event>)
    requires |events| > 0 && !Ends(addr, events[0])
    ensures Consumed(addr, events) == [events[0]] + Consumed(addr, events[1..])
  {
    var k := FirstEnd(addr, events[1..]);
    assert FirstEnd(addr, events) == 1 + k;
    assert events[..k + 1] == [events[0]] + events[1..][..k];
    if k < |events[1..]| {
      assert events[..k + 2] == [events[0]] + events[1..][..k + 1];
    }
  }

  /** The outputs of one event the loop handles in full: its ack, if any, then its write, if any. */
  lemma StepOutputs(addr: seq<bv8>, oface: string, ev: Event)
    requires ev.Received? && (!Ends(addr, ev) || GetOptionType(ev.frame.options).Some?)
    ensures var out := Step(addr, oface, ev).0;
      Writes(out) == Relayed(addr, [ev]) && Acks(out) == AckedFrames(addr, [ev])
  {
    var f := ev.frame;
    assert [ev][1..] == [];
    if Survives(addr, f) {
      var acks := if IsAck(f) then [Observed(AckOf(f))] else [];
      WritesConcat(acks, [WriteAttempted(Rewrite(addr, f))]);
      AcksConcat(acks, [WriteAttempted(Rewrite(addr, f))]);
      assert Writes([WriteAttempted(Rewrite(addr, f))]) == [Rewrite(addr, f)];
      assert Acks([WriteAttempted(Rewrite(addr, f))]) == [];
    }
  }

  /**
   * Whatever the events, the relay attempts to write exactly the serialised
   * frames of the events it consumes, rewritten, and reports exactly the ACKs among
   * them, each in input order: nothing is reordered, and a frame that fails
   * to serialise is only left out.
   */
  lemma {:induction false} RelayPreservesOrder(addr: seq<bv8>, oface: string, events: seq<Event>)
    ensures Writes(Relay(addr, oface, events).0) == Relayed(addr, Consumed(addr, events))
    ensures Acks(Relay(addr, oface, events).0) == AckedFrames(addr, Consumed(addr, events))
  {
    if |events| > 0 {
      var ev := events[0];
      var (out, stop) := Step(addr, oface, ev);
      if Ends(addr, ev) {
        assert FirstEnd(addr, events) == 0;
        if ev.Received? && GetOptionType(ev.frame.options).Some? {
          assert Consumed(addr, events) == [ev];
          StepOutputs(addr, oface, ev);
        } else {
          assert Consumed(addr, events) == [];
        }
      } else {
        ConsumedCons(addr, events);
        RelayPreservesOrder(addr, oface, events[1..]);
        var rest := Relay(addr, oface, events[1..]).0;
        var c := Consumed(addr, events[1..]);
        WritesConcat(out, rest);
        AcksConcat(out, rest);
        StepOutputs(addr, oface, ev);
        assert ([ev] + c)[0] == ev && ([ev] + c)[1..] == c;
        assert [ev][1..] == [];
      }
    }
  }

  /** A run where every event is a frame that is serialised and written without failure and does not crash. */
  predicate Smooth(addr: seq<bv8>, events: seq<Event>)
  {
    forall k :: 0 <= k < |events| ==>
      events[k].Received? && events[k].serialize.None? && events[k].write.None? &&
      (Survives(addr, events[k].frame) ==> GetOptionType(events[k].frame.options).Some?)
  }

  /** A run without failures consumes every event and then waits for more input. */
  lemma {:induction false} SmoothRunWaits(addr: seq<bv8>, oface: string, events: seq<Event>)
    requires Smooth(addr, events)
    ensures Consumed(addr, events) == events
    ensures Relay(addr, oface, events).1 == Waiting
  {
    if |events| > 0 {
      assert !Ends(addr, events[0]);
      assert Smooth(addr, events[1..]) by {
        forall k | 0 <= k < |events[1..]|
          ensures events[1..][k] == events[k + 1]
        {
        }
      }
      SmoothRunWaits(addr, oface, events[1..]);
      ConsumedCons(addr, events);
    }
  }
}
