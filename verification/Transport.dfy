/**
 The transport as the stack sees it: received frames to drain, and an oracle
 that accepts or refuses each offered frame. Every offer, and every step of
 the node an observer could name, is recorded in a history.
 */
module Transport {
  import opened Types
  import opened ObjectDictionary
  import opened PdoWire
  import opened Nmt

  /** Which service offers a frame. `SyncTpdo` carries the synchronous window length in force. */
  datatype Service =
    | BootUp
    | SdoResponse(channel: nat)
    | LssResponse
    | SyncPulse
    | SyncTpdo(windowUs: nat)
    | HeartbeatTx
    | Emergency
    | EventTpdo(slot: nat)

  /** Why an undelivered SDO response was given up. */
  datatype GapReason = Expired(at: U64) | TimeoutAbort | ClientAbort | StopOrReset

  /** A TPDO due on a pulse: its COB-ID and mapping. */
  datatype Source = Source(cobId: nat, mappings: seq<Mapping>)

  /**
   What an observer can name: an offered frame with the transport's verdict, the
   NMT state entered, every change to the dictionary, each step of a synchronous
   RPDO, a pulse with the image and the TPDOs it samples, a restart of the SYNC
   cycle, and what happens on the SDO channels.
   */
  datatype Obs =
    | Offer(service: Service, frame: CanFrame, verdict: Verdict, at: U64)
    | Entered(state: NmtState)
    | Edited(od: Od)
    | Downloaded(addr: Addr, data: seq<bv8>)
    | RpdoApplied(received: DataFrame, mappings: seq<Mapping>)
    | RpdoBuffered(slot: nat, received: DataFrame)
    | RpdoCommitted(slot: nat, received: DataFrame, mappings: seq<Mapping>)
    | Pulse(at: U64, image: Od, due: seq<Source>)
    | CycleRestarted(cobId: nat, intervalUs: nat, overflow: nat)
    | SdoAsked(channel: nat)
    | SdoDrawn(channel: nat)
    | SdoQueued(channel: nat, frame: CanFrame, at: U64)
    | SdoGap(channel: nat, reason: GapReason)

  datatype Link = Link(oracle: nat -> Verdict, tried: nat, hist: seq<Obs>)

  /** The verdict on the next offered frame. */
  function NextVerdict(l: Link): Verdict {
    l.oracle(l.tried)
  }

  /** The verdict on the `k`-th frame offered from here on. */
  function VerdictAt(l: Link, k: nat): Verdict {
    l.oracle(l.tried + k)
  }

  /** The link after offering a frame. */
  function Offered(l: Link, s: Service, f: CanFrame, now: U64): Link {
    l.(tried := l.tried + 1, hist := l.hist + [Offer(s, f, NextVerdict(l), now)])
  }

  function Noted(l: Link, o: Obs): Link {
    l.(hist := l.hist + [o])
  }

  class CanTransport {
    var rx: seq<DataFrame>
    const oracle: nat -> Verdict
    var tried: nat
    ghost var hist: seq<Obs>

    ghost function View(): Link
      reads this
    {
      Link(oracle, tried, hist)
    }

    constructor (oracle: nat -> Verdict)
      ensures View() == Link(oracle, 0, []) && rx == []
    {
      this.oracle := oracle;
      rx, tried, hist := [], 0, [];
    }

    method Transmit(ghost service: Service, frame: CanFrame, now: U64) returns (v: Verdict)
      modifies this`tried, this`hist
      ensures v == NextVerdict(old(View())) && View() == Offered(old(View()), service, frame, now)
    {
      v := oracle(tried);
      hist := hist + [Offer(service, frame, v, now)];
      tried := tried + 1;
    }

    method Receive() returns (f: Option<DataFrame>)
      modifies this`rx
      ensures f.None? <==> old(rx) == []
      ensures f.Some? ==> [f.value] + rx == old(rx)
      ensures f.None? ==> rx == old(rx)
    {
      if rx == [] {
        return None;
      }
      f := Some(rx[0]);
      rx := rx[1..];
    }

    ghost method Note(o: Obs)
      modifies this`hist
      ensures View() == Noted(old(View()), o)
    {
      hist := hist + [o];
    }
  }
}
