/** The duplicate guard (internal/broker/dedupe.go): one Redis marker an event id, best effort and failing open. */
module Dedupes {
  import opened Tasks

  /** SETNX: may the caller proceed, and the markers afterwards. */
  function ClaimMarker(markers: set<EventId>, e: EventId, reply: Reply): (set<EventId>, bool) {
    if e == "" || reply.Err? then (markers, true)
    else if e in markers then (markers, false)
    else (markers + {e}, true)
  }

  function ReleaseMarker(markers: set<EventId>, e: EventId, reply: Reply): set<EventId> {
    if e == "" || reply.Err? then markers else markers - {e}
  }

  class Dedupe {
    var markers: set<EventId>

    constructor ()
      ensures markers == {}
    {
      markers := {};
    }

    method Claim(e: EventId, reply: Reply) returns (granted: bool)
      modifies this
      ensures (markers, granted) == ClaimMarker(old(markers), e, reply)
      ensures granted <==> e == "" || reply.Err? || e !in old(markers)
      ensures markers == if e == "" || reply.Err? then old(markers) else old(markers) + {e}
    {
      if e == "" {
        return true;
      }
      if reply.Err? {
        return true; // fails open
      }
      granted := e !in markers;
      if granted {
        markers := markers + {e};
      }
    }

    method Release(e: EventId, reply: Reply)
      modifies this
      ensures markers == ReleaseMarker(old(markers), e, reply)
      ensures e == "" || reply.Err? ==> markers == old(markers)
      ensures e != "" && reply.Ok? ==> e !in markers && forall o :: o != e && o in old(markers) ==> o in markers
    {
      if e == "" {
        return;
      }
      if reply.Ok? {
        markers := markers - {e};
      }
    }
  }

  // ----- Accounting over whole runs -----

  /** What may happen to the markers; `Expire` is a TTL running out, an eviction or one key of a flush. */
  datatype MarkerOp = Claim(e: EventId, reply: Reply) | Release(e: EventId, reply: Reply) | Expire(e: EventId)

  function AfterOp(markers: set<EventId>, op: MarkerOp): set<EventId> {
    match op
    case Claim(e, reply) => ClaimMarker(markers, e, reply).0
    case Release(e, reply) => ReleaseMarker(markers, e, reply)
    case Expire(e) => markers - {e}
  }

  function AfterAll(markers: set<EventId>, ops: seq<MarkerOp>): set<EventId>
    decreases ops
  {
    if ops == [] then markers else AfterAll(AfterOp(markers, ops[0]), ops[1..])
  }

  predicate Granted(markers: set<EventId>, op: MarkerOp, e: EventId) {
    op.Claim? && op.e == e && ClaimMarker(markers, e, op.reply).1
  }

  /** Claims of `e` that were allowed to proceed. */
  function Grants(markers: set<EventId>, ops: seq<MarkerOp>, e: EventId): nat
    decreases ops
  {
    if ops == [] then 0
    else (if Granted(markers, ops[0], e) then 1 else 0) + Grants(AfterOp(markers, ops[0]), ops[1..], e)
  }

  /** Claims of `e` that found Redis unreachable. */
  function FailedOpen(ops: seq<MarkerOp>, e: EventId): nat {
    if ops == [] then 0
    else (if ops[0].Claim? && ops[0].e == e && ops[0].reply.Err? then 1 else 0) + FailedOpen(ops[1..], e)
  }

  /** Releases and expiries that took a marker of `e` away. */
  function Removals(markers: set<EventId>, ops: seq<MarkerOp>, e: EventId): nat
    decreases ops
  {
    if ops == [] then 0
    else (if e in markers && e !in AfterOp(markers, ops[0]) then 1 else 0)
         + Removals(AfterOp(markers, ops[0]), ops[1..], e)
  }

  function Marked(markers: set<EventId>, e: EventId): nat {
    if e in markers then 1 else 0
  }

  /**
   * The books balance exactly: besides the calls that failed open, an event runs once for its first claim and once
   * more for each time its marker went away.
   */
  lemma {:induction false} GrantsBalance(markers: set<EventId>, ops: seq<MarkerOp>, e: EventId)
    requires e != ""
    ensures Grants(markers, ops, e) + Marked(markers, e)
         == FailedOpen(ops, e) + Removals(markers, ops, e) + Marked(AfterAll(markers, ops), e)
    decreases ops
  {
    if ops != [] {
      GrantsBalance(AfterOp(markers, ops[0]), ops[1..], e);
    }
  }

  /** At most one grant of an event from a fresh store, unless a marker went away or Redis was unreachable. */
  lemma GrantsBounded(ops: seq<MarkerOp>, e: EventId)
    requires e != ""
    ensures Grants({}, ops, e) <= 1 + Removals({}, ops, e) + FailedOpen(ops, e)
  {
    GrantsBalance({}, ops, e);
  }

  /** After any run that never claimed `e`, its first claim is granted, whatever Redis answers. */
  lemma {:induction false} FreshGranted(markers: set<EventId>, ops: seq<MarkerOp>, e: EventId, reply: Reply)
    requires e !in markers
    requires forall op :: op in ops && op.Claim? ==> op.e != e
    ensures ClaimMarker(AfterAll(markers, ops), e, reply).1
    decreases ops
  {
    if ops != [] {
      FreshGranted(AfterOp(markers, ops[0]), ops[1..], e, reply);
    }
  }
}
