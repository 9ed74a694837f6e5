/**
 * The tracer's signal timeline: an append-only log of events, each tagged with
 * the pid it concerns, plus the set of pids seen so far, and the two lookups the
 * timeline's plot is built from.
 */
module EventTimeline {
  import opened Wrappers
  import opened Decimal
  import opened Tracer

  /** One timeline entry. `addr` is the tracee's instruction pointer minus one. */
  datatype Event = Event(
    pid: Pid,
    child: Option<Pid>,
    addr: int,
    descr: string,
    memBefore: Option<int>,
    memAfter: Option<int>)

  /** The address recorded for an instruction-pointer read: `pc - 1`, or `i64::MIN` when unreadable. */
  function EventAddr(ip: Option<int>): int {
    if ip.Some? then ip.value - 1 else I64_MIN
  }

  /**
   * `Event::new(pid, descr)`; `ip` is what `current_instruction_pointer(pid)`
   * returned (None when the read failed).
   */
  function NewEvent(pid: Pid, descr: string, ip: Option<int>): (e: Event)
    ensures e.pid == pid && e.descr == descr
    ensures e.child == None && e.memBefore == None && e.memAfter == None
    ensures ip.Some? ==> e.addr == ip.value - 1
    ensures ip.None? ==> e.addr == I64_MIN
  {
    Event(pid, None, EventAddr(ip), descr, None, None)
  }

  /** `Event::new_thread(addr, parent, child)`: the link from a parent to a new thread. */
  function NewThread(addr: int, parent: Pid, child: Pid): (e: Event)
    ensures e.pid == parent && e.child == Some(child) && e.addr == addr
    ensures e.descr == "New Thread " + IntToString(child)
    ensures e.memBefore == None && e.memAfter == None
  {
    Event(parent, Some(child), addr, "New Thread " + IntToString(child), None, None)
  }

  /** The pids mentioned by a sequence of events. */
  ghost function PidsOf(events: seq<Event>): set<Pid> {
    set e | e in events :: e.pid
  }

  lemma PidsOfAppend(events: seq<Event>, e: Event)
    ensures PidsOf(events + [e]) == PidsOf(events) + {e.pid}
  {
    forall p | p in PidsOf(events + [e]) ensures p in PidsOf(events) + {e.pid} {
      var x :| x in events + [e] && x.pid == p;
    }
    forall p | p in PidsOf(events) + {e.pid} ensures p in PidsOf(events + [e]) {
      if p == e.pid {
        assert e in events + [e];
      } else {
        var x :| x in events && x.pid == p;
        assert x in events + [e];
      }
    }
  }

  class Timeline {
    var pids: set<Pid>
    var events: seq<Event>

    /** `pids` is exactly the set of pids of the logged events. */
    ghost predicate Valid()
      reads this
    {
      pids == PidsOf(events)
    }

    /** `Timeline::new`. */
    constructor ()
      ensures Valid()
      ensures pids == {} && events == []
    {
      pids := {};
      events := [];
    }

    /** `Timeline::add_event`: log one more event at the end. */
    method AddEvent(e: Event)
      requires Valid()
      modifies this
      ensures Valid()
      ensures events == old(events) + [e]
      ensures pids == old(pids) + {e.pid}
    {
      PidsOfAppend(events, e);
      pids := pids + {e.pid};
      events := events + [e];
    }
  }

  /**
   * The indices of the events that satisfy `p`, in increasing order (the
   * `enumerate().filter(..)` the plot is built from).
   */
  function IndicesWhere(events: seq<Event>, p: Event -> bool): (r: seq<nat>)
    ensures forall k :: 0 <= k < |r| ==> r[k] < |events| && p(events[r[k]])
    ensures forall i :: 0 <= i < |events| && p(events[i]) ==> i in r
    ensures forall k, l :: 0 <= k < l < |r| ==> r[k] < r[l]
  {
    if events == [] then []
    else
      var last := |events| - 1;
      IndicesWhere(events[..last], p) + (if p(events[last]) then [last] else [])
  }

  /** The samples plotted for one pid: the positions of that pid's events. */
  function PidSamples(events: seq<Event>, pid: Pid): (r: seq<nat>)
    ensures forall k :: 0 <= k < |r| ==> r[k] < |events| && events[r[k]].pid == pid
    ensures forall i :: 0 <= i < |events| && events[i].pid == pid ==> i in r
    ensures forall k, l :: 0 <= k < l < |r| ==> r[k] < r[l]
  {
    IndicesWhere(events, (e: Event) => e.pid == pid)
  }

  /** The events that start a child-thread link: those with a child. */
  function ChildLinks(events: seq<Event>): (r: seq<nat>)
    ensures forall k :: 0 <= k < |r| ==> r[k] < |events| && events[r[k]].child.Some?
    ensures forall i :: 0 <= i < |events| && events[i].child.Some? ==> i in r
    ensures forall k, l :: 0 <= k < l < |r| ==> r[k] < r[l]
  {
    IndicesWhere(events, (e: Event) => e.child.Some?)
  }

  /** The position of the first event of `pid`, if any (`iter().enumerate().find(..)`). */
  function FirstOfPid(events: seq<Event>, pid: Pid): (r: Option<nat>)
    ensures r.Some? ==> r.value < |events| && events[r.value].pid == pid
    ensures r.Some? ==> forall j :: 0 <= j < r.value ==> events[j].pid != pid
    ensures r.None? ==> forall j :: 0 <= j < |events| ==> events[j].pid != pid
  {
    if events == [] then None
    else if events[0].pid == pid then Some(0)
    else match FirstOfPid(events[1..], pid)
      case Some(k) => Some(k + 1)
      case None => None
  }

  /**
   * Where the link drawn from the child-link event at position `i` ends: the
   * first event of the child, or the next position if the child has none.
   */
  function LinkEnd(events: seq<Event>, i: nat, child: Pid): (x: nat)
    ensures x == i + 1 || (x < |events| && events[x].pid == child)
    ensures x < |events| && events[x].pid == child ==> forall j :: 0 <= j < x ==> events[j].pid != child
    ensures (forall j :: 0 <= j < |events| ==> events[j].pid != child) ==> x == i + 1
    ensures (exists j :: 0 <= j < |events| && events[j].pid == child) ==> x < |events| && events[x].pid == child
  {
    match FirstOfPid(events, child)
    case Some(k) => k
    case None => i + 1
  }
}
