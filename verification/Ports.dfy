/**
 internal/bridge/ports.go: the port view, debounced over consecutive scans.
 */
module Ports {
  import opened Sets
  import opened Sorting

  const PortGoneMissingScans: nat := 2

  // `misses` counts the scans since a port that is still listed was last seen.
  datatype View = View(observed: set<int>, misses: map<int, nat>)

  function Positive(portList: seq<int>): set<int> { set p | p in portList && p > 0 }

  function Missed(v: View, port: int): nat { (if port in v.misses then v.misses[port] else 0) + 1 }

  // The ports that a scan finds missing too often.
  function Expired(v: View, current: set<int>, limit: nat): set<int> {
    set p | p in v.observed && p !in current && Missed(v, p) >= limit
  }

  function Scanned(v: View, current: set<int>, limit: nat): View {
    View(v.observed + current - Expired(v, current, limit),
         map p | p in v.observed && p !in current && p !in Expired(v, current, limit) :: Missed(v, p))
  }

  // The loop over the listed ports with `todo` still to visit.
  ghost predicate Halfway(before: View, current: set<int>, todo: set<int>, v: View) {
    var expired := Expired(before, current, PortGoneMissingScans);
    && v.observed == before.observed + current - (expired - todo)
    && (forall p: int :: p in v.misses <==>
          p !in current && if p in todo then p in before.misses else p in before.observed && p !in expired)
    && (forall p: int :: p in v.misses ==> v.misses[p] == if p in todo then before.misses[p] else Missed(before, p))
  }

  // What visiting one port does.
  function Visited(v: View, current: set<int>, port: int): View {
    if port in current then v
    else if Missed(v, port) >= PortGoneMissingScans then View(v.observed - {port}, v.misses[port := Missed(v, port)] - {port})
    else v.(misses := v.misses[port := Missed(v, port)])
  }

  lemma VisitOne(before: View, current: set<int>, todo: set<int>, v: View, port: int)
    requires Halfway(before, current, todo, v) && port in todo && todo <= before.observed + current
    ensures Halfway(before, current, todo - {port}, Visited(v, current, port))
    ensures port !in current ==> Missed(v, port) == Missed(before, port)
    ensures port !in current ==>
              (port in Expired(before, current, PortGoneMissingScans) <==> Missed(v, port) >= PortGoneMissingScans)
  {
  }

  lemma HalfwayDone(before: View, current: set<int>, v: View)
    requires Halfway(before, current, {}, v)
    ensures v == Scanned(before, current, PortGoneMissingScans)
  {
    var full := Scanned(before, current, PortGoneMissingScans).misses;
    assert forall p: int :: p in v.misses <==> p in full;
    assert v.misses.Keys == full.Keys;
    assert v.misses == full;
  }

  lemma LeavingOne(expired: set<int>, todo: set<int>, port: int)
    requires port in todo
    ensures expired - (todo - {port}) == if port in expired then expired - todo + {port} else expired - todo
  {
  }

  lemma WithoutOneMore(m: map<int, nat>, gone: set<int>, x: int)
    ensures m - gone - {x} == m - (gone + {x})
  {
  }

  class Server {
    var observedPorts: set<int>
    var portMisses: map<int, nat>

    ghost predicate Valid()
      reads this
    {
      portMisses.Keys <= observedPorts
    }

    ghost function CurrentView(): View
      reads this
    {
      View(observedPorts, portMisses)
    }

    constructor ()
      ensures Valid() && CurrentView() == View({}, map[])
    {
      observedPorts, portMisses := {}, map[];
    }

    /** One scan: the new view, the ports that appeared and the ports that went, in order. */
    method ApplyPortScan(portList: seq<int>) returns (observed: seq<int>, gone: seq<int>)
      requires Valid()
      modifies this
      ensures Valid() && CurrentView() == Scanned(old(CurrentView()), Positive(portList), PortGoneMissingScans)
      ensures Lists(observed, observedPorts - old(observedPorts), LeInt)
      ensures Lists(gone, old(observedPorts) - observedPorts, LeInt)
    {
      ghost var before := CurrentView();
      var current := {};
      for i := 0 to |portList|
        invariant current == Positive(portList[..i])
      {
        if portList[i] > 0 {
          current := current + {portList[i]};
        }
        assert portList[..i + 1] == portList[..i] + [portList[i]];
      }
      assert portList[..|portList|] == portList;
      observed := AddCurrent(current);
      gone := DropMissing(current, before);
      SortLists(observed, current - before.observed, LeInt);
      SortLists(gone, Expired(before, current, PortGoneMissingScans), LeInt);
      observed := Sort(observed, LeInt);
      gone := Sort(gone, LeInt);
      assert observedPorts - before.observed == current - before.observed;
      assert before.observed - observedPorts == Expired(before, current, PortGoneMissingScans);
    }

    // The loop over the ports of the scan.
    method AddCurrent(current: set<int>) returns (observed: seq<int>)
      modifies this
      ensures observedPorts == old(observedPorts) + current && portMisses == old(portMisses) - current
      ensures Collects(observed, current - old(observedPorts))
    {
      observed := [];
      var todo := current;
      ghost var added: set<int> := {};
      while todo != {}
        invariant todo <= current
        invariant observedPorts == old(observedPorts) + (current - todo)
        invariant portMisses == old(portMisses) - (current - todo)
        invariant Collects(observed, added) && added == current - old(observedPorts) - todo
        decreases |todo|
      {
        var port := AnyOf(todo);
        LeavingOne(current, todo, port);
        LeavingOne(current - old(observedPorts), todo, port);
        WithoutOneMore(old(portMisses), current - todo, port);
        if port !in observedPorts {
          Collect(observed, port, added);
          added := added + {port};
          observed := observed + [port];
        }
        observedPorts := observedPorts + {port};
        portMisses := portMisses - {port};
        todo := todo - {port};
      }
      assert added == current - old(observedPorts);
    }

    // The loop body for a port that the scan does not have.
    method CountMiss(port: int, ghost current: set<int>) returns (drop: bool)
      requires port !in current
      modifies this
      ensures CurrentView() == Visited(old(CurrentView()), current, port)
      ensures drop <==> Missed(old(CurrentView()), port) >= PortGoneMissingScans
    {
      portMisses := portMisses[port := (if port in portMisses then portMisses[port] else 0) + 1];
      drop := portMisses[port] >= PortGoneMissingScans;
      if drop {
        observedPorts := observedPorts - {port};
        portMisses := portMisses - {port};
      }
    }

    // The loop over the listed ports, which deletes as it goes.
    method DropMissing(current: set<int>, ghost before: View) returns (gone: seq<int>)
      requires before.misses.Keys <= before.observed
      requires observedPorts == before.observed + current && portMisses == before.misses - current
      modifies this
      ensures CurrentView() == Scanned(before, current, PortGoneMissingScans)
      ensures Collects(gone, Expired(before, current, PortGoneMissingScans))
    {
      gone := [];
      var todo := observedPorts;
      ghost var dropped: set<int>, expired := {}, Expired(before, current, PortGoneMissingScans);
      while todo != {}
        invariant todo <= before.observed + current
        invariant Halfway(before, current, todo, CurrentView())
        invariant Collects(gone, dropped) && dropped == expired - todo
        decreases |todo|
      {
        var port := AnyOf(todo);
        ghost var view := CurrentView();
        VisitOne(before, current, todo, view, port);
        if port !in current {
          var drop := CountMiss(port, current);
          if drop {
            Collect(gone, port, dropped);
            dropped := dropped + {port};
            gone := gone + [port];
          }
        }
        LeavingOne(expired, todo, port);
        todo := todo - {port};
      }
      HalfwayDone(before, current, CurrentView());
      assert dropped == expired;
    }

    method CurrentPorts() returns (ports: seq<int>)
      ensures Lists(ports, observedPorts, LeInt)
    {
      ports := [];
      var todo := observedPorts;
      ghost var listed: set<int> := {};
      while todo != {}
        invariant todo <= observedPorts
        invariant Collects(ports, listed) && listed == observedPorts - todo
        decreases |todo|
      {
        var port := AnyOf(todo);
        Collect(ports, port, listed);
        listed := listed + {port};
        ports := ports + [port];
        todo := todo - {port};
      }
      SortLists(ports, listed, LeInt);
      ports := Sort(ports, LeInt);
    }
  }

  // ----- any sequence of scans, for any number of tolerated misses

  function Run(scans: seq<set<int>>, limit: nat): View {
    if scans == [] then View({}, map[]) else Scanned(Run(scans[..|scans| - 1], limit), scans[|scans| - 1], limit)
  }

  // The ports of the last `n` scans.
  function Recent(scans: seq<set<int>>, n: nat): set<int> {
    if scans == [] || n == 0 then {} else scans[|scans| - 1] + Recent(scans[..|scans| - 1], n - 1)
  }

  // How many scans ago a port was last seen.
  function Since(scans: seq<set<int>>, port: int): nat {
    if scans == [] || port in scans[|scans| - 1] then 0 else 1 + Since(scans[..|scans| - 1], port)
  }

  lemma {:induction false} RecentSince(scans: seq<set<int>>, n: nat, port: int)
    ensures port in Recent(scans, n) <==> Since(scans, port) < n && Since(scans, port) < |scans|
  {
    if scans != [] && n > 0 && port !in scans[|scans| - 1] {
      RecentSince(scans[..|scans| - 1], n - 1, port);
    }
  }

  lemma {:induction false} Counted(scans: seq<set<int>>, limit: nat)
    requires limit > 0
    ensures var v := Run(scans, limit); v.observed == Recent(scans, limit) && v.misses.Keys <= v.observed
    ensures var v := Run(scans, limit); forall p :: p in v.observed ==> Missed(v, p) == Since(scans, p) + 1
  {
    if scans != [] {
      var prior, last := scans[..|scans| - 1], scans[|scans| - 1];
      var v := Run(prior, limit);
      Counted(prior, limit);
      forall p ensures p in Run(scans, limit).observed <==> p in Recent(scans, limit) {
        RecentSince(scans, limit, p);
        RecentSince(prior, limit, p);
      }
    }
  }

  /** After any scans, the listed ports are those of the last `limit` scans. */
  lemma ViewIsRecentUnion(scans: seq<set<int>>, limit: nat)
    requires limit > 0
    ensures Run(scans, limit).observed == Recent(scans, limit)
    ensures |scans| >= 2 ==> Run(scans, PortGoneMissingScans).observed == scans[|scans| - 1] + scans[|scans| - 2]
  {
    Counted(scans, limit);
    Counted(scans, PortGoneMissingScans);
    if |scans| >= 2 {
      var prior := scans[..|scans| - 1];
      assert Recent(prior, 1) == scans[|scans| - 2] + Recent(prior[..|prior| - 1], 0);
    }
  }

  /** What a scan reports: a port is new when the two scans before it did not have it,
      and gone when the last two scans no longer have a port that the one before had. */
  lemma EventsExactly(scans: seq<set<int>>, port: int)
    requires scans != []
    ensures var n := |scans|;
            var before, after := Run(scans[..n - 1], PortGoneMissingScans).observed, Run(scans, PortGoneMissingScans).observed;
            && (port in after - before <==>
                  port in scans[n - 1] && (n >= 2 ==> port !in scans[n - 2]) && (n >= 3 ==> port !in scans[n - 3]))
            && (port in before - after <==> n >= 3 && port in scans[n - 3] && port !in scans[n - 2] && port !in scans[n - 1])
  {
    var prior := scans[..|scans| - 1];
    ViewIsRecentUnion(scans, PortGoneMissingScans);
    ViewIsRecentUnion(prior, PortGoneMissingScans);
    if |scans| == 2 {
      assert Recent(prior, 2) == scans[0] + Recent(prior[..0], 1);
    } else if |scans| == 1 {
      assert Recent(scans, 2) == scans[0] + Recent(prior, 1);
    }
  }

  // ----- the event stream of a whole run

  datatype Event = Event(port: int, up: bool)

  function Announced(ports: seq<int>, up: bool): seq<Event> {
    if ports == [] then [] else Announced(ports[..|ports| - 1], up) + [Event(ports[|ports| - 1], up)]
  }

  // What the scans of a run return, and what is broadcast from it.
  datatype Outcome = Outcome(observed: seq<int>, gone: seq<int>)

  ghost predicate Outcomes(scans: seq<set<int>>, outs: seq<Outcome>, limit: nat) {
    |outs| == |scans| && (scans == [] ||
      var n := |scans| - 1;
      var before, after := Run(scans[..n], limit).observed, Run(scans, limit).observed;
      && Outcomes(scans[..n], outs[..n], limit)
      && Lists(outs[n].observed, after - before, LeInt) && Lists(outs[n].gone, before - after, LeInt))
  }

  function Stream(outs: seq<Outcome>): seq<Event> {
    if outs == [] then [] else
    var out := outs[|outs| - 1];
    Stream(outs[..|outs| - 1]) + Announced(out.observed, true) + Announced(out.gone, false)
  }

  // The ports a listener that starts from nothing ends up with.
  function Replay(events: seq<Event>): set<int> {
    if events == [] then {} else
    var e, known := events[|events| - 1], Replay(events[..|events| - 1]);
    if e.up then known + {e.port} else known - {e.port}
  }

  // No event repeats what the listener already knows.
  predicate Effective(events: seq<Event>) {
    events == [] ||
    var e, prior := events[|events| - 1], events[..|events| - 1];
    Effective(prior) && (e.up <==> e.port !in Replay(prior))
  }

  lemma AnnounceOne(events: seq<Event>, e: Event)
    requires Effective(events) && (e.up <==> e.port !in Replay(events))
    ensures Effective(events + [e])
    ensures Replay(events + [e]) == if e.up then Replay(events) + {e.port} else Replay(events) - {e.port}
  {
    assert (events + [e])[..|events|] == events;
  }

  lemma {:induction false} AnnounceAll(events: seq<Event>, ports: seq<int>, up: bool)
    requires Effective(events) && Increasing(ports, LeInt)
    requires forall p :: p in Elements(ports) ==> (up <==> p !in Replay(events))
    ensures Effective(events + Announced(ports, up))
    ensures Replay(events + Announced(ports, up)) == if up then Replay(events) + Elements(ports) else Replay(events) - Elements(ports)
  {
    if ports == [] {
      assert events + Announced(ports, up) == events;
    } else {
      var init, last := ports[..|ports| - 1], ports[|ports| - 1];
      LastElement(ports);
      AnnounceAll(events, init, up);
      AnnounceOne(events + Announced(init, up), Event(last, up));
      assert events + Announced(ports, up) == events + Announced(init, up) + [Event(last, up)];
    }
  }

  lemma LastElement(ports: seq<int>)
    requires ports != [] && Increasing(ports, LeInt)
    ensures var init, last := ports[..|ports| - 1], ports[|ports| - 1];
            Increasing(init, LeInt) && last !in Elements(init) && Elements(ports) == Elements(init) + {last}
  {
    assert ports == ports[..|ports| - 1] + [ports[|ports| - 1]];
  }

  /** Replaying everything that was broadcast gives the current view, and every event
      tells a listener something new. */
  lemma {:induction false} ReplayRebuildsView(scans: seq<set<int>>, outs: seq<Outcome>, limit: nat)
    requires Outcomes(scans, outs, limit)
    ensures Effective(Stream(outs)) && Replay(Stream(outs)) == Run(scans, limit).observed
  {
    if scans != [] {
      var n := |scans| - 1;
      var before, after := Run(scans[..n], limit).observed, Run(scans, limit).observed;
      ReplayRebuildsView(scans[..n], outs[..n], limit);
      AnnounceAll(Stream(outs[..n]), outs[n].observed, true);
      AnnounceAll(Stream(outs[..n]) + Announced(outs[n].observed, true), outs[n].gone, false);
      assert before + (after - before) - (before - after) == after;
    }
  }

  function About(events: seq<Event>, port: int): seq<bool> {
    if events == [] then [] else
    About(events[..|events| - 1], port) + (if events[|events| - 1].port == port then [events[|events| - 1].up] else [])
  }

  predicate Alternates(ups: seq<bool>) { forall i :: 0 <= i < |ups| ==> (ups[i] <==> i % 2 == 0) }

  lemma {:induction false} EffectiveAlternates(events: seq<Event>, port: int)
    requires Effective(events)
    ensures Alternates(About(events, port)) && (port in Replay(events) <==> |About(events, port)| % 2 == 1)
  {
    if events != [] {
      EffectiveAlternates(events[..|events| - 1], port);
    }
  }

  /** The events about one port are observed, gone, observed, gone and so on. */
  lemma EventsAlternate(scans: seq<set<int>>, outs: seq<Outcome>, limit: nat, port: int)
    requires Outcomes(scans, outs, limit)
    ensures Alternates(About(Stream(outs), port))
    ensures port in Run(scans, limit).observed <==> |About(Stream(outs), port)| % 2 == 1
  {
    ReplayRebuildsView(scans, outs, limit);
    EffectiveAlternates(Stream(outs), port);
  }
}
