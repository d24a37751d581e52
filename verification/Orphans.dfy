/** Exactly which matchmaker runs lose track of a process, with nothing supposed of the requests. */
module Orphans {
  import opened Wrappers
  import opened Protocol
  import opened Rooms
  import opened RoomRuns

  /** Rooms have a child exactly while they are ready. */
  ghost predicate Tidy(rooms: map<string, Room>) {
    forall c :: c in rooms ==> (rooms[c].child.Some? <==> rooms[c].state == Ready)
  }

  lemma ReapIsTidy(config: Config, h: Hall, probe: Pid -> Probe, now: u64)
    requires Tidy(h.rooms)
    ensures Tidy(Reap(config, h, probe, now).rooms)
  {
  }

  lemma StepIsTidy(config: Config, w: World, e: Event)
    requires Tidy(w.hall.rooms)
    ensures Tidy(Step(config, w, e).hall.rooms)
  {
    if e.Created? || e.Joined? || e.Polled? {
      ReapIsTidy(config, w.hall, e.probe, e.now);
      hide Reap, UsedPorts, FirstFree, TicketOf, FreshCode, WaitingCodes, MarkReady, MarkFailed, Leave, Shutdown;
    } else {
      hide Create, ReserveJoin, Reap, Holder;
    }
  }

  /** A started server is put into a room that has one already. */
  predicate Overwrites(w: World, e: Event) {
    && e.Started? && e.id in w.joins && w.joins[e.id].child.Some? && e.state == Running
    && w.joins[e.id].code in w.hall.rooms && w.hall.rooms[w.joins[e.id].code].child.Some?
  }

  /** Alive, and nobody's. */
  ghost predicate Orphan(w: World, p: Pid) {
    p in w.hall.live && !Owned(w, p)
  }

  // ---- a step that overwrites nothing keeps track -------------------------------------------

  lemma CreateConserves(config: Config, w: World, e: Event)
    requires Conserved(w) && e.Created?
    ensures Conserved(Step(config, w, e))
  {
    var w1 := w.(hall := Reap(config, w.hall, e.probe, e.now));
    ReapConserves(config, w, e.probe, e.now);
    FreshCodeIsNew(e.candidates, w1.hall.rooms);
    hide Reap, Conserved, FreshCode, TicketOf, WaitingCodes;
    Untouched(w1, Step(config, w, e));
  }

  lemma JoinConserves(config: Config, w: World, e: Event)
    requires Conserved(w) && e.Joined?
    ensures Conserved(Step(config, w, e))
  {
    if e.id !in w.joins {
      var w1 := w.(hall := Reap(config, w.hall, e.probe, e.now));
      ReapConserves(config, w, e.probe, e.now);
      hide Reap, Conserved, UsedPorts, FirstFree, TicketOf;
      Untouched(w1, Step(config, w, e));
    }
  }

  lemma LeaveConserves(config: Config, w: World, e: Event)
    requires Conserved(w) && Tidy(w.hall.rooms) && e.Left?
    ensures Conserved(Step(config, w, e))
  {
    hide Conserved, MarkFailed, Holder;
    if e.code in w.hall.rooms && Holder(w.hall.rooms[e.code].players, e.ticket).Some? {
      if w.hall.rooms[e.code].state == WaitingForOpponent {
        Untouched(w, Step(config, w, e));
      } else {
        FailConserves(config, w, e.code, LEFT, e.now, None);
        assert w.hall.(live := w.hall.live - {}) == w.hall;
      }
    }
  }

  lemma SpawnedConserves(config: Config, w: World, e: Event)
    requires Conserved(w) && e.Spawned?
    ensures Conserved(Step(config, w, e))
  {
    hide Conserved, MarkFailed;
    if e.id in w.joins && w.joins[e.id].child.None? {
      if e.result.None? {
        FailConserves(config, w, w.joins[e.id].code, NOT_STARTED, e.now, Some(e.id));
        assert w.hall.(live := w.hall.live - {}) == w.hall;
      } else if e.result.value !in w.hall.live {
        SpawnConserves(w, e.id, e.result.value);
      }
    }
  }

  lemma StartedConserves(config: Config, w: World, e: Event)
    requires Conserved(w) && e.Started?
    ensures Conserved(Step(config, w, e)) <==> !Overwrites(w, e)
  {
    hide Conserved, MarkFailed;
    if e.id in w.joins && w.joins[e.id].child.Some? {
      if e.state == Running {
        ReadyConserves(w, e.id);
      } else {
        FailConserves(config, w, w.joins[e.id].code, NOT_STARTED, e.now, Some(e.id));
      }
    }
  }

  lemma StepConserves(config: Config, w: World, e: Event)
    requires Conserved(w) && Tidy(w.hall.rooms)
    ensures Conserved(Step(config, w, e)) <==> !Overwrites(w, e)
  {
    hide Conserved, Tidy, Step;
    match e
    case Created(_, _, _, _, _) => CreateConserves(config, w, e);
    case Joined(_, _, _, _, _, _, _) => JoinConserves(config, w, e);
    case Spawned(_, _, _) => SpawnedConserves(config, w, e);
    case Started(_, _, _) => StartedConserves(config, w, e);
    case Left(_, _, _) => LeaveConserves(config, w, e);
    case Polled(probe, now) => PollConserves(config, w, e);
    case ShutDown => StopConserves(config, w, e);
  }

  lemma PollConserves(config: Config, w: World, e: Event)
    requires Conserved(w) && e.Polled?
    ensures Conserved(Step(config, w, e))
  {
    ReapConserves(config, w, e.probe, e.now);
  }

  lemma StopConserves(config: Config, w: World, e: Event)
    requires Conserved(w) && e.ShutDown?
    ensures Conserved(Step(config, w, e))
  {
    ShutdownConserves(w);
  }

  // ---- an orphan stays one ------------------------------------------------------------------

  /** Only children are ever waited for. */
  lemma OrphanLives(config: Config, w: World, e: Event, p: Pid)
    requires Orphan(w, p)
    ensures p in Step(config, w, e).hall.live
  {
    hide Inspected, Stays, TicketOf, FirstFree, UsedPorts, FreshCode, WaitingCodes, Holder;
    assert forall o :: ChildOf(w, o) != Some(p);
    assert forall c :: c in w.hall.rooms ==> ChildOf(w, RoomOwner(c)) == w.hall.rooms[c].child;
    assert forall id :: id in w.joins ==> ChildOf(w, JoinOwner(id)) == w.joins[id].child;
  }

  lemma ReapOwners(config: Config, w: World, probe: Pid -> Probe, now: u64, o: Owner)
    ensures var w' := w.(hall := Reap(config, w.hall, probe, now));
      ChildOf(w', o) == ChildOf(w, o) || ChildOf(w', o) == None
  {
    hide Inspected, Stays;
    if o.RoomOwner? && o.code in w.hall.rooms {
      InspectedChild(config, w.hall.rooms[o.code], probe, now);
    }
  }

  /** A request that reaps first adds at most a room without a child, or a join without one. */
  lemma NoOwnerAfterReap(config: Config, w: World, e: Event, p: Pid, o: Owner)
    requires Orphan(w, p) && (e.Created? || e.Joined? || e.Polled?)
    ensures ChildOf(Step(config, w, e), o) != Some(p)
  {
    assert ChildOf(w, o) != Some(p);
    ReapOwners(config, w, e.probe, e.now, o);
    hide Reap, TicketOf, FirstFree, UsedPorts, FreshCode, WaitingCodes;
  }

  /** A child that appears is new, or was the join's it comes from. */
  lemma NoOwnerAppears(config: Config, w: World, e: Event, p: Pid, o: Owner)
    requires Orphan(w, p)
    ensures ChildOf(Step(config, w, e), o) != Some(p)
  {
    if e.Created? || e.Joined? || e.Polled? {
      NoOwnerAfterReap(config, w, e, p, o);
    } else {
      assert ChildOf(w, o) != Some(p);
      assert !e.Left? && !e.ShutDown? ==> ChildOf(w, JoinOwner(e.id)) != Some(p);
      hide Holder, Create, ReserveJoin, Reap;
    }
  }

  lemma OrphanStays(config: Config, w: World, e: Event, p: Pid)
    requires Orphan(w, p)
    ensures Orphan(Step(config, w, e), p)
  {
    OrphanLives(config, w, e, p);
    hide Step, ChildOf;
    forall o
      ensures ChildOf(Step(config, w, e), o) != Some(p)
    {
      NoOwnerAppears(config, w, e, p, o);
    }
  }

  lemma OverwritingOrphans(config: Config, w: World, e: Event)
    requires Conserved(w) && Overwrites(w, e)
    ensures Orphan(Step(config, w, e), w.hall.rooms[w.joins[e.id].code].child.value)
  {
    hide Conserved;
    var owner := RoomOwner(w.joins[e.id].code);
    OnlyOwner(w, owner, JoinOwner(e.id));
    Forgotten(w, Step(config, w, e), owner);
  }

  // ---- every run ----------------------------------------------------------------------------

  /** Somewhere in the run a started server was put into a room that had one. */
  ghost predicate Overwritten(config: Config, events: seq<Event>) {
    events != [] &&
    (Overwritten(config, events[..|events| - 1])
     || Overwrites(Run(config, events[..|events| - 1]), events[|events| - 1]))
  }

  /** After any events at all the children are accounted for, or one is alive that nobody will ever wait for. */
  lemma {:induction false} TrackedOrOrphaned(config: Config, events: seq<Event>)
    ensures Tidy(Run(config, events).hall.rooms)
    ensures !Overwritten(config, events) ==> Conserved(Run(config, events))
    ensures Overwritten(config, events) ==> exists p :: Orphan(Run(config, events), p)
  {
    hide Step, Conserved, Orphan, Overwrites, Tidy;
    if events == [] {
      NothingYet(config);
    } else {
      var front, e := events[..|events| - 1], events[|events| - 1];
      var w := Run(config, front);
      TrackedOrOrphaned(config, front);
      StepIsTidy(config, w, e);
      if Overwritten(config, front) {
        var p :| Orphan(w, p);
        OrphanStays(config, w, e, p);
      } else {
        StepConserves(config, w, e);
        if Overwrites(w, e) {
          OverwritingOrphans(config, w, e);
          var p := OrphanOf(w, e);
          assert Orphan(Step(config, w, e), p);
        }
      }
    }
  }

  ghost function OrphanOf(w: World, e: Event): Pid
    requires Overwrites(w, e)
  {
    w.hall.rooms[w.joins[e.id].code].child.value
  }

  lemma NothingYet(config: Config)
    ensures Tidy(EMPTY.hall.rooms) && Conserved(EMPTY)
  {
    EmptyIsFine(config, false);
  }

  /**
   * With nothing supposed of the events: the live processes are exactly those with one owner if and
   * only if no started server was ever put into a room that had one.
   */
  lemma ConservedExactly(config: Config, events: seq<Event>)
    ensures Conserved(Run(config, events)) <==> !Overwritten(config, events)
  {
    TrackedOrOrphaned(config, events);
    if Overwritten(config, events) {
      var p :| Orphan(Run(config, events), p);
      OwnedIfConserved(Run(config, events), p);
    }
  }

  lemma OwnedIfConserved(w: World, p: Pid)
    requires Orphan(w, p)
    ensures !Conserved(w)
  {
  }
}
