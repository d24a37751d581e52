/** Whole matches of the harness simulation. */
module SimRuns {
  import opened Wrappers
  import opened Protocol
  import opened Sim

  const KICKOFF := INITIAL.(phase := Live)

  function Play(aim: Aim, inputs: seq<PerSlot<InputFrame>>): SimState {
    if inputs == [] then KICKOFF
    else Tick(aim, Play(aim, inputs[..|inputs| - 1]), inputs[|inputs| - 1]).0
  }

  function Emitted(aim: Aim, inputs: seq<PerSlot<InputFrame>>): seq<MatchEvent> {
    if inputs == [] then []
    else
      var front := inputs[..|inputs| - 1];
      Emitted(aim, front) + Tick(aim, Play(aim, front), inputs[|inputs| - 1]).1
  }

  /** The ticks at which a player fired. */
  function ShotTicks(aim: Aim, inputs: seq<PerSlot<InputFrame>>, p: PlayerSlot): seq<nat> {
    if inputs == [] then []
    else
      var front := inputs[..|inputs| - 1];
      var before, after := Play(aim, front).players.Get(p), Play(aim, inputs).players.Get(p);
      ShotTicks(aim, front, p) +
      if after.lastShotTick != before.lastShotTick then [Play(aim, inputs).tick] else []
  }

  // ---------------------------------------------------------------------------
  // Hits, deaths and the end of the match
  // ---------------------------------------------------------------------------

  /** A log in which a death, if any, is the last event, and is there exactly when the match is over. */
  ghost predicate EndsWithDeath(es: seq<MatchEvent>, s: SimState) {
    && (forall k :: 0 <= k < |es| && es[k].DeathEvent? ==> k == |es| - 1)
    && (s.phase == Live <==> es == [] || es[|es| - 1].DamageEvent?)
    && (s.phase != Live ==> Won(s, es[|es| - 1].killer))
  }

  lemma EndsStep(es: seq<MatchEvent>, s: SimState, more: seq<MatchEvent>, s': SimState)
    requires EndsWithDeath(es, s) && s.phase == Live && WellOrdered(more)
    requires s'.phase == Live <==> forall e :: e in more ==> e.DamageEvent?
    requires s'.phase != Live ==>
               more != [] && more[|more| - 1].DeathEvent? && Won(s', more[|more| - 1].killer)
    ensures EndsWithDeath(es + more, s')
  {
    var all := es + more;
    assert forall k :: 0 <= k < |more| ==> more[k] in more;
    if more == [] {
      assert all == es;
    } else {
      assert all[|all| - 1] == more[|more| - 1];
    }
    forall k | 0 <= k < |all| && all[k].DeathEvent? ensures k == |all| - 1 {
      if k < |es| {
        assert es[k].DeathEvent?;
      } else {
        assert all[k] == more[k - |es|];
      }
    }
  }

  /** In every match: health is 100 less 25 per hit, a player is alive exactly while health is left, at most one
      player is dead, and at most one death is reported, always as the very last event. */
  lemma {:induction false} EveryMatchIsSane(aim: Aim, inputs: seq<PerSlot<InputFrame>>)
    ensures var s, es := Play(aim, inputs), Emitted(aim, inputs);
            Sane(s, PerSlot(HitsOn(es, A), HitsOn(es, B))) && EndsWithDeath(es, s)
  {
    hide Tick;
    if inputs != [] {
      var front, last := inputs[..|inputs| - 1], inputs[|inputs| - 1];
      var s, es := Play(aim, front), Emitted(aim, front);
      var (s', more) := Tick(aim, s, last);
      EveryMatchIsSane(aim, front);
      assert Play(aim, inputs) == s' && Emitted(aim, inputs) == es + more;
      if s.phase == Live {
        hide Sane, WellOrdered, Play, Emitted, HitsOn, EndsWithDeath, Won;
        assert s.phase == Live;
        TickIsSane(aim, s, last, PerSlot(HitsOn(es, A), HitsOn(es, B)));
        EndsStep(es, s, more, s');
        HitsAppend(es, more, A);
        HitsAppend(es, more, B);
      } else {
        TickIdle(aim, s, last);
        assert s' == s && es + more == es;
      }
    }
  }

  // ---------------------------------------------------------------------------
  // The cooldown
  // ---------------------------------------------------------------------------

  /** A player's last shot after one tick: unchanged, or this tick's, at least a cooldown after the one before. Only
      a shot of this tick can have hit. */
  ghost predicate Cooled(before: HarnessPlayer, after: HarnessPlayer, tick: nat, hits: nat) {
    && (after.lastShotTick == before.lastShotTick || after.lastShotTick == Some(tick))
    && (after.lastShotTick != before.lastShotTick && before.lastShotTick.Some? ==>
          tick >= before.lastShotTick.value + SHOT_COOLDOWN_TICKS)
    && hits <= (if after.lastShotTick == Some(tick) then 1 else 0)
  }

  ghost predicate ShotBefore(player: HarnessPlayer, tick: nat) {
    player.lastShotTick.Some? ==> player.lastShotTick.value < tick
  }

  lemma FireCools(aim: Aim, s: SimState, attacker: PlayerSlot, input: InputFrame)
    requires ShotBefore(s.players.Get(attacker), s.tick)
    ensures var (s', events) := Fire(aim, s, attacker, input);
            && Cooled(s.players.Get(attacker), s'.players.Get(attacker), s.tick, HitsOn(events, attacker.Opponent()))
            && s'.players.Get(attacker.Opponent()).lastShotTick == s.players.Get(attacker.Opponent()).lastShotTick
            && HitsOn(events, attacker) == 0 && s'.tick == s.tick
  {
    FireHits(aim, s, attacker, input);
    hide HitsOn;
  }

  lemma TickCools(aim: Aim, s: SimState, inputs: PerSlot<InputFrame>, p: PlayerSlot)
    requires s.phase == Live && ShotBefore(s.players.a, s.tick + 1) && ShotBefore(s.players.b, s.tick + 1)
    ensures var (s', events) := Tick(aim, s, inputs);
            && s'.tick == s.tick + 1
            && Cooled(s.players.Get(p), s'.players.Get(p), s.tick + 1, HitsOn(events, p.Opponent()))
  {
    var s0 := Advance(s, inputs);
    assert s0.players.a.lastShotTick == s.players.a.lastShotTick;
    assert s0.players.b.lastShotTick == s.players.b.lastShotTick;
    var (s1, first) := Fire(aim, s0, A, inputs.a);
    hide Fire, HitsOn, Advance;
    FireCools(aim, s0, A, inputs.a);
    if s1.phase == Live {
      var (s2, second) := Fire(aim, s1, B, inputs.b);
      FireCools(aim, s1, B, inputs.b);
      HitsAppend(first, second, p.Opponent());
    } else {
      HitsNone(p.Opponent());
    }
  }

  lemma HitsNone(p: PlayerSlot)
    ensures HitsOn([], p) == 0
  {
  }

  /** The k-th shot (counting from 0) is no earlier than tick 1 + 12k; the list ends with the last shot recorded. */
  ghost predicate Spaced(shots: seq<nat>, player: HarnessPlayer, tick: nat) {
    && (forall k :: 0 <= k < |shots| ==> 1 + SHOT_COOLDOWN_TICKS * k <= shots[k] <= tick)
    && player.lastShotTick == (if shots == [] then None else Some(shots[|shots| - 1]))
  }

  lemma SpacedIsPast(shots: seq<nat>, player: HarnessPlayer, tick: nat)
    requires Spaced(shots, player, tick)
    ensures ShotBefore(player, tick + 1)
  {
  }

  lemma SpacedStep(shots: seq<nat>, before: HarnessPlayer, after: HarnessPlayer, tick: nat, hits: nat)
    requires Spaced(shots, before, tick) && Cooled(before, after, tick + 1, hits)
    ensures var shots' := shots + if after.lastShotTick != before.lastShotTick then [tick + 1] else [];
            Spaced(shots', after, tick + 1) && |shots| + hits <= |shots'|
  {
  }

  lemma Unroll(aim: Aim, front: seq<PerSlot<InputFrame>>, last: PerSlot<InputFrame>, p: PlayerSlot)
    ensures var s, inputs := Play(aim, front), front + [last];
            var (s', more) := Tick(aim, s, last);
            && Play(aim, inputs) == s'
            && Emitted(aim, inputs) == Emitted(aim, front) + more
            && ShotTicks(aim, inputs, p) == ShotTicks(aim, front, p) +
               if s'.players.Get(p).lastShotTick != s.players.Get(p).lastShotTick then [s'.tick] else []
  {
    hide Tick;
    var inputs := front + [last];
    assert inputs[..|inputs| - 1] == front && inputs[|inputs| - 1] == last;
  }

  /** In every match, each player's (k+1)-st shot comes no earlier than tick 1 + 12k, and no more hits are reported
      than shots were fired. */
  lemma {:induction false} ShotsAreSpaced(aim: Aim, inputs: seq<PerSlot<InputFrame>>, p: PlayerSlot)
    ensures Spaced(ShotTicks(aim, inputs, p), Play(aim, inputs).players.Get(p), Play(aim, inputs).tick)
    ensures HitsOn(Emitted(aim, inputs), p.Opponent()) <= |ShotTicks(aim, inputs, p)|
    decreases |inputs|
  {
    if inputs != [] {
      hide Tick, Spaced, HitsOn, Play, Emitted, ShotTicks;
      var front, last := inputs[..|inputs| - 1], inputs[|inputs| - 1];
      assert inputs == front + [last];
      ShotsAreSpaced(aim, front, p);
      ShotsAreSpaced(aim, front, p.Opponent());
      Unroll(aim, front, last, p);
      if Play(aim, front).phase == Live {
        SpacedTick(aim, Play(aim, front), last, p, ShotTicks(aim, front, p), ShotTicks(aim, front, p.Opponent()),
                   Emitted(aim, front));
      } else {
        TickIdle(aim, Play(aim, front), last);
        assert Emitted(aim, front) + [] == Emitted(aim, front);
        assert ShotTicks(aim, front, p) + [] == ShotTicks(aim, front, p);
      }
    }
  }

  lemma SpacedTick(aim: Aim, s: SimState, input: PerSlot<InputFrame>, p: PlayerSlot, shots: seq<nat>,
                   otherShots: seq<nat>, es: seq<MatchEvent>)
    requires s.phase == Live && Spaced(shots, s.players.Get(p), s.tick)
    requires Spaced(otherShots, s.players.Get(p.Opponent()), s.tick)
    requires HitsOn(es, p.Opponent()) <= |shots|
    ensures var (s', more) := Tick(aim, s, input);
            var shots' :=
              shots + if s'.players.Get(p).lastShotTick != s.players.Get(p).lastShotTick then [s'.tick] else [];
            Spaced(shots', s'.players.Get(p), s'.tick) && HitsOn(es + more, p.Opponent()) <= |shots'|
  {
    hide Tick, Spaced, Cooled, HitsOn, ShotBefore;
    SpacedIsPast(shots, s.players.Get(p), s.tick);
    SpacedIsPast(otherShots, s.players.Get(p.Opponent()), s.tick);
    TickCools(aim, s, input, p);
    var (s', more) := Tick(aim, s, input);
    HitsAppend(es, more, p.Opponent());
    SpacedStep(shots, s.players.Get(p), s'.players.Get(p), s.tick, HitsOn(more, p.Opponent()));
  }

  lemma DeadHasFourHits(s: SimState, es: seq<MatchEvent>, k: nat)
    requires Sane(s, PerSlot(HitsOn(es, A), HitsOn(es, B))) && EndsWithDeath(es, s)
    requires k < |es| && es[k].DeathEvent?
    ensures HitsOn(es, es[k].killer.Opponent()) == 4
  {
    hide HitsOn;
  }

  /** Four hits are needed, so nobody dies before tick 37. */
  lemma NoEarlyDeath(aim: Aim, inputs: seq<PerSlot<InputFrame>>, k: nat)
    requires k < |Emitted(aim, inputs)| && Emitted(aim, inputs)[k].DeathEvent?
    ensures Play(aim, inputs).tick >= 37
    ensures HitsOn(Emitted(aim, inputs), Emitted(aim, inputs)[k].killer.Opponent()) == 4
  {
    var killer := Emitted(aim, inputs)[k].killer;
    EveryMatchIsSane(aim, inputs);
    ShotsAreSpaced(aim, inputs, killer);
    DeadHasFourHits(Play(aim, inputs), Emitted(aim, inputs), k);
    var shots := ShotTicks(aim, inputs, killer);
    hide Play, Emitted, ShotTicks, HitsOn;
    assert shots[3] >= 37;
  }

  // ---------------------------------------------------------------------------
  // Movement
  // ---------------------------------------------------------------------------

  predicate InArena(player: HarnessPlayer) {
    -ARENA_HALF_SIZE <= player.x <= ARENA_HALF_SIZE && -ARENA_HALF_SIZE <= player.z <= ARENA_HALF_SIZE
  }

  /** One coordinate follows its own axis of the input: never faster than the top speed, never the wrong way, and
      exactly as asked unless the wall stops it. */
  predicate Follows(before: real, after: real, axis: real) {
    && (axis >= 0.0 ==> before <= after <= before + MOVE_SPEED * DT)
    && (axis <= 0.0 ==> before - MOVE_SPEED * DT <= after <= before)
    && (-1.0 <= axis <= 1.0 && -ARENA_HALF_SIZE < after < ARENA_HALF_SIZE ==> after == before + axis * MOVE_SPEED * DT)
  }

  lemma AxisFollows(before: real, axis: real)
    requires -ARENA_HALF_SIZE <= before <= ARENA_HALF_SIZE
    ensures Follows(
              before, Clamp(before + Clamp(axis, -1.0, 1.0) * MOVE_SPEED * DT, -ARENA_HALF_SIZE, ARENA_HALF_SIZE), axis)
  {
  }

  /** A living player with a current input moves as asked and stays in the arena; any other does not move at all. */
  lemma MovesAsAsked(player: HarnessPlayer, raw: InputFrame)
    requires InArena(player)
    ensures var after := Moved(player, raw);
      && InArena(after)
      && (after == player
          || (player.alive && after.lastInputSequence == raw.sequence >= player.lastInputSequence
              && after.yaw == raw.yaw
              && Follows(player.x, after.x, raw.moveX) && Follows(player.z, after.z, raw.moveY)))
      && (player.alive && raw.sequence > player.lastInputSequence ==> after.lastInputSequence == raw.sequence)
  {
    hide Follows;
    AxisFollows(player.x, raw.moveX);
    AxisFollows(player.z, raw.moveY);
  }

  /** What a tick does to where the players are: nobody leaves the arena, and inputs are never taken back. */
  ghost predicate Placed(s: SimState, s': SimState) {
    forall p: PlayerSlot ::
      && InArena(s'.players.Get(p))
      && s'.players.Get(p).lastInputSequence >= s.players.Get(p).lastInputSequence
  }

  lemma FireMovesNobody(aim: Aim, s: SimState, attacker: PlayerSlot, input: InputFrame, p: PlayerSlot)
    ensures var after := Fire(aim, s, attacker, input).0.players.Get(p);
      after == s.players.Get(p).(health := after.health, alive := after.alive, lastShotTick := after.lastShotTick)
  {
  }

  lemma TickPlaces(aim: Aim, s: SimState, inputs: PerSlot<InputFrame>)
    requires InArena(s.players.a) && InArena(s.players.b)
    ensures Placed(s, Tick(aim, s, inputs).0)
  {
    var s0 := Advance(s, inputs);
    MovesAsAsked(s.players.a, inputs.a);
    MovesAsAsked(s.players.b, inputs.b);
    var s1 := Fire(aim, s0, A, inputs.a).0;
    hide Fire, Moved, Follows;
    forall p: PlayerSlot
      ensures s.phase == Live ==>
        InArena(Tick(aim, s, inputs).0.players.Get(p))
        && Tick(aim, s, inputs).0.players.Get(p).lastInputSequence >= s.players.Get(p).lastInputSequence
    {
      FireMovesNobody(aim, s0, A, inputs.a, p);
      FireMovesNobody(aim, s1, B, inputs.b, p);
    }
  }

  /** In every match both players stay in the arena. */
  lemma {:induction false} EveryMatchStaysInside(aim: Aim, inputs: seq<PerSlot<InputFrame>>)
    ensures InArena(Play(aim, inputs).players.a) && InArena(Play(aim, inputs).players.b)
  {
    hide Tick;
    if inputs != [] {
      var front := inputs[..|inputs| - 1];
      EveryMatchStaysInside(aim, front);
      TickPlaces(aim, Play(aim, front), inputs[|inputs| - 1]);
      var s := Play(aim, inputs);
      assert InArena(s.players.Get(A)) && InArena(s.players.Get(B));
    }
  }
}
