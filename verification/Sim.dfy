/** The two-player harness simulation (src/sim.rs). Whether a shot hits is an arbitrary predicate of the two players. */
module Sim {
  import opened Wrappers
  import opened Binary
  import opened Protocol

  const TICK_HZ := 64
  const DT := 1.0 / 64.0
  const ARENA_HALF_SIZE := 18.0
  const MOVE_SPEED := 7.0
  const SHOT_COOLDOWN_TICKS := TICK_HZ / 5
  const SHOT_DAMAGE: u16 := 25
  const FULL_HEALTH: u16 := 100

  datatype MatchEvent =
    | DamageEvent(attacker: PlayerSlot, victim: PlayerSlot, amount: u16, victimHealth: u16)
    | DeathEvent(killer: PlayerSlot, victim: PlayerSlot)

  datatype HarnessPlayer = HarnessPlayer(
    x: real, z: real, vx: real, vz: real, yaw: real,
    health: u16, alive: bool, lastInputSequence: u32, lastShotTick: Option<nat>)

  datatype SimState = SimState(tick: nat, phase: MatchPhase, players: PerSlot<HarnessPlayer>)
  {
    function With(slot: PlayerSlot, player: HarnessPlayer): SimState {
      this.(players := players.Set(slot, player))
    }
  }

  /** Does the first player's shot hit the second? */
  type Aim = (HarnessPlayer, HarnessPlayer) -> bool

  const INITIAL := SimState(0, Waiting, PerSlot(
    HarnessPlayer(-8.0, 0.0, 0.0, 0.0, 0.0, FULL_HEALTH, true, 0, None),
    HarnessPlayer(8.0, 0.0, 0.0, 0.0, 3.14159265, FULL_HEALTH, true, 0, None)))

  function Moved(player: HarnessPlayer, raw: InputFrame): HarnessPlayer {
    if !player.alive || raw.sequence < player.lastInputSequence then player
    else
      var input := raw.Sanitized();
      var vx, vz := input.moveX * MOVE_SPEED, input.moveY * MOVE_SPEED;
      player.(lastInputSequence := input.sequence, yaw := input.yaw, vx := vx, vz := vz,
              x := Clamp(player.x + vx * DT, -ARENA_HALF_SIZE, ARENA_HALF_SIZE),
              z := Clamp(player.z + vz * DT, -ARENA_HALF_SIZE, ARENA_HALF_SIZE))
  }

  predicate CanFire(player: HarnessPlayer, tick: nat) {
    player.lastShotTick.None? ||
    (if tick >= player.lastShotTick.value then tick - player.lastShotTick.value else 0) >= SHOT_COOLDOWN_TICKS
  }

  /** The player gets a shot off this tick. */
  predicate Shoots(s: SimState, attacker: PlayerSlot, input: InputFrame) {
    && input.fire
    && s.players.Get(attacker).alive && s.players.Get(attacker.Opponent()).alive
    && CanFire(s.players.Get(attacker), s.tick)
  }

  function Wounded(health: u16): u16 {
    if health >= SHOT_DAMAGE then health - SHOT_DAMAGE else 0
  }

  function Fire(aim: Aim, s: SimState, attacker: PlayerSlot, input: InputFrame): (SimState, seq<MatchEvent>) {
    if !Shoots(s, attacker, input) then (s, [])
    else
      var shooter := s.players.Get(attacker).(lastShotTick := Some(s.tick));
      var victim := attacker.Opponent();
      var target := s.players.Get(victim);
      if !aim(shooter, target) then (s.With(attacker, shooter), [])
      else
        var health := Wounded(target.health);
        var hit := DamageEvent(attacker, victim, SHOT_DAMAGE, health);
        var struck := target.(health := health, alive := target.alive && health > 0);
        var s' := s.With(attacker, shooter).With(victim, struck);
        if health == 0 then (s'.(phase := Ended(attacker)), [hit, DeathEvent(attacker, victim)]) else (s', [hit])
  }

  function Advance(s: SimState, inputs: PerSlot<InputFrame>): SimState {
    SimState(s.tick + 1, s.phase, PerSlot(Moved(s.players.a, inputs.a), Moved(s.players.b, inputs.b)))
  }

  function Tick(aim: Aim, s: SimState, inputs: PerSlot<InputFrame>): (SimState, seq<MatchEvent>) {
    if s.phase != Live then (s, [])
    else
      var (s1, first) := Fire(aim, Advance(s, inputs), A, inputs.a);
      if s1.phase != Live then (s1, first)
      else
        var (s2, second) := Fire(aim, s1, B, inputs.b);
        (s2, first + second)
  }

  lemma TickIdle(aim: Aim, s: SimState, inputs: PerSlot<InputFrame>)
    requires s.phase != Live
    ensures Tick(aim, s, inputs) == (s, [])
  {
  }

  class HarnessSim {
    const aim: Aim
    var tick: nat
    var phase: MatchPhase
    var players: PerSlot<HarnessPlayer>

    function State(): SimState
      reads this
    {
      SimState(tick, phase, players)
    }

    constructor (aim: Aim)
      ensures this.aim == aim && State() == INITIAL
    {
      this.aim := aim;
      tick := 0;
      phase := Waiting;
      players := INITIAL.players;
    }

    method SetPhase(phase: MatchPhase)
      modifies this`phase
      ensures this.phase == phase
    {
      this.phase := phase;
    }

    method UpdatePlayer(slot: PlayerSlot, raw: InputFrame)
      modifies this`players
      ensures players == old(players).Set(slot, Moved(old(players).Get(slot), raw))
    {
      var player := players.Get(slot);
      if !player.alive || raw.sequence < player.lastInputSequence {
        return;
      }
      var input := raw.Sanitized();
      player := player.(lastInputSequence := input.sequence);
      player := player.(yaw := input.yaw);
      player := player.(vx := input.moveX * MOVE_SPEED, vz := input.moveY * MOVE_SPEED);
      player := player.(x := Clamp(player.x + player.vx * DT, -ARENA_HALF_SIZE, ARENA_HALF_SIZE));
      player := player.(z := Clamp(player.z + player.vz * DT, -ARENA_HALF_SIZE, ARENA_HALF_SIZE));
      players := players.Set(slot, player);
    }

    method FireShot(attacker: PlayerSlot, input: InputFrame) returns (events: seq<MatchEvent>)
      modifies this`players, this`phase
      ensures (State(), events) == Fire(aim, old(State()), attacker, input)
    {
      var victim := attacker.Opponent();
      if !input.fire || !players.Get(attacker).alive || !players.Get(victim).alive
         || !CanFire(players.Get(attacker), tick) {
        return [];
      }
      players := players.Set(attacker, players.Get(attacker).(lastShotTick := Some(tick)));
      if !aim(players.Get(attacker), players.Get(victim)) {
        return [];
      }
      var target := players.Get(victim);
      target := target.(health := Wounded(target.health));
      events := [DamageEvent(attacker, victim, SHOT_DAMAGE, target.health)];
      if target.health == 0 {
        target := target.(alive := false);
        phase := Ended(attacker);
        events := [events[0], DeathEvent(attacker, victim)];
      }
      players := players.Set(victim, target);
    }

    method Step(inputs: PerSlot<InputFrame>) returns (events: seq<MatchEvent>)
      modifies this
      ensures (State(), events) == Tick(aim, old(State()), inputs)
    {
      if phase != Live {
        return [];
      }
      tick := tick + 1;
      UpdatePlayer(A, inputs.a);
      UpdatePlayer(B, inputs.b);
      assert State() == Advance(old(State()), inputs);
      events := FireShot(A, inputs.a);
      if phase == Live {
        var more := FireShot(B, inputs.b);
        events := events + more;
      }
    }
  }

  // ---------------------------------------------------------------------------
  // What one tick does
  // ---------------------------------------------------------------------------

  function HitsOn(events: seq<MatchEvent>, p: PlayerSlot): nat {
    if events == [] then 0
    else
      var last := events[|events| - 1];
      HitsOn(events[..|events| - 1], p) + if last.DamageEvent? && last.victim == p then 1 else 0
  }

  lemma {:induction false} HitsAppend(es: seq<MatchEvent>, more: seq<MatchEvent>, p: PlayerSlot)
    ensures HitsOn(es + more, p) == HitsOn(es, p) + HitsOn(more, p)
  {
    if more == [] {
      assert es + more == es;
    } else {
      HitsAppend(es, more[..|more| - 1], p);
      assert (es + more)[..|es + more| - 1] == es + more[..|more| - 1];
    }
  }

  /** Health counts hits, a player is alive while any is left, and only a live match has both players standing. */
  ghost predicate Sane(s: SimState, hits: PerSlot<nat>) {
    && (forall p: PlayerSlot ::
          && hits.Get(p) <= 4
          && s.players.Get(p).health == FULL_HEALTH - SHOT_DAMAGE * hits.Get(p)
          && (s.players.Get(p).alive <==> s.players.Get(p).health > 0))
    && (s.phase == Live ==> s.players.a.alive && s.players.b.alive)
    && (s.players.a.alive || s.players.b.alive)
  }

  /** The events of one tick: at most one hit per attacker, and a death only as the last event, at the hands of the
      attacker whose hit precedes it. */
  ghost predicate WellOrdered(events: seq<MatchEvent>) {
    && |events| <= 3
    && (forall k :: 0 <= k < |events| && events[k].DeathEvent? ==>
          && k == |events| - 1 && k > 0 && events[k - 1].DamageEvent?
          && events[k - 1].victim == events[k].victim && events[k - 1].victimHealth == 0)
    && (forall k :: 0 <= k < |events| && events[k].DamageEvent? ==>
          && events[k].attacker == events[k].victim.Opponent() && events[k].amount == SHOT_DAMAGE
          && (events[k].victimHealth == 0 ==> k == |events| - 2 && events[|events| - 1].DeathEvent?))
    && (|events| >= 2 && events[1].DamageEvent? ==> events[0].DamageEvent? && events[1].victim != events[0].victim)
  }

  function HitCount(events: seq<MatchEvent>, hits: PerSlot<nat>): PerSlot<nat> {
    PerSlot(hits.a + HitsOn(events, A), hits.b + HitsOn(events, B))
  }

  lemma FireHits(aim: Aim, s: SimState, attacker: PlayerSlot, input: InputFrame)
    ensures var events := Fire(aim, s, attacker, input).1;
            && HitsOn(events, attacker) == 0
            && HitsOn(events, attacker.Opponent()) == if events == [] then 0 else 1
  {
    var events := Fire(aim, s, attacker, input).1;
    if events != [] {
      assert events[..1] == [events[0]];
      assert HitsOn([events[0]], attacker.Opponent()) == 1 && HitsOn([events[0]], attacker) == 0;
      assert |events| == 2 ==> events[..1] == events[..|events| - 1];
    }
  }

  lemma FireIsSane(aim: Aim, s: SimState, attacker: PlayerSlot, input: InputFrame, hits: PerSlot<nat>)
    requires Sane(s, hits) && s.phase == Live
    ensures var (s', events) := Fire(aim, s, attacker, input);
            && Sane(s', HitCount(events, hits))
            && WellOrdered(events) && |events| <= 2
            && (forall k :: 0 <= k < |events| && events[k].DamageEvent? ==> events[k].attacker == attacker)
            && (s'.phase == Live <==> forall e :: e in events ==> e.DamageEvent?)
            && (s'.phase != Live ==> s'.phase == Ended(attacker) && !s'.players.Get(attacker.Opponent()).alive)
            && (s'.phase != Live ==> events != [] && events[|events| - 1] == DeathEvent(attacker, attacker.Opponent()))
  {
    FireHits(aim, s, attacker, input);
    hide HitsOn;
  }

  lemma AdvanceIsSane(s: SimState, inputs: PerSlot<InputFrame>, hits: PerSlot<nat>)
    requires Sane(s, hits)
    ensures Sane(Advance(s, inputs), hits)
  {
  }

  lemma HitCountAppend(es: seq<MatchEvent>, more: seq<MatchEvent>, hits: PerSlot<nat>)
    ensures HitCount(more, HitCount(es, hits)) == HitCount(es + more, hits)
  {
    HitsAppend(es, more, A);
    HitsAppend(es, more, B);
  }

  lemma Joined(first: seq<MatchEvent>, second: seq<MatchEvent>)
    requires WellOrdered(first) && |first| <= 2 && WellOrdered(second) && |second| <= 2
    requires forall e :: e in first ==> e.DamageEvent? && e.attacker == A
    requires forall k :: 0 <= k < |second| && second[k].DamageEvent? ==> second[k].attacker == B
    ensures WellOrdered(first + second)
  {
    var all := first + second;
    if first == [] {
      assert all == second;
    } else {
      assert forall k :: 0 <= k < |first| ==> first[k] in first;
      assert all == [first[0]] + second;
    }
  }

  /** The match is over, and the winner's opponent is dead. */
  ghost predicate Won(s: SimState, winner: PlayerSlot) {
    s.phase == Ended(winner) && !s.players.Get(winner.Opponent()).alive
  }

  /** A tick from a live match keeps the bookkeeping, orders its events, and ends the match exactly when it reports a
      death, in favour of the killer. */
  lemma TickIsSane(aim: Aim, s: SimState, inputs: PerSlot<InputFrame>, hits: PerSlot<nat>)
    requires Sane(s, hits) && s.phase == Live
    ensures var (s', events) := Tick(aim, s, inputs);
            && Sane(s', HitCount(events, hits))
            && WellOrdered(events)
            && s'.tick == s.tick + 1
            && (s'.phase == Live <==> forall e :: e in events ==> e.DamageEvent?)
            && (s'.phase != Live ==> events != [] && events[|events| - 1].DeathEvent? &&
                                     Won(s', events[|events| - 1].killer))
  {
    AdvanceIsSane(s, inputs, hits);
    var s0 := Advance(s, inputs);
    var (s1, first) := Fire(aim, s0, A, inputs.a);
    FireIsSane(aim, s0, A, inputs.a, hits);
    if s1.phase == Live {
      var (s2, second) := Fire(aim, s1, B, inputs.b);
      var mid := HitCount(first, hits);
      hide Sane, Fire, WellOrdered, HitCount, HitsOn, Advance;
      FireIsSane(aim, s1, B, inputs.b, mid);
      FireAdvances(aim, s0, A, inputs.a);
      FireAdvances(aim, s1, B, inputs.b);
      Joined(first, second);
      HitCountAppend(first, second, hits);
    }
  }

  lemma FireAdvances(aim: Aim, s: SimState, attacker: PlayerSlot, input: InputFrame)
    ensures Fire(aim, s, attacker, input).0.tick == s.tick
  {
  }
}
