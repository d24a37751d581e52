/**
 * Client prediction: inputs are applied at once and kept until a snapshot acknowledges them, and
 * every snapshot is followed by a replay of what it does not yet contain.
 */
module Predictor {
  import opened Binary
  import opened Protocol
  import opened Devmap

  datatype Motion = Motion(pos: Vec3, vel: Vec3, onGround: bool)

  datatype Core = Core(motion: Motion, yaw: real, pitch: real, health: int, alive: bool)

  /** A player as drawn: the simulated part, and the previous position that interpolation starts from. */
  datatype Player = Player(core: Core, prevPos: Vec3)

  datatype Snapshot = Snapshot(core: Core, lastInputSequence: u32)

  /** How a character moves under one sanitized input: the flat step, or collision against a map. */
  type Movement = (Motion, InputFrame) -> Motion

  predicate Grounded(m: Motion) {
    m.onGround && m.vel.y == 0.0
  }

  /** Every step leaves a player on the ground, as on the flat arena. */
  ghost predicate KeepsGrounded(move: Movement) {
    forall m, input :: Grounded(move(m, input))
  }

  /**
   * The flat step of `Devmap.Mover`, with the normalised wish as a function of the input: where the
   * velocity leads, pushed out of the obstacles, at floor height and on the ground.
   */
  function FlatMovement(direction: InputFrame -> Vec3, maxSpeed: real, walkScale: real, dt: real): Movement {
    (m: Motion, input: InputFrame) =>
      FlatMotion(m, direction(input), maxSpeed, if input.walk then walkScale else 1.0, dt)
  }

  function FlatMotion(m: Motion, direction: Vec3, maxSpeed: real, scale: real, dt: real): Motion {
    var vel := Velocity(direction, maxSpeed, scale);
    var spot := RestingPlace(Reached(m.pos, vel, dt));
    Motion(Vec3(spot.x, 0.0, spot.z), vel, true)
  }

  lemma FlatMovementKeepsGrounded(direction: InputFrame -> Vec3, maxSpeed: real, walkScale: real, dt: real)
    ensures KeepsGrounded(FlatMovement(direction, maxSpeed, walkScale, dt))
  {
    hide RestingPlace, Reached;
    var move := FlatMovement(direction, maxSpeed, walkScale, dt);
    forall m, input
      ensures Grounded(move(m, input))
    {
      assert move(m, input) == FlatMotion(m, direction(input), maxSpeed, if input.walk then walkScale else 1.0, dt);
    }
  }

  /** The flat step done in place is the flat movement of the predictor. */
  method StepInPlace(mover: Mover, direction: Vec3, scale: real, dt: real)
    modifies mover
    ensures Motion(mover.pos, mover.vel, mover.onGround) ==
      FlatMotion(old(Motion(mover.pos, mover.vel, mover.onGround)), direction, mover.maxSpeed, scale, dt)
  {
    hide RestingPlace, Reached, Velocity;
    mover.FlatStep(direction, scale, dt);
  }

  function PredictStep(move: Movement, p: Player, input: InputFrame): Player {
    if !p.core.alive then p
    else
      var i := input.Sanitized();
      Player(p.core.(motion := move(p.core.motion, i), yaw := i.yaw, pitch := i.pitch), p.core.motion.pos)
  }

  function Replay(move: Movement, p: Player, inputs: seq<InputFrame>): Player {
    if inputs == [] then p
    else PredictStep(move, Replay(move, p, inputs[..|inputs| - 1]), inputs[|inputs| - 1])
  }

  /** The inputs newer than an acknowledgement. */
  function Newer(pending: seq<InputFrame>, last: u32): seq<InputFrame> {
    if pending == [] then []
    else
      var earlier, input := Newer(pending[..|pending| - 1], last), pending[|pending| - 1];
      if input.sequence > last then earlier + [input] else earlier
  }

  /** A player as a snapshot has it. */
  function Restored(s: Snapshot, devArena: bool): Player {
    var m := s.core.motion;
    var m' := if devArena then m.(onGround := true, vel := m.vel.(y := 0.0)) else m;
    Player(s.core.(motion := m'), m.pos)
  }

  // ---- where inputs lead --------------------------------------------------------------------

  /** What inputs act on: everything simulated but health, which only the server decides. */
  datatype Pose = Pose(motion: Motion, yaw: real, pitch: real)

  function PoseOf(core: Core): Pose {
    Pose(core.motion, core.yaw, core.pitch)
  }

  function Turn(move: Movement, pose: Pose, input: InputFrame): Pose {
    var i := input.Sanitized();
    Pose(move(pose.motion, i), i.yaw, i.pitch)
  }

  /** Where a living player gets by all these inputs. */
  function Path(move: Movement, pose: Pose, inputs: seq<InputFrame>): Pose {
    if inputs == [] then pose
    else Turn(move, Path(move, pose, inputs[..|inputs| - 1]), inputs[|inputs| - 1])
  }

  datatype Prediction = Prediction(player: Player, pending: seq<InputFrame>)

  function Pushed(move: Movement, p: Prediction, input: InputFrame): Prediction {
    Prediction(PredictStep(move, p.player, input), p.pending + [input])
  }

  function Reconciled(move: Movement, p: Prediction, s: Snapshot, devArena: bool): Prediction {
    var pending := Newer(p.pending, s.lastInputSequence);
    Prediction(Replay(move, Restored(s, devArena), pending), pending)
  }

  class Predictor {
    var player: Player
    var pending: seq<InputFrame>
    var initialized: bool
    const gravity: real
    const devArena: bool
    const move: Movement

    function State(): Prediction
      reads this
    {
      Prediction(player, pending)
    }

    constructor (player: Player, gravity: real, devArena: bool, move: Movement)
      ensures pending == [] && !initialized && this.devArena == devArena && this.move == move
      ensures this.gravity == if devArena then 0.0 else gravity
      ensures this.player == if devArena
        then player.(core := player.core.(motion := player.core.motion.(onGround := true))) else player
    {
      this.player := if devArena
        then player.(core := player.core.(motion := player.core.motion.(onGround := true))) else player;
      this.gravity := if devArena then 0.0 else gravity;
      this.devArena := devArena;
      this.move := move;
      pending := [];
      initialized := false;
    }

    method Step(input: InputFrame)
      modifies this`player
      ensures player == PredictStep(move, old(player), input)
    {
      if !player.core.alive {
        return;
      }
      var i := input.Sanitized();
      player := player.(prevPos := player.core.motion.pos);
      player := player.(core := player.core.(yaw := i.yaw, pitch := i.pitch));
      player := player.(core := player.core.(motion := move(player.core.motion, i)));
    }

    method Push(input: InputFrame)
      modifies this
      ensures State() == Pushed(move, old(State()), input) && initialized == old(initialized)
    {
      pending := pending + [input];
      Step(input);
    }

    method Retain(last: u32)
      modifies this`pending
      ensures pending == Newer(old(pending), last)
    {
      var all, kept := pending, [];
      for i := 0 to |all|
        invariant kept == Newer(all[..i], last)
        invariant pending == all
      {
        assert all[..i + 1][..i] == all[..i];
        if all[i].sequence > last {
          kept := kept + [all[i]];
        }
      }
      assert all[..|all|] == all;
      pending := kept;
    }

    method Reconcile(s: Snapshot)
      modifies this
      ensures State() == Reconciled(move, old(State()), s, devArena) && initialized
    {
      var m := s.core.motion;
      player := Player(s.core, m.pos);
      if devArena {
        m := m.(onGround := true, vel := m.vel.(y := 0.0));
        player := player.(core := player.core.(motion := m));
      }
      Retain(s.lastInputSequence);
      var inputs := pending;
      for i := 0 to |inputs|
        invariant player == Replay(move, Restored(s, devArena), inputs[..i])
        invariant pending == inputs
      {
        assert inputs[..i + 1][..i] == inputs[..i];
        Step(inputs[i]);
      }
      assert inputs[..|inputs|] == inputs;
      initialized := true;
    }
  }

  // ---- replaying ----------------------------------------------------------------------------

  lemma {:induction false} PathAppends(move: Movement, pose: Pose, s: seq<InputFrame>, t: seq<InputFrame>)
    ensures Path(move, pose, s + t) == Path(move, Path(move, pose, s), t)
  {
    if t == [] {
      assert s + t == s;
    } else {
      var front := t[..|t| - 1];
      assert (s + t)[..|s + t| - 1] == s + front;
      PathAppends(move, pose, s, front);
    }
  }

  /** A living player is replayed along the path of the inputs, a dead one does not move, and health is left alone. */
  lemma {:induction false} ReplayIsPath(move: Movement, p: Player, inputs: seq<InputFrame>)
    ensures var r := Replay(move, p, inputs);
      && r.core.health == p.core.health && r.core.alive == p.core.alive
      && PoseOf(r.core) == (if p.core.alive then Path(move, PoseOf(p.core), inputs) else PoseOf(p.core))
  {
    if inputs != [] {
      ReplayIsPath(move, p, inputs[..|inputs| - 1]);
    }
  }

  lemma {:induction false} PathStaysGrounded(move: Movement, pose: Pose, inputs: seq<InputFrame>)
    requires KeepsGrounded(move) && Grounded(pose.motion)
    ensures Grounded(Path(move, pose, inputs).motion)
  {
    if inputs != [] {
      PathStaysGrounded(move, pose, inputs[..|inputs| - 1]);
    }
  }

  // ---- acknowledgements ---------------------------------------------------------------------

  /** Sequence numbers rise from each input to the next. */
  ghost predicate Rising(sent: seq<InputFrame>) {
    forall i, j :: 0 <= i < j < |sent| ==> sent[i].sequence < sent[j].sequence
  }

  /** `last` acknowledges exactly the first `n` inputs. */
  ghost predicate Acknowledges(sent: seq<InputFrame>, last: u32, n: nat) {
    && n <= |sent|
    && (forall k :: 0 <= k < n ==> sent[k].sequence <= last)
    && (forall k :: n <= k < |sent| ==> sent[k].sequence > last)
  }

  function Max(a: nat, b: nat): nat {
    if a >= b then a else b
  }

  lemma {:induction false} NewerIsSuffix(sent: seq<InputFrame>, lo: nat, hi: nat, last: u32, n: nat)
    requires Acknowledges(sent, last, n) && lo <= hi <= |sent|
    ensures Newer(sent[lo..hi], last) == sent[Max(lo, Min(n, hi))..hi]
    decreases hi
  {
    if lo < hi {
      hide Newer;
      NewerIsSuffix(sent, lo, hi - 1, last, n);
      LastOfSlice(sent, lo, hi);
      NewerAppends(sent[lo..hi - 1], sent[hi - 1], last);
      if n < hi {
        LastOfSlice(sent, Max(lo, n), hi);
      }
    }
  }

  lemma LastOfSlice(sent: seq<InputFrame>, lo: nat, hi: nat)
    requires lo < hi <= |sent|
    ensures sent[lo..hi] == sent[lo..hi - 1] + [sent[hi - 1]]
  {
  }

  lemma NewerAppends(s: seq<InputFrame>, input: InputFrame, last: u32)
    ensures Newer(s + [input], last) == if input.sequence > last then Newer(s, last) + [input] else Newer(s, last)
  {
    assert (s + [input])[..|s|] == s;
  }

  /** What a player who is alive in a snapshot must show: the path of exactly the acknowledged inputs.
      Health is free. */
  ghost predicate True(move: Movement, start: Pose, sent: seq<InputFrame>, s: Snapshot, n: nat) {
    && Acknowledges(sent, s.lastInputSequence, n)
    && (s.core.alive ==> PoseOf(s.core) == Path(move, start, sent[..n]))
  }

  /** The flat arena is one on which the forced grounding of snapshots has nothing to force. */
  ghost predicate Flat(move: Movement, start: Pose) {
    KeepsGrounded(move) && Grounded(start.motion)
  }

  lemma RestoredPose(move: Movement, start: Pose, sent: seq<InputFrame>, s: Snapshot, n: nat, devArena: bool)
    requires True(move, start, sent, s, n) && (devArena ==> Flat(move, start))
    ensures var r := Restored(s, devArena).core;
      && r.health == s.core.health && r.alive == s.core.alive && r.yaw == s.core.yaw && r.pitch == s.core.pitch
      && (r.alive ==> PoseOf(r) == Path(move, start, sent[..n]))
  {
    hide KeepsGrounded, Path;
    if devArena && s.core.alive {
      PathStaysGrounded(move, start, sent[..n]);
    }
  }

  /**
   * One snapshot, on time or late, whatever its health. A living player ends where the acknowledged
   * inputs and the ones both newer and still pending lead, so inputs between an older snapshot's
   * acknowledgement and a newer one already seen are lost; a dead player stays where the snapshot is.
   */
  lemma ReconcileIsExact(move: Movement, start: Pose, sent: seq<InputFrame>, p: Prediction, acked: nat,
                         s: Snapshot, n: nat, devArena: bool)
    requires acked <= |sent| && p.pending == sent[acked..]
    requires True(move, start, sent, s, n) && (devArena ==> Flat(move, start))
    ensures var r := Reconciled(move, p, s, devArena);
      && r.pending == sent[Max(acked, n)..]
      && r.player.core.health == s.core.health && r.player.core.alive == s.core.alive
      && PoseOf(r.player.core) ==
         (if s.core.alive then Path(move, start, sent[..n] + sent[Max(acked, n)..])
          else PoseOf(Restored(s, devArena).core))
  {
    hide KeepsGrounded, Newer, Replay, Restored, Path;
    var rest := sent[Max(acked, n)..];
    NewerIsSuffix(sent, acked, |sent|, s.lastInputSequence, n);
    assert sent[acked..|sent|] == sent[acked..];
    RestoredPose(move, start, sent, s, n, devArena);
    ReplayIsPath(move, Restored(s, devArena), rest);
    PathAppends(move, start, sent[..n], rest);
  }

  // ---- runs ---------------------------------------------------------------------------------

  datatype Event = Sent(input: InputFrame) | Heard(snapshot: Snapshot, n: nat)

  /**
   * A prediction with its history: every input sent, how many are acknowledged, and the player as
   * the last snapshot had it (before the first, as it started).
   */
  datatype History = History(prediction: Prediction, sent: seq<InputFrame>, acked: nat, heard: Core)

  function Next(move: Movement, h: History, e: Event, devArena: bool): History {
    match e
    case Sent(input) => h.(prediction := Pushed(move, h.prediction, input), sent := h.sent + [input])
    case Heard(s, n) =>
      History(Reconciled(move, h.prediction, s, devArena), h.sent, n, Restored(s, devArena).core)
  }

  function Play(move: Movement, start: Player, events: seq<Event>, devArena: bool): History {
    if events == [] then History(Prediction(start, []), [], 0, start.core)
    else Next(move, Play(move, start, events[..|events| - 1], devArena), events[|events| - 1], devArena)
  }

  /** Inputs are numbered upwards; snapshots are true, and never acknowledge less than before. */
  ghost predicate Timely(move: Movement, start: Pose, h: History, e: Event) {
    match e
    case Sent(input) => h.sent == [] || input.sequence > h.sent[|h.sent| - 1].sequence
    case Heard(s, n) => h.acked <= n && True(move, start, h.sent, s, n)
  }

  ghost predicate AllTimely(move: Movement, start: Player, events: seq<Event>, devArena: bool) {
    events == [] ||
    (AllTimely(move, start, events[..|events| - 1], devArena)
     && Timely(move, PoseOf(start.core), Play(move, start, events[..|events| - 1], devArena), events[|events| - 1]))
  }

  /**
   * The player has the health of the last snapshot; alive, it is where all inputs sent lead; dead,
   * it is where the snapshot left it. Pending are the unacknowledged inputs, in rising order.
   */
  ghost predicate Predicted(move: Movement, start: Pose, h: History) {
    var core := h.prediction.player.core;
    && core.health == h.heard.health && core.alive == h.heard.alive
    && PoseOf(core) == (if core.alive then Path(move, start, h.sent) else PoseOf(h.heard))
    && h.acked <= |h.sent| && h.prediction.pending == h.sent[h.acked..]
    && Rising(h.sent) && Rising(h.prediction.pending)
  }

  lemma NothingSent(move: Movement, start: Player)
    ensures Predicted(move, PoseOf(start.core), History(Prediction(start, []), [], 0, start.core))
  {
  }

  lemma SuffixRises(sent: seq<InputFrame>, n: nat)
    requires Rising(sent) && n <= |sent|
    ensures Rising(sent[n..])
  {
  }

  lemma StepTurns(move: Movement, p: Player, input: InputFrame)
    ensures var r := PredictStep(move, p, input).core;
      && r.health == p.core.health && r.alive == p.core.alive
      && PoseOf(r) == (if r.alive then Turn(move, PoseOf(p.core), input) else PoseOf(p.core))
  {
  }

  lemma OneMoreSent(move: Movement, start: Pose, h: History, input: InputFrame, devArena: bool)
    requires Predicted(move, start, h) && Timely(move, start, h, Sent(input))
    ensures Predicted(move, start, Next(move, h, Sent(input), devArena))
  {
    hide PredictStep, Turn;
    assert (h.sent + [input])[..|h.sent|] == h.sent;
    SuffixRises(h.sent + [input], h.acked);
    assert (h.sent + [input])[h.acked..] == h.sent[h.acked..] + [input];
    StepTurns(move, h.prediction.player, input);
  }

  lemma OneMoreHeard(move: Movement, start: Pose, h: History, s: Snapshot, n: nat, devArena: bool)
    requires Predicted(move, start, h) && Timely(move, start, h, Heard(s, n))
    requires devArena ==> Flat(move, start)
    ensures Predicted(move, start, Next(move, h, Heard(s, n), devArena))
  {
    hide Reconciled, Path, Flat, Rising, Restored;
    SuffixRises(h.sent, n);
    RestoredPose(move, start, h.sent, s, n, devArena);
    ReconcileIsExact(move, start, h.sent, h.prediction, h.acked, s, n, devArena);
    assert h.sent[..n] + h.sent[n..] == h.sent;
  }

  /**
   * After any interleaving of inputs and timely snapshots, with any health: a living player is
   * where the whole input history leads, and a dead one where the server left it.
   */
  lemma {:induction false} PredictionIsReplay(move: Movement, start: Player, events: seq<Event>, devArena: bool)
    requires AllTimely(move, start, events, devArena)
    requires devArena ==> Flat(move, PoseOf(start.core))
    ensures Predicted(move, PoseOf(start.core), Play(move, start, events, devArena))
  {
    hide Predicted, Next, Timely, Flat, PoseOf;
    if events == [] {
      NothingSent(move, start);
    } else {
      var earlier, e := events[..|events| - 1], events[|events| - 1];
      PredictionIsReplay(move, start, earlier, devArena);
      var h := Play(move, start, earlier, devArena);
      match e
      case Sent(input) => OneMoreSent(move, PoseOf(start.core), h, input, devArena);
      case Heard(s, n) => OneMoreHeard(move, PoseOf(start.core), h, s, n, devArena);
    }
  }

  /** The same of the flat arena itself, where the movement is the flat step and nothing needs to be supposed of it. */
  lemma FlatPredictionIsReplay(direction: InputFrame -> Vec3, maxSpeed: real, walkScale: real, dt: real,
                               start: Player, events: seq<Event>)
    requires Grounded(start.core.motion)
    requires AllTimely(FlatMovement(direction, maxSpeed, walkScale, dt), start, events, true)
    ensures var move := FlatMovement(direction, maxSpeed, walkScale, dt);
      Predicted(move, PoseOf(start.core), Play(move, start, events, true))
  {
    hide Predicted, KeepsGrounded, AllTimely, Play, FlatMovement;
    FlatMovementKeepsGrounded(direction, maxSpeed, walkScale, dt);
    PredictionIsReplay(FlatMovement(direction, maxSpeed, walkScale, dt), start, events, true);
  }

  /**
   * A timely snapshot of a player predicted alive: if it is alive there too, its health is all that
   * changes; if the server has killed it, it goes to where the server has it.
   */
  lemma SnapshotsChangeNothing(move: Movement, start: Player, events: seq<Event>, s: Snapshot, n: nat, devArena: bool)
    requires AllTimely(move, start, events + [Heard(s, n)], devArena)
    requires devArena ==> Flat(move, PoseOf(start.core))
    requires Play(move, start, events, devArena).prediction.player.core.alive
    ensures var before := Play(move, start, events, devArena).prediction.player.core;
      Play(move, start, events + [Heard(s, n)], devArena).prediction.player.core ==
      if s.core.alive then before.(health := s.core.health) else Restored(s, devArena).core
  {
    hide Reconciled, Path, Flat, Timely, Restored;
    var all := events + [Heard(s, n)];
    assert all[..|all| - 1] == events;
    PredictionIsReplay(move, start, events, devArena);
    PredictionIsReplay(move, start, all, devArena);
    var h, h' := Play(move, start, events, devArena), Play(move, start, all, devArena);
    assert h'.sent == h.sent && h'.heard == Restored(s, devArena).core;
    RestoredHealth(s, devArena);
  }

  lemma RestoredHealth(s: Snapshot, devArena: bool)
    ensures Restored(s, devArena).core.health == s.core.health && Restored(s, devArena).core.alive == s.core.alive
  {
  }

  const STILL := Vec3(0.0, 0.0, 0.0)
  const ORIGIN := Player(Core(Motion(STILL, STILL, true), 0.0, 0.0, 100, true), STILL)

  function Drift(m: Motion, input: InputFrame): Motion {
    m.(pos := m.pos.(x := m.pos.x + input.moveX))
  }

  /** A true snapshot that arrives after a newer one takes the player back: the inputs in between are gone. */
  lemma LateSnapshotLosesInputs()
    ensures
      var input := InputFrame(1, 1.0, 0.0, 0.0, 0.0, false, false, false, false);
      var sent := Pushed(Drift, Prediction(ORIGIN, []), input);
      var acknowledged := Reconciled(Drift, sent, Snapshot(sent.player.core, 1), false);
      var late := Reconciled(Drift, acknowledged, Snapshot(ORIGIN.core, 0), false);
      && acknowledged.player.core == sent.player.core
      && PoseOf(sent.player.core) == Path(Drift, PoseOf(ORIGIN.core), [input])
      && late.pending == [] && late.player.core == ORIGIN.core != sent.player.core
  {
    var input := InputFrame(1, 1.0, 0.0, 0.0, 0.0, false, false, false, false);
    assert [input][..0] == [];
    assert Newer([input], 1) == [];
    assert [] + [input] == [input];
  }
}
