/** The placed logic elements of Logicbot: the registry of the ten element
    kinds, and the element object whose `Update` is edge-triggered and whose
    `ForceUpdate` writes the kind's result either to the shared channels (the
    gates) or to the world through the server (the actuators). */
module Objects {
  import opened Host

  datatype Option<T> = None | Some(value: T)

  // ---------------------------------------------------------------------
  // The kind registry
  // ---------------------------------------------------------------------

  /** The ten element classes, as a closed variant. */
  datatype Kind = Toggle | Lamp | And | Or | Not | Xor | Indicator | Door | Nor | Nand
  {
    /** Kinds that compute a boolean function of their inputs into an output channel. */
    predicate IsGate() { And? || Or? || Not? || Xor? || Nor? || Nand? }

    /** Kinds that only act on the world (light, block, signs). */
    predicate IsActuator() { Lamp? || Indicator? || Door? }
  }

  const AllKinds: set<Kind> := {Toggle, Lamp, And, Or, Not, Xor, Indicator, Door, Nor, Nand}

  /** The `ID` constant of each class. */
  function Id(k: Kind): (id: nat)
    ensures id < |AllKinds|
  {
    match k
    case Toggle => 0
    case Lamp => 1
    case And => 2
    case Or => 3
    case Not => 4
    case Xor => 5
    case Indicator => 6
    case Door => 7
    case Nor => 8
    case Nand => 9
  }

  /** The `ALWAYS_ON` constant: true on the base class, overridden to false
      by Toggle, Lamp, Indicator and Door. Exactly the gates keep running
      with no player on. */
  function AlwaysOn(k: Kind): (on: bool)
    ensures on <==> k.IsGate()
  {
    match k
    case Toggle => false
    case Lamp => false
    case Indicator => false
    case Door => false
    case _ => true
  }

  /** The `NEEDS_UPDATE_AFTER_BREAK` constant: false on the base class,
      overridden to true by Lamp, Indicator and Door, the actuators. */
  function NeedsUpdateAfterBreak(k: Kind): (after: bool)
    ensures after <==> k.IsActuator()
  {
    match k
    case Lamp => true
    case Indicator => true
    case Door => true
    case _ => false
  }

  /** The `TYPES` registry: structure name to element kind. */
  const Types: map<string, Kind> := map[
    "toggle" := Toggle,
    "lamp" := Lamp,
    "and" := And,
    "or" := Or,
    "not" := Not,
    "xor" := Xor,
    "indicator" := Indicator,
    "door" := Door,
    "nor" := Nor,
    "nand" := Nand
  ]

  /** Every kind has its own id. */
  lemma IdInjective(a: Kind, b: Kind)
    ensures Id(a) == Id(b) ==> a == b
  {
  }

  /** The registry holds ten names. */
  lemma TypesRegistry()
    ensures |Types| == 10
  {
  }

  /** No two registered names denote the same kind. */
  lemma TypesInjective()
    ensures forall m, n :: m in Types && n in Types && m != n ==> Types[m] != Types[n]
  {
  }

  /** No two registered names share an id. */
  lemma TypesIdsDistinct()
    ensures forall m, n :: m in Types && n in Types && m != n ==> Id(Types[m]) != Id(Types[n])
  {
  }

  /** Every kind is registered under some name. */
  lemma TypesCoverAllKinds()
    ensures Types.Values == AllKinds
  {
    assert Types["toggle"] == Toggle && Types["lamp"] == Lamp && Types["and"] == And;
    assert Types["or"] == Or && Types["not"] == Not && Types["xor"] == Xor;
    assert Types["indicator"] == Indicator && Types["door"] == Door;
    assert Types["nor"] == Nor && Types["nand"] == Nand;
  }

  // ---------------------------------------------------------------------
  // Gates, the lamp debounce and the sign loop
  // ---------------------------------------------------------------------

  /** The boolean function each gate computes from its inputs `a` (in0) and
      `b` (in1); NOT reads only `a`. */
  function GateValue(k: Kind, a: bool, b: bool): bool
    requires k.IsGate()
  {
    match k
    case And => a && b
    case Or => a || b
    case Not => !a
    case Xor => a != b
    case Nor => !(a || b)
    case Nand => !(a && b)
  }

  /** A gate whose first input is wired to its own output reads back the
      value `v` it wrote; it settles exactly when recomputing from `v` gives
      `v` again. AND and OR always settle; XOR and NAND settle only when the
      other input is false, NOR only when it is true, NOT never. */
  lemma SelfFedGateSettles(k: Kind, a: bool, b: bool)
    requires k.IsGate()
    ensures var v := GateValue(k, a, b);
      GateValue(k, v, b) == v <==>
      (k == And || k == Or || ((k == Xor || k == Nand) && !b) || (k == Nor && b))
  {
  }

  /** Light levels a Lamp writes. */
  const LightOn := 15
  const LightOff := 0
  /** The block id of air, written to clear a position. */
  const Air := 0
  /** The block ids an Indicator shows for a true and a false input. */
  const IndicatorOn := 34
  const IndicatorOff := 43
  /** A Lamp applies a change only when more than this many ticks passed since the last one. */
  const DebounceTicks := 10
  /** The `@last_update` a new Lamp starts with. */
  const InitialLastUpdate := -10
  /** The number of sign faces an element carries. */
  const SignFaces := 24

  /** Whether Lamp's update applies a change: the input differs from the
      remembered state and strictly more than DebounceTicks ticks have passed
      since the last applied change. */
  predicate LampFires(last: Option<bool>, input: bool, ticks: int, lastUpdate: int)
  {
    last != Some(input) && ticks - lastUpdate > DebounceTicks
  }

  /** A change exactly DebounceTicks ticks after the last one is suppressed;
      one tick later it is applied. */
  lemma LampDebounceBoundary(last: Option<bool>, input: bool, t: int)
    requires last != Some(input)
    ensures !LampFires(last, input, t + DebounceTicks, t)
    ensures LampFires(last, input, t + DebounceTicks + 1, t)
  {
  }

  /** A new Lamp applies its first change at any tick after 0, and at no earlier tick. */
  lemma LampFirstUpdate(input: bool, ticks: int)
    ensures LampFires(None, input, ticks, InitialLastUpdate) <==> ticks > 0
  {
  }

  /** The set_sign call the sign loop makes for one face: one for a
      non-empty text, none for an empty one. */
  function FaceWrite(pos: Pos, face: nat, text: string): seq<Effect>
  {
    if |text| > 0 then [SetSign(pos, face, text)] else []
  }

  /** The set_sign calls the sign loop makes for faces 0 .. n-1, in face order. */
  function SignWrites(pos: Pos, signs: seq<string>, n: nat): seq<Effect>
    requires n <= |signs|
  {
    if n == 0 then [] else SignWrites(pos, signs, n - 1) + FaceWrite(pos, n - 1, signs[n - 1])
  }

  /** The faces below n that carry a sign. */
  function NonEmptyFaces(signs: seq<string>, n: nat): set<nat>
    requires n <= |signs|
  {
    set f: nat | f < n && |signs[f]| > 0
  }

  /** Every write of the sign loop is a set_sign at the element's position of
      a non-empty face below n, with that face's text. */
  lemma {:induction false} SignWritesSound(pos: Pos, signs: seq<string>, n: nat)
    requires n <= |signs|
    ensures forall k :: 0 <= k < |SignWrites(pos, signs, n)| ==>
      var e := SignWrites(pos, signs, n)[k];
      e.SetSign? && e.pos == pos && e.face < n && e.text == signs[e.face] && |e.text| > 0
  {
    if n > 0 {
      SignWritesSound(pos, signs, n - 1);
    }
  }

  /** The sign loop writes faces in strictly ascending order, so no face twice. */
  lemma {:induction false} SignWritesAscending(pos: Pos, signs: seq<string>, n: nat)
    requires n <= |signs|
    ensures forall j, k :: 0 <= j < k < |SignWrites(pos, signs, n)| ==>
      SignWrites(pos, signs, n)[j].SetSign? && SignWrites(pos, signs, n)[k].SetSign? &&
      SignWrites(pos, signs, n)[j].face < SignWrites(pos, signs, n)[k].face
  {
    if n > 0 {
      var prev, w := SignWrites(pos, signs, n - 1), SignWrites(pos, signs, n);
      SignWritesAscending(pos, signs, n - 1);
      SignWritesSound(pos, signs, n - 1);
      forall j, k | 0 <= j < k < |w|
        ensures w[j].SetSign? && w[k].SetSign? && w[j].face < w[k].face
      {
        assert w[j] == prev[j];
        if k >= |prev| {
          assert w[k] == SetSign(pos, n - 1, signs[n - 1]);
        } else {
          assert w[k] == prev[k];
        }
      }
    } else {
      assert SignWrites(pos, signs, n) == [];
    }
  }

  /** Every non-empty face below n gets its set_sign call. */
  lemma {:induction false} SignWritesComplete(pos: Pos, signs: seq<string>, n: nat)
    requires n <= |signs|
    ensures forall f :: 0 <= f < n && |signs[f]| > 0 ==> SetSign(pos, f, signs[f]) in SignWrites(pos, signs, n)
  {
    if n > 0 {
      SignWritesComplete(pos, signs, n - 1);
    }
  }

  /** The sign loop makes exactly as many calls as there are non-empty faces. */
  lemma {:induction false} SignWritesCount(pos: Pos, signs: seq<string>, n: nat)
    requires n <= |signs|
    ensures |SignWrites(pos, signs, n)| == |NonEmptyFaces(signs, n)|
  {
    if n > 0 {
      SignWritesCount(pos, signs, n - 1);
      var below := NonEmptyFaces(signs, n - 1);
      assert n - 1 !in below;
      if |signs[n - 1]| > 0 {
        assert NonEmptyFaces(signs, n) == below + {n - 1};
      } else {
        assert NonEmptyFaces(signs, n) == below;
      }
    }
  }

  // ---------------------------------------------------------------------
  // The placed element
  // ---------------------------------------------------------------------

  /** A placed element of some kind, wired to input channels and an output
      channel. `lastState` is the state the element last acted on and
      `lastUpdate` the tick of a Lamp's last applied change. */
  class Element {
    const bot: Bot
    const kind: Kind
    const pos: Pos
    var inChannels: seq<nat>
    var outChannel: nat
    var needsUpdate: bool
    var metadata: int
    var signs: seq<string>
    var lastState: Option<bool>
    var lastUpdate: int

    /** A new element: no sign text on any of the 24 faces, no remembered
        state; a Lamp starts with its last change far enough back that its
        first change is applied at any positive tick. */
    constructor (bot: Bot, kind: Kind, pos: Pos, inChannels: seq<nat>, outChannel: nat,
                 needsUpdate: bool := false, metadata: int := 0)
      ensures this.bot == bot && this.kind == kind && this.pos == pos
      ensures this.inChannels == inChannels && this.outChannel == outChannel
      ensures this.needsUpdate == needsUpdate && this.metadata == metadata
      ensures |signs| == SignFaces && forall f :: 0 <= f < |signs| ==> signs[f] == ""
      ensures lastState == None
      ensures kind == Lamp ==> lastUpdate == InitialLastUpdate
    {
      this.bot := bot;
      this.kind := kind;
      this.pos := pos;
      this.inChannels := inChannels;
      this.outChannel := outChannel;
      this.needsUpdate := needsUpdate;
      this.metadata := metadata;
      signs := seq(SignFaces, _ => "");
      lastState := None;
      lastUpdate := if kind == Lamp then InitialLastUpdate else 0;
    }

    /** The value of input channel i; an input that is not wired reads as false. */
    function Input(i: nat): bool
      reads this, bot
    {
      if i < |inChannels| then bot.Channel(inChannels[i]) else false
    }

    /** What a gate computes from its current inputs. */
    function GateOutput(): bool
      requires kind.IsGate()
      reads this, bot
    {
      GateValue(kind, Input(0), Input(1))
    }

    /** Whether `Update` calls `ForceUpdate` in the current state. Toggle
        inherits the base update, which always does (and does nothing). */
    predicate WouldFire()
      reads this, bot
    {
      match kind
      case Toggle => true
      case Lamp => LampFires(lastState, Input(0), bot.ticks, lastUpdate)
      case Indicator => lastState != Some(Input(0))
      case Door => lastState != Some(Input(0))
      case _ => lastState != Some(GateOutput())
    }

    /** A further `Update` changes nothing. */
    predicate Stable()
      reads this, bot
    {
      kind == Toggle || !WouldFire()
    }

    /** A gate one of whose read inputs is its own output channel. */
    predicate FeedsItself()
      reads this
    {
      kind.IsGate() &&
      ((0 < |inChannels| && inChannels[0] == outChannel) ||
       (kind != Not && 1 < |inChannels| && inChannels[1] == outChannel))
    }

    /** The state `ForceUpdate` leaves, relative to the state it started in. */
    twostate predicate ForceUpdated()
      reads this, bot, bot.server
    {
      var input := old(Input(0));
      var log0 := old(bot.server.log);
      match kind
      case Toggle =>
        lastState == old(lastState) && lastUpdate == old(lastUpdate) &&
        bot.channels == old(bot.channels) && bot.dirty == old(bot.dirty) && bot.server.log == log0
      case Lamp =>
        bot.channels == old(bot.channels) && bot.dirty == old(bot.dirty) &&
        bot.server.log == log0 + [SetLight(pos, if input then LightOn else LightOff)] &&
        lastState == Some(input) && lastUpdate == bot.ticks
      case Indicator =>
        bot.channels == old(bot.channels) && bot.dirty == old(bot.dirty) &&
        |signs| == old(|signs|) &&
        bot.server.log == log0 + [SetBlock(pos, Air), SetBlock(pos, if input then IndicatorOn else IndicatorOff)]
                               + SignWrites(pos, signs, |signs|) &&
        lastState == Some(input) && lastUpdate == old(lastUpdate)
      case Door =>
        bot.channels == old(bot.channels) && bot.dirty == old(bot.dirty) &&
        |signs| == old(|signs|) &&
        bot.server.log == log0 +
          (if input then [SetBlock(pos, Air)]
           else (if old(bot.server.Occupied(pos)) then [SetBlock(pos, Air)] else [])
                + [SetBlock(pos, metadata)] + SignWrites(pos, signs, |signs|)) &&
        lastState == Some(input) && lastUpdate == old(lastUpdate)
      case _ =>
        var v := old(GateOutput());
        bot.channels == old(bot.channels)[outChannel := v] &&
        bot.dirty == old(bot.dirty) + {outChannel} &&
        bot.server.log == log0 &&
        lastState == Some(v) && lastUpdate == old(lastUpdate)
    }

    /** The base `update`, overridden per kind: act only on a change of the
        computed state (and, for a Lamp, only after the debounce interval). */
    method Update()
      modifies this`lastState, this`lastUpdate, bot`channels, bot`dirty, bot.server`log
      ensures old(WouldFire()) ==> ForceUpdated()
      ensures !old(WouldFire()) ==> unchanged(this, bot, bot.server)
      ensures old(Stable()) ==> unchanged(this, bot, bot.server)
      ensures !FeedsItself() || kind == And || kind == Or ==> Stable()
      ensures forall c :: c != outChannel ==> bot.Channel(c) == old(bot.Channel(c))
      ensures bot.dirty <= old(bot.dirty) + {outChannel}
      ensures !kind.IsGate() ==> bot.channels == old(bot.channels) && bot.dirty == old(bot.dirty)
      ensures kind.IsGate() ==> bot.server.log == old(bot.server.log)
    {
      if WouldFire() {
        ForceUpdate();
      }
    }

    /** The base `force_update`, overridden per kind. */
    method ForceUpdate()
      modifies this`lastState, this`lastUpdate, bot`channels, bot`dirty, bot.server`log
      ensures ForceUpdated()
    {
      match kind
      case Toggle =>
      case Lamp => LampForceUpdate();
      case Indicator => IndicatorForceUpdate();
      case Door => DoorForceUpdate();
      case _ => GateForceUpdate();
    }

    /** AND, OR, NOT, XOR, NOR and NAND: write the gate's value to the output
        channel, mark that channel for update and remember the value. */
    method GateForceUpdate()
      requires kind.IsGate()
      modifies this`lastState, bot`channels, bot`dirty
      ensures ForceUpdated()
      ensures bot.Channel(outChannel) == old(GateOutput()) && lastState == Some(bot.Channel(outChannel))
    {
      bot.channels := bot.channels[outChannel := GateOutput()];
      bot.MarkChannelForUpdate(outChannel);
      lastState := Some(bot.Channel(outChannel));
    }

    /** Lamp: set the light to full or off, remember the input and the tick. */
    method LampForceUpdate()
      requires kind == Lamp
      modifies this`lastState, this`lastUpdate, bot.server`log
      ensures ForceUpdated()
    {
      bot.server.SetLight(pos, if Input(0) then LightOn else LightOff);
      lastState := Some(Input(0));
      lastUpdate := bot.ticks;
    }

    /** Indicator: clear the block, place the on or off block, redraw the signs. */
    method IndicatorForceUpdate()
      requires kind == Indicator
      modifies this`lastState, bot.server`log
      ensures ForceUpdated()
    {
      bot.server.SetBlock(pos, Air);
      bot.server.SetBlock(pos, if Input(0) then IndicatorOn else IndicatorOff);
      RedrawSigns();
      lastState := Some(Input(0));
    }

    /** Door: an open door clears its block; a closed one clears an occupied
        doorway first, then places the door block and redraws the signs. */
    method DoorForceUpdate()
      requires kind == Door
      modifies this`lastState, bot.server`log
      ensures ForceUpdated()
    {
      if Input(0) {
        bot.server.SetBlock(pos, Air);
      } else {
        if bot.server.Occupied(pos) {
          bot.server.SetBlock(pos, Air);
        }
        bot.server.SetBlock(pos, metadata);
        RedrawSigns();
      }
      lastState := Some(Input(0));
    }

    /** The sign loop: one set_sign per non-empty face, in face order. */
    method RedrawSigns()
      modifies bot.server`log
      ensures bot.server.log == old(bot.server.log) + SignWrites(pos, signs, |signs|)
    {
      var facing := 0;
      while facing < |signs|
        invariant 0 <= facing <= |signs|
        invariant bot.server.log == old(bot.server.log) + SignWrites(pos, signs, facing)
      {
        if |signs[facing]| > 0 {
          bot.server.SetSign(pos, facing, signs[facing]);
        }
        facing := facing + 1;
      }
    }
  }
}
