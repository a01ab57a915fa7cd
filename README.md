# Logicbot logic elements, in Dafny

Logicbot places logic elements in a block world. Each element reads boolean
channels shared through the bot. A gate writes one output channel. An
actuator writes to the world through the game server. This project models
the element update engine of `lib/logicbot/objects.rb`:

- the ten element classes (Toggle, Lamp, AND, OR, NOT, XOR, Indicator, Door,
  NOR, NAND) as one closed variant `Objects.Kind`;
- their class constants `ID`, `ALWAYS_ON` and `NEEDS_UPDATE_AFTER_BREAK`, and
  the `TYPES` registry;
- the placed element as the class `Objects.Element`. It holds the wiring, the
  metadata, the 24 sign texts, the remembered state `lastState` and a Lamp's
  `lastUpdate`. Its `Update` and `ForceUpdate` methods change that state in
  place.

The bot is the class `Host.Bot`. It holds the channel map, the set of
channels marked for update, and the tick counter. The game server is
`Host.Server`. It holds a block cache that the elements only read. It also
holds a log of the world writes (`SetBlock`, `SetLight`, `SetSign`) in the
order they are issued. The log stands in for the server calls.

`Update` is edge-triggered. It calls `ForceUpdate` only when the value it
computes differs from `lastState`. A Lamp also needs more than 10 ticks since
its last applied change. The two-state predicate `Element.ForceUpdated` says
what `ForceUpdate` leaves behind for each kind:

- a gate writes its boolean function of its inputs to its output channel,
  marks that channel, and remembers the value;
- a Lamp sets the light level;
- an Indicator clears its block and places one of two blocks;
- a Door either clears its block, or clears an occupied doorway and then
  places its metadata block;
- Indicator and a closing Door then redraw every non-empty sign face, in face
  order.

The module `Scenarios` holds short client programs, verified from these
contracts alone: the Lamp debounce boundary, an AND gate that settles (also
when wired to its own output), a self-fed NOT gate that flips on every
update, and the Door's clear-then-place order.

Two points where the code is easy to misread:

- a Lamp applies a change only when strictly more than 10 ticks have passed
  since the last one (`objects.rb:61`, `> 10`);
- a Door treats a position missing from the block cache as occupied
  (`objects.rb:193`), because Ruby's `nil != 0` is true.

## Model

| member | source | states |
|---|---|---|
| `Objects.Id` | lib/logicbot/objects.rb:42 | Every kind's `ID` (lines 42, 49, 74, 93, 112, 131, 150, 177, 211, 230) is below the number of kinds, ten. |
| `Objects.IdInjective` | lib/logicbot/objects.rb:42 | Two kinds with the same `ID` are the same kind, so the ids are exactly 0 to 9, one per kind. |
| `Objects.AlwaysOn` | lib/logicbot/objects.rb:22 | `ALWAYS_ON` is true on the base class and false for Toggle, Lamp, Indicator and Door (lines 45, 53, 154, 181). It holds exactly for the six gates. |
| `Objects.NeedsUpdateAfterBreak` | lib/logicbot/objects.rb:21 | `NEEDS_UPDATE_AFTER_BREAK` is false on the base class and true for Lamp, Indicator and Door (lines 52, 153, 180). It holds exactly for the actuators. |
| `Objects.TypesRegistry` | lib/logicbot/objects.rb:248-259 | `TYPES` has ten names. |
| `Objects.TypesInjective` | lib/logicbot/objects.rb:248-259 | No two names in `TYPES` map to the same kind. |
| `Objects.TypesIdsDistinct` | lib/logicbot/objects.rb:248-259 | No two names in `TYPES` map to kinds with the same id. |
| `Objects.TypesCoverAllKinds` | lib/logicbot/objects.rb:248-259 | Every one of the ten kinds is in `TYPES`. |
| `Objects.GateValue` | lib/logicbot/objects.rb:80-86 | The boolean function each gate computes, in its `update` test and in its `force_update`: AND a∧b (lines 80, 86), OR a∨b (99, 105), NOT ¬a (118, 124), XOR a⊕b (137, 143), NOR ¬(a∨b) (217, 223), NAND ¬(a∧b) (236, 242). |
| `Objects.SelfFedGateSettles` | lib/logicbot/objects.rb:86-88 | For a gate whose first input is its own output channel, recomputing from the value just written gives that value again exactly for AND and OR, for XOR and NAND when the other input is false, and for NOR when it is true; NOT never settles. |
| `Objects.LampFires` | lib/logicbot/objects.rb:61 | A Lamp's update acts when the input differs from the remembered state and the tick count exceeds the last applied tick by strictly more than 10. |
| `Objects.Element.Input` | lib/logicbot/objects.rb:80 | An element's i-th input is the value of its i-th wired channel; an input index past the wired channels reads false. |
| `Host.Bot.Channel` | lib/logicbot/objects.rb:86 | Reading `@bot.channels[c]`: the stored value, or false for a channel never written. |
| `Host.Server.Occupied` | lib/logicbot/objects.rb:193 | `block_cache[@pos] != 0`: the doorway counts as occupied when its cached block is not air, and also when the position is not in the cache at all. |
| `Objects.LampDebounceBoundary` | lib/logicbot/objects.rb:61 | Take a Lamp whose input differs from its remembered state. A change exactly 10 ticks after the last applied one is suppressed. A change 11 ticks after is applied. |
| `Objects.LampFirstUpdate` | lib/logicbot/objects.rb:57-61 | A new Lamp starts with `last_update = -10`. It applies its first change exactly when the tick count is positive. |
| `Objects.SignWritesSound` | lib/logicbot/objects.rb:166-170 | Every call of the sign loop is a `set_sign` at the element's position. It is for a face that has non-empty text, and it carries that text. |
| `Objects.SignWritesAscending` | lib/logicbot/objects.rb:166-170 | The sign loop writes faces in strictly ascending order, so it writes no face twice. |
| `Objects.SignWritesComplete` | lib/logicbot/objects.rb:199-203 | Every non-empty face gets its `set_sign` call. |
| `Objects.SignWritesCount` | lib/logicbot/objects.rb:166-170 | The sign loop makes exactly as many calls as there are non-empty faces. Empty faces produce none. |
| `Objects.Element.constructor` | lib/logicbot/objects.rb:25-34 | A new element keeps its wiring, its `needs_update` flag and its metadata. It has 24 empty sign texts and no remembered state. A Lamp starts with `last_update = -10` (line 57). |
| `Objects.Element.Update` | lib/logicbot/objects.rb:36-239 | Covers the base update (line 36) and the overrides (lines 60-64, 79-83, 98-102, 117-121, 136-140, 156-160, 183-187, 216-220, 235-239). `ForceUpdate` runs exactly when the computed value differs from `lastState`; a Lamp also needs more than 10 ticks since its last change. Otherwise channels, dirty set, log and element state are all unchanged. Channels other than the output channel never change. Only the output channel is marked. Actuators and Toggle write no channel, and gates issue no world write. Afterwards the element is stable (a repeated `Update` changes nothing) when it is not a gate reading its own output channel, and always for AND and OR. |
| `Objects.Element.ForceUpdate` | lib/logicbot/objects.rb:38-245 | Dispatches to the per-kind `force_update` (Toggle's base one does nothing) and leaves the state `ForceUpdated` describes. |
| `Objects.Element.GateForceUpdate` | lib/logicbot/objects.rb:85-88 | Sets the output channel to the gate's function of the old inputs, and changes no other channel. Covers lines 86, 105, 124, 143, 223 and 242: AND a∧b, OR a∨b, NOT ¬a, XOR a⊕b, NOR ¬(a∨b), NAND ¬(a∧b). Adds the output channel to the dirty set and issues no world write. Afterwards `lastState` equals the output channel's value. |
| `Objects.Element.LampForceUpdate` | lib/logicbot/objects.rb:66-70 | Issues exactly one `set_light`: level 15 for a true input, 0 for false. Sets `lastState` to the input and `lastUpdate` to the current tick. Writes no channel. |
| `Objects.Element.IndicatorForceUpdate` | lib/logicbot/objects.rb:162-173 | Issues, in order: `set_block(pos, 0)`; `set_block(pos, 34)` for a true input or `set_block(pos, 43)` for false; then the sign loop's calls. Sets `lastState` to the input. Writes no channel. |
| `Objects.Element.DoorForceUpdate` | lib/logicbot/objects.rb:189-207 | With a true input, issues exactly one `set_block(pos, 0)` and no sign write. With a false input, issues in order: `set_block(pos, 0)` only if the doorway is occupied, then `set_block(pos, metadata)`, then the sign loop's calls. Sets `lastState` to the input in both cases. |
| `Objects.Element.RedrawSigns` | lib/logicbot/objects.rb:199-203 | The `each_with_index` loop appends exactly the sign loop's calls for all faces to the log. |
| `Host.Server.SetBlock` | lib/logicbot/objects.rb:163 | A `set_block` call appends exactly that write to the log. |
| `Host.Server.SetLight` | lib/logicbot/objects.rb:67 | A `set_light` call appends exactly that write to the log. |
| `Host.Server.SetSign` | lib/logicbot/objects.rb:168 | A `set_sign` call appends exactly that write to the log. |
| `Host.Bot.MarkChannelForUpdate` | lib/logicbot/objects.rb:87 | Marking a channel adds it, and only it, to the dirty set. |

## Left out

- The per-tick scheduler, the player-presence check and the update after a structure is broken are not part of this model. They live in the bot, outside `objects.rb`. They only read `ALWAYS_ON` and `NEEDS_UPDATE_AFTER_BREAK`, which are modelled.
- World I/O (`set_block`, `set_light`, `set_sign`) is modelled as appends to a log, not as world state. The block cache is a map supplied by the host that the elements only read.
- `mark_channel_for_update` is modelled as adding the channel to a set; how the bot consumes that set is not modelled.
- `PARAMS`, `PARAM_FORMAT` and `COLOUR` are left out: nothing in the element logic reads them, only the structure builder and the renderer.
- Ruby `nil` is not modelled. A channel that was never written reads as false, and an input index past the wired channels reads as false. `lastState` is `None` until the first `ForceUpdate`. In Ruby an unset channel is `nil` and `nil != nil` is false, so an actuator whose input was never set does not fire on its first update. In the model the first update fires, because `None` differs from `Some(false)`. Likewise `nil and x` yields `nil`, not `false`.
- `Objects.Element.Update`: stability after one update (a repeated `Update` changes nothing) is promised for every element except a NOT, XOR, NOR or NAND gate that reads its own output channel, because such a gate need not settle. With one input wired to its output, NOT always flips on every update, XOR and NAND flip when the other input is true, and NOR flips when the other input is false (`Objects.SelfFedGateSettles`); AND and OR settle, and `Update` states that for them.
- The `needs_update` accessor is stored but not modelled further, because no code in `objects.rb` reads it.
