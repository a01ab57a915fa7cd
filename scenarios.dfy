/** Short client programs, verified from the contracts of `Element.Update`
    alone: what the world and the channels see after a few updates. */
module Scenarios {
  import opened Host
  import opened Objects

  /** A Lamp flipped at tick 20, again at 25 and 30, and once more at 31:
      the flips 5 and exactly 10 ticks after the applied one are suppressed,
      the one 11 ticks after is applied. */
  method LampDebounce() {
    var p := Pos(0, 64, 0);
    var server := new Server(map[]);
    var bot := new Bot(server);
    var lamp := new Element(bot, Lamp, p, [7], 0);

    bot.ticks := 20;
    bot.channels := bot.channels[7 := true];
    lamp.Update();
    assert server.log == [SetLight(p, LightOn)];

    bot.ticks := 25;
    bot.channels := bot.channels[7 := false];
    lamp.Update();
    assert server.log == [SetLight(p, LightOn)];

    bot.ticks := 30;
    lamp.Update();
    assert server.log == [SetLight(p, LightOn)];

    bot.ticks := 31;
    lamp.Update();
    assert server.log == [SetLight(p, LightOn), SetLight(p, LightOff)];
  }

  /** An AND gate writes and marks its output once; a second update with the
      same inputs changes nothing. */
  method AndSettles() {
    var server := new Server(map[]);
    var bot := new Bot(server);
    var gate := new Element(bot, And, Pos(1, 64, 0), [1, 2], 3);
    bot.channels := map[1 := true, 2 := true];

    gate.Update();
    assert bot.Channel(3) && bot.dirty == {3};

    gate.Update();
    assert bot.Channel(3) && bot.dirty == {3} && gate.lastState == Some(true);
  }

  /** An AND gate wired to its own output still settles after one update. */
  method SelfFedAndSettles() {
    var server := new Server(map[]);
    var bot := new Bot(server);
    var gate := new Element(bot, And, Pos(5, 64, 0), [5, 6], 5);
    bot.channels := map[5 := true, 6 := true];

    gate.Update();
    assert bot.Channel(5) && gate.Stable();
    gate.Update();
    assert bot.Channel(5) && gate.lastState == Some(true);
  }

  /** A NOT gate wired to its own output is not idempotent: every update
      flips its channel. */
  method NotOscillates() {
    var server := new Server(map[]);
    var bot := new Bot(server);
    var gate := new Element(bot, Not, Pos(2, 64, 0), [5], 5);

    gate.Update();
    assert bot.Channel(5);
    gate.Update();
    assert !bot.Channel(5);
    gate.Update();
    assert bot.Channel(5);
  }

  /** Closing a Door over an occupied doorway clears it before placing the
      door block, then redraws the signs. */
  method DoorClosesOverOccupiedDoorway() {
    var p := Pos(3, 64, 0);
    var server := new Server(map[p := 1]);
    var bot := new Bot(server);
    var door := new Element(bot, Door, p, [9], 0, false, 64);
    bot.channels := map[9 := false];
    door.Update();
    assert server.log == [SetBlock(p, Air), SetBlock(p, 64)] + SignWrites(p, door.signs, |door.signs|);
  }

  /** Opening a Door writes air and nothing else; closing it over an empty
      doorway places the door block directly, then redraws the signs. */
  method DoorOpensAndCloses() {
    var p := Pos(4, 64, 0);
    var server := new Server(map[p := 0]);
    var bot := new Bot(server);
    var door := new Element(bot, Door, p, [9], 0, false, 64);
    bot.channels := map[9 := true];
    door.Update();
    assert server.log == [SetBlock(p, Air)];

    bot.channels := map[9 := false];
    door.Update();
    assert server.log == [SetBlock(p, Air), SetBlock(p, 64)] + SignWrites(p, door.signs, |door.signs|);
  }
}
