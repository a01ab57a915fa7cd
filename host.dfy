/** The part of the bot that the logic elements talk to: the shared channel
    store with its dirty marks, the tick counter, and the game server, whose
    world writes are recorded in order in a log instead of being performed. */
module Host {

  /** A block position in the world. */
  datatype Pos = Pos(x: int, y: int, z: int)

  /** One world write issued to the server, in the order it was issued. */
  datatype Effect =
    | SetBlock(pos: Pos, block: int)
    | SetLight(pos: Pos, level: int)
    | SetSign(pos: Pos, face: nat, text: string)

  /** The game server as the elements see it: a block cache they only read,
      and the world writes they issue. */
  class Server {
    var blockCache: map<Pos, int>
    var log: seq<Effect>

    constructor (blockCache: map<Pos, int>)
      ensures this.blockCache == blockCache && log == []
    {
      this.blockCache := blockCache;
      log := [];
    }

    /** Whether something occupies `pos`: a cached block other than air, or
        no cached block at all (an absent entry is not equal to 0). */
    predicate Occupied(pos: Pos)
      reads this
    {
      pos !in blockCache || blockCache[pos] != 0
    }

    method SetBlock(pos: Pos, block: int)
      modifies this`log
      ensures log == old(log) + [Effect.SetBlock(pos, block)]
    {
      log := log + [Effect.SetBlock(pos, block)];
    }

    method SetLight(pos: Pos, level: int)
      modifies this`log
      ensures log == old(log) + [Effect.SetLight(pos, level)]
    {
      log := log + [Effect.SetLight(pos, level)];
    }

    method SetSign(pos: Pos, face: nat, text: string)
      modifies this`log
      ensures log == old(log) + [Effect.SetSign(pos, face, text)]
    {
      log := log + [Effect.SetSign(pos, face, text)];
    }
  }

  /** The bot: boolean channels addressed by index, the set of channels marked
      for update since the scheduler last consumed them, the tick counter and
      the server connection. */
  class Bot {
    var channels: map<nat, bool>
    var dirty: set<nat>
    var ticks: int
    const server: Server

    constructor (server: Server)
      ensures channels == map[] && dirty == {} && ticks == 0 && this.server == server
    {
      channels := map[];
      dirty := {};
      ticks := 0;
      this.server := server;
    }

    /** The value of channel `c`; a channel never written reads as false. */
    function Channel(c: nat): bool
      reads this
    {
      c in channels && channels[c]
    }

    method MarkChannelForUpdate(c: nat)
      modifies this`dirty
      ensures dirty == old(dirty) + {c}
    {
      dirty := dirty + {c};
    }
  }
}
