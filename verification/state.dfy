/** The snapshot of a running game: its level, its current actors and its status. */
module States {
  import opened Wrappers
  import Actors
  import Levels

  datatype Status = Playing | Lost | Won {
    function Name(): string {
      match this
      case Playing => "playing"
      case Lost => "lost"
      case Won => "won"
    }
  }

  predicate IsPlayer(a: Actors.Actor) {
    a.Type() == "player"
  }

  /** `actors.find(a => a.type === "player")`, as the index it stops at. */
  function PlayerIndex(actors: seq<Actors.Actor>): (r: Option<nat>)
    ensures r.None? <==> forall j :: 0 <= j < |actors| ==> !IsPlayer(actors[j])
    ensures r.Some? ==> r.value < |actors| && IsPlayer(actors[r.value])
    ensures r.Some? ==> forall j :: 0 <= j < r.value ==> !IsPlayer(actors[j])
  {
    if actors == [] then None
    else if IsPlayer(actors[0]) then Some(0)
    else
      match PlayerIndex(actors[1..])
      case Some(i) => Some(i + 1)
      case None => None
  }

  datatype State = State(level: Levels.Level, actors: seq<Actors.Actor>, status: Status) {

    /** `State.start`: the level's own start actors, and the game is playing. */
    static function Start(level: Levels.Level): (s: State)
      ensures s.level == level && s.actors == level.startActors && s.status == Playing
      ensures s.status.Name() == "playing"
    {
      State(level, level.startActors, Playing)
    }

    /** The `player` getter: the first actor whose type is "player", or `undefined`. */
    function Player(): (r: Option<Actors.Actor>)
      ensures r.None? <==> forall j :: 0 <= j < |actors| ==> !IsPlayer(actors[j])
      ensures r.Some? ==> r.value.Player?
      ensures r.Some? ==> exists k :: (0 <= k < |actors| && actors[k] == r.value
                                       && forall j :: 0 <= j < k ==> !IsPlayer(actors[j]))
    {
      match PlayerIndex(actors)
      case Some(i) => Some(actors[i])
      case None => None
    }
  }

  /** A started game finds its player among the level's start actors, the first one in scan order. */
  lemma StartPlayer(level: Levels.Level)
    ensures var p := State.Start(level).Player();
      && (p.None? <==> forall a :: a in level.startActors ==> !a.Player?)
      && (p.Some? ==> p.value in level.startActors)
  {
    var p := State.Start(level).Player();
    if p.None? {
      forall a | a in level.startActors ensures !a.Player? {
        var k :| 0 <= k < |level.startActors| && level.startActors[k] == a;
      }
    }
  }
}
