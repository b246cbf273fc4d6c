/**
 * The galaxy as the elite bot sees it during one turn: planets with their links, the fleets
 * flying towards them and the message values the propagation framework computed for them.
 *
 * The future simulator, the move scoring and the geometric distances belong to code that is
 * not part of this model; they are given as functions carried by the Galaxy value.
 */
module Game {
  import opened Wrappers

  /** Planets are named by their position in the galaxy's planet list. */
  type PlanetId = nat

  /** The kind of a player: the bot itself, an opponent, or nobody. */
  datatype PlayerKind = Allied | Hostile | Neutral

  /** Values of the StatusWinning message. */
  datatype WinStatus = WinningHard | Winning | Even | Losing | LosingHard

  /** Values of the StatusGame message. */
  datatype GameStatus = Early | Mid | Late

  /** What part of the garrison a dump sends (DUMPMOVEPART). */
  const DumpMovePart: int := 1
  /** How far, in multiples of the shortest link, a dump looks for hostile planets (DUMPDISTMULT). */
  const DumpDistMult: int := 3
  /** The number of turns a game lasts (TURNLIMIT). */
  const TurnLimit: int := 500
  /** The weight of the delay in the id of a delayed conquest option. */
  const DelayIdWeight: int := 1000000

  /** A directed link to another planet, `turns` turns of travel away. */
  datatype Link = Link(to: PlanetId, turns: nat)

  /** A fleet: an order the bot proposes, or one already in flight. */
  datatype Move = Move(id: int, from: PlanetId, to: PlanetId, owner: PlayerKind, ships: int, turns: nat)

  /** The order as it is handed back to the caller. */
  datatype OutputMove = OutputMove(from: PlanetId, to: PlanetId, ships: int)

  /** A projected state of a planet: its owner, its garrison and the size of its leading army. */
  datatype Future = Future(owner: PlayerKind, ships: int, leadArmy: int)

  /**
   * A planet with the message values held for it this turn. `requestPassive` is indexed by
   * turn offset; reading past its end is JavaScript's `undefined`.
   */
  datatype Planet = Planet(
    ships: nat,
    owner: PlayerKind,
    links: seq<Link>,
    movesIn: seq<Move>,
    fertility: int,
    pressureLocal: int,
    pressureGlobal: int,
    requestPassive: seq<int>,
    statusGame: GameStatus,
    statusWinning: WinStatus,
    hostileDistance: int)
  {
    /** Every planet this one names lies among the first `n` planets. */
    predicate InRange(n: nat) {
      && (forall l :: l in links ==> l.to < n)
      && (forall m :: m in movesIn ==> m.from < n && m.to < n)
    }
  }

  /**
   * One turn's snapshot together with the collaborators the bot consults:
   * `future(q, t)` is planet q projected t turns ahead, `score` ranks moves,
   * `distance` orders planets by closeness and `realDistance` is the travel time in turns.
   */
  datatype Galaxy = Galaxy(
    turn: nat,
    routingMade: bool,
    planets: seq<Planet>,
    future: (PlanetId, nat) -> Future,
    score: Move -> int,
    distance: (PlanetId, PlanetId) -> int,
    realDistance: (PlanetId, PlanetId) -> nat)
  {
    ghost predicate Valid() {
      forall q :: 0 <= q < |planets| ==> planets[q].InRange(|planets|)
    }
  }

  /** The move a link makes for `ships` ships leaving `from` (Link.toMove). */
  function LinkMove(from: PlanetId, owner: PlayerKind, l: Link, ships: int): Move {
    Move(0, from, l.to, owner, ships, l.turns)
  }

  /** The output form of a move (Move.toOutputMove). */
  function ToOutput(m: Move): OutputMove {
    OutputMove(m.from, m.to, m.ships)
  }

  /** The moves an optional move stands for: none or exactly one. */
  function OptionMoves(m: Option<Move>): seq<Move> {
    if m.Some? then [m.value] else []
  }

  function Min(a: int, b: int): int {
    if a <= b then a else b
  }

  function Max(a: int, b: int): int {
    if a >= b then a else b
  }
}
