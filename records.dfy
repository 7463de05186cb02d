/**
 * The lineup records the backend delivers, one per scenario (best lineup of the
 * drafted roster, best lineup of the actual roster, lineup actually started).
 * Python dicts are ordered, so each dict is an association list in insertion
 * order; the backend's JSON never repeats a key.
 */
module Records {
  import opened Wrappers
  import Numbers

  datatype Player = Player(name: string, points: real)

  /** `starters`: position name -> the players started there, in dict order. */
  type Starters = seq<(string, seq<Player>)>

  /** One week of a record; `starters` is None when the entry has no "starters" key. */
  datatype WeekEntry = WeekEntry(starters: Option<Starters>)

  /** A lineup record: week key, as text, -> that week's entry. */
  type LineupRecord = seq<(string, WeekEntry)>

  /** The ways the source's computations on a record raise. */
  datatype DataError =
    | NotAWeekNumber(key: string)   // `int(key)` raises ValueError
    | MissingStarters(key: string)  // `data["starters"]` raises KeyError
    | NoWeeks                       // division by the number of weeks raises ZeroDivisionError

  /** The points of every starter, position by position, in dict order. */
  function StartersPoints(st: Starters): (ps: seq<real>)
  {
    if st == [] then []
    else PlayerPoints(st[0].1) + StartersPoints(st[1..])
  }

  function PlayerPoints(players: seq<Player>): (ps: seq<real>)
    ensures |ps| == |players|
    ensures forall k :: 0 <= k < |ps| ==> ps[k] == players[k].points
  {
    if players == [] then [] else [players[0].points] + PlayerPoints(players[1..])
  }

  /** `sum(player["points"] for position in starters.values() for player in position)` */
  function StartersTotal(st: Starters): real
  {
    Numbers.Sum(StartersPoints(st))
  }

  /** The total is the sum of the per-position subtotals. */
  lemma {:induction false} StartersTotalByPosition(st: Starters)
    ensures st != [] ==> StartersTotal(st) == Numbers.Sum(PlayerPoints(st[0].1)) + StartersTotal(st[1..])
    ensures st == [] ==> StartersTotal(st) == 0.0
  {
    if st != [] {
      Numbers.SumAppend(PlayerPoints(st[0].1), StartersPoints(st[1..]));
    }
  }

  /** `key in record` and `record[key]`. */
  function Find(r: LineupRecord, key: string): (o: Option<WeekEntry>)
    ensures o.Some? <==> exists i :: 0 <= i < |r| && r[i].0 == key
    ensures o.Some? ==> exists i :: 0 <= i < |r| && r[i] == (key, o.value)
  {
    if r == [] then None
    else if r[0].0 == key then Some(r[0].1)
    else
      var o := Find(r[1..], key);
      assert o.Some? ==> exists i :: 0 <= i < |r[1..]| && r[1..][i] == (key, o.value);
      o
  }
}
