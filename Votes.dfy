/** The per-view vote that StoryCard and the Story page keep: no vote, up
    or down, with toggle semantics, and the count it makes them display. */
module Votes {

  datatype Direction = Up | Down

  /** `'up' | 'down' | null`. */
  datatype Vote = NoVote | Cast(direction: Direction)

  function Opposite(d: Direction): Direction
  {
    if d == Up then Down else Up
  }

  /** `handleVote(d)`: `userVote === d ? null : d`. */
  function Toggle(v: Vote, d: Direction): (r: Vote)
    ensures r == NoVote <==> v == Cast(d)
    ensures r != NoVote ==> r == Cast(d)
  {
    if v == Cast(d) then NoVote else Cast(d)
  }

  /** `upvotes + (up ? 1 : down ? -1 : 0)`. */
  function DisplayedCount(upvotes: int, v: Vote): (n: int)
    ensures upvotes - 1 <= n <= upvotes + 1
    ensures n == upvotes + 1 <==> v == Cast(Up)
    ensures n == upvotes - 1 <==> v == Cast(Down)
    ensures n == upvotes <==> v == NoVote
  {
    upvotes + match v
              case Cast(Up) => 1
              case Cast(Down) => -1
              case NoVote => 0
  }

  /** The theme colours the arrows are drawn in. */
  datatype Color = Orange500 | Blue500 | Gray400

  /** The colour of the arrow for direction `d`: orange for up and blue for
      down when that vote is cast, grey otherwise. */
  function ArrowColor(v: Vote, d: Direction): (c: Color)
    ensures c != Gray400 <==> v == Cast(d)
    ensures c == Orange500 <==> v == Cast(Up) && d == Up
    ensures c == Blue500 <==> v == Cast(Down) && d == Down
  {
    if v != Cast(d) then Gray400
    else match d
      case Up => Orange500
      case Down => Blue500
  }

  /** Voting the active direction clears it; voting from no vote or from the
      other direction casts `d` at once, with no intermediate clear. */
  lemma ToggleCases(d: Direction)
    ensures Toggle(Cast(d), d) == NoVote
    ensures Toggle(NoVote, d) == Cast(d)
    ensures Toggle(Cast(Opposite(d)), d) == Cast(d)
  {
  }

  /** Voting the same direction twice restores the state, unless the state
      was the other direction ... */
  lemma ToggleTwice(v: Vote, d: Direction)
    requires v != Cast(Opposite(d))
    ensures Toggle(Toggle(v, d), d) == v
  {
  }

  /** ... in which case it ends with no vote: down, then up twice, is none. */
  lemma ToggleTwiceFromOpposite(d: Direction)
    ensures Toggle(Toggle(Cast(Opposite(d)), d), d) == NoVote
    ensures NoVote != Cast(Opposite(d))
  {
  }

  /** Starting from no vote: up shows base+1, up again shows base, and
      down straight after up shows base-1. */
  lemma VotingScenario(upvotes: int)
    ensures DisplayedCount(upvotes, Toggle(NoVote, Up)) == upvotes + 1
    ensures DisplayedCount(upvotes, Toggle(Toggle(NoVote, Up), Up)) == upvotes
    ensures DisplayedCount(upvotes, Toggle(Toggle(NoVote, Up), Down)) == upvotes - 1
  {
  }

  /** The vote after a sequence of clicks. */
  function Replay(v: Vote, clicks: seq<Direction>): Vote
  {
    if clicks == [] then v else Toggle(Replay(v, clicks[..|clicks| - 1]), clicks[|clicks| - 1])
  }

  /** How many of the last clicks are in the last click's direction. */
  function TrailingRun(clicks: seq<Direction>): (n: nat)
    requires clicks != []
    ensures 1 <= n <= |clicks|
  {
    if |clicks| == 1 || clicks[|clicks| - 2] != clicks[|clicks| - 1] then 1
    else TrailingRun(clicks[..|clicks| - 1]) + 1
  }

  /** From no vote, only the last run of clicks in one direction matters:
      an odd run leaves that vote cast, an even run leaves no vote. */
  lemma {:induction false} ReplayFromNoVote(clicks: seq<Direction>)
    requires clicks != []
    ensures Replay(NoVote, clicks)
         == if TrailingRun(clicks) % 2 == 1 then Cast(clicks[|clicks| - 1]) else NoVote
  {
    var init := clicks[..|clicks| - 1];
    var d := clicks[|clicks| - 1];
    if init != [] {
      ReplayFromNoVote(init);
      assert init[|init| - 1] == clicks[|clicks| - 2];
    }
  }
}
