/** The tri-state vote that posts and comments share, and the toggle rule both cards apply. */
module Votes {

  /** A vote as a card holds it. The app keeps it as a nullable string: `null` is NoVote,
      "UPVOTE" and "DOWNVOTE" are the two directions, and any other string the server
      might deliver is Unrecognized. */
  datatype VoteState = NoVote | Upvote | Downvote | Unrecognized

  /** The direction a user asks for. The cards only ever request these two, never "no vote". */
  datatype Direction = Up | Down

  /** What a card displays for one votable: the user's vote and the score. */
  datatype VoteView = VoteView(vote: VoteState, score: int)

  /** The outcome of the toggle rule: the next vote and the change in score. */
  datatype Step = Step(next: VoteState, delta: int)

  predicate Known(v: VoteState) {
    v != Unrecognized
  }

  function Requested(d: Direction): VoteState {
    if d == Up then Upvote else Downvote
  }

  /** The part of the score that is the user's own vote. */
  function Contribution(v: VoteState): int
    requires Known(v)
  {
    match v
    case Upvote => 1
    case Downvote => -1
    case NoVote => 0
  }

  /** The score without the user's own vote: what everyone else contributed. */
  function OthersScore(v: VoteView): int
    requires Known(v.vote)
  {
    v.score - Contribution(v.vote)
  }

  /** Toggle semantics: asking for the active direction clears the vote, asking for the other
      direction (or voting afresh) sets it; the score moves by exactly the change in the user's
      own contribution. */
  function Transition(cur: VoteState, d: Direction): (r: Step)
    requires Known(cur)
    ensures Known(r.next) && r.next != cur
    ensures r.next == NoVote <==> cur == Requested(d)
    ensures r.next != NoVote ==> r.next == Requested(d)
    ensures r.delta in {-2, -1, 1, 2}
  {
    var next := if cur == Requested(d) then NoVote else Requested(d);
    Step(next, Contribution(next) - Contribution(cur))
  }

  /** The displayed pair after one toggle. */
  function Apply(v: VoteView, d: Direction): (r: VoteView)
    requires Known(v.vote)
    ensures Known(r.vote) && r.vote != v.vote && r.score != v.score
    ensures OthersScore(r) == OthersScore(v)
  {
    var s := Transition(v.vote, d);
    VoteView(s.next, v.score + s.delta)
  }

  function Opposite(d: Direction): Direction {
    if d == Up then Down else Up
  }

  /** Requesting the same direction twice in a row returns to the original pair exactly when
      the card did not start on the opposite vote. From the opposite vote the first request
      switches it and the second clears it, leaving the vote empty and the score one step
      towards the requested direction. */
  lemma ToggleTwice(v: VoteView, d: Direction)
    requires Known(v.vote)
    ensures Apply(Apply(v, d), d) == v <==> v.vote != Requested(Opposite(d))
    ensures v.vote == Requested(Opposite(d)) ==>
              Apply(Apply(v, d), d) == VoteView(NoVote, v.score + Contribution(Requested(d)))
  {
    var once := Transition(v.vote, d);
    var twice := Transition(once.next, d);
    if v.vote == Requested(d) {
      assert once.next == NoVote;
      assert twice.next == Requested(d);
    } else {
      assert once.next == Requested(d);
      assert twice.next == NoVote;
    }
  }
}
