/** One comment card: its optimistic vote controller (handleVote and safeVote) and its
    press gesture. Every card owns its own remembered state. */
module CommentCards {
  import opened Wrappers
  import opened Votes

  /** How long, in milliseconds, a press must be held to toggle collapse. */
  const HoldDuration: int := 400

  /** The state a comment card remembers: vote and score, whether its replies are
      collapsed, whether its action menu is open. */
  datatype CardView = CardView(voted: VoteView, collapsed: bool, actionMenu: bool)

  /** The state a card is composed with: the server's vote and score, expanded, menu closed. */
  function InitialCard(server: VoteView): (c: CardView)
    ensures c.voted == server && !c.collapsed && !c.actionMenu
  {
    CardView(server, false, false)
  }

  /** A vote as handleVote launches it: the requested direction and the vote and score it
      captured from the card when the user acted. */
  datatype Launch = Launch(request: Direction, captured: VoteView)

  /** The arguments safeVote holds while the remote call is in flight. */
  datatype SafeVoteCall = SafeVoteCall(from: VoteState, to: Direction, optimisticScore: int)

  /** One call of the remote vote function. */
  datatype RemoteVote = RemoteVote(commentId: string, direction: Direction)

  /** The displayed pair once a launched vote has run its optimistic step: the toggle rule
      applied to the captured pair. An unrecognised captured vote matches no branch and
      leaves the display as it is. */
  function AfterLaunch(now: VoteView, job: Launch): VoteView {
    if Known(job.captured.vote) then Apply(job.captured, job.request) else now
  }

  /** The safeVote call a launched vote makes: the captured vote, the requested direction
      and the optimistic score (the captured score when no branch matched). */
  function CallFor(job: Launch): SafeVoteCall {
    var optimistic := if Known(job.captured.vote) then Apply(job.captured, job.request).score
                      else job.captured.score;
    SafeVoteCall(job.captured.vote, job.request, optimistic)
  }

  /** The displayed pair once the remote call of `call` has answered. On failure the captured
      vote is put back and the score is recomputed from the optimistic score held by the call,
      whatever the card shows by then. */
  function AfterSafeVote(now: VoteView, call: SafeVoteCall, success: bool): VoteView {
    if success || !Known(call.from) then now
    else VoteView(call.from, call.optimisticScore - Transition(call.from, call.to).delta)
  }

  /** Rollback is snapshot-style: a failed call restores exactly the pair it captured, no
      matter what the card displays when the failure arrives. */
  lemma RollbackRestoresSnapshot(now: VoteView, job: Launch)
    requires Known(job.captured.vote)
    ensures AfterSafeVote(now, CallFor(job), false) == job.captured
  {
  }

  /** A vote that fails with nothing in between returns the card to its pre-vote pair, for
      every starting pair. */
  lemma FailureRightAfterRestores(v: VoteView, d: Direction)
    ensures AfterSafeVote(AfterLaunch(v, Launch(d, v)), CallFor(Launch(d, v)), false) == v
  {
  }

  /** On success nothing changes after the optimistic step. */
  lemma SuccessKeepsOptimistic(v: VoteView, d: Direction)
    requires Known(v.vote)
    ensures AfterSafeVote(AfterLaunch(v, Launch(d, v)), CallFor(Launch(d, v)), true) == Apply(v, d)
  {
  }

  /** Two votes run one after the other; the first fails while the second is still in
      flight. The snapshot of the first is restored, wiping the second vote from the display. */
  lemma StaleFailureRestoresOriginal(v: VoteView, d1: Direction, d2: Direction)
    requires Known(v.vote)
    ensures var w1 := AfterLaunch(v, Launch(d1, v));
            var w2 := AfterLaunch(w1, Launch(d2, w1));
            AfterSafeVote(w2, CallFor(Launch(d1, v)), false) == v
  {
  }

  /** Both votes fail, in the order they were issued: the card ends on the optimistic pair of
      the first vote, which the server rejected. The pair is still consistent (everyone else's
      score is unchanged) but it is not the original one. */
  lemma FailuresInIssueOrder(v: VoteView, d1: Direction, d2: Direction)
    requires Known(v.vote)
    ensures var j1 := Launch(d1, v);
            var w1 := AfterLaunch(v, j1);
            var j2 := Launch(d2, w1);
            var w2 := AfterLaunch(w1, j2);
            var r := AfterSafeVote(AfterSafeVote(w2, CallFor(j1), false), CallFor(j2), false);
            r == Apply(v, d1) && r != v && OthersScore(r) == OthersScore(v)
  {
  }

  /** Both votes fail, the later one first: the card returns to the original pair. */
  lemma FailuresInReverseOrder(v: VoteView, d1: Direction, d2: Direction)
    requires Known(v.vote)
    ensures var j1 := Launch(d1, v);
            var w1 := AfterLaunch(v, j1);
            var j2 := Launch(d2, w1);
            var w2 := AfterLaunch(w1, j2);
            AfterSafeVote(AfterSafeVote(w2, CallFor(j2), false), CallFor(j1), false) == v
  {
  }

  /** Two taps in the same direction made before the first launched vote has run both capture
      the same pair, so the display changes once, where two sequential taps would cancel out. */
  lemma TapsBeforeDispatchShareSnapshot(v: VoteView, d: Direction)
    requires Known(v.vote)
    ensures var job := Launch(d, v);
            AfterLaunch(AfterLaunch(v, job), job) == Apply(v, d) != v
  {
  }

  /** The effect of one press on a card, given how long it was held and whether it ended in a
      release (rather than a cancelled gesture). A hold of at least HoldDuration toggles collapse
      (the delayed job fires); a shorter press that is released toggles the action menu. */
  function PressEffect(c: CardView, heldMs: int, released: bool): (r: CardView)
    ensures r.voted == c.voted
    ensures r.collapsed != c.collapsed <==> heldMs >= HoldDuration
    ensures r.actionMenu != c.actionMenu <==> released && heldMs < HoldDuration
  {
    if heldMs >= HoldDuration then c.(collapsed := !c.collapsed)
    else if released then c.(actionMenu := !c.actionMenu)
    else c
  }

  /** The same press twice leaves the card as it was: collapsing then expanding restores it. */
  lemma PressTwiceRestores(c: CardView, heldMs: int, released: bool)
    ensures PressEffect(PressEffect(c, heldMs, released), heldMs, released) == c
  {
  }

  /** The remembered state of one comment card. The id and the login flag are fixed for the
      card's lifetime; `sent` records the remote vote calls the card has made, in order. */
  class CommentCard {
    const id: string
    const isLoggedIn: bool
    var vote: VoteState
    var score: int
    var collapsed: bool
    var actionMenu: bool
    var showLoginDialog: bool
    var sent: seq<RemoteVote>

    /** A card as it is first composed from a server comment: expanded, menu closed. */
    constructor (id: string, vote: VoteState, score: int, isLoggedIn: bool)
      ensures this.id == id && this.isLoggedIn == isLoggedIn
      ensures View() == InitialCard(VoteView(vote, score))
      ensures !showLoginDialog && sent == []
    {
      this.id := id;
      this.isLoggedIn := isLoggedIn;
      this.vote := vote;
      this.score := score;
      collapsed := false;
      actionMenu := false;
      showLoginDialog := false;
      sent := [];
    }

    function Voted(): VoteView
      reads this
    {
      VoteView(vote, score)
    }

    function View(): CardView
      reads this
    {
      CardView(Voted(), collapsed, actionMenu)
    }

    /** The user asks for direction `d`. Logged out, only the login prompt is raised; no vote or
        score is written and nothing is launched. Logged in, a vote is launched that carries the
        current pair; the card itself does not change until the launched vote runs. */
    method HandleVote(d: Direction) returns (job: Option<Launch>)
      modifies this`showLoginDialog
      ensures !isLoggedIn ==> job == None && showLoginDialog
      ensures isLoggedIn ==> job == Some(Launch(d, Voted())) && showLoginDialog == old(showLoginDialog)
    {
      if !isLoggedIn {
        showLoginDialog := true;
        return None;
      }
      job := Some(Launch(d, Voted()));
    }

    /** The launched vote runs: it publishes the optimistic pair computed from the captured one
        and issues the remote call with the card's id and the requested direction. */
    method RunVote(job: Launch) returns (call: SafeVoteCall)
      modifies this`vote, this`score, this`sent
      ensures Voted() == AfterLaunch(old(Voted()), job)
      ensures call == CallFor(job)
      ensures sent == old(sent) + [RemoteVote(id, job.request)]
    {
      var current, currentScore := job.captured.vote, job.captured.score;
      var optimisticScore := currentScore;
      if job.request == Up {
        match current
        case Upvote =>
          optimisticScore := currentScore - 1;
          vote := NoVote;
          score := optimisticScore;
        case Downvote =>
          optimisticScore := currentScore + 2;
          vote := Upvote;
          score := optimisticScore;
        case NoVote =>
          optimisticScore := currentScore + 1;
          vote := Upvote;
          score := optimisticScore;
        case Unrecognized =>
      }
      if job.request == Down {
        match current
        case Upvote =>
          optimisticScore := currentScore - 2;
          vote := Downvote;
          score := optimisticScore;
        case Downvote =>
          optimisticScore := currentScore + 1;
          vote := NoVote;
          score := optimisticScore;
        case NoVote =>
          optimisticScore := currentScore - 1;
          vote := Downvote;
          score := optimisticScore;
        case Unrecognized =>
      }
      sent := sent + [RemoteVote(id, job.request)];
      call := SafeVoteCall(current, job.request, optimisticScore);
    }

    /** The remote call of `call` answers. On success nothing is written; on failure the vote
        the call captured is put back and the score is recomputed from its optimistic score. */
    method CompleteSafeVote(call: SafeVoteCall, success: bool)
      modifies this`vote, this`score
      ensures Voted() == AfterSafeVote(old(Voted()), call, success)
    {
      if !success {
        match call.from
        case Upvote =>
          vote := Upvote;
          match call.to {
          case Up => score := call.optimisticScore + 1;
          case Down => score := call.optimisticScore + 2;
          }
        case Downvote =>
          vote := Downvote;
          match call.to {
          case Up => score := call.optimisticScore - 2;
          case Down => score := call.optimisticScore - 1;
          }
        case NoVote =>
          vote := NoVote;
          match call.to {
          case Up => score := call.optimisticScore - 1;
          case Down => score := call.optimisticScore + 1;
          }
        case Unrecognized =>
      }
    }

    /** One press on the card, held for `heldMs` milliseconds. */
    method Press(heldMs: int, released: bool)
      modifies this`collapsed, this`actionMenu
      ensures View() == PressEffect(old(View()), heldMs, released)
    {
      if heldMs >= HoldDuration {
        collapsed := !collapsed;
      }
      if released && heldMs < HoldDuration {
        actionMenu := !actionMenu;
      }
    }
  }

  /** The three single-card walks through the controller: an upvote that fails, a switch from
      upvote to downvote that succeeds, and an un-downvote. */
  method CardScenarios() returns (failedUp: VoteView, committedDown: VoteView, undone: VoteView)
    ensures failedUp == VoteView(NoVote, 10)
    ensures committedDown == VoteView(Downvote, 8)
    ensures undone == VoteView(NoVote, 6)
  {
    var a := new CommentCard("a", NoVote, 10, true);
    var ja := a.HandleVote(Up);
    var ca := a.RunVote(ja.value);
    assert a.Voted() == VoteView(Upvote, 11);
    a.CompleteSafeVote(ca, false);
    failedUp := a.Voted();

    var b := new CommentCard("b", Upvote, 10, true);
    var jb := b.HandleVote(Down);
    var cb := b.RunVote(jb.value);
    b.CompleteSafeVote(cb, true);
    committedDown := b.Voted();

    var c := new CommentCard("c", Downvote, 5, true);
    var jc := c.HandleVote(Down);
    var cc := c.RunVote(jc.value);
    undone := c.Voted();
  }
}
