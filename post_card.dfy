/** One post card: its optimistic vote handlers (onUpvote, onDownvote and handleVote) and
    the pure rules its header and text follow. */
module PostCards {
  import opened Wrappers
  import opened Votes

  /** The rollback a handler hands to handleVote: add `scoreDelta` to the score as it reads
      when the failure arrives, then set the vote to `restore`. */
  datatype OnError = OnError(scoreDelta: int, restore: VoteState)

  /** A vote launched by handleVote: the direction sent and the rollback to run on failure. */
  datatype PendingVote = PendingVote(request: Direction, onError: OnError)

  /** The vote the handlers' `when` treats the current one as: UPVOTE and DOWNVOTE are
      themselves, and every other value falls into the `else` branch, which is the no-vote row. */
  function AsHandled(v: VoteState): VoteState {
    if Known(v) then v else NoVote
  }

  /** The pair a tap publishes: the toggle rule applied to the card's current pair. */
  function Optimistic(v: VoteView, d: Direction): VoteView {
    Apply(VoteView(AsHandled(v.vote), v.score), d)
  }

  /** The vote a tap launches: the requested direction, and a rollback that undoes the score
      change relative to the score at failure time and restores the vote as handled. */
  function Pending(v: VoteView, d: Direction): PendingVote {
    var handled := AsHandled(v.vote);
    PendingVote(d, OnError(-Transition(handled, d).delta, handled))
  }

  /** The card's pair once the remote call of `p` has answered, given the pair `now` it
      shows at that moment. */
  function Resolve(now: VoteView, p: PendingVote, success: bool): VoteView {
    if success then now
    else VoteView(p.onError.restore, now.score + p.onError.scoreDelta)
  }

  /** A vote that fails with nothing in between restores the pre-vote pair; a card holding an
      unrecognised vote comes back with no vote, since the `else` rollback restores null. */
  lemma FailureRightAfterRestores(v: VoteView, d: Direction)
    ensures Resolve(Optimistic(v, d), Pending(v, d), false) == VoteView(AsHandled(v.vote), v.score)
    ensures Known(v.vote) ==> Resolve(Optimistic(v, d), Pending(v, d), false) == v
    ensures !Known(v.vote) ==> Resolve(Optimistic(v, d), Pending(v, d), false) != v
  {
  }

  /** On success handleVote does nothing: the optimistic pair stays. */
  lemma SuccessKeepsOptimistic(v: VoteView, d: Direction)
    ensures Resolve(Optimistic(v, d), Pending(v, d), true) == Optimistic(v, d)
  {
  }

  /** Rollback is relative: an earlier vote that fails after a later vote has been applied
      restores the earlier vote but keeps the later score change, so the score never returns
      to the original and no longer matches the vote shown. */
  lemma StaleFailureAfterLaterVote(v: VoteView, d1: Direction, d2: Direction)
    requires Known(v.vote)
    ensures var w1 := Optimistic(v, d1);
            var r := Resolve(Optimistic(w1, d2), Pending(v, d1), false);
            r.vote == v.vote && r.score == v.score + Transition(w1.vote, d2).delta
            && r.score != v.score && OthersScore(r) != OthersScore(v)
  {
  }

  /** The concrete case: upvote, upvote again (clearing it), then the first call fails. */
  lemma StaleFailureExample(score: int)
    ensures var v := VoteView(NoVote, score);
            var w1 := Optimistic(v, Up);
            Resolve(Optimistic(w1, Up), Pending(v, Up), false) == VoteView(NoVote, score - 1)
  {
  }

  /** Both votes fail, in the order they were issued: the card ends on the first vote with the
      original score, a pair that does not match what everyone else contributed. */
  lemma FailuresInIssueOrder(v: VoteView, d1: Direction, d2: Direction)
    requires Known(v.vote)
    ensures var w1 := Optimistic(v, d1);
            var w2 := Optimistic(w1, d2);
            var r := Resolve(Resolve(w2, Pending(v, d1), false), Pending(w1, d2), false);
            r == VoteView(w1.vote, v.score) && OthersScore(r) != OthersScore(v)
  {
  }

  /** Both votes fail, the later one first: the card returns to the original pair. */
  lemma FailuresInReverseOrder(v: VoteView, d1: Direction, d2: Direction)
    requires Known(v.vote)
    ensures var w1 := Optimistic(v, d1);
            var w2 := Optimistic(w1, d2);
            Resolve(Resolve(w2, Pending(w1, d2), false), Pending(v, d1), false) == v
  {
  }

  /** The state behind one post card. The vote and score are the cached post's cells, which
      the card reads back and writes through its setters; `sent` records the remote vote calls
      launched. Each logged-in tap launches its call on the main dispatcher, which starts
      launched coroutines in order, so the calls go out in tap order whatever their answers. */
  class PostCard {
    const loggedIn: bool
    var vote: VoteState
    var score: int
    var hasUserInteracted: bool
    var showLoginDialog: bool
    var sent: seq<Direction>

    constructor (loggedIn: bool, vote: VoteState, score: int)
      ensures this.loggedIn == loggedIn && Voted() == VoteView(vote, score)
      ensures !hasUserInteracted && !showLoginDialog && sent == []
    {
      this.loggedIn := loggedIn;
      this.vote := vote;
      this.score := score;
      hasUserInteracted := false;
      showLoginDialog := false;
      sent := [];
    }

    function Voted(): VoteView
      reads this
    {
      VoteView(vote, score)
    }

    /** The upvote handler. It always marks the card as interacted with. Logged out, it only
        raises the login dialog. Logged in, it publishes the optimistic pair and launches the
        vote with its rollback. */
    method OnUpvote() returns (job: Option<PendingVote>)
      modifies this`vote, this`score, this`hasUserInteracted, this`showLoginDialog, this`sent
      ensures hasUserInteracted
      ensures !loggedIn ==> job == None && showLoginDialog && Voted() == old(Voted()) && sent == old(sent)
      ensures loggedIn ==>
                (job == Some(Pending(old(Voted()), Up))
                 && Voted() == Optimistic(old(Voted()), Up)
                 && showLoginDialog == old(showLoginDialog)
                 && sent == old(sent) + [Up])
    {
      hasUserInteracted := true;
      if !loggedIn {
        showLoginDialog := true;
        return None;
      }
      sent := sent + [Up];
      match vote
      case Upvote =>
        vote := NoVote;
        score := score - 1;
        job := Some(PendingVote(Up, OnError(1, Upvote)));
      case Downvote =>
        vote := Upvote;
        score := score + 2;
        job := Some(PendingVote(Up, OnError(-2, Downvote)));
      case _ =>
        vote := Upvote;
        score := score + 1;
        job := Some(PendingVote(Up, OnError(-1, NoVote)));
    }

    /** The downvote handler, the mirror image of OnUpvote. */
    method OnDownvote() returns (job: Option<PendingVote>)
      modifies this`vote, this`score, this`hasUserInteracted, this`showLoginDialog, this`sent
      ensures hasUserInteracted
      ensures !loggedIn ==> job == None && showLoginDialog && Voted() == old(Voted()) && sent == old(sent)
      ensures loggedIn ==>
                (job == Some(Pending(old(Voted()), Down))
                 && Voted() == Optimistic(old(Voted()), Down)
                 && showLoginDialog == old(showLoginDialog)
                 && sent == old(sent) + [Down])
    {
      hasUserInteracted := true;
      if !loggedIn {
        showLoginDialog := true;
        return None;
      }
      sent := sent + [Down];
      match vote
      case Upvote =>
        vote := Downvote;
        score := score - 2;
        job := Some(PendingVote(Down, OnError(2, Upvote)));
      case Downvote =>
        vote := NoVote;
        score := score + 1;
        job := Some(PendingVote(Down, OnError(-1, Downvote)));
      case _ =>
        vote := Downvote;
        score := score - 1;
        job := Some(PendingVote(Down, OnError(1, NoVote)));
    }

    /** The answer to the call a tap launched: the rollback runs once, only if the call
        failed. */
    method HandleVote(job: PendingVote, success: bool)
      modifies this`vote, this`score
      ensures Voted() == Resolve(old(Voted()), job, success)
      ensures sent == old(sent)
    {
      if !success {
        score := score + job.onError.scoreDelta;
        vote := job.onError.restore;
      }
    }
  }

  /** The stale rollback walked through on a card: from no vote at 10, upvote, upvote again,
      then the first call fails while the second succeeds. */
  method StaleRollbackScenario() returns (vote: VoteState, score: int)
    ensures vote == NoVote && score == 9
  {
    var card := new PostCard(true, NoVote, 10);
    var first := card.OnUpvote();
    var second := card.OnUpvote();
    card.HandleVote(first.value, false);
    card.HandleVote(second.value, true);
    var start := VoteView(NoVote, 10);
    assert card.Voted() == Resolve(Optimistic(Optimistic(start, Up), Up), Pending(start, Up), false);
    StaleFailureExample(10);
    vote, score := card.vote, card.score;
  }

  /** Every logged-in tap launches one call, in tap order, whatever the answers are. */
  method CallsInTapOrder(vote: VoteState, score: int) returns (sent: seq<Direction>)
    ensures sent == [Up, Down]
  {
    var card := new PostCard(true, vote, score);
    var up := card.OnUpvote();
    var down := card.OnDownvote();
    card.HandleVote(down.value, false);
    card.HandleVote(up.value, true);
    sent := card.sent;
  }

  /** A logged-out tap changes no vote, no score and sends nothing. */
  method LoggedOutScenario(vote: VoteState, score: int) returns (after: VoteView, prompted: bool, sent: seq<Direction>)
    ensures after == VoteView(vote, score) && prompted && sent == []
  {
    var card := new PostCard(false, vote, score);
    var job := card.OnDownvote();
    after, prompted, sent := card.Voted(), card.showLoginDialog, card.sent;
  }

  /** The author of a post as the header needs it. */
  datatype Author = Author(username: string, avatarUrl: string)

  /** The community a post belongs to, when it has one. */
  datatype Community = Community(name: string, logoUrl: string)

  /** What the header shows: "r/" or "u/", the name after it, and the logo image. */
  datatype Header = Header(prefix: string, title: string, logo: string)

  /** The header of a post: a post in a named community shows "r/" and the community name, any
      other post "u/" and its author's name; the logo is the community logo unless that is
      empty, and the author's avatar otherwise. A missing community reads as empty name and logo. */
  function HeaderFor(community: Option<Community>, author: Author): (h: Header)
    ensures h.prefix == "u/" || h.prefix == "r/"
    ensures h.prefix == "r/" <==> community.Some? && community.value.name != ""
    ensures h.prefix == "r/" ==> h.title == community.value.name
    ensures h.prefix == "u/" ==> h.title == author.username
    ensures community.Some? && community.value.logoUrl != "" ==> h.logo == community.value.logoUrl
    ensures community.None? || community.value.logoUrl == "" ==> h.logo == author.avatarUrl
  {
    var name := if community.Some? then community.value.name else "";
    var logo := if community.Some? then community.value.logoUrl else "";
    Header(if name == "" then "u/" else "r/",
           if name == "" then author.username else name,
           if logo == "" then author.avatarUrl else logo)
  }

  /** A post's text is cut to three lines unless the card is expanded. */
  function TextMaxLines(isExpanded: bool): (n: nat)
    ensures n >= 3 && (n == 3 <==> !isExpanded)
  {
    if !isExpanded then 3 else 100
  }
}
