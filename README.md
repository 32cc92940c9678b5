# Optimistic votes on posts and comments, modelled in Dafny

The Baddit mobile client shows posts and threaded comments. Each one has a tri-state vote
(none, UPVOTE, DOWNVOTE) and an integer score. A tap updates the card at once, before the server
answers. The card then sends the vote to the server and undoes the change if the call fails.
This logic exists twice:

- for comments, in `CommentCard.kt`: `handleVote` followed by `safeVote`. Each comment card also
  has its own collapse flag and action-menu flag, driven by how long a press lasts, and draws its
  replies one level deeper only while it is not collapsed;
- for posts, in `PostCard.kt`: `onUpvote` and `onDownvote` followed by `handleVote`. The post
  header also has a small rule that picks its prefix, title and logo.

The project has five modules:

- `Votes` (`votes.dfy`): the vote values and the toggle rule that both cards apply. `Transition` is
  defined independently of either source table. Asking for the active direction clears the vote;
  asking for any other direction sets it. The score changes by exactly the change in the user's
  own contribution (+1 for an upvote, −1 for a downvote, 0 for no vote). So `OthersScore`, the
  score minus the user's own vote, stays the same after every tap.
- `CommentCards` (`comment_card.dfy`): the class `CommentCard` holds one card's remembered
  state. A vote happens in three steps:
  - `HandleVote`: the login gate, plus capturing the vote and score when the user acts;
  - `RunVote`: the launched coroutine publishes the optimistic pair and issues the remote call;
  - `CompleteSafeVote`: the call's success or failure arrives.

  The method bodies repeat the source's `when` tables branch by branch. Their contracts tie them to
  the pure functions `AfterLaunch`, `CallFor` and `AfterSafeVote`, which are defined from
  `Transition`. The lemmas about those functions cover interleaved requests.
- `CommentTree` (`comment_tree.dfy`): the tree of cards as a value. Nodes are addressed by their
  path of child indices, because the source does not require ids to be distinct. Each node keeps
  the vote and score the server sent for it next to its card's remembered state. A press that
  collapses a card removes its replies from the composition, so their remembered state is lost:
  when the card is expanded again, every reply is composed afresh from the server's pair, expanded
  and with its menu closed. `Render` lists the cards drawn, in drawing order, with their
  indentation level.
- `PostCards` (`post_card.dfy`): the class `PostCard` with `OnUpvote`, `OnDownvote` and
  `HandleVote`, the pure `Optimistic`/`Pending`/`Resolve` functions they are proved against, the
  rollback lemmas, and the pure `HeaderFor` and `TextMaxLines` rules.
- `Wrappers` (`wrappers.dfy`): `Option`.

The remote vote functions (`voteFn`, `votePostFn`) are not modelled as code. Each call appears as
an entry appended to the card's `sent` log. Its outcome is the `success` parameter of the step
that completes it. Interleavings of two requests are written as sequences of these steps.

Vote strings arrive from the server as nullable strings. A string other than `"UPVOTE"` or
`"DOWNVOTE"` is modelled as `Unrecognized`, and the two paths treat it differently:

- for a comment, no branch of `handleVote` or `safeVote` matches, so the display does not change,
  but the remote call is still made;
- for a post, the `else` branch treats it as no vote, and the rollback restores null.

Some behaviours of the code are easy to miss; the model follows the code:

- The remote call receives the requested direction (`"UPVOTE"` or `"DOWNVOTE"`), not the vote
  that results from the toggle.
- The post rollback is relative. It re-reads the score when the failure arrives and applies the
  inverse change to it. It does not restore a snapshot, and that matters once a second vote has
  run in between (`PostCards.StaleFailureAfterLaterVote`).
- The comment rollback does restore a snapshot (`CommentCards.RollbackRestoresSnapshot`). Two
  failures in issue order still leave the card on the first vote's optimistic pair, which the
  server rejected (`CommentCards.FailuresInIssueOrder`).
- Asking for the same direction twice restores the original pair only when the card did not start
  on the opposite vote. From DOWNVOTE, two upvotes end at (no vote, score + 1) (`Votes.ToggleTwice`).
- The comment `handleVote` takes the vote and score when the user acts, and the launched coroutine
  computes from those captured values. Two taps made before the first coroutine runs therefore
  change the display only once, but still send two calls
  (`CommentCards.TapsBeforeDispatchShareSnapshot`).
- Cards are not looked up by id: each card toggles its own flag, and the tree model addresses a
  card by its path.
- Collapsing a card disposes of its replies' cards. Expanding it again rebuilds them from the
  server's data, so a reply's optimistic vote, its collapse flag and its open menu are all lost
  (`CommentTree.CollapseThenExpand`).

## Model

| member | source | states |
|---|---|---|
| Votes.Transition | app/src/main/java/com/example/baddit/presentation/components/CommentCard.kt:397-440 | the toggle table: the vote always changes; it becomes none exactly when the active direction is requested, and otherwise becomes the requested direction; the score change is one of −2, −1, +1, +2 |
| Votes.Apply | app/src/main/java/com/example/baddit/presentation/components/PostCard.kt:115-190 | one tap changes both the vote and the score, and leaves the score from everyone else (score minus the user's own vote) unchanged |
| Votes.ToggleTwice | app/src/main/java/com/example/baddit/presentation/components/CommentCard.kt:397-440 | two taps in the same direction restore the original pair if and only if the card did not start on the opposite vote; from the opposite vote they end at no vote, one point towards the requested direction |
| CommentCards.CommentCard.constructor | app/src/main/java/com/example/baddit/presentation/components/CommentCard.kt:79-83 | a new card takes the server's vote and score, starts expanded with its menu closed and no login prompt, and has sent nothing |
| CommentCards.CommentCard.HandleVote | app/src/main/java/com/example/baddit/presentation/components/CommentCard.kt:377-394 | logged out: only the login prompt is raised, nothing is launched, and vote, score and sent calls stay the same; logged in: a vote is launched carrying the requested direction and the pair as it is now |
| CommentCards.CommentCard.RunVote | app/src/main/java/com/example/baddit/presentation/components/CommentCard.kt:396-449 | the launched coroutine publishes the toggle rule applied to the captured pair (nothing for an unrecognised vote), records exactly one remote call with the card's id and the requested direction, and hands safeVote the captured vote, the direction and the optimistic score |
| CommentCards.CommentCard.CompleteSafeVote | app/src/main/java/com/example/baddit/presentation/components/CommentCard.kt:338-375 | on success nothing is written; on failure the captured vote is restored, and the score becomes the optimistic score minus the applied change |
| CommentCards.RollbackRestoresSnapshot | app/src/main/java/com/example/baddit/presentation/components/CommentCard.kt:348-373 | a failed comment vote restores exactly the pair it captured, whatever the card shows when the failure arrives |
| CommentCards.FailureRightAfterRestores | app/src/main/java/com/example/baddit/presentation/components/CommentCard.kt:397-449 | a vote that fails, with nothing in between, returns the card to its pre-vote pair for every starting pair |
| CommentCards.SuccessKeepsOptimistic | app/src/main/java/com/example/baddit/presentation/components/CommentCard.kt:346-348 | after a successful call the card keeps the optimistic pair |
| CommentCards.StaleFailureRestoresOriginal | app/src/main/java/com/example/baddit/presentation/components/CommentCard.kt:348-373 | when an earlier vote fails after a later vote has been applied, the original pair comes back and the later vote is wiped from the display |
| CommentCards.FailuresInIssueOrder | app/src/main/java/com/example/baddit/presentation/components/CommentCard.kt:348-373 | when two votes both fail in the order they were issued, the card ends on the first vote's optimistic pair: consistent, but not the original |
| CommentCards.FailuresInReverseOrder | app/src/main/java/com/example/baddit/presentation/components/CommentCard.kt:348-373 | when two votes both fail, the later one first, the card returns to the original pair |
| CommentCards.TapsBeforeDispatchShareSnapshot | app/src/main/java/com/example/baddit/presentation/components/CommentCard.kt:86-97 | two taps in the same direction made before the first coroutine runs both compute from the same captured pair, so the display changes once instead of cancelling out |
| CommentCards.PressEffect | app/src/main/java/com/example/baddit/presentation/components/CommentCard.kt:168-185 | a press toggles collapse if and only if it is held at least 400 ms, and toggles the action menu if and only if it is released sooner; vote and score are untouched |
| CommentCards.CommentCard.Press | app/src/main/java/com/example/baddit/presentation/components/CommentCard.kt:169-181 | the card's collapse and menu flags after a press are those PressEffect gives, and nothing else on the card changes |
| CommentCards.PressTwiceRestores | app/src/main/java/com/example/baddit/presentation/components/CommentCard.kt:172-181 | the same press twice leaves the card as it was |
| CommentCards.CardScenarios | app/src/main/java/com/example/baddit/presentation/components/CommentCard.kt:338-449 | (none, 10) upvoted with a failing call ends at (none, 10); (up, 10) downvoted with a successful call ends at (down, 8); (down, 5) downvoted shows (none, 6) |
| CommentTree.ComposedAt | app/src/main/java/com/example/baddit/presentation/components/CommentCard.kt:222-232 | composing a subtree composes every node in it, at every path, and keeps its shape |
| CommentTree.ComposeIsFresh | app/src/main/java/com/example/baddit/presentation/components/CommentCard.kt:79-83 | a freshly composed subtree holds nothing but what the server sent, and composing such a subtree changes nothing |
| CommentTree.ReplaceAt | app/src/main/java/com/example/baddit/presentation/components/CommentCard.kt:79-84 | changing the node at one path puts exactly that node there and keeps the root's id, server pair, card and number of replies |
| CommentTree.ReplaceAtLeavesOutside | app/src/main/java/com/example/baddit/presentation/components/CommentCard.kt:79-84 | every node not below the changed path keeps its id, server pair, card and number of replies, and every node beside it keeps its whole subtree |
| CommentTree.ReplaceAtSame | app/src/main/java/com/example/baddit/presentation/components/CommentCard.kt:79-84 | putting back the node that is there changes nothing |
| CommentTree.Pressed | app/src/main/java/com/example/baddit/presentation/components/CommentCard.kt:167-185 | the pressed card gets the state PressEffect gives and keeps its id, server pair and number of replies; a press that collapses it replaces each reply by that reply composed afresh from the server response, and any other press leaves the replies exactly as they were |
| CommentTree.PressAt | app/src/main/java/com/example/baddit/presentation/components/CommentCard.kt:167-185 | a press on one card of the tree gives that card the state PressEffect gives |
| CommentTree.CollapseDisposesReplies | app/src/main/java/com/example/baddit/presentation/components/CommentCard.kt:222-232 | a long press that collapses a card replaces every node below it by its subtree as composed from the server response, so each such card is back to its server pair, expanded, menu closed |
| CommentTree.PressKeepsReplies | app/src/main/java/com/example/baddit/presentation/components/CommentCard.kt:167-185 | a short press, or a press that expands a collapsed card, leaves every node below the pressed card as it was |
| CommentTree.PressAtLeavesOutside | app/src/main/java/com/example/baddit/presentation/components/CommentCard.kt:167-185 | a press changes no card outside the pressed card's subtree, and no subtree beside it |
| CommentTree.CollapseThenExpand | app/src/main/java/com/example/baddit/presentation/components/CommentCard.kt:172-173 | collapsing and then expanding a card gives the original tree with every descendant of that card composed afresh from the server response, and that card as it was |
| CommentTree.CollapseThenExpandFresh | app/src/main/java/com/example/baddit/presentation/components/CommentCard.kt:172-173 | when a card's replies hold nothing but what the server sent, collapsing and expanding it restores the whole tree |
| CommentTree.ShortPressTwiceRestores | app/src/main/java/com/example/baddit/presentation/components/CommentCard.kt:176-181 | two short presses on the same card (menu open, then closed) restore the whole tree |
| CommentTree.FreshIsSettled | app/src/main/java/com/example/baddit/presentation/components/CommentCard.kt:79-83 | a tree just composed from the server response is reachable: nothing in it is collapsed |
| CommentTree.SettledAt | app/src/main/java/com/example/baddit/presentation/components/CommentCard.kt:222-232 | every subtree of a reachable tree is reachable |
| CommentTree.ReplaceAtKeepsSettled | app/src/main/java/com/example/baddit/presentation/components/CommentCard.kt:222-232 | replacing a drawn node by a reachable one keeps the tree reachable |
| CommentTree.PressKeepsSettled | app/src/main/java/com/example/baddit/presentation/components/CommentCard.kt:167-232 | pressing a drawn card keeps the tree reachable: the replies of every collapsed card hold nothing but what the server sent |
| CommentTree.Render | app/src/main/java/com/example/baddit/presentation/components/CommentCard.kt:222-233 | every card drawn for a subtree sits at or below the subtree's path and at or deeper than its level |
| CommentTree.ShownIsRendered | app/src/main/java/com/example/baddit/presentation/components/CommentCard.kt:222-233 | every node with no collapsed card above it is drawn, with its own id and state, at the starting level plus its depth (each reply is one level deeper) |
| CommentTree.RenderedIsShown | app/src/main/java/com/example/baddit/presentation/components/CommentCard.kt:222-233 | every drawn card is a node of the tree with no collapsed card above it, drawn with that node's id and state at the starting level plus its depth |
| CommentTree.RenderedIff | app/src/main/java/com/example/baddit/presentation/components/CommentCard.kt:222-223 | a node is drawn if and only if it exists and no card above it is collapsed |
| CommentTree.CollapsedHidesDescendants | app/src/main/java/com/example/baddit/presentation/components/CommentCard.kt:222-223 | a collapsed card hides every descendant, at every depth |
| CommentTree.CollapsedDrawsOnlyItself | app/src/main/java/com/example/baddit/presentation/components/CommentCard.kt:164-233 | a collapsed card draws only itself |
| PostCards.PostCard.constructor | app/src/main/java/com/example/baddit/presentation/components/PostCard.kt:88-89 | a new card shows the post's vote and score, has no login dialog, has no user interaction yet, and has sent nothing |
| PostCards.PostCard.OnUpvote | app/src/main/java/com/example/baddit/presentation/components/PostCard.kt:109-149 | always marks the card as interacted with; logged out: only the login dialog is raised, vote and score stay the same and no call is made; logged in: UPVOTE gives (none, −1), DOWNVOTE gives (up, +2), anything else gives (up, +1), and it launches exactly one UPVOTE call whose rollback is the inverse change plus the prior vote |
| PostCards.PostCard.OnDownvote | app/src/main/java/com/example/baddit/presentation/components/PostCard.kt:151-191 | always marks the card as interacted with; logged out: only the login dialog is raised and no call is made; logged in: UPVOTE gives (down, −2), DOWNVOTE gives (none, +1), anything else gives (down, −1), and it launches exactly one DOWNVOTE call with the matching rollback |
| PostCards.PostCard.HandleVote | app/src/main/java/com/example/baddit/presentation/components/PostCard.kt:261-273 | when the call answers: on failure runs the rollback once against the score as it is at that moment; on success changes nothing; the calls made stay as they were |
| PostCards.FailureRightAfterRestores | app/src/main/java/com/example/baddit/presentation/components/PostCard.kt:121-185 | a vote that fails right away restores the exact pre-vote pair; a card that held an unrecognised vote comes back with no vote |
| PostCards.SuccessKeepsOptimistic | app/src/main/java/com/example/baddit/presentation/components/PostCard.kt:267-272 | on success the optimistic pair stays |
| PostCards.StaleFailureAfterLaterVote | app/src/main/java/com/example/baddit/presentation/components/PostCard.kt:121-185 | when an earlier vote fails after a later one has been applied, the original vote is restored but the score keeps the later change, so the score never returns to the original and no longer matches the vote |
| PostCards.StaleFailureExample | app/src/main/java/com/example/baddit/presentation/components/PostCard.kt:139-143 | from no vote at score s: upvote, upvote again, then the first call fails; the card ends at (none, s − 1) |
| PostCards.FailuresInIssueOrder | app/src/main/java/com/example/baddit/presentation/components/PostCard.kt:121-185 | when two votes both fail in issue order, the card ends on the first vote with the original score, an inconsistent pair |
| PostCards.FailuresInReverseOrder | app/src/main/java/com/example/baddit/presentation/components/PostCard.kt:121-185 | when two votes both fail, the later one first, the card returns to the original pair |
| PostCards.StaleRollbackScenario | app/src/main/java/com/example/baddit/presentation/components/PostCard.kt:109-273 | the stale rollback on a real card: (none, 10), two upvotes, the first call fails and the second succeeds; the card ends at (none, 9) |
| PostCards.CallsInTapOrder | app/src/main/java/com/example/baddit/presentation/components/PostCard.kt:109-273 | an upvote then a downvote send an UPVOTE call then a DOWNVOTE call, in tap order, whatever the answers are |
| PostCards.LoggedOutScenario | app/src/main/java/com/example/baddit/presentation/components/PostCard.kt:151-156 | a logged-out tap leaves vote and score as they were, raises the login prompt and sends nothing |
| PostCards.HeaderFor | app/src/main/java/com/example/baddit/presentation/components/PostCard.kt:276-291 | the prefix is "r/" with the community name as the title exactly when the community name is non-empty, and otherwise "u/" with the author's name; the logo is the community logo when it is non-empty, and otherwise the author's avatar |
| PostCards.TextMaxLines | app/src/main/java/com/example/baddit/presentation/components/PostCard.kt:372 | post text is limited to three lines exactly when the card is not expanded |

## Left out

- Compose rendering (layout, icons, colours, swipe thresholds, the animation of
  `AnimatedVisibility`, the hierarchy indicator's spacing, `CommentMeta`) is visual only. The post's
  press-ripple animation driven by `hasUserInteracted`, which uses floating-point offsets, is
  visual only too; `hasUserInteracted` is modelled as a flag. What `AnimatedVisibility` does to
  the replies' state is not visual, and is modelled in `CommentTree`.
- Scores are Kotlin `Int`s, which wrap around at 32 bits; here they are unbounded integers. The
  optimistic score and the rollback arithmetic (a change of at most 2 either way) therefore
  differ from the program's only within 2 of ±2³¹, where the program wraps and the model does not.
  The rollback round trips would hold under 32-bit wrap-around as well, since addition modulo
  2³² is invertible.
- Coroutine scheduling is not modelled. `launch`, `delay` and cancellation become explicit steps
  whose order the caller chooses, and the remote call's outcome is a `success` parameter. The
  press is summarised by its held duration in milliseconds and whether it ended in a release, in
  place of `System.currentTimeMillis`. The model assumes the delayed collapse job has fired
  exactly when the hold reached 400 ms.
- The exit animation of a collapsing card's replies is taken to have finished before the card is
  expanded again. Expanding it during the animation keeps the replies' state; that case is not
  modelled.
- A collapse also cancels the coroutines of the disposed replies, so their pending votes never
  apply their result or rollback. The tree model resets those cards; the `CommentCard` class
  models one card while it stays composed, and does not model its disposal.
- The remote vote functions and the repositories behind them are foreign calls. Only the call
  made (comment id and direction, or direction for a post) and its success or failure are modelled.
- Dismissing the login dialog is a UI callback and is not modelled.
- The post's vote and score live in the cached post, written by the screen's setters, which look
  the post up by id. Here they are fields of `PostCard`, so aliasing with other screens showing
  the same post is not captured.
- The comment text's line limit and `getTimeAgoFromUtcString` are display only.
- The login screen's error-message table, the community repository's status-code mapping and the
  other screens are outside this model.
