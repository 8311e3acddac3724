# Dots and Boxes: the game rules, verified

This project models the game-state rules of the browser game `DotsAndBoxes`
(`dots-and-boxes/script.js`). The board has `size` by `size` dots. Two players
take turns claiming the edge between two neighbouring dots. A player who
claims the fourth side of a box owns that box, scores it and moves again.
Otherwise the turn passes to the other player. The game ends once every box
has been scored, and the banner names the player with more boxes, or a tie.

The project has three modules:

- `Board` (`board.dfy`) holds the pure geometry. It has the canonical edge
  key (`getLineKey`), the adjacency test (`isValidLine`), the four sides of a
  box (`isBoxComplete`), the four boxes that `checkBoxes` probes around a new
  edge, and the position of a box in the flat `boxes` array.
- `Rules` (`rules.dfy`) holds the specification. `State` is a snapshot of the
  game's fields. `Claim` is what one click does, and `ScanUpTo` and
  `CheckBoxes` are the loop of `checkBoxes`, written as a left fold over the
  four probe directions. `CheckGameOver` and `Winner` give the end of the
  game. The rest of the module is lemmas about these functions: the game's
  invariant `Inv`, the ownership rule, the turn rule, the scoring bound, the
  end of the game, and a whole game on the one-box board.
- `Game` (`game.dfy`) has the class `DotsAndBoxes`, whose fields match the
  source's fields. `lines` is a set, `boxes` is an array updated in place, and
  the scores, the turn and the game-over flag are mutable fields. Each method
  is proved to change the fields exactly as the matching function of `Rules`
  says. `HandleClick` is also proved to keep `Inv`, so every lemma in `Rules`
  applies to the object.

An edge key is the tuple `LineKey(minX, minY, maxX, maxY)`. It takes the
minimum and maximum of each axis separately, as the source's key string does.
`DiagonalKeysCollide` shows that two diagonals would share a key.
`LineKeyIdentifiesLine` shows that for valid lines the key identifies the
unordered pair of endpoints.

The code reports no errors. A click after the game is over, or on an edge
that is already claimed, is a silent no-op (`Claim` returns its state
unchanged). An invalid edge never reaches the click handler: the hovered line
is only ever set to two neighbouring grid dots, so `HandleClick` requires
this.

## Model

| member | source | states |
|---|---|---|
| Board.GetLineKey | dots-and-boxes/script.js:29-31 | The key's coordinates are sorted on each axis, and on each axis they are the two endpoints' coordinates. |
| Board.LineKeyOrderIndependent | dots-and-boxes/script.js:29-31 | Swapping the two endpoints gives the same key. |
| Board.LineKeyIdentifiesLine | dots-and-boxes/script.js:29-31 | For two valid lines, the keys are equal exactly when the lines have the same endpoints, in either order. |
| Board.DiagonalKeysCollide | dots-and-boxes/script.js:29-31 | The two diagonals of a unit square share a key, and neither is a valid line. |
| Board.ValidLineShape | dots-and-boxes/script.js:33-37 | A line is valid exactly when one coordinate is equal and the other differs by one. Validity is symmetric in the endpoints, and a dot paired with itself is not valid. |
| Board.GridLineKeys | dots-and-boxes/script.js:33-37 | For two dots of the grid, the line is valid exactly when its key is a unit edge of the grid. |
| Board.BoxSidesShape | dots-and-boxes/script.js:125-130 | The four sides of a box on the board are grid edges. A box is complete exactly when all four of its sides are claimed. |
| Board.BorderingBoxes | dots-and-boxes/script.js:125-130 | A horizontal unit edge is a side of exactly the boxes above and below it, and a vertical one of exactly the boxes left and right of it. |
| Board.ProbeLayout | dots-and-boxes/script.js:94-103 | The "below" and "right" probes hit the same box. The left probe of a horizontal edge, and the upper probe of a vertical edge, do not border the edge. The other two probes are the edge's two neighbouring boxes. |
| Board.ProbesCoverBorderingBoxes | dots-and-boxes/script.js:94-103 | Every box the new edge borders is among the probed boxes. |
| Board.BoxIndexInRange | dots-and-boxes/script.js:108 | The index of a box on the board lies in [0, (size-1)^2). |
| Board.BoxIndexInjective | dots-and-boxes/script.js:108 | Distinct boxes have distinct indices. |
| Board.BoxAtIndex | dots-and-boxes/script.js:108 | Every index of the array is the index of some box on the board. |
| Rules.Count | dots-and-boxes/script.js:109-116 | The number of boxes a player owns is at most the number of boxes. |
| Rules.Winner | dots-and-boxes/script.js:156-162 | Player 1 wins exactly when its score is higher, player 2 wins exactly when its score is higher, and the result is a tie exactly when the scores are equal. |
| Rules.InitIsFreshGame | dots-and-boxes/script.js:10-15 | A new game satisfies the invariant. Player 1 is to move, both scores are 0, no edge is claimed, the game is not over, and all (size-1)^2 boxes are unowned. |
| Rules.ProbeStepFacts | dots-and-boxes/script.js:105-118 | One probe keeps the fields well formed and changes only the boxes and scores. It adds at most one to the scores and gives at most the probed box to the current player. It does nothing to a settled box, and afterwards the probed box is settled. |
| Rules.RepeatedProbeAwardsNothing | dots-and-boxes/script.js:109 | Probing the same box a second time changes nothing. |
| Rules.NonBorderingProbeAwardsNothing | dots-and-boxes/script.js:94-111 | If a box does not border the new edge and the old state keeps the invariant, probing that box after the edge is added awards nothing. |
| Rules.ScanFacts | dots-and-boxes/script.js:90-123 | After n rounds of the loop, only boxes and scores have changed. Each changed box went from 0 to the current player. A box is owned exactly when it was owned before or it is a complete probed box. The flag is set exactly when some box was scored. |
| Rules.ClaimFacts | dots-and-boxes/script.js:73-85 | A claim of a new edge adds its key, takes its boxes and scores from the scan, passes the turn exactly when the scan scored nothing, and ends the game exactly when every box is scored. |
| Rules.ClaimLines | dots-and-boxes/script.js:70-76 | A click when the game is over, or on a claimed edge, changes nothing. Otherwise the click adds exactly one new key and removes none. |
| Rules.ScanKeepsOwnedIffComplete | dots-and-boxes/script.js:90-131 | After the scan, a box is owned exactly when its four sides are claimed. |
| Rules.ClaimKeepsOwnedIffComplete | dots-and-boxes/script.js:69-131 | After any claim of a valid line, a box is owned exactly when its four sides are claimed. |
| Rules.ClaimPreservesInv | dots-and-boxes/script.js:69-88 | Every claim of a valid line between grid dots keeps the invariant. The invariant says: the scores are the counts of boxes owned, only grid edges are claimed, a box is owned exactly when it is complete, and the game is over exactly when every box is scored. |
| Rules.ScanOwnership | dots-and-boxes/script.js:102-111 | The scan changes a box's owner only from 0 to the current player, and only for a complete box that borders the new edge. |
| Rules.ClaimOwnership | dots-and-boxes/script.js:102-111 | A claim changes a box's owner only from 0 to the player who claimed, and only for a box that is now complete and borders the new edge. |
| Rules.ClaimTurnRule | dots-and-boxes/script.js:79-81 | After a claim of a new edge, the scores do not decrease. The turn passes exactly when no box was scored, and otherwise stays. |
| Rules.ScanScoresAtMostTwo | dots-and-boxes/script.js:90-123 | One scan scores at most two boxes. |
| Rules.ClaimScoresAtMostTwo | dots-and-boxes/script.js:69-123 | One claim adds zero, one or two to the total score. |
| Rules.ClaimGameOver | dots-and-boxes/script.js:143-147 | A claim after the game is over changes nothing. The game is over after a claim exactly when it was over before or every box has been scored. |
| Rules.ScoresBounded | dots-and-boxes/script.js:109-116 | Under the invariant, both scores are non-negative and their sum is at most (size-1)^2. |
| Rules.GameOverIffBoardFull | dots-and-boxes/script.js:143-147 | Under the invariant, the game is over exactly when every box is owned, and exactly when every box has all four sides claimed. |
| Rules.NoTieOnEvenBoard | dots-and-boxes/script.js:156-162 | A finished game on a board with an even number of dots per side never ends in a tie. |
| Rules.SmallestBoardGame | dots-and-boxes/script.js:69-162 | On the one-box board, the top, right and bottom edges each pass the turn and score nothing. The left edge gives the box to player 2, who keeps the turn and wins. The game is then over, and a further click on the bottom edge changes nothing. |
| Rules.TopEdge | dots-and-boxes/script.js:69-88 | On a one-box board with no edges and player 1 to move, the top edge scores nothing, passes the turn to player 2 and leaves the game running. |
| Rules.RightEdge | dots-and-boxes/script.js:69-88 | Next, the right edge scores nothing and passes the turn back to player 1. |
| Rules.BottomEdge | dots-and-boxes/script.js:69-88 | Next, the bottom edge scores nothing and passes the turn to player 2. |
| Rules.LeftEdge | dots-and-boxes/script.js:69-162 | Finally, the left edge gives the box to player 2, who keeps the turn and wins 1 to 0. The game is over, and a further click changes nothing. |
| Rules.QuietClaimOnOneBox | dots-and-boxes/script.js:75-81 | On the one-box board, a new edge that leaves the box incomplete passes the turn and leaves the box unowned. |
| Rules.LastClaimOnOneBox | dots-and-boxes/script.js:75-85 | On the one-box board, the edge that completes the box gives it to the mover, who keeps the turn, and the game ends. |
| Rules.OneBoxBoard | dots-and-boxes/script.js:107-110 | On the one-box board, the array is the single box, and the box is owned exactly when it is complete. |
| Rules.OneBoxStep | dots-and-boxes/script.js:75-85 | On the one-box board, a claim of a new edge follows from the general facts about a claim: the box is taken exactly when the new edge completes it. |
| Game.DotsAndBoxes.constructor | dots-and-boxes/script.js:10-15 | The new object's fields are the fresh game and satisfy the invariant. |
| Game.DotsAndBoxes.HandleClick | dots-and-boxes/script.js:69-88 | The click changes the fields exactly as `Claim` says and keeps the invariant. The banner appears, with the winner, exactly when this click ends the game. |
| Game.DotsAndBoxes.CheckBoxes | dots-and-boxes/script.js:90-123 | The loop changes the boxes and scores, and returns the flag, exactly as the four-round scan says. |
| Game.DotsAndBoxes.ScoreBox | dots-and-boxes/script.js:102-118 | One round of the loop writes the box and score exactly as one probe says. The array index is always in range. |
| Game.DotsAndBoxes.CheckGameOver | dots-and-boxes/script.js:143-149 | The game is marked over exactly when the scores add up to (size-1)^2. The banner with the winner is shown exactly then. |

## Left out

- `draw` (canvas rendering) and the parse of the key string inside it: keys are tuples here, so there is nothing to parse.
- `getNearestPoints` and `handleMouseMove`: pixel geometry with floating-point distances, a sort and DOM event coordinates. `HandleClick` takes the hovered line's endpoints as parameters. It requires them to be two neighbouring grid dots, which is all the hover code can produce.
- The click with no hovered line: the source returns at once, and the model has no such case.
- `updateScores`, `updateTurnIndicator` and the DOM writes of `showWinningBanner`: these only display text. The banner is modelled as the returned `Option<Outcome>`.
- `initGame`, the event listeners, the `parseInt` of the size selector and the canvas constants (`boxSize`, `margin`, `dotRadius`, `lineWidth`): host and presentation plumbing.
- Boards with fewer than two dots per side: the constructor requires `size >= 2`.
- The constructor's default of 4 dots per side and its canvas id: the size is always passed explicitly, and the canvas is presentation.
- The source's `lines` holds key strings. The model's key tuple carries the same four numbers, in the same order as the string.
