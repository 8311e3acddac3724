/** The game object: the fields of `DotsAndBoxes` that the rules read and
    write, updated in place. Every method is proved to change the fields
    exactly as the corresponding function of module Rules says, so the lemmas
    there describe this class. */
module Game {
  import opened Board
  import opened Rules

  class DotsAndBoxes {
    const size: int
    var currentPlayer: int
    var player1Score: int
    var player2Score: int
    var lines: set<LineKey>
    const boxes: array<int>
    var isGameOver: bool

    /** The fields as a value of the rules' state. */
    ghost function Model(): State
      reads this, boxes
    {
      State(size, lines, boxes[..], currentPlayer, player1Score, player2Score, isGameOver)
    }

    ghost predicate Valid()
      reads this, boxes
    {
      Inv(Model())
    }

    constructor (size: int)
      requires size >= 2
      ensures Valid() && Model() == Init(size) && fresh(boxes)
    {
      this.size := size;
      currentPlayer := 1;
      player1Score := 0;
      player2Score := 0;
      lines := {};
      boxes := new int[(size - 1) * (size - 1)](_ => 0);
      isGameOver := false;
      new;
      assert boxes[..] == seq(TotalBoxes(size), _ => 0);
      InitIsFreshGame(size);
    }

    /** A click while the edge between (x1, y1) and (x2, y2) is highlighted.
        Returns the banner shown when this click ends the game. */
    method HandleClick(x1: int, y1: int, x2: int, y2: int) returns (banner: Option<Outcome>)
      requires Valid()
      requires OnGrid(size, x1, y1) && OnGrid(size, x2, y2) && IsValidLine(x1, y1, x2, y2)
      modifies this, boxes
      ensures Valid()
      ensures Model() == Claim(old(Model()), x1, y1, x2, y2)
      ensures banner == if isGameOver && !old(isGameOver) then Some(Winner(player1Score, player2Score)) else None
    {
      ghost var s := Model();
      ClaimPreservesInv(s, x1, y1, x2, y2);
      banner := None;
      if isGameOver {
        return;
      }
      var lineKey := GetLineKey(x1, y1, x2, y2);
      if lineKey !in lines {
        lines := lines + {lineKey};
        var boxesCompleted := CheckBoxes(x1, y1, x2, y2);
        if !boxesCompleted {
          currentPlayer := if currentPlayer == 1 then 2 else 1;
        }
        banner := CheckGameOver();
      }
    }

    /** The loop of `checkBoxes` over the four probe directions. */
    method CheckBoxes(x1: int, y1: int, x2: int, y2: int) returns (boxesCompleted: bool)
      requires size >= 2 && boxes.Length == TotalBoxes(size)
      modifies this`player1Score, this`player2Score, boxes
      ensures (Model(), boxesCompleted) == Rules.CheckBoxes(old(Model()), x1, y1, x2, y2)
    {
      boxesCompleted := false;
      for d := 0 to |Directions|
        invariant (Model(), boxesCompleted) == ScanUpTo(old(Model()), x1, y1, x2, y2, d)
      {
        var dx := Directions[d].0;
        var dy := Directions[d].1;
        var boxX := Min(x1, x2) + (if dx < 0 then dx else 0);
        var boxY := Min(y1, y2) + (if dy < 0 then dy else 0);
        assert (boxX, boxY) == ProbeBox(x1, y1, x2, y2, Directions[d]);
        boxesCompleted := ScoreBox(boxX, boxY, boxesCompleted);
      }
    }

    /** One round of that loop: the box at (boxX, boxY) goes to the current
        player when it is on the board, complete and still unowned. */
    method ScoreBox(boxX: int, boxY: int, completed: bool) returns (boxesCompleted: bool)
      requires size >= 2 && boxes.Length == TotalBoxes(size)
      modifies this`player1Score, this`player2Score, boxes
      ensures (Model(), boxesCompleted) == ProbeStep(old(Model()), completed, (boxX, boxY))
    {
      boxesCompleted := completed;
      if boxX >= 0 && boxX < size - 1 && boxY >= 0 && boxY < size - 1 {
        if IsBoxComplete(lines, boxX, boxY) {
          var boxIndex := boxY * (size - 1) + boxX;
          BoxIndexInRange(size - 1, boxX, boxY);
          if boxes[boxIndex] == 0 {
            boxes[boxIndex] := currentPlayer;
            boxesCompleted := true;
            if currentPlayer == 1 {
              player1Score := player1Score + 1;
            } else {
              player2Score := player2Score + 1;
            }
          }
        }
      }
    }

    /** Ends the game once every box has been scored, and reports the banner. */
    method CheckGameOver() returns (banner: Option<Outcome>)
      modifies this`isGameOver
      ensures Model() == Rules.CheckGameOver(old(Model()))
      ensures banner == if Claimed(old(Model())) == TotalBoxes(size)
                        then Some(Winner(player1Score, player2Score)) else None
    {
      banner := None;
      var totalBoxes := (size - 1) * (size - 1);
      if player1Score + player2Score == totalBoxes {
        isGameOver := true;
        banner := Some(Winner(player1Score, player2Score));
      }
    }
  }
}
