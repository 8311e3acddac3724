/** The rules of the game as pure functions over a snapshot of a game's
    fields, and the invariants those rules keep. The class in module Game is
    proved to change its fields exactly as these functions say. */
module Rules {
  import opened Board

  datatype Option<T> = None | Some(value: T)

  /** What the winning banner announces. */
  datatype Outcome = Player1Wins | Player2Wins | Tie

  /** A snapshot of the fields of a game: `boxes[i]` is 0 for an unowned box,
      otherwise the number of the player who owns it. */
  datatype State = State(
    size: int,
    lines: set<LineKey>,
    boxes: seq<int>,
    currentPlayer: int,
    player1Score: int,
    player2Score: int,
    isGameOver: bool)

  function TotalBoxes(size: int): int
  {
    (size - 1) * (size - 1)
  }

  function Claimed(s: State): int
  {
    s.player1Score + s.player2Score
  }

  /** The player whose turn comes next when no box was completed. */
  function Other(player: int): int
  {
    if player == 1 then 2 else 1
  }

  /** A fresh game with `size` dots per side. */
  function Init(size: int): State
    requires size >= 2
  {
    State(size, {}, seq(TotalBoxes(size), _ => 0), 1, 0, 0, false)
  }

  /** The number of boxes `player` owns. */
  function Count(b: seq<int>, player: int): (n: nat)
    ensures n <= |b|
  {
    if b == [] then 0 else (if b[0] == player then 1 else 0) + Count(b[1..], player)
  }

  predicate InBoxRange(size: int, col: int, row: int)
  {
    0 <= col < size - 1 && 0 <= row < size - 1
  }

  /** The owner of box (col, row); 0 when it is unowned or off the board. */
  function Owner(s: State, col: int, row: int): int
  {
    var i := BoxIndex(s.size - 1, col, row);
    if 0 <= i < |s.boxes| then s.boxes[i] else 0
  }

  /** The shape of the fields, and scores that agree with the boxes. */
  ghost predicate WellFormed(s: State)
  {
    && s.size >= 2
    && |s.boxes| == TotalBoxes(s.size)
    && (s.currentPlayer == 1 || s.currentPlayer == 2)
    && (forall i :: 0 <= i < |s.boxes| ==> 0 <= s.boxes[i] <= 2)
    && s.player1Score == Count(s.boxes, 1)
    && s.player2Score == Count(s.boxes, 2)
  }

  ghost predicate OwnedIffComplete(s: State)
  {
    forall col, row :: InBoxRange(s.size, col, row) ==>
      (Owner(s, col, row) != 0 <==> IsBoxComplete(s.lines, col, row))
  }

  /** The invariant of a game: only grid edges are claimed, a box is owned
      exactly when its four sides are claimed, and the game is over exactly
      when every box has been scored. */
  ghost predicate Inv(s: State)
  {
    && WellFormed(s)
    && (forall k :: k in s.lines ==> IsGridLine(s.size, k))
    && OwnedIffComplete(s)
    && (s.isGameOver <==> Claimed(s) == TotalBoxes(s.size))
  }

  /** One round of the loop in `checkBoxes`: award box q to the current player
      when it is on the board, complete and still unowned. */
  function ProbeStep(s: State, completed: bool, q: (int, int)): (State, bool)
  {
    if InBoxRange(s.size, q.0, q.1) && IsBoxComplete(s.lines, q.0, q.1) then
      var i := BoxIndex(s.size - 1, q.0, q.1);
      if 0 <= i < |s.boxes| && s.boxes[i] == 0 then
        (s.(boxes := s.boxes[i := s.currentPlayer],
            player1Score := if s.currentPlayer == 1 then s.player1Score + 1 else s.player1Score,
            player2Score := if s.currentPlayer == 1 then s.player2Score else s.player2Score + 1),
         true)
      else
        (s, completed)
    else
      (s, completed)
  }

  /** The state and the `boxesCompleted` flag after the first n rounds. */
  function ScanUpTo(s: State, x1: int, y1: int, x2: int, y2: int, n: nat): (State, bool)
    requires n <= |Directions|
  {
    if n == 0 then (s, false)
    else
      var r := ScanUpTo(s, x1, y1, x2, y2, n - 1);
      ProbeStep(r.0, r.1, ProbeBox(x1, y1, x2, y2, Directions[n - 1]))
  }

  function CheckBoxes(s: State, x1: int, y1: int, x2: int, y2: int): (State, bool)
  {
    ScanUpTo(s, x1, y1, x2, y2, |Directions|)
  }

  function CheckGameOver(s: State): State
  {
    if Claimed(s) == TotalBoxes(s.size) then s.(isGameOver := true) else s
  }

  /** A click on the edge between dots (x1, y1) and (x2, y2). */
  function Claim(s: State, x1: int, y1: int, x2: int, y2: int): State
  {
    if s.isGameOver then s
    else
      var key := GetLineKey(x1, y1, x2, y2);
      if key in s.lines then s
      else
        var r := CheckBoxes(s.(lines := s.lines + {key}), x1, y1, x2, y2);
        var boxesCompleted := r.1;
        var u := if !boxesCompleted then r.0.(currentPlayer := Other(r.0.currentPlayer)) else r.0;
        CheckGameOver(u)
  }

  /** The banner's verdict: the higher score wins, equal scores tie. */
  function Winner(player1Score: int, player2Score: int): (o: Outcome)
    ensures o == Player1Wins <==> player1Score > player2Score
    ensures o == Player2Wins <==> player2Score > player1Score
    ensures o == Tie <==> player1Score == player2Score
  {
    if player1Score > player2Score then Player1Wins
    else if player2Score > player1Score then Player2Wins
    else Tie
  }

  // ---------------------------------------------------------------------------
  // Counting owned boxes

  lemma {:induction false} CountNone(b: seq<int>, player: int)
    requires forall i :: 0 <= i < |b| ==> b[i] != player
    ensures Count(b, player) == 0
  {
    if b != [] {
      assert forall i :: 0 <= i < |b[1..]| ==> b[1..][i] == b[i + 1];
      CountNone(b[1..], player);
    }
  }

  /** Giving an unowned box to `player` adds one to that player's count and
      leaves every other player's count alone. */
  lemma {:induction false} CountAward(b: seq<int>, i: int, player: int, other: int)
    requires 0 <= i < |b| && b[i] == 0
    requires player != 0 && other != 0 && other != player
    ensures Count(b[i := player], player) == Count(b, player) + 1
    ensures Count(b[i := player], other) == Count(b, other)
  {
    if i == 0 {
      assert b[i := player][1..] == b[1..];
    } else {
      assert b[i := player][1..] == b[1..][i - 1 := player];
      CountAward(b[1..], i - 1, player, other);
    }
  }

  /** A one-box array counts one box for its owner and none for anyone else. */
  lemma CountSingleton(v: int, player: int)
    ensures Count([v], player) == if v == player then 1 else 0
  {
    assert [v][1..] == [];
  }

  /** Two players together own at most every box, and all of them exactly when
      no box is owned by anyone else. */
  lemma {:induction false} CountPair(b: seq<int>, p: int, q: int)
    requires p != q
    ensures Count(b, p) + Count(b, q) <= |b|
    ensures Count(b, p) + Count(b, q) == |b| <==> forall i :: 0 <= i < |b| ==> b[i] == p || b[i] == q
  {
    if b != [] {
      assert forall i :: 0 <= i < |b[1..]| ==> b[1..][i] == b[i + 1];
      CountPair(b[1..], p, q);
    }
  }

  // ---------------------------------------------------------------------------
  // The loop of checkBoxes

  /** Probing box q can no longer award it: it is off the board, incomplete or
      already owned. */
  predicate Settled(s: State, q: (int, int))
  {
    !(InBoxRange(s.size, q.0, q.1) && IsBoxComplete(s.lines, q.0, q.1)) || Owner(s, q.0, q.1) != 0
  }

  lemma ProbeStepFacts(s: State, c: bool, q: (int, int))
    requires WellFormed(s)
    ensures var t := ProbeStep(s, c, q).0;
      var c' := ProbeStep(s, c, q).1;
      && WellFormed(t)
      && t.size == s.size && t.lines == s.lines
      && t.currentPlayer == s.currentPlayer && t.isGameOver == s.isGameOver
      && (Claimed(t) == Claimed(s) || Claimed(t) == Claimed(s) + 1)
      && (c' <==> c || Claimed(t) > Claimed(s))
      && (Settled(s, q) ==> t == s && c' == c)
      && Settled(t, q)
      && (forall i :: 0 <= i < |s.boxes| ==>
            t.boxes[i] == s.boxes[i] || (s.boxes[i] == 0 && t.boxes[i] == s.currentPlayer))
      && (forall col, row :: InBoxRange(s.size, col, row) ==>
            (Owner(t, col, row) != 0 <==>
               Owner(s, col, row) != 0 || ((col, row) == q && IsBoxComplete(s.lines, col, row))))
      && (forall r :: Settled(s, r) ==> Settled(t, r))
  {
    var col, row := q.0, q.1;
    var w := s.size - 1;
    if InBoxRange(s.size, col, row) && IsBoxComplete(s.lines, col, row) {
      var i := BoxIndex(w, col, row);
      BoxIndexInRange(w, col, row);
      if s.boxes[i] == 0 {
        var t := ProbeStep(s, c, q).0;
        CountAward(s.boxes, i, s.currentPlayer, Other(s.currentPlayer));
        forall col2, row2 | InBoxRange(s.size, col2, row2) && (col2, row2) != q
          ensures Owner(t, col2, row2) == Owner(s, col2, row2)
        {
          BoxIndexInjective(w, col, row, col2, row2);
          BoxIndexInRange(w, col2, row2);
        }
      }
    }
  }

  /** Box (col, row) is one of the first n probes for the line. */
  predicate Probed(x1: int, y1: int, x2: int, y2: int, n: nat, col: int, row: int)
  {
    || (n > 0 && ProbeBox(x1, y1, x2, y2, Directions[0]) == (col, row))
    || (n > 1 && ProbeBox(x1, y1, x2, y2, Directions[1]) == (col, row))
    || (n > 2 && ProbeBox(x1, y1, x2, y2, Directions[2]) == (col, row))
    || (n > 3 && ProbeBox(x1, y1, x2, y2, Directions[3]) == (col, row))
  }

  /** After n rounds of the loop: the fields other than the boxes and scores
      are untouched, every change to a box is from 0 to the current player,
      a box is owned exactly when it was owned before or it is a complete
      probed box, and the flag says whether any box was scored. */
  lemma {:induction false} ScanFacts(s: State, x1: int, y1: int, x2: int, y2: int, n: nat)
    requires WellFormed(s) && n <= |Directions|
    ensures var t := ScanUpTo(s, x1, y1, x2, y2, n).0;
      var c := ScanUpTo(s, x1, y1, x2, y2, n).1;
      && WellFormed(t)
      && t.size == s.size && t.lines == s.lines
      && t.currentPlayer == s.currentPlayer && t.isGameOver == s.isGameOver
      && Claimed(s) <= Claimed(t) <= Claimed(s) + n
      && (c <==> Claimed(t) > Claimed(s))
      && (forall i :: 0 <= i < |s.boxes| ==>
            t.boxes[i] == s.boxes[i] || (s.boxes[i] == 0 && t.boxes[i] == s.currentPlayer))
      && (forall col, row :: InBoxRange(s.size, col, row) ==>
            (Owner(t, col, row) != 0 <==>
               Owner(s, col, row) != 0
               || (Probed(x1, y1, x2, y2, n, col, row) && IsBoxComplete(s.lines, col, row))))
      && (forall r :: Settled(s, r) ==> Settled(t, r))
  {
    if n > 0 {
      ScanFacts(s, x1, y1, x2, y2, n - 1);
      var r := ScanUpTo(s, x1, y1, x2, y2, n - 1);
      ProbeStepFacts(r.0, r.1, ProbeBox(x1, y1, x2, y2, Directions[n - 1]));
    }
  }

  /** A probe of a box the new edge does not border awards nothing: if that box
      is complete now, it was complete before the edge, so it is already owned. */
  lemma NonBorderingProbeAwardsNothing(s: State, k: LineKey, q: (int, int))
    requires Inv(s) && k !in BoxSides(q.0, q.1)
    ensures Settled(s.(lines := s.lines + {k}), q)
  {
    var s1 := s.(lines := s.lines + {k});
    if InBoxRange(s.size, q.0, q.1) && IsBoxComplete(s1.lines, q.0, q.1) {
      assert IsBoxComplete(s.lines, q.0, q.1);
    }
  }

  /** Probing the same box twice cannot score it twice. */
  lemma RepeatedProbeAwardsNothing(s: State, c: bool, c2: bool, q: (int, int))
    requires WellFormed(s)
    ensures var t := ProbeStep(s, c, q).0; ProbeStep(t, c2, q) == (t, c2)
  {
    ProbeStepFacts(s, c, q);
    ProbeStepFacts(ProbeStep(s, c, q).0, c2, q);
  }

  // ---------------------------------------------------------------------------
  // A fresh game

  lemma InitIsFreshGame(size: int)
    requires size >= 2
    ensures var s := Init(size);
      && Inv(s)
      && s.currentPlayer == 1 && s.player1Score == 0 && s.player2Score == 0
      && s.lines == {} && !s.isGameOver && |s.boxes| == TotalBoxes(size)
      && forall col, row :: InBoxRange(size, col, row) ==> Owner(s, col, row) == 0
  {
    var s := Init(size);
    CountNone(s.boxes, 1);
    CountNone(s.boxes, 2);
    MulLeft(1, size - 1, size - 1);
  }

  // ---------------------------------------------------------------------------
  // A click

  /** What a successful claim does, in terms of the scan of `checkBoxes`:
      the new key is added, the boxes and scores are the scan's, the turn
      passes when the scan scored nothing, and the game is over when every box
      has been scored. */
  lemma ClaimFacts(s: State, x1: int, y1: int, x2: int, y2: int)
    requires WellFormed(s)
    requires !s.isGameOver && GetLineKey(x1, y1, x2, y2) !in s.lines
    ensures var s1 := s.(lines := s.lines + {GetLineKey(x1, y1, x2, y2)});
      var r := CheckBoxes(s1, x1, y1, x2, y2);
      var s' := Claim(s, x1, y1, x2, y2);
      && r == ScanUpTo(s1, x1, y1, x2, y2, |Directions|)
      && s'.size == s.size && s'.lines == s1.lines
      && s'.boxes == r.0.boxes
      && s'.player1Score == r.0.player1Score && s'.player2Score == r.0.player2Score
      && s'.currentPlayer == (if r.1 then s.currentPlayer else Other(s.currentPlayer))
      && (s'.isGameOver <==> Claimed(s') == TotalBoxes(s.size))
  {
    var s1 := s.(lines := s.lines + {GetLineKey(x1, y1, x2, y2)});
    ScanFacts(s1, x1, y1, x2, y2, |Directions|);
  }

  /** A claim changes nothing when the game is over or the edge is already
      claimed; otherwise it adds the edge's key, which was new, and no other. */
  lemma ClaimLines(s: State, x1: int, y1: int, x2: int, y2: int)
    requires WellFormed(s)
    ensures var k := GetLineKey(x1, y1, x2, y2);
      var s' := Claim(s, x1, y1, x2, y2);
      if s.isGameOver || k in s.lines then s' == s
      else s'.lines == s.lines + {k} && |s'.lines| == |s.lines| + 1
  {
    var k := GetLineKey(x1, y1, x2, y2);
    if !s.isGameOver && k !in s.lines {
      ClaimFacts(s, x1, y1, x2, y2);
    }
  }

  /** After the scan a box is owned exactly when its four sides are claimed:
      every box the new edge completes is one of the probed boxes. */
  lemma ScanKeepsOwnedIffComplete(s: State, x1: int, y1: int, x2: int, y2: int)
    requires Inv(s)
    requires IsValidLine(x1, y1, x2, y2)
    ensures OwnedIffComplete(CheckBoxes(s.(lines := s.lines + {GetLineKey(x1, y1, x2, y2)}), x1, y1, x2, y2).0)
  {
    var k := GetLineKey(x1, y1, x2, y2);
    var s1 := s.(lines := s.lines + {k});
    ScanFacts(s1, x1, y1, x2, y2, |Directions|);
    var t := CheckBoxes(s1, x1, y1, x2, y2).0;
    forall col, row | InBoxRange(t.size, col, row) && IsBoxComplete(t.lines, col, row)
      ensures Owner(t, col, row) != 0
    {
      if k in BoxSides(col, row) {
        ProbesCoverBorderingBoxes(x1, y1, x2, y2, col, row);
        assert Probed(x1, y1, x2, y2, |Directions|, col, row);
      } else {
        assert IsBoxComplete(s.lines, col, row);
      }
    }
  }

  lemma ClaimKeepsOwnedIffComplete(s: State, x1: int, y1: int, x2: int, y2: int)
    requires Inv(s)
    requires IsValidLine(x1, y1, x2, y2)
    ensures OwnedIffComplete(Claim(s, x1, y1, x2, y2))
  {
    var k := GetLineKey(x1, y1, x2, y2);
    if !s.isGameOver && k !in s.lines {
      var s1 := s.(lines := s.lines + {k});
      var s' := Claim(s, x1, y1, x2, y2);
      ClaimFacts(s, x1, y1, x2, y2);
      ScanKeepsOwnedIffComplete(s, x1, y1, x2, y2);
      var t := CheckBoxes(s1, x1, y1, x2, y2).0;
      ScanFacts(s1, x1, y1, x2, y2, |Directions|);
      SameBoxesSameOwners(s', t);
    }
  }

  /** Every claim of a valid edge between two dots keeps the game's invariant. */
  lemma ClaimPreservesInv(s: State, x1: int, y1: int, x2: int, y2: int)
    requires Inv(s)
    requires OnGrid(s.size, x1, y1) && OnGrid(s.size, x2, y2) && IsValidLine(x1, y1, x2, y2)
    ensures Inv(Claim(s, x1, y1, x2, y2))
  {
    var k := GetLineKey(x1, y1, x2, y2);
    ClaimKeepsOwnedIffComplete(s, x1, y1, x2, y2);
    if !s.isGameOver && k !in s.lines {
      var s1 := s.(lines := s.lines + {k});
      ClaimFacts(s, x1, y1, x2, y2);
      ScanFacts(s1, x1, y1, x2, y2, |Directions|);
      GridLineKeys(s.size, x1, y1, x2, y2);
    }
  }

  /** The owners are read from the size and the boxes alone. */
  lemma SameBoxesSameOwners(a: State, b: State)
    requires a.size == b.size && a.boxes == b.boxes
    ensures forall col, row :: Owner(a, col, row) == Owner(b, col, row)
  {}

  /** The scan only ever gives an unowned box to the current player, and only
      a complete box that borders the new edge. */
  lemma ScanOwnership(s: State, x1: int, y1: int, x2: int, y2: int)
    requires Inv(s)
    ensures var k := GetLineKey(x1, y1, x2, y2);
      var s1 := s.(lines := s.lines + {k});
      var t := CheckBoxes(s1, x1, y1, x2, y2).0;
      && t.size == s.size && |t.boxes| == |s.boxes|
      && forall col, row :: InBoxRange(s.size, col, row) ==>
        || Owner(t, col, row) == Owner(s, col, row)
        || (&& Owner(s, col, row) == 0
            && Owner(t, col, row) == s.currentPlayer
            && IsBoxComplete(s1.lines, col, row)
            && k in BoxSides(col, row))
  {
    var k := GetLineKey(x1, y1, x2, y2);
    var s1 := s.(lines := s.lines + {k});
    ScanFacts(s1, x1, y1, x2, y2, |Directions|);
    var t := CheckBoxes(s1, x1, y1, x2, y2).0;
    forall col, row | InBoxRange(s.size, col, row) && Owner(t, col, row) != Owner(s, col, row)
      ensures Owner(s, col, row) == 0 && Owner(t, col, row) == s.currentPlayer
      ensures IsBoxComplete(s1.lines, col, row) && k in BoxSides(col, row)
    {
      BoxIndexInRange(s.size - 1, col, row);
      assert k !in BoxSides(col, row) ==>
        (IsBoxComplete(s1.lines, col, row) ==> IsBoxComplete(s.lines, col, row));
    }
  }

  /** A claim only ever gives an unowned box to the player who made it, and
      only a box that the claim completed and that borders the new edge. */
  lemma ClaimOwnership(s: State, x1: int, y1: int, x2: int, y2: int)
    requires Inv(s)
    requires OnGrid(s.size, x1, y1) && OnGrid(s.size, x2, y2) && IsValidLine(x1, y1, x2, y2)
    ensures var s' := Claim(s, x1, y1, x2, y2);
      && s'.size == s.size && |s'.boxes| == |s.boxes|
      && forall col, row :: InBoxRange(s.size, col, row) ==>
           || Owner(s', col, row) == Owner(s, col, row)
           || (&& Owner(s, col, row) == 0
               && Owner(s', col, row) == s.currentPlayer
               && IsBoxComplete(s'.lines, col, row)
               && GetLineKey(x1, y1, x2, y2) in BoxSides(col, row))
  {
    var k := GetLineKey(x1, y1, x2, y2);
    if !s.isGameOver && k !in s.lines {
      var s1 := s.(lines := s.lines + {k});
      var s' := Claim(s, x1, y1, x2, y2);
      ClaimFacts(s, x1, y1, x2, y2);
      ScanOwnership(s, x1, y1, x2, y2);
      var t := CheckBoxes(s1, x1, y1, x2, y2).0;
      SameBoxesSameOwners(s', t);
    }
  }

  /** The turn passes to the other player exactly when the claim scored nothing. */
  lemma ClaimTurnRule(s: State, x1: int, y1: int, x2: int, y2: int)
    requires WellFormed(s)
    ensures var s' := Claim(s, x1, y1, x2, y2);
      !s.isGameOver && GetLineKey(x1, y1, x2, y2) !in s.lines ==>
        && Claimed(s) <= Claimed(s')
        && s'.currentPlayer == (if Claimed(s') == Claimed(s) then Other(s.currentPlayer) else s.currentPlayer)
        && (s'.currentPlayer != s.currentPlayer <==> Claimed(s') == Claimed(s))
  {
    var k := GetLineKey(x1, y1, x2, y2);
    if !s.isGameOver && k !in s.lines {
      ClaimFacts(s, x1, y1, x2, y2);
      ScanFacts(s.(lines := s.lines + {k}), x1, y1, x2, y2, |Directions|);
    }
  }

  /** One claim scores at most two boxes: the non-bordering probe awards
      nothing and the repeated probe never scores a box twice. */
  lemma ClaimScoresAtMostTwo(s: State, x1: int, y1: int, x2: int, y2: int)
    requires Inv(s)
    requires IsValidLine(x1, y1, x2, y2)
    ensures Claimed(s) <= Claimed(Claim(s, x1, y1, x2, y2)) <= Claimed(s) + 2
  {
    var k := GetLineKey(x1, y1, x2, y2);
    if !s.isGameOver && k !in s.lines {
      ClaimFacts(s, x1, y1, x2, y2);
      ScanScoresAtMostTwo(s, x1, y1, x2, y2);
    }
  }

  /** The facts about one probe that bound a claim's score: it adds at most
      one box, settles the probed box and keeps box r settled. */
  lemma ProbeStepScore(s: State, c: bool, q: (int, int), r: (int, int))
    requires WellFormed(s)
    ensures var t := ProbeStep(s, c, q).0;
      && WellFormed(t) && t.size == s.size && t.lines == s.lines
      && (Claimed(t) == Claimed(s) || Claimed(t) == Claimed(s) + 1)
      && Settled(t, q)
      && (Settled(s, r) ==> Settled(t, r))
  {
    ProbeStepFacts(s, c, q);
  }

  /** Probing a settled box changes nothing. */
  lemma SettledProbeIsNoop(s: State, c: bool, q: (int, int))
    requires WellFormed(s) && Settled(s, q)
    ensures ProbeStep(s, c, q) == (s, c)
  {
    ProbeStepFacts(s, c, q);
  }

  lemma ScanScoresAtMostTwo(s: State, x1: int, y1: int, x2: int, y2: int)
    requires Inv(s)
    requires IsValidLine(x1, y1, x2, y2)
    ensures var t := CheckBoxes(s.(lines := s.lines + {GetLineKey(x1, y1, x2, y2)}), x1, y1, x2, y2).0;
      Claimed(s) <= Claimed(t) <= Claimed(s) + 2
  {
    var k := GetLineKey(x1, y1, x2, y2);
    var t0 := s.(lines := s.lines + {k});
    var p0 := ProbeBox(x1, y1, x2, y2, Directions[0]);
    var p1 := ProbeBox(x1, y1, x2, y2, Directions[1]);
    var p2 := ProbeBox(x1, y1, x2, y2, Directions[2]);
    var p3 := ProbeBox(x1, y1, x2, y2, Directions[3]);
    var r1 := ProbeStep(t0, false, p0);
    var r2 := ProbeStep(r1.0, r1.1, p1);
    var r3 := ProbeStep(r2.0, r2.1, p2);
    var r4 := ProbeStep(r3.0, r3.1, p3);
    assert ScanUpTo(t0, x1, y1, x2, y2, 1) == r1;
    assert ScanUpTo(t0, x1, y1, x2, y2, 2) == r2;
    assert ScanUpTo(t0, x1, y1, x2, y2, 3) == r3;
    assert ScanUpTo(t0, x1, y1, x2, y2, 4) == r4;
    ProbeLayout(x1, y1, x2, y2);
    if IsHorizontal(k) {
      NonBorderingProbeAwardsNothing(s, k, p2);
      ProbeStepScore(t0, false, p0, p2);
      ProbeStepScore(r1.0, r1.1, p1, p2);
      SettledProbeIsNoop(r2.0, r2.1, p2);
      SettledProbeIsNoop(r3.0, r3.1, p3);
    } else {
      NonBorderingProbeAwardsNothing(s, k, p0);
      SettledProbeIsNoop(t0, false, p0);
      ProbeStepScore(r1.0, r1.1, p1, p1);
      ProbeStepScore(r2.0, r2.1, p2, p1);
      SettledProbeIsNoop(r3.0, r3.1, p3);
    }
  }

  /** The game ends on the claim that brings the scores' sum to the number of boxes. */
  lemma ClaimGameOver(s: State, x1: int, y1: int, x2: int, y2: int)
    requires Inv(s)
    ensures var s' := Claim(s, x1, y1, x2, y2);
      && (s.isGameOver ==> s' == s)
      && (s'.isGameOver <==> s.isGameOver || Claimed(s') == TotalBoxes(s.size))
  {
    var k := GetLineKey(x1, y1, x2, y2);
    if !s.isGameOver && k !in s.lines {
      ClaimFacts(s, x1, y1, x2, y2);
    }
  }

  // ---------------------------------------------------------------------------
  // Scores and the end of the game

  /** The scores never exceed the number of boxes. */
  lemma ScoresBounded(s: State)
    requires Inv(s)
    ensures 0 <= s.player1Score && 0 <= s.player2Score
    ensures Claimed(s) <= TotalBoxes(s.size)
  {
    CountPair(s.boxes, 1, 2);
  }

  /** The game is over exactly when every box is owned, that is, exactly when
      every box has all four sides claimed. */
  lemma GameOverIffBoardFull(s: State)
    requires Inv(s)
    ensures s.isGameOver <==> forall i :: 0 <= i < |s.boxes| ==> s.boxes[i] != 0
    ensures s.isGameOver <==>
      forall col, row :: InBoxRange(s.size, col, row) ==> IsBoxComplete(s.lines, col, row)
  {
    var w := s.size - 1;
    CountPair(s.boxes, 1, 2);
    if forall col, row :: InBoxRange(s.size, col, row) ==> IsBoxComplete(s.lines, col, row) {
      forall i | 0 <= i < |s.boxes| ensures s.boxes[i] != 0 {
        BoxAtIndex(w, i);
        assert Owner(s, i % w, i / w) != 0;
      }
    }
    if forall i :: 0 <= i < |s.boxes| ==> s.boxes[i] != 0 {
      forall col, row | InBoxRange(s.size, col, row) ensures IsBoxComplete(s.lines, col, row) {
        BoxIndexInRange(w, col, row);
      }
    }
  }

  lemma OddSquare(n: int)
    requires n % 2 == 1
    ensures (n * n) % 2 == 1
  {
    var m := n / 2;
    assert n == 2 * m + 1;
    assert n * n == 2 * (2 * m * m + 2 * m) + 1;
  }

  lemma OddSumUneven(a: int, b: int)
    requires (a + b) % 2 == 1
    ensures a != b
  {}

  /** On a board with an even number of dots per side the number of boxes is
      odd, so a finished game there never ends in a tie. */
  lemma NoTieOnEvenBoard(s: State)
    requires Inv(s) && s.isGameOver && s.size % 2 == 0
    ensures Winner(s.player1Score, s.player2Score) != Tie
  {
    var n := s.size - 1;
    OddSquare(n);
    assert Claimed(s) == n * n;
    OddSumUneven(s.player1Score, s.player2Score);
  }

  // ---------------------------------------------------------------------------
  // A whole game on the smallest board

  /** With two dots per side there is one box. Starting from a game with no
      edges and player 1 to move (such as `Init(2)`, by InitIsFreshGame), the
      top, right and bottom edges each pass the turn; the left edge completes
      the box for the player then to move, player 2, who keeps the turn and
      wins, and the game accepts no more moves. */
  lemma SmallestBoardGame(s0: State, s1: State, s2: State, s3: State, s4: State)
    requires Inv(s0) && s0.size == 2 && s0.lines == {} && s0.currentPlayer == 1
    requires s1 == Claim(s0, 0, 0, 1, 0)
    requires s2 == Claim(s1, 1, 0, 1, 1)
    requires s3 == Claim(s2, 0, 1, 1, 1)
    requires s4 == Claim(s3, 0, 0, 0, 1)
    ensures s1.currentPlayer == 2 && Claimed(s1) == 0 && !s1.isGameOver
    ensures s2.currentPlayer == 1 && Claimed(s2) == 0 && !s2.isGameOver
    ensures s3.currentPlayer == 2 && Claimed(s3) == 0 && !s3.isGameOver
    ensures s4.boxes == [2] && s4.player1Score == 0 && s4.player2Score == 1
    ensures s4.currentPlayer == 2 && s4.isGameOver
    ensures Winner(s4.player1Score, s4.player2Score) == Player2Wins
    ensures Claim(s4, 0, 1, 1, 1) == s4
  {
    TopEdge(s0, s1);
    RightEdge(s1, s2);
    BottomEdge(s2, s3);
    LeftEdge(s3, s4);
  }

  /** The top edge of the single box passes the turn to player 2. */
  lemma TopEdge(s0: State, s1: State)
    requires Inv(s0) && s0.size == 2 && s0.lines == {} && s0.currentPlayer == 1
    requires s1 == Claim(s0, 0, 0, 1, 0)
    ensures Inv(s1) && s1.size == 2 && s1.lines == {LineKey(0, 0, 1, 0)}
    ensures s1.currentPlayer == 2 && Claimed(s1) == 0 && !s1.isGameOver
  {
    OneBoxBoard(s0);
    QuietClaimOnOneBox(s0, 0, 0, 1, 0);
  }

  /** The right edge passes the turn back to player 1. */
  lemma RightEdge(s1: State, s2: State)
    requires Inv(s1) && s1.size == 2 && s1.lines == {LineKey(0, 0, 1, 0)}
    requires s1.currentPlayer == 2 && !s1.isGameOver
    requires s2 == Claim(s1, 1, 0, 1, 1)
    ensures Inv(s2) && s2.size == 2 && s2.lines == {LineKey(0, 0, 1, 0), LineKey(1, 0, 1, 1)}
    ensures s2.currentPlayer == 1 && Claimed(s2) == 0 && !s2.isGameOver
  {
    QuietClaimOnOneBox(s1, 1, 0, 1, 1);
  }

  /** The bottom edge passes the turn to player 2 again. */
  lemma BottomEdge(s2: State, s3: State)
    requires Inv(s2) && s2.size == 2 && s2.lines == {LineKey(0, 0, 1, 0), LineKey(1, 0, 1, 1)}
    requires s2.currentPlayer == 1 && !s2.isGameOver
    requires s3 == Claim(s2, 0, 1, 1, 1)
    ensures Inv(s3) && s3.size == 2
    ensures s3.lines == {LineKey(0, 0, 1, 0), LineKey(1, 0, 1, 1), LineKey(0, 1, 1, 1)}
    ensures s3.currentPlayer == 2 && Claimed(s3) == 0 && !s3.isGameOver
  {
    QuietClaimOnOneBox(s2, 0, 1, 1, 1);
  }

  /** The left edge completes the box for player 2, who keeps the turn and
      wins; the game then ignores further clicks. */
  lemma LeftEdge(s3: State, s4: State)
    requires Inv(s3) && s3.size == 2
    requires s3.lines == {LineKey(0, 0, 1, 0), LineKey(1, 0, 1, 1), LineKey(0, 1, 1, 1)}
    requires s3.currentPlayer == 2 && !s3.isGameOver
    requires s4 == Claim(s3, 0, 0, 0, 1)
    ensures s4.boxes == [2] && s4.player1Score == 0 && s4.player2Score == 1
    ensures s4.currentPlayer == 2 && s4.isGameOver
    ensures Winner(s4.player1Score, s4.player2Score) == Player2Wins
    ensures Claim(s4, 0, 1, 1, 1) == s4
  {
    LastClaimOnOneBox(s3, 0, 0, 0, 1);
    CountSingleton(2, 1);
    CountSingleton(2, 2);
    ClaimGameOver(s4, 0, 1, 1, 1);
  }

  /** On the one-box board, a claim that leaves the box incomplete passes the turn. */
  lemma QuietClaimOnOneBox(s: State, x1: int, y1: int, x2: int, y2: int)
    requires Inv(s) && s.size == 2 && !s.isGameOver && GetLineKey(x1, y1, x2, y2) !in s.lines
    requires OnGrid(2, x1, y1) && OnGrid(2, x2, y2) && IsValidLine(x1, y1, x2, y2)
    requires !IsBoxComplete(s.lines + {GetLineKey(x1, y1, x2, y2)}, 0, 0)
    ensures var s' := Claim(s, x1, y1, x2, y2);
      && Inv(s') && s'.size == 2 && s'.lines == s.lines + {GetLineKey(x1, y1, x2, y2)}
      && s'.boxes == [0] && Claimed(s') == 0
      && s'.currentPlayer == Other(s.currentPlayer) && !s'.isGameOver
  {
    ClaimStepFacts(s, x1, y1, x2, y2);
    var s' := Claim(s, x1, y1, x2, y2);
    OneBoxStep(s, s', GetLineKey(x1, y1, x2, y2));
  }

  /** On the one-box board, the claim that completes the box gives it to the
      player to move, who keeps the turn, and ends the game. */
  lemma LastClaimOnOneBox(s: State, x1: int, y1: int, x2: int, y2: int)
    requires Inv(s) && s.size == 2 && !s.isGameOver && GetLineKey(x1, y1, x2, y2) !in s.lines
    requires OnGrid(2, x1, y1) && OnGrid(2, x2, y2) && IsValidLine(x1, y1, x2, y2)
    requires IsBoxComplete(s.lines + {GetLineKey(x1, y1, x2, y2)}, 0, 0)
    ensures var s' := Claim(s, x1, y1, x2, y2);
      && Inv(s') && s'.size == 2 && s'.lines == s.lines + {GetLineKey(x1, y1, x2, y2)}
      && s'.boxes == [s.currentPlayer]
      && s'.currentPlayer == s.currentPlayer && s'.isGameOver
  {
    ClaimStepFacts(s, x1, y1, x2, y2);
    var s' := Claim(s, x1, y1, x2, y2);
    OneBoxStep(s, s', GetLineKey(x1, y1, x2, y2));
  }

  /** The general lemmas about one claim of a new edge, gathered in one place. */
  lemma ClaimStepFacts(s: State, x1: int, y1: int, x2: int, y2: int)
    requires Inv(s) && !s.isGameOver && GetLineKey(x1, y1, x2, y2) !in s.lines
    requires OnGrid(s.size, x1, y1) && OnGrid(s.size, x2, y2) && IsValidLine(x1, y1, x2, y2)
    ensures var s' := Claim(s, x1, y1, x2, y2);
      && Inv(s') && s'.size == s.size
      && s'.lines == s.lines + {GetLineKey(x1, y1, x2, y2)}
      && s'.currentPlayer == (if Claimed(s') == Claimed(s) then Other(s.currentPlayer) else s.currentPlayer)
      && forall col, row :: InBoxRange(s.size, col, row) ==>
           || Owner(s', col, row) == Owner(s, col, row)
           || (Owner(s, col, row) == 0 && Owner(s', col, row) == s.currentPlayer)
  {
    ClaimLines(s, x1, y1, x2, y2);
    ClaimPreservesInv(s, x1, y1, x2, y2);
    ClaimOwnership(s, x1, y1, x2, y2);
    ClaimTurnRule(s, x1, y1, x2, y2);
  }

  /** On the board with two dots per side, the single box is the whole array,
      and it is owned exactly when its four sides are claimed. */
  lemma OneBoxBoard(s: State)
    requires Inv(s) && s.size == 2
    ensures s.boxes == [Owner(s, 0, 0)]
    ensures Owner(s, 0, 0) != 0 <==> IsBoxComplete(s.lines, 0, 0)
  {
    assert InBoxRange(s.size, 0, 0);
  }

  /** One claim of edge k on the one-box board, told by the general facts about
      a claim: the box is taken exactly when k completes it, by the mover. */
  lemma OneBoxStep(s: State, s': State, k: LineKey)
    requires Inv(s) && Inv(s') && s.size == 2 && s'.size == 2 && s'.lines == s.lines + {k}
    requires k !in s.lines && !s.isGameOver
    requires s'.currentPlayer == (if Claimed(s') == Claimed(s) then Other(s.currentPlayer) else s.currentPlayer)
    requires Owner(s', 0, 0) == Owner(s, 0, 0) || (Owner(s, 0, 0) == 0 && Owner(s', 0, 0) == s.currentPlayer)
    ensures s.boxes == [0]
    ensures IsBoxComplete(s'.lines, 0, 0) ==> s'.boxes == [s.currentPlayer] && s'.currentPlayer == s.currentPlayer && s'.isGameOver
    ensures !IsBoxComplete(s'.lines, 0, 0) ==> s'.boxes == [0] && Claimed(s') == 0 && s'.currentPlayer == Other(s.currentPlayer) && !s'.isGameOver
  {
    OneBoxBoard(s);
    OneBoxBoard(s');
  }
}
