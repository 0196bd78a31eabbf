/** The state enumerator: one sequential step of the worker loop, which takes the next
    game off the work queue and queues each successor whose state number has not been
    seen.  The worker receives the game first and then holds the seen-set lock through
    the expansion; the model takes one step as atomic and dequeues in first-in first-out
    order, which several workers need not keep. */
module Enumerator {
  import opened Grid
  import opened Moves
  import opened Lines
  import opened Codec

  /** A game the enumerator can meet: a well-formed board, cells in {0, 1, 2}, no piece
      resting on an empty cell, and one of the two players to move. */
  predicate Playable(g: Game)
  {
    g.board.WellFormed() && CellsInRange(g.board) && Gravity(g.board) && (g.player == 1 || g.player == 2)
  }

  /** The result of expanding one game: the new seen-set, the games queued (in order) and
      the (from, to) state-number pairs reported for them. */
  datatype Expanded = Expanded(seen: set<int>, added: seq<Game>, edges: seq<(int, int)>)

  /** The state numbers of a sequence of games, in order. */
  function Numbers(games: seq<Game>): (ns: seq<int>)
    ensures |ns| == |games|
    ensures forall k :: 0 <= k < |games| ==> ns[k] == Encode(games[k].board)
  {
    seq(|games|, k requires 0 <= k < |games| => Encode(games[k].board))
  }

  /** The inner loop of the worker over the successor boards, from game number `src`
      with `next` to move in each successor: a board whose number is already seen is
      skipped, any other is reported, inserted into the seen-set and queued. */
  function ExpandFrom(src: int, seen: set<int>, boards: seq<Board>, next: int): Expanded
    decreases |boards|
  {
    if boards == [] then Expanded(seen, [], [])
    else
      var num := Encode(boards[0]);
      if num in seen then
        ExpandFrom(src, seen, boards[1..], next)
      else
        var rest := ExpandFrom(src, seen + {num}, boards[1..], next);
        Expanded(rest.seen, [Game(boards[0], next)] + rest.added, [(src, num)] + rest.edges)
  }

  /** The inner loop queues, in order, games with `next` to move on boards from the list,
      each reported as an edge from `src`, none of whose numbers was seen before, no two
      with the same number; the seen-set grows by exactly their numbers, and every board
      of the list ends up seen. */
  lemma {:induction false} ExpandFromFacts(src: int, seen: set<int>, boards: seq<Board>, next: int)
    ensures var r := ExpandFrom(src, seen, boards, next);
      |r.added| == |r.edges| &&
      (forall k :: 0 <= k < |r.added| ==>
         r.added[k].player == next && r.added[k].board in boards && r.edges[k] == (src, Encode(r.added[k].board))) &&
      (forall k :: 0 <= k < |r.added| ==> Encode(r.added[k].board) !in seen) &&
      (forall k, l :: 0 <= k < l < |r.added| ==> Encode(r.added[k].board) != Encode(r.added[l].board)) &&
      (forall n :: n in r.seen <==> n in seen || n in Numbers(r.added)) &&
      (forall b :: b in boards ==> Encode(b) in r.seen)
  {
    ExpandFromShape(src, seen, boards, next);
    ExpandFromFresh(src, seen, boards, next);
    ExpandFromSeen(src, seen, boards, next);
  }

  /** Each queued game has `next` to move, a board from the list, and its edge. */
  lemma {:induction false} ExpandFromShape(src: int, seen: set<int>, boards: seq<Board>, next: int)
    ensures var r := ExpandFrom(src, seen, boards, next);
      |r.added| == |r.edges| &&
      (forall k :: 0 <= k < |r.added| ==>
         r.added[k].player == next && r.added[k].board in boards && r.edges[k] == (src, Encode(r.added[k].board)))
    decreases |boards|
  {
    if boards != [] {
      var num := Encode(boards[0]);
      if num in seen {
        ExpandFromShape(src, seen, boards[1..], next);
      } else {
        ExpandFromShape(src, seen + {num}, boards[1..], next);
      }
    }
  }

  /** No queued number was seen before, and no number is queued twice. */
  lemma {:induction false} ExpandFromFresh(src: int, seen: set<int>, boards: seq<Board>, next: int)
    ensures forall k :: 0 <= k < |ExpandFrom(src, seen, boards, next).added| ==>
      Encode(ExpandFrom(src, seen, boards, next).added[k].board) !in seen
    ensures forall k, l :: 0 <= k < l < |ExpandFrom(src, seen, boards, next).added| ==>
      Encode(ExpandFrom(src, seen, boards, next).added[k].board) != Encode(ExpandFrom(src, seen, boards, next).added[l].board)
    decreases |boards|
  {
    if boards != [] {
      var num := Encode(boards[0]);
      if num in seen {
        ExpandFromFresh(src, seen, boards[1..], next);
      } else {
        ExpandFromFresh(src, seen + {num}, boards[1..], next);
      }
    }
  }

  /** The seen-set grows by exactly the queued numbers, and every board ends up seen. */
  lemma {:induction false} ExpandFromSeen(src: int, seen: set<int>, boards: seq<Board>, next: int)
    ensures var r := ExpandFrom(src, seen, boards, next);
      (forall n :: n in r.seen <==> n in seen || n in Numbers(r.added)) &&
      (forall b :: b in boards ==> Encode(b) in r.seen)
    decreases |boards|
  {
    if boards != [] {
      var num := Encode(boards[0]);
      if num in seen {
        ExpandFromSeen(src, seen, boards[1..], next);
      } else {
        ExpandFromSeen(src, seen + {num}, boards[1..], next);
        var rest := ExpandFrom(src, seen + {num}, boards[1..], next);
        assert Numbers([Game(boards[0], next)] + rest.added) == [num] + Numbers(rest.added);
      }
    }
  }

  /** The inner loop from position i: a board already seen is skipped, any other is
      queued in front of what the rest of the loop queues. */
  lemma ExpandFromStep(src: int, seen: set<int>, boards: seq<Board>, i: nat, next: int)
    requires i < |boards|
    ensures var num := Encode(boards[i]);
      var here := ExpandFrom(src, seen, boards[i..], next);
      if num in seen then here == ExpandFrom(src, seen, boards[i + 1..], next)
      else
        var rest := ExpandFrom(src, seen + {num}, boards[i + 1..], next);
        here == Expanded(rest.seen, [Game(boards[i], next)] + rest.added, [(src, num)] + rest.edges)
  {
    assert boards[i..][1..] == boards[i + 1..];
  }

  /** Midway through the inner loop, at board i: what the rest of the loop will add,
      appended to the queue and edges so far, is what the whole loop adds to q0 and e0. */
  ghost predicate Remaining(src: int, boards: seq<Board>, i: nat, next: int, seen: set<int>,
                            queue: seq<Game>, edges: seq<(int, int)>, r: Expanded,
                            q0: seq<Game>, e0: seq<(int, int)>)
    requires i <= |boards|
  {
    var rest := ExpandFrom(src, seen, boards[i..], next);
    rest.seen == r.seen && queue + rest.added == q0 + r.added && edges + rest.edges == e0 + r.edges
  }

  /** Skipping a board whose number is already seen moves the loop on by one. */
  lemma SkipSeen(src: int, boards: seq<Board>, i: nat, next: int, seen: set<int>,
                 queue: seq<Game>, edges: seq<(int, int)>, r: Expanded,
                 q0: seq<Game>, e0: seq<(int, int)>)
    requires i < |boards| && Encode(boards[i]) in seen
    requires Remaining(src, boards, i, next, seen, queue, edges, r, q0, e0)
    ensures Remaining(src, boards, i + 1, next, seen, queue, edges, r, q0, e0)
  {
    ExpandFromStep(src, seen, boards, i, next);
  }

  /** Reporting, inserting and queuing a board with an unseen number moves the loop on by one. */
  lemma QueueUnseen(src: int, boards: seq<Board>, i: nat, next: int, seen: set<int>,
                    queue: seq<Game>, edges: seq<(int, int)>, r: Expanded,
                    q0: seq<Game>, e0: seq<(int, int)>)
    requires i < |boards| && Encode(boards[i]) !in seen
    requires Remaining(src, boards, i, next, seen, queue, edges, r, q0, e0)
    ensures var num := Encode(boards[i]);
      Remaining(src, boards, i + 1, next, seen + {num}, queue + [Game(boards[i], next)],
                edges + [(src, num)], r, q0, e0)
  {
    ExpandFromStep(src, seen, boards, i, next);
    var num, g := Encode(boards[i]), Game(boards[i], next);
    var rest := ExpandFrom(src, seen + {num}, boards[i + 1..], next);
    assert queue + [g] + rest.added == queue + ([g] + rest.added);
    assert edges + [(src, num)] + rest.edges == edges + ([(src, num)] + rest.edges);
  }

  /** One worker step for a dequeued game: nothing for a finished game, otherwise the
      successors of its board with the other player to move. */
  function Expansion(seen: set<int>, state: Game): Expanded
    requires state.board.WellFormed()
  {
    if IsOver(state) then Expanded(seen, [], [])
    else ExpandFrom(Encode(state.board), seen, Successors(state.board, state.player), SwitchPlayer(state.player))
  }

  /** A finished game queues nothing and leaves the seen-set as it is. */
  lemma TerminalExpandsNothing(seen: set<int>, state: Game)
    requires state.board.WellFormed() && IsOver(state)
    ensures Expansion(seen, state).seen == seen
    ensures Expansion(seen, state).added == [] && Expansion(seen, state).edges == []
  {
  }

  /** For a game still running, the seen-set only grows and every successor ends up seen. */
  lemma ExpansionSeesAllSuccessors(seen: set<int>, state: Game)
    requires state.board.WellFormed() && !IsOver(state)
    ensures seen <= Expansion(seen, state).seen
    ensures forall s :: s in Successors(state.board, state.player) ==> Encode(s) in Expansion(seen, state).seen
  {
    var boards := Successors(state.board, state.player);
    var r := ExpandFrom(Encode(state.board), seen, boards, SwitchPlayer(state.player));
    assert Expansion(seen, state) == r;
    ExpandFromFacts(Encode(state.board), seen, boards, SwitchPlayer(state.player));
    assert forall n :: n in seen ==> n in r.seen;
  }

  /** For a game still running, every queued game is a successor with the other player to
      move, whose number was not seen before, and no number is queued twice. */
  lemma ExpansionQueuesFreshSuccessors(seen: set<int>, state: Game)
    requires state.board.WellFormed() && !IsOver(state)
    ensures var r := Expansion(seen, state);
      (forall k :: 0 <= k < |r.added| ==>
         r.added[k].board in Successors(state.board, state.player) &&
         r.added[k].player == SwitchPlayer(state.player) &&
         Encode(r.added[k].board) !in seen) &&
      (forall k, l :: 0 <= k < l < |r.added| ==> Encode(r.added[k].board) != Encode(r.added[l].board))
  {
    var boards := Successors(state.board, state.player);
    ExpandFromFacts(Encode(state.board), seen, boards, SwitchPlayer(state.player));
  }

  /** A game won only on a face anti-diagonal is still expanded: `is_over` misses the line,
      column (0, 1) has room, and with nothing seen yet its successors are queued. */
  lemma AntiDiagonalGameExpanded(b: Board)
    requires b == AntiDiagonalBoard()
    ensures Expansion({}, Game(b, 2)).added != []
  {
    AntiDiagonalNotOver(b);
    AntiDiagonalColumnOpen(b);
    RunningGameExpands(Game(b, 2), 1);
  }

  // Kept apart from AntiDiagonalGameExpanded only to keep the solver within its budget:
  // the concrete board and the expansion are never unfolded in one proof.
  lemma AntiDiagonalNotOver(b: Board)
    requires b == AntiDiagonalBoard()
    ensures b.WellFormed() && !IsOver(Game(b, 2))
  {
    AntiDiagonalMissed();
  }

  lemma AntiDiagonalColumnOpen(b: Board)
    requires b == AntiDiagonalBoard()
    ensures b.WellFormed() && ColumnOpen(b, 1)
  {
    assert ColX(1) == 0 && ColY(1) == 1;
    assert b.Cell(0, 1, 0) == 0;
  }

  /** A running game with a column that has room queues something when nothing is seen. */
  lemma RunningGameExpands(state: Game, c: nat)
    requires state.board.WellFormed() && !IsOver(state) && c < 9 && ColumnOpen(state.board, c)
    ensures Expansion({}, state).added != []
  {
    OpenColumnGivesSuccessor(state.board, state.player, c);
    FirstUnseenQueued(Encode(state.board), Successors(state.board, state.player), SwitchPlayer(state.player));
  }

  /** With nothing seen, a non-empty list of boards queues at least its first board. */
  lemma FirstUnseenQueued(src: int, boards: seq<Board>, next: int)
    requires boards != []
    ensures ExpandFrom(src, {}, boards, next).added != []
  {
  }

  /** A successor of a playable game is playable once the other player is to move, and
      its state number is positive, so it is never the number of the empty board. */
  lemma SuccessorPlayable(state: Game, s: Board)
    requires Playable(state) && s in Successors(state.board, state.player)
    ensures Playable(Game(s, SwitchPlayer(state.player)))
    ensures Encode(s) != 0
  {
    SuccessorKeepsGravity(state.board, state.player, s);
    SuccessorKeepsCellsInRange(state.board, state.player, s);
    SuccessorChangesOneCell(state.board, state.player, s);
    var i :| 0 <= i < 27 && state.board.cells[i] == 0 && s.cells == state.board.cells[i := state.player];
    assert s.cells[i] != 0;
    assert s != EmptyBoard();
    EncodeZeroExactlyEmpty(s);
  }

  /** The seen-set holds exactly the numbers of the games queued after the root. */
  ghost predicate SeenMatches(history: seq<Game>, seen: set<int>)
  {
    forall n :: n in seen <==> exists i :: 1 <= i < |history| && Encode(history[i].board) == n
  }

  /** A number that is neither seen nor the root's is the number of no queued game. */
  lemma FreshAgainstHistory(history: seq<Game>, seen: set<int>, num: int)
    requires |history| >= 1 && history[0] == Game(EmptyBoard(), 1)
    requires SeenMatches(history, seen) && num !in seen && num != 0
    ensures forall j :: 0 <= j < |history| ==> Encode(history[j].board) != num
  {
    forall j | 0 <= j < |history|
      ensures Encode(history[j].board) != num
    {
      if j == 0 {
        ValueAllZero(EmptyBoard().cells);
      } else {
        assert Encode(history[j].board) in seen;
      }
    }
  }

  /** Queuing a game and inserting its number keeps the seen-set matched to the queue. */
  lemma SeenAfterAppend(history: seq<Game>, seen: set<int>, next: Game)
    requires |history| >= 1 && SeenMatches(history, seen)
    ensures SeenMatches(history + [next], seen + {Encode(next.board)})
  {
    var h := history + [next];
    assert forall i :: 0 <= i < |history| ==> h[i] == history[i];
    forall n
      ensures n in seen + {Encode(next.board)} <==> exists i :: 1 <= i < |h| && Encode(h[i].board) == n
    {
      if n == Encode(next.board) {
        assert Encode(h[|h| - 1].board) == n;
      } else if n in seen {
        var i :| 1 <= i < |history| && Encode(history[i].board) == n;
        assert Encode(h[i].board) == n;
      }
    }
  }

  /** Every game ever queued: the root first, all playable, no two with the same number,
      and the seen-set holding exactly the numbers of those after the root. */
  ghost predicate HistoryValid(history: seq<Game>, seen: set<int>)
  {
    |history| >= 1 && history[0] == Game(EmptyBoard(), 1) &&
    (forall i :: 0 <= i < |history| ==> Playable(history[i])) &&
    (forall i, j :: 0 <= i < j < |history| ==> Encode(history[i].board) != Encode(history[j].board)) &&
    SeenMatches(history, seen)
  }

  /** Queuing a playable game with a fresh, non-zero number keeps the history valid. */
  lemma HistoryAppend(history: seq<Game>, seen: set<int>, next: Game)
    requires HistoryValid(history, seen) && Playable(next)
    requires Encode(next.board) !in seen && Encode(next.board) != 0
    ensures HistoryValid(history + [next], seen + {Encode(next.board)})
  {
    FreshAgainstHistory(history, seen, Encode(next.board));
    SeenAfterAppend(history, seen, next);
    var h := history + [next];
    assert forall i :: 0 <= i < |history| ==> h[i] == history[i];
  }

  /** The enumerator's shared state: the seen-set, the work queue (front first) and the
      state-number pairs sent to the result writer. */
  class Explorer {
    var seen: set<int>
    var queue: seq<Game>
    var edges: seq<(int, int)>
    /** Every game ever queued, in order, and how many have been taken off the queue. */
    ghost var history: seq<Game>
    ghost var head: nat

    ghost predicate Valid()
      reads this
    {
      head <= |history| && queue == history[head..] && HistoryValid(history, seen)
    }

    /** The empty board with player 1 to move is queued; the seen-set starts empty. */
    constructor ()
      ensures Valid()
      ensures seen == {} && queue == [Game(EmptyBoard(), 1)] && edges == []
    {
      seen := {};
      queue := [Game(EmptyBoard(), 1)];
      edges := [];
      history := [Game(EmptyBoard(), 1)];
      head := 0;
    }

    /** The root's number 0 is never in the seen-set. */
    lemma RootNeverSeen()
      requires Valid()
      ensures 0 !in seen
    {
      ValueAllZero(EmptyBoard().cells);
      assert Encode(history[0].board) == 0;
    }

    /** Expands one dequeued game: queues each successor whose number is not yet seen. */
    method Expand(state: Game)
      requires Valid() && Playable(state)
      modifies this
      ensures Valid() && head == old(head) && old(seen) <= seen
      ensures var r := Expansion(old(seen), state);
        seen == r.seen && queue == old(queue) + r.added && edges == old(edges) + r.edges
    {
      var stateNum := BoardToNumber(state);
      if !IsOver(state) {
        var nexts := GetAllNextStates(state.board, state.player);
        var nextPlayer := SwitchPlayer(state.player);
        assert ExpandFrom(stateNum, seen, nexts, nextPlayer) == Expansion(old(seen), state);
        forall k | 0 <= k < |nexts|
          ensures Playable(Game(nexts[k], nextPlayer)) && Encode(nexts[k]) != 0
        {
          SuccessorPlayable(state, nexts[k]);
        }
        QueueFresh(stateNum, nexts, nextPlayer);
      }
    }

    /** The loop over the successor boards of game number `stateNum`. */
    method QueueFresh(stateNum: int, nexts: seq<Board>, nextPlayer: int)
      requires Valid()
      requires forall k :: 0 <= k < |nexts| ==> Playable(Game(nexts[k], nextPlayer)) && Encode(nexts[k]) != 0
      modifies this
      ensures Valid() && head == old(head) && old(seen) <= seen
      ensures var r := ExpandFrom(stateNum, old(seen), nexts, nextPlayer);
        seen == r.seen && queue == old(queue) + r.added && edges == old(edges) + r.edges
    {
      ghost var r := ExpandFrom(stateNum, seen, nexts, nextPlayer);
      ghost var q0, e0 := queue, edges;
      for i := 0 to |nexts|
        invariant Valid() && head == old(head) && old(seen) <= seen
        invariant Remaining(stateNum, nexts, i, nextPlayer, seen, queue, edges, r, q0, e0)
      {
        var nextGame := Game(nexts[i], nextPlayer);
        var nextNum := BoardToNumber(nextGame);
        if nextNum in seen {
          SkipSeen(stateNum, nexts, i, nextPlayer, seen, queue, edges, r, q0, e0);
          continue;
        }
        QueueUnseen(stateNum, nexts, i, nextPlayer, seen, queue, edges, r, q0, e0);
        edges := edges + [(stateNum, nextNum)];
        AddFresh(nextGame);
      }
    }

    /** Inserts the number of a fresh game into the seen-set and queues the game. */
    method AddFresh(next: Game)
      requires Valid() && Playable(next)
      requires Encode(next.board) !in seen && Encode(next.board) != 0
      modifies this
      ensures Valid() && head == old(head) && edges == old(edges)
      ensures seen == old(seen) + {Encode(next.board)} && queue == old(queue) + [next]
    {
      var num := Encode(next.board);
      HistoryAppend(history, seen, next);
      seen := seen + {num};
      queue := queue + [next];
      history := history + [next];
      assert queue == history[head..];
    }

    /** One worker iteration: takes the front game off the queue, if any, and expands it. */
    method Step() returns (processed: Option<Game>)
      requires Valid()
      modifies this
      ensures Valid() && old(seen) <= seen
      ensures old(queue) == [] ==> processed == None && seen == old(seen) && queue == [] && edges == old(edges)
      ensures old(queue) != [] ==>
        (processed == Some(old(queue)[0]) &&
         var r := Expansion(old(seen), old(queue)[0]);
         seen == r.seen && queue == old(queue)[1..] + r.added && edges == old(edges) + r.edges)
    {
      if queue == [] {
        return None;
      }
      var state := queue[0];
      assert state == history[head];
      queue := queue[1..];
      head := head + 1;
      processed := Some(state);
      Expand(state);
    }
  }
}
