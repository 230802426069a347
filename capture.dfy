/** Capture resolution of the rules engine: throne hostility, sandwich
    capture, the fortress capture of the king on or next to the throne,
    removal of the captured pieces and win detection. */
module CaptureRules {
  import opened TablutTypes
  import opened Geometry

  function Indicator(c: bool): nat {
    if c then 1 else 0
  }

  /** Attackers on the four cells around the throne, one for each of them
      that holds an attacker. */
  function CountAttackersAdjacentToThrone(b: Board): (n: nat)
    ensures n <= 4
    ensures n ==
      Indicator(GetPiece(b, Pos(3, 4)) == Some(A)) + Indicator(GetPiece(b, Pos(5, 4)) == Some(A)) +
      Indicator(GetPiece(b, Pos(4, 3)) == Some(A)) + Indicator(GetPiece(b, Pos(4, 5)) == Some(A))
  {
    ThroneNeighbors();
    var ns := OrthNeighbors(Throne);
    assert ns[1..][1..][1..][1..] == [];
    assert CountAttackersAt(b, ns[1..][1..][1..]) == Indicator(GetPiece(b, Pos(4, 5)) == Some(A));
    assert CountAttackersAt(b, ns[1..][1..]) ==
      Indicator(GetPiece(b, Pos(4, 3)) == Some(A)) + Indicator(GetPiece(b, Pos(4, 5)) == Some(A));
    assert CountAttackersAt(b, ns[1..]) == Indicator(GetPiece(b, Pos(5, 4)) == Some(A)) +
      Indicator(GetPiece(b, Pos(4, 3)) == Some(A)) + Indicator(GetPiece(b, Pos(4, 5)) == Some(A));
    CountAttackersAt(b, ns)
  }

  /** The throne counts as hostile once the king has left it for good, or
      while the king sits on it with at least three attackers around it. */
  predicate IsThroneHostile(b: Board, kingHasLeftThrone: bool) {
    if kingHasLeftThrone then true
    else if GetPiece(b, Throne) != Some(K) then false
    else CountAttackersAdjacentToThrone(b) >= 3
  }

  lemma ThroneHostileIff(b: Board, kingHasLeftThrone: bool)
    ensures IsThroneHostile(b, kingHasLeftThrone) <==>
      kingHasLeftThrone ||
      (GetPiece(b, Throne) == Some(K) &&
       Indicator(GetPiece(b, Pos(3, 4)) == Some(A)) + Indicator(GetPiece(b, Pos(5, 4)) == Some(A)) +
       Indicator(GetPiece(b, Pos(4, 3)) == Some(A)) + Indicator(GetPiece(b, Pos(4, 5)) == Some(A)) >= 3)
  {
  }

  /** The king stands on the throne or on one of its four neighbours. */
  predicate IsKingOnOrAdjacentThrone(p: Pos) {
    IsThrone(p) || p in OrthNeighbors(Throne)
  }

  lemma OnOrAdjacentThroneIff(p: Pos)
    ensures IsKingOnOrAdjacentThrone(p) <==> Dist(p, Throne) <= 1
  {
    ThroneNeighbors();
  }

  /** The cell beyond the captured piece closes the sandwich: it is on the
      board and is either the hostile throne or holds a friendly piece. */
  predicate CanCaptureUsingBeyond(b: Board, side: Side, beyond: Pos, throneHostile: bool) {
    if !IsInside(beyond) then false
    else if IsThrone(beyond) then throneHostile
    else IsFriendly(GetPiece(b, beyond), side)
  }

  /** Keeps the cells of ps other than the throne, in order. */
  function WithoutThrone(ps: seq<Pos>): (r: seq<Pos>)
    ensures forall q :: q in r <==> q in ps && !IsThrone(q)
  {
    if ps == [] then []
    else if IsThrone(ps[0]) then WithoutThrone(ps[1..])
    else [ps[0]] + WithoutThrone(ps[1..])
  }

  /** Every cell of ps is on the board and holds an attacker. */
  predicate AllAttackers(b: Board, ps: seq<Pos>) {
    forall i :: 0 <= i < |ps| ==> IsInside(ps[i]) && GetPiece(b, ps[i]) == Some(A)
  }

  /** The fortress rule: a king on the throne needs attackers on all four
      throne neighbours; a king next to the throne needs attackers on all of
      its neighbours except the throne itself; elsewhere it never applies. */
  predicate KingCapturedSpecial(b: Board, kingPos: Pos) {
    if IsThrone(kingPos) then
      AllAttackers(b, OrthNeighbors(Throne))
    else if kingPos in OrthNeighbors(Throne) then
      AllAttackers(b, WithoutThrone(OrthNeighbors(kingPos)))
    else
      false
  }

  lemma FortressOnThrone(b: Board)
    ensures KingCapturedSpecial(b, Throne) <==>
      GetPiece(b, Pos(3, 4)) == Some(A) && GetPiece(b, Pos(5, 4)) == Some(A) &&
      GetPiece(b, Pos(4, 3)) == Some(A) && GetPiece(b, Pos(4, 5)) == Some(A)
  {
    ThroneNeighbors();
    var ns := OrthNeighbors(Throne);
    assert ns[0] == Pos(3, 4) && ns[1] == Pos(5, 4) && ns[2] == Pos(4, 3) && ns[3] == Pos(4, 5);
  }

  lemma FortressNextToThrone(b: Board, kingPos: Pos)
    requires IsInside(kingPos) && Adjacent(kingPos, Throne)
    ensures KingCapturedSpecial(b, kingPos) <==>
      forall q :: IsInside(q) && Adjacent(kingPos, q) && !IsThrone(q) ==> GetPiece(b, q) == Some(A)
  {
    assert kingPos in OrthNeighbors(Throne);
    var req := WithoutThrone(OrthNeighbors(kingPos));
    AllAttackersIff(b, req);
  }

  lemma AllAttackersIff(b: Board, ps: seq<Pos>)
    ensures AllAttackers(b, ps) <==> forall q :: q in ps ==> IsInside(q) && GetPiece(b, q) == Some(A)
  {
    if AllAttackers(b, ps) {
      forall q | q in ps ensures IsInside(q) && GetPiece(b, q) == Some(A) {
        var i :| 0 <= i < |ps| && ps[i] == q;
      }
    }
  }

  lemma FortressElsewhere(b: Board, kingPos: Pos)
    requires !IsKingOnOrAdjacentThrone(kingPos)
    ensures !KingCapturedSpecial(b, kingPos)
  {
  }

  /** The capture, if any, of the piece next to `to` in direction d after a
      piece of `side` has landed on `to`. */
  function CaptureInDir(b: Board, side: Side, to: Pos, d: Pos, throneHostile: bool): (r: Option<Capture>)
    ensures r.Some? ==> IsInside(r.value.pos) && r.value.pos == Add(to, d)
    ensures r.Some? ==> GetPiece(b, r.value.pos) == Some(r.value.piece) && IsEnemy(Some(r.value.piece), side)
  {
    var adj := Add(to, d);
    var beyond := Add(adj, d);
    if !IsInside(adj) then None
    else
      var adjPiece := GetPiece(b, adj);
      if !IsEnemy(adjPiece, side) then None
      else if adjPiece == Some(K) then
        if side != Attacker then None
        else if IsKingOnOrAdjacentThrone(adj) then None
        else if CanCaptureUsingBeyond(b, side, beyond, throneHostile) then Some(Capture(adj, K))
        else None
      else if adjPiece.Some? && CanCaptureUsingBeyond(b, side, beyond, throneHostile) then
        Some(Capture(adj, adjPiece.value))
      else None
  }

  /** An ordinary enemy piece next to `to` is captured exactly when the cell
      beyond it is on the board and is the hostile throne or holds a friend. */
  lemma OrdinaryCaptureIff(b: Board, side: Side, to: Pos, d: Pos, throneHostile: bool)
    requires IsInside(Add(to, d))
    requires IsEnemy(GetPiece(b, Add(to, d)), side) && GetPiece(b, Add(to, d)) != Some(K)
    ensures CaptureInDir(b, side, to, d, throneHostile).Some? <==>
      var beyond := Add(Add(to, d), d);
      IsInside(beyond) &&
      (if IsThrone(beyond) then throneHostile else IsFriendly(GetPiece(b, beyond), side))
  {
  }

  /** The king is taken by an ordinary sandwich only by an attacker move, only
      away from the throne, and only against a friendly piece or the hostile throne. */
  lemma KingSandwichIff(b: Board, side: Side, to: Pos, d: Pos, throneHostile: bool)
    requires IsInside(Add(to, d)) && GetPiece(b, Add(to, d)) == Some(K)
    ensures CaptureInDir(b, side, to, d, throneHostile).Some? <==>
      side == Attacker && !IsKingOnOrAdjacentThrone(Add(to, d)) &&
      CanCaptureUsingBeyond(b, side, Add(Add(to, d), d), throneHostile)
  {
  }

  function OptionToSeq(o: Option<Capture>): seq<Capture> {
    if o.Some? then [o.value] else []
  }

  /** The captures found in the first k directions of Dirs, in scan order. */
  function ScanCaptures(b: Board, side: Side, to: Pos, throneHostile: bool, k: nat): (r: seq<Capture>)
    requires k <= 4
    ensures |r| <= k
    ensures forall i :: 0 <= i < |r| ==> IsInside(r[i].pos) && GetPiece(b, r[i].pos) == Some(r[i].piece)
    ensures forall i :: 0 <= i < |r| ==> IsEnemy(Some(r[i].piece), side) && Adjacent(to, r[i].pos)
  {
    if k == 0 then []
    else
      var c := CaptureInDir(b, side, to, Dirs[k - 1], throneHostile);
      ScanCaptures(b, side, to, throneHostile, k - 1) + OptionToSeq(c)
  }

  predicate HasKing(cs: seq<Capture>) {
    exists i :: 0 <= i < |cs| && cs[i].piece == K
  }

  /** The catch-all fortress check made after the scan of an attacker move. */
  function FortressCapture(b: Board, side: Side, kingCaptured: bool): (r: seq<Capture>)
    ensures |r| <= 1
    ensures r != [] ==> side == Attacker && KingPos(b).Some? && r == [Capture(KingPos(b).value, K)]
  {
    if !kingCaptured && side == Attacker then
      match KingPos(b)
      case None => []
      case Some(kp) =>
        if IsKingOnOrAdjacentThrone(kp) && KingCapturedSpecial(b, kp) then [Capture(kp, K)] else []
    else []
  }

  /** Every capture caused by a piece of `side` landing on `to`. */
  function AllCaptures(b: Board, side: Side, to: Pos, throneHostile: bool): seq<Capture> {
    var scan := ScanCaptures(b, side, to, throneHostile, 4);
    scan + FortressCapture(b, side, HasKing(scan))
  }

  /** A defender move never captures the king. */
  lemma {:induction false} DefenderNeverCapturesKing(b: Board, to: Pos, throneHostile: bool)
    ensures !HasKing(AllCaptures(b, Defender, to, throneHostile))
  {
    var scan := ScanCaptures(b, Defender, to, throneHostile, 4);
    assert !HasKing(scan) by {
      forall i | 0 <= i < |scan| ensures scan[i].piece != K {
        assert IsEnemy(Some(scan[i].piece), Defender);
      }
    }
    assert AllCaptures(b, Defender, to, throneHostile) == scan;
  }

  /** On a board with at most one king (which every reachable board is: see
      ResolveNoNewKing), a king on or next to the throne is captured exactly
      when the mover is the attacker and the fortress rule holds: ordinary
      sandwich capture never takes it there. */
  lemma {:induction false} KingNearThroneOnlyByFortress(b: Board, side: Side, to: Pos, throneHostile: bool, kp: Pos)
    requires IsInside(kp) && GetPiece(b, kp) == Some(K) && KingCount(b) <= 1
    requires IsKingOnOrAdjacentThrone(kp)
    ensures HasKing(AllCaptures(b, side, to, throneHostile)) <==> side == Attacker && KingCapturedSpecial(b, kp)
  {
    SingleKingAt(b, kp);
    var scan := ScanCaptures(b, side, to, throneHostile, 4);
    ScanNeverTakesKingNearThrone(b, side, to, throneHostile, kp, 4);
    assert !HasKing(scan);
    KingPosUnique(b, kp);
    var all := AllCaptures(b, side, to, throneHostile);
    if side == Attacker && KingCapturedSpecial(b, kp) {
      assert all[|scan|].piece == K;
    }
  }

  lemma {:induction false} ScanNeverTakesKingNearThrone(b: Board, side: Side, to: Pos, throneHostile: bool, kp: Pos, k: nat)
    requires k <= 4
    requires forall q :: IsInside(q) && GetPiece(b, q) == Some(K) ==> q == kp
    requires IsKingOnOrAdjacentThrone(kp)
    ensures !HasKing(ScanCaptures(b, side, to, throneHostile, k))
  {
    if k > 0 {
      ScanNeverTakesKingNearThrone(b, side, to, throneHostile, kp, k - 1);
      var c := CaptureInDir(b, side, to, Dirs[k - 1], throneHostile);
      var prev := ScanCaptures(b, side, to, throneHostile, k - 1);
      assert ScanCaptures(b, side, to, throneHostile, k) == prev + OptionToSeq(c);
    }
  }

  lemma KingPosUnique(b: Board, kp: Pos)
    requires IsInside(kp) && GetPiece(b, kp) == Some(K)
    requires forall q :: IsInside(q) && GetPiece(b, q) == Some(K) ==> q == kp
    ensures KingPos(b) == Some(kp)
  {
    var r := KingPos(b);
    assert b[Idx(kp)] == Some(K);
    assert r.Some?;
  }

  /** The board with every captured cell emptied, removing them one by one. */
  function RemoveCaptured(b: Board, cs: seq<Capture>): (r: Board)
    requires forall i :: 0 <= i < |cs| ==> IsInside(cs[i].pos)
    ensures forall q :: IsInside(q) ==>
      GetPiece(r, q) == if (exists i :: 0 <= i < |cs| && cs[i].pos == q) then None else GetPiece(b, q)
  {
    if cs == [] then b
    else
      var prev := RemoveCaptured(b, cs[..|cs| - 1]);
      assert forall i :: 0 <= i < |cs| - 1 ==> cs[..|cs| - 1][i] == cs[i];
      SetPiece(prev, cs[|cs| - 1].pos, None)
  }

  /** Emptying captured cells never adds a king. */
  lemma {:induction false} RemoveCapturedNoNewKing(b: Board, cs: seq<Capture>)
    requires forall i :: 0 <= i < |cs| ==> IsInside(cs[i].pos)
    ensures KingCount(RemoveCaptured(b, cs)) <= KingCount(b)
  {
    if cs != [] {
      var init := cs[..|cs| - 1];
      RemoveCapturedNoNewKing(b, init);
      ClearCellKings(RemoveCaptured(b, init), cs[|cs| - 1].pos);
    }
  }

  /** Win detection on a board: no king means the attackers won; a king on
      an edge cell means the defenders won; otherwise nobody has won yet. */
  function Winner(b: Board): (w: Option<Side>)
    ensures w == Some(Attacker) <==> KingPos(b).None?
    ensures w == Some(Defender) <==> KingPos(b).Some? && IsEdge(KingPos(b).value)
  {
    match KingPos(b)
    case None => Some(Attacker)
    case Some(k) => if IsEdge(k) then Some(Defender) else None
  }

  /** The board-level effect of a move that passed the ownership and path
      checks: the moved board, the updated throne flag, the captures, the
      board after removing them, and the winner on that board. */
  datatype Resolution = Resolution(
    board: Board,
    kingHasLeftThrone: bool,
    captured: seq<Capture>,
    winner: Option<Side>)

  function Resolve(b: Board, kingHasLeftThrone: bool, from: Pos, to: Pos, side: Side, piece: Piece): (r: Resolution)
    requires IsInside(from) && IsInside(to)
    ensures r.kingHasLeftThrone == (kingHasLeftThrone || (piece == K && IsThrone(from)))
    ensures r.winner == Winner(r.board)
    ensures forall i :: 0 <= i < |r.captured| ==> IsInside(r.captured[i].pos)
  {
    var moved := SetPiece(SetPiece(b, from, None), to, Some(piece));
    var flag := kingHasLeftThrone || (piece == K && IsThrone(from));
    var hostile := IsThroneHostile(moved, flag);
    var captured := AllCaptures(moved, side, to, hostile);
    var after := RemoveCaptured(moved, captured);
    Resolution(after, flag, captured, Winner(after))
  }

  /** A legal slide never adds a king: the slide keeps every piece, and the
      captures only empty cells. */
  lemma ResolveNoNewKing(b: Board, kingHasLeftThrone: bool, from: Pos, to: Pos, side: Side, piece: Piece)
    requires IsInside(from) && IsInside(to)
    requires GetPiece(b, from) == Some(piece) && RookPath(b, from, to)
    ensures KingCount(Resolve(b, kingHasLeftThrone, from, to, side, piece).board) <= KingCount(b)
  {
    var moved := SetPiece(SetPiece(b, from, None), to, Some(piece));
    SlideKeepsPieces(b, from, to, piece);
    var flag := kingHasLeftThrone || (piece == K && IsThrone(from));
    var captured := AllCaptures(moved, side, to, IsThroneHostile(moved, flag));
    assert Resolve(b, kingHasLeftThrone, from, to, side, piece).board == RemoveCaptured(moved, captured);
    RemoveCapturedNoNewKing(moved, captured);
  }

  lemma HasKingAppend(cs: seq<Capture>, c: Capture)
    ensures HasKing(cs + [c]) <==> HasKing(cs) || c.piece == K
  {
    if HasKing(cs) {
      var i :| 0 <= i < |cs| && cs[i].piece == K;
      assert (cs + [c])[i] == cs[i];
    }
    if c.piece == K {
      assert (cs + [c])[|cs|] == c;
    }
  }

  /** One direction of the capture scan, with the source's early exits. */
  method CaptureAt(b: Board, side: Side, to: Pos, d: Pos, throneHostile: bool) returns (c: Option<Capture>)
    ensures c == CaptureInDir(b, side, to, d, throneHostile)
  {
    var adj := Add(to, d);
    var beyond := Add(adj, d);
    if !IsInside(adj) {
      return None;
    }
    var adjPiece := GetPiece(b, adj);
    if !IsEnemy(adjPiece, side) {
      return None;
    }
    if adjPiece == Some(K) {
      if side != Attacker || IsKingOnOrAdjacentThrone(adj) {
        return None;
      }
      if CanCaptureUsingBeyond(b, side, beyond, throneHostile) {
        return Some(Capture(adj, K));
      }
      return None;
    }
    if CanCaptureUsingBeyond(b, side, beyond, throneHostile) {
      return Some(Capture(adj, adjPiece.value));
    }
    return None;
  }

  /** The four-direction scan followed by the fortress check. */
  method FindCaptures(b: Board, side: Side, to: Pos, throneHostile: bool) returns (captured: seq<Capture>)
    ensures captured == AllCaptures(b, side, to, throneHostile)
  {
    captured := [];
    var kingCaptured := false;
    for k := 0 to 4
      invariant captured == ScanCaptures(b, side, to, throneHostile, k)
      invariant kingCaptured == HasKing(captured)
    {
      var c := CaptureAt(b, side, to, Dirs[k], throneHostile);
      if c.Some? {
        HasKingAppend(captured, c.value);
        captured := captured + [c.value];
        if c.value.piece == K {
          kingCaptured := true;
        }
      }
    }
    if !kingCaptured && side == Attacker {
      var kingPos := FindKing(b);
      if kingPos.Some? && IsKingOnOrAdjacentThrone(kingPos.value) && KingCapturedSpecial(b, kingPos.value) {
        captured := captured + [Capture(kingPos.value, K)];
      }
    }
  }

  /** Empties the captured cells one after the other. */
  method RemoveAll(b: Board, captured: seq<Capture>) returns (after: Board)
    requires forall i :: 0 <= i < |captured| ==> IsInside(captured[i].pos)
    ensures after == RemoveCaptured(b, captured)
  {
    after := b;
    for i := 0 to |captured|
      invariant after == RemoveCaptured(b, captured[..i])
    {
      assert captured[..i + 1][..i] == captured[..i];
      after := SetPiece(after, captured[i].pos, None);
    }
    assert captured[..|captured|] == captured;
  }

  /** The board work of an unchecked move, step by step: move the piece on a
      copy of the board, collect the captures, remove them and look for the
      king. */
  method ResolveMove(b: Board, kingHasLeftThrone: bool, from: Pos, to: Pos, side: Side, piece: Piece)
    returns (r: Resolution)
    requires IsInside(from) && IsInside(to)
    ensures r == Resolve(b, kingHasLeftThrone, from, to, side, piece)
  {
    var board := SetPiece(b, from, None);
    board := SetPiece(board, to, Some(piece));
    var flag := kingHasLeftThrone;
    if piece == K && IsThrone(from) {
      flag := true;
    }
    var hostile := IsThroneHostile(board, flag);
    var captured := FindCaptures(board, side, to, hostile);
    var after := RemoveAll(board, captured);
    var winner := DecideWinner(after);
    r := Resolution(after, flag, captured, winner);
  }

  /** Win detection as the engine runs it: locate the king, then test it. */
  method DecideWinner(b: Board) returns (w: Option<Side>)
    ensures w == Winner(b)
  {
    var kingNow := FindKing(b);
    w := None;
    if kingNow.None? {
      w := Some(Attacker);
    } else if IsEdge(kingNow.value) {
      w := Some(Defender);
    }
  }
}
