/** Grouping of legal moves by origin square, as handed to the board widget.
    The move generator is outside the model: the input is the list of
    (from, to) pairs in the order the generator yields them. */
module Dests {

  type Square = string

  datatype Move = Move(from: Square, to: Square)

  /** Destinations of the moves leaving `k`, in input order. Defined on the
      prefix, the way the `forEach` loop extends its lists. */
  function DestsOf(moves: seq<Move>, k: Square): seq<Square>
  {
    if moves == [] then []
    else
      var last := moves[|moves| - 1];
      DestsOf(moves[..|moves| - 1], k) + (if last.from == k then [last.to] else [])
  }

  /** Origin squares in first-occurrence order: the insertion order of the
      JavaScript `Map`, which is also its iteration order. */
  function Origins(moves: seq<Move>): seq<Square>
  {
    if moves == [] then []
    else
      var prefix := Origins(moves[..|moves| - 1]);
      var last := moves[|moves| - 1];
      prefix + (if last.from in prefix then [] else [last.from])
  }

  /** Total length of the destination lists of `keys`. */
  function SumLengths(keys: seq<Square>, moves: seq<Move>): nat
  {
    if keys == [] then 0 else |DestsOf(moves, keys[0])| + SumLengths(keys[1..], moves)
  }

  /** No key is listed twice. */
  predicate Distinct(keys: seq<Square>)
  {
    forall i, j :: 0 <= i < j < |keys| ==> keys[i] != keys[j]
  }

  /** The origin list holds each origin square of the input exactly once. */
  lemma {:induction false} OriginsExact(moves: seq<Move>)
    ensures Distinct(Origins(moves))
    ensures forall k :: k in Origins(moves) <==> exists m :: m in moves && m.from == k
  {
    if moves != [] {
      var p := moves[..|moves| - 1];
      OriginsExact(p);
      assert moves == p + [moves[|moves| - 1]];
      forall k ensures k in Origins(moves) <==> exists m :: m in moves && m.from == k {
        if k in Origins(p) {
          var m :| m in p && m.from == k;
          assert m in moves;
        }
        if exists m :: m in moves && m.from == k {
          var m :| m in moves && m.from == k;
          if m != moves[|moves| - 1] {
            assert m in p;
          }
        }
      }
    }
  }

  /** A square that is no origin has no destinations, and an origin has at
      least one: every key of the result maps to a non-empty list. */
  lemma {:induction false} DestsEmptyIff(moves: seq<Move>, k: Square)
    ensures DestsOf(moves, k) == [] <==> k !in Origins(moves)
  {
    if moves != [] {
      DestsEmptyIff(moves[..|moves| - 1], k);
    }
  }

  /** Every input move's destination is listed under its origin. */
  lemma {:induction false} MoveListed(moves: seq<Move>, i: nat)
    requires i < |moves|
    ensures moves[i].to in DestsOf(moves, moves[i].from)
  {
    var p := moves[..|moves| - 1];
    if i < |moves| - 1 {
      assert moves[i] == p[i];
      MoveListed(p, i);
    }
  }

  /** Conversely, every listed destination comes from an input move. */
  lemma {:induction false} ListedIsMove(moves: seq<Move>, k: Square, t: Square)
    requires t in DestsOf(moves, k)
    ensures Move(k, t) in moves
  {
    var p := moves[..|moves| - 1];
    var last := moves[|moves| - 1];
    if t in DestsOf(p, k) {
      ListedIsMove(p, k, t);
      assert moves == p + [last];
    } else {
      assert last == Move(k, t);
    }
  }

  /** One more move adds one to the total length over a key list that holds
      its origin once, and nothing to one that does not hold it. */
  lemma {:induction false} SumLengthsStep(keys: seq<Square>, moves: seq<Move>)
    requires moves != []
    requires Distinct(keys)
    ensures SumLengths(keys, moves) ==
            SumLengths(keys, moves[..|moves| - 1]) + (if moves[|moves| - 1].from in keys then 1 else 0)
  {
    if keys != [] {
      SumLengthsStep(keys[1..], moves);
      assert keys[0] !in keys[1..] by {
        forall j | 0 <= j < |keys[1..]| ensures keys[1..][j] != keys[0] {
          assert keys[1..][j] == keys[j + 1];
        }
      }
    }
  }

  lemma {:induction false} SumLengthsAppend(keys: seq<Square>, k: Square, moves: seq<Move>)
    ensures SumLengths(keys + [k], moves) == SumLengths(keys, moves) + |DestsOf(moves, k)|
  {
    if keys != [] {
      assert (keys + [k])[1..] == keys[1..] + [k];
      SumLengthsAppend(keys[1..], k, moves);
    }
  }

  /** The lists partition the input: their lengths add up to the number of moves. */
  lemma {:induction false} SumLengthsIsMoveCount(moves: seq<Move>)
    ensures SumLengths(Origins(moves), moves) == |moves|
  {
    if moves != [] {
      var p := moves[..|moves| - 1];
      var last := moves[|moves| - 1];
      var keys := Origins(p);
      SumLengthsIsMoveCount(p);
      OriginsExact(p);
      if last.from in keys {
        assert Origins(moves) == keys;
        SumLengthsStep(keys, moves);
      } else {
        assert Origins(moves) == keys + [last.from];
        SumLengthsAppend(keys, last.from, moves);
        SumLengthsStep(keys, moves);
        DestsEmptyIff(p, last.from);
      }
    }
  }

  /** Extending the input by one move extends the specification functions by
      that move alone. */
  lemma PrefixStep(moves: seq<Move>, i: nat)
    requires i < |moves|
    ensures forall k :: DestsOf(moves[..i + 1], k) ==
                        DestsOf(moves[..i], k) + (if moves[i].from == k then [moves[i].to] else [])
    ensures Origins(moves[..i + 1]) ==
            Origins(moves[..i]) + (if moves[i].from in Origins(moves[..i]) then [] else [moves[i].from])
  {
    assert moves[..i + 1][..i] == moves[..i];
  }

  /** `toDests`: one pass over the moves, creating a list the first time an
      origin is seen and appending the destination. Returns the map together
      with its key insertion order. */
  method ToDests(moves: seq<Move>) returns (dests: map<Square, seq<Square>>, order: seq<Square>)
    ensures order == Origins(moves)
    ensures forall k :: k in dests <==> k in order
    ensures forall k :: k in dests ==> dests[k] == DestsOf(moves, k) && dests[k] != []
  {
    dests, order := map[], [];
    var i := 0;
    while i < |moves|
      invariant 0 <= i <= |moves|
      invariant order == Origins(moves[..i])
      invariant forall k :: k in dests <==> k in order
      invariant forall k :: k in dests ==> dests[k] == DestsOf(moves[..i], k) && dests[k] != []
    {
      var m := moves[i];
      PrefixStep(moves, i);
      DestsEmptyIff(moves[..i], m.from);
      var list := if m.from in dests then dests[m.from] else [];
      if m.from !in dests {
        order := order + [m.from];
      }
      dests := dests[m.from := list + [m.to]];
      i := i + 1;
    }
    assert moves[..|moves|] == moves;
  }
}
