/** Values that may be missing, and outcomes that may be errors. */
module Wrappers {
  datatype Option<+T> = None | Some(value: T) {
    function UnwrapOr(default: T): T {
      match this
      case None => default
      case Some(v) => v
    }
  }

  datatype Result<+T, +E> = Success(value: T) | Failure(error: E)

  /** The row a table holds under a key, if any. */
  function Lookup<K, V>(m: map<K, V>, k: K): Option<V> {
    if k in m then Some(m[k]) else None
  }
}

/** Sequences of pieces. */
module Sequences {
  function Flatten<T>(pieces: seq<seq<T>>): seq<T> {
    if pieces == [] then [] else Flatten(pieces[..|pieces| - 1]) + pieces[|pieces| - 1]
  }

  // ---- equalities that the solver does not see at once

  lemma Associate<T>(a: seq<T>, b: seq<T>, c: seq<T>)
    ensures a + b + c == a + (b + c)
  {
  }

  lemma Cut<T>(s: seq<T>, from: nat, to: nat)
    requires from <= to <= |s|
    ensures s[..from] + s[from..to] == s[..to] && s[..to] + s[to..] == s
  {
  }

  lemma FlattenLast<T>(pieces: seq<seq<T>>, last: seq<T>)
    ensures Flatten(pieces + [last]) == Flatten(pieces) + last
  {
    assert (pieces + [last])[..|pieces|] == pieces;
  }

  lemma {:induction false} FlattenAppends<T>(a: seq<seq<T>>, b: seq<seq<T>>)
    ensures Flatten(a + b) == Flatten(a) + Flatten(b)
    decreases |b|
  {
    if b == [] {
      assert a + b == a;
    } else {
      var most, last := b[..|b| - 1], b[|b| - 1];
      FlattenAppends(a, most);
      hide Flatten;
      FlattenLast(a + most, last);
      FlattenLast(most, last);
      Associate(a, most, [last]);
      Associate(Flatten(a), Flatten(most), last);
      assert b == most + [last];
    }
  }

  lemma FlattenOne<T>(piece: seq<T>)
    ensures Flatten([piece]) == piece
  {
    assert [piece][..0] == [];
  }

  lemma FlattenFirst<T>(pieces: seq<seq<T>>)
    requires pieces != []
    ensures Flatten(pieces) == pieces[0] + Flatten(pieces[1..])
  {
    FlattenAppends([pieces[0]], pieces[1..]);
    FlattenOne(pieces[0]);
    hide Flatten;
    assert pieces == [pieces[0]] + pieces[1..];
  }

  /** The pieces with a separator between neighbours. */
  function Join<T>(pieces: seq<seq<T>>, separator: seq<T>): seq<T> {
    if pieces == [] then []
    else if |pieces| == 1 then pieces[0]
    else pieces[0] + separator + Join(pieces[1..], separator)
  }

  /** A loop that appends joins too. */
  lemma {:induction false} JoinLast<T>(pieces: seq<seq<T>>, separator: seq<T>, last: seq<T>)
    requires pieces != []
    ensures Join(pieces + [last], separator) == Join(pieces, separator) + separator + last
    decreases |pieces|
  {
    var all := pieces + [last];
    if |pieces| == 1 {
      assert all[1..] == [last];
    } else {
      assert all[1..] == pieces[1..] + [last];
      JoinLast(pieces[1..], separator, last);
      var first, rest := pieces[0] + separator, Join(pieces[1..], separator);
      assert Join(all, separator) == first + Join(all[1..], separator) && Join(pieces, separator) == first + rest;
      hide Join;
      Associate(first, rest, separator);
      Associate(first, rest + separator, last);
    }
  }
}

/** Products and quotients, which the solver only knows one at a time. */
module Arithmetic {
  lemma Multiply(a: int, b: int, c: int)
    requires a <= b && c >= 0
    ensures a * c <= b * c
  {
  }

  lemma FitsIn(m: nat, gap: int, length: nat)
    requires gap > 0 && m * gap <= length
    ensures m <= length / gap
  {
    var q := length / gap;
    Multiply(q + 1, if m > q then m else q + 1, gap);
  }

  function Quotient(n: nat, m: int): nat
    requires m > 0
  {
    n / m
  }

  lemma OneMore(n: nat, rest: nat, m: int)
    requires m > 0 && rest + m <= n
    ensures Quotient(rest, m) + 1 <= Quotient(n, m)
  {
    FitsIn(rest / m + 1, m, n);
  }
}
