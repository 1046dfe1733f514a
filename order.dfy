/**
 * Purchase records, the order in which they are ranked, and the counts
 * D and T as the engine uses them.
 *
 * A purchase is kept as the pair (timestamp, amount) and pairs are compared
 * the way tuples compare: first by timestamp, then by amount.  Timestamps are
 * strings, so they compare lexicographically, character by character.
 */
module PurchaseOrder {

  type UserId = string

  /**
   * D and T are parsed with int() and may be negative: a negative depth
   * runs no search level and a negative count keeps nothing.
   */
  function Clamp(n: int): nat
  {
    if n < 0 then 0 else n
  }

  function MinNat(a: nat, b: nat): nat
  {
    if a <= b then a else b
  }

  datatype Purchase = Purchase(timestamp: string, amount: real)

  /** Lexicographic order on strings by character code; a prefix comes first. */
  predicate StrLe(a: string, b: string)
  {
    if a == [] then true
    else if b == [] then false
    else if a[0] != b[0] then a[0] < b[0]
    else StrLe(a[1..], b[1..])
  }

  /** Tuple order on (timestamp, amount). */
  predicate Le(p: Purchase, q: Purchase)
  {
    if p.timestamp != q.timestamp then StrLe(p.timestamp, q.timestamp)
    else p.amount <= q.amount
  }

  lemma {:induction false} StrLeTotal(a: string, b: string)
    ensures StrLe(a, b) || StrLe(b, a)
  {
    if a != [] && b != [] && a[0] == b[0] {
      StrLeTotal(a[1..], b[1..]);
    }
  }

  lemma {:induction false} StrLeAntisymmetric(a: string, b: string)
    requires StrLe(a, b) && StrLe(b, a)
    ensures a == b
  {
    if a != [] && b != [] {
      StrLeAntisymmetric(a[1..], b[1..]);
      assert a == [a[0]] + a[1..] && b == [b[0]] + b[1..];
    }
  }

  lemma {:induction false} StrLeTransitive(a: string, b: string, c: string)
    requires StrLe(a, b) && StrLe(b, c)
    ensures StrLe(a, c)
  {
    if a != [] && b != [] && c != [] && a[0] == b[0] && b[0] == c[0] {
      StrLeTransitive(a[1..], b[1..], c[1..]);
    }
  }

  lemma LeTotal(p: Purchase, q: Purchase)
    ensures Le(p, q) || Le(q, p)
  {
    StrLeTotal(p.timestamp, q.timestamp);
  }

  lemma LeAntisymmetric(p: Purchase, q: Purchase)
    requires Le(p, q) && Le(q, p)
    ensures p == q
  {
    if p.timestamp != q.timestamp {
      StrLeAntisymmetric(p.timestamp, q.timestamp);
    }
  }

  lemma LeTransitive(p: Purchase, q: Purchase, r: Purchase)
    requires Le(p, q) && Le(q, r)
    ensures Le(p, r)
  {
    var a, b, c := p.timestamp, q.timestamp, r.timestamp;
    if a == c {
      if a != b {
        StrLeAntisymmetric(a, b);
        assert false;
      }
    } else if a != b && b != c {
      StrLeTransitive(a, b, c);
    }
  }
}
