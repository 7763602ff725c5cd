/** Option and Result, in the place of the nil pointers and error returns of the program. */
module Wrappers {
  datatype Option<+T> = None | Some(value: T)

  datatype Result<+T, +E> = Success(value: T) | Failure(error: E)
}

/**
 Amounts of money.  Every amount is an exact real counted in cents.  The Go service keeps amounts
 in DECIMAL(12,2) columns, so storing one rounds it to a whole cent and fails when it is too large;
 the browser port keeps them as they are.
 */
module Money {
  ghost predicate Whole(x: real) {
    x.Floor as real == x
  }

  /** Where an amount is kept: a decimal column with its rounding and its largest value, or memory. */
  datatype Column = Decimal(round: real -> real, max: real) | Exact

  /** What the database may do to a fraction of a cent: any monotone rounding that fixes whole cents. */
  ghost predicate Rounding(round: real -> real) {
    && (forall x {:trigger round(x)} :: Whole(round(x)) && (Whole(x) ==> round(x) == x))
    && (forall x, y :: x <= y ==> round(x) <= round(y))
  }

  ghost predicate Sound(column: Column) {
    column.Decimal? ==> Rounding(column.round)
  }

  function Stored(column: Column, x: real): real {
    match column
    case Decimal(round, _) => round(x)
    case Exact => x
  }

  /** The insert of an amount succeeds. */
  predicate Fits(column: Column, x: real) {
    match column
    case Decimal(round, max) => round(x) <= max
    case Exact => true
  }

  /** x is a value the column can hold without changing it. */
  ghost predicate Storable(column: Column, x: real) {
    column.Decimal? ==> Whole(x)
  }

  lemma WholeSum(x: real, y: real)
    requires Whole(x) && Whole(y)
    ensures Whole(x + y)
  {
    assert x + y == (x.Floor + y.Floor) as real;
  }

  /** An amount at least p + q, both storable, is stored as at least p + q. */
  lemma StoredKeepsStep(column: Column, amount: real, p: real, q: real)
    requires Sound(column) && Storable(column, p) && Storable(column, q)
    requires amount >= p + q
    ensures Stored(column, amount) >= p + q
    ensures Storable(column, Stored(column, amount))
  {
    if column.Decimal? {
      WholeSum(p, q);
      assert column.round(p + q) == p + q;
    }
  }

  /** PostgreSQL's own rounding of a numeric: to the nearest cent, halves away from zero. */
  function HalfAwayFromZero(x: real): real {
    if x >= 0.0 then (x + 0.5).Floor as real else -((0.5 - x).Floor as real)
  }

  /** The floor is the one integer in (x - 1, x]. */
  lemma FloorIs(x: real, n: int)
    requires n as real <= x < n as real + 1.0
    ensures x.Floor == n
  {
  }

  lemma FloorIsMonotone(x: real, y: real)
    requires x <= y
    ensures x.Floor <= y.Floor
  {
  }

  lemma HalfAwayFromZeroIsWhole(x: real)
    ensures Whole(HalfAwayFromZero(x))
  {
    var k := if x >= 0.0 then (x + 0.5).Floor else -(0.5 - x).Floor;
    assert HalfAwayFromZero(x) == k as real;
    FloorIs(k as real, k);
  }

  lemma HalfAwayFromZeroFixesWhole(x: real)
    requires Whole(x)
    ensures HalfAwayFromZero(x) == x
  {
    var n := x.Floor;
    if x >= 0.0 {
      FloorIs(x + 0.5, n);
    } else {
      FloorIs(0.5 - x, -n);
    }
  }

  lemma HalfAwayFromZeroIsMonotone(x: real, y: real)
    requires x <= y
    ensures HalfAwayFromZero(x) <= HalfAwayFromZero(y)
  {
    if x >= 0.0 {
      FloorIsMonotone(x + 0.5, y + 0.5);
    } else if y < 0.0 {
      FloorIsMonotone(0.5 - y, 0.5 - x);
    } else {
      FloorIsMonotone(0.5, 0.5 - x);
      FloorIsMonotone(0.5, y + 0.5);
    }
  }

  /** It is the nearest cent, and of two equally near the one away from zero. */
  lemma HalfAwayFromZeroIsNearest(x: real)
    ensures var r := HalfAwayFromZero(x);
            && x - 0.5 <= r <= x + 0.5
            && (r == x + 0.5 ==> x >= 0.0) && (r == x - 0.5 ==> x <= 0.0)
  {
  }

  lemma HalfAwayFromZeroIsRounding()
    ensures Rounding(HalfAwayFromZero)
  {
    forall x
      ensures Whole(HalfAwayFromZero(x)) && (Whole(x) ==> HalfAwayFromZero(x) == x)
    {
      HalfAwayFromZeroIsWhole(x);
      if Whole(x) {
        HalfAwayFromZeroFixesWhole(x);
      }
    }
    forall x, y | x <= y ensures HalfAwayFromZero(x) <= HalfAwayFromZero(y) {
      HalfAwayFromZeroIsMonotone(x, y);
    }
  }
}
