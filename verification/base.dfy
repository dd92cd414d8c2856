/** Values shared by every part of the model: optional values, results that may
    carry one of the Python exceptions the scripts can raise, and the literal
    enumerations the three populate scripts draw from. */
module Base {

  datatype Option<+T> = None | Some(value: T)

  /** The Python exceptions that the modelled code can raise on its own inputs. */
  datatype PyError =
    | IndexError      // random.choice on an empty list
    | ValueError      // random.sample larger than its population; datetime.replace out of range
    | OverflowError   // datetime minus timedelta below 0001-01-01
    | StopIteration   // next() on an exhausted pymongo cursor
    | IntegrityError  // a PRIMARY KEY, UNIQUE or FOREIGN KEY constraint rejects a row

  datatype Result<+T> = Success(value: T) | Failure(error: PyError)

  /** A uuid.uuid4() value. Only its identity matters to the model. */
  type Uuid = nat

  /** A decimal amount with two fractional digits, held exactly as cents. */
  type Cents = int

  /** The eight product categories (CATEGORIAS / categories). */
  const CATEGORIES: seq<string> := [
    "Eletrônicos", "Informática", "Games", "Celulares",
    "Periféricos", "Acessórios", "Eletrodomésticos", "Casa Inteligente"
  ]

  const PAYMENT_TYPES: seq<string> := ["cartão", "pix", "boleto"]
  const PAYMENT_STATUSES: seq<string> := ["aprovado", "pendente", "recusado"]
  const ORDER_STATUSES: seq<string> := ["pendente", "processando", "entregue", "cancelado"]

  /** Python's `min(a, b)`. */
  function Min(a: int, b: int): int {
    if a < b then a else b
  }

  /** No value occurs twice in `s`. */
  predicate Distinct<T(==)>(s: seq<T>) {
    forall i, j :: 0 <= i < |s| && 0 <= j < |s| && i != j ==> s[i] != s[j]
  }

  /** The set of the elements of a list. */
  function Elems<T>(xs: seq<T>): set<T> {
    set x | x in xs
  }

  /** The sum of `f` over a list, accumulated from the left as Python's `+=`
      loops and `sum()` do. */
  function SumOf<T>(xs: seq<T>, f: T -> int): int {
    if xs == [] then 0 else SumOf(xs[..|xs| - 1], f) + f(xs[|xs| - 1])
  }

  /** Appending one element adds its amount: the step of every accumulating loop. */
  lemma SumOfAppend<T>(xs: seq<T>, x: T, f: T -> int)
    ensures SumOf(xs + [x], f) == SumOf(xs, f) + f(x)
  {
    assert (xs + [x])[..|xs|] == xs;
  }

  /** When every amount lies in [lo, hi], the sum of n of them lies in [n * lo, n * hi]. */
  lemma {:induction false} SumOfBounds<T>(xs: seq<T>, f: T -> int, lo: int, hi: int)
    requires forall x :: x in xs ==> lo <= f(x) <= hi
    ensures |xs| * lo <= SumOf(xs, f) <= |xs| * hi
  {
    if xs != [] {
      var init, last := xs[..|xs| - 1], xs[|xs| - 1];
      assert forall x :: x in init ==> x in xs;
      SumOfBounds(init, f, lo, hi);
      assert SumOf(xs, f) == SumOf(init, f) + f(last);
      assert lo <= f(last) <= hi;
      var n := |init|;
      assert |xs| * lo == (n + 1) * lo == n * lo + lo;
      assert |xs| * hi == (n + 1) * hi == n * hi + hi;
    }
  }
}
