/** Values shared by the engine, the services and their subscribers. */
module Domain {

  datatype Option<+T> = None | Some(value: T)

  datatype Result<+T> = Ok(value: T) | Err(error: Error)

  /** The sentinel errors of internal/shared/errors.go, plus one constructor for every other
      error value that a service builds with fmt.Errorf. */
  datatype Error =
    | ErrNotFound
    | ErrBadRequest
    | ErrValidation
    | ErrInsufficientFunds
    | ErrConflict
    | ErrInvalidStateTransition
    | ErrDuplicateIdempotencyKey
    | ErrOther

  /** Identifiers are UUIDs in their canonical 36-character text form. */
  type Uuid = s: string | |s| == 36 witness seq(36, _ => '0')

  datatype Side = Buy | Sell

  function Opposite(side: Side): Side {
    if side == Buy then Sell else Buy
  }

  /** An engine order.  Prices and quantities are counted in ticks of 10^-10. */
  datatype Order = Order(
    id: Uuid,
    userId: string,
    symbol: string,
    side: Side,
    price: int,
    quantity: int,
    remaining: int)

  datatype Trade = Trade(
    buyOrderId: Uuid,
    sellOrderId: Uuid,
    buyUserId: string,
    sellUserId: string,
    symbol: string,
    price: int,
    quantity: int)

  function Min(a: int, b: int): int {
    if a < b then a else b
  }

  /** The sum of f over the elements of s. */
  ghost function Sum<T>(s: seq<T>, f: T -> int): int {
    if s == [] then 0 else Sum(s[..|s| - 1], f) + f(s[|s| - 1])
  }

  lemma {:induction false} SumAppend<T>(a: seq<T>, b: seq<T>, f: T -> int)
    ensures Sum(a + b, f) == Sum(a, f) + Sum(b, f)
  {
    if b == [] {
      assert a + b == a;
    } else {
      SumAppend(a, b[..|b| - 1], f);
      assert (a + b)[..|a + b| - 1] == a + b[..|b| - 1];
    }
  }

  lemma SumOne<T>(x: T, f: T -> int)
    ensures Sum([x], f) == f(x)
  {
    assert [x][..0] == [];
  }

  lemma {:induction false} SumCons<T>(s: seq<T>, f: T -> int)
    requires s != []
    ensures Sum(s, f) == f(s[0]) + Sum(s[1..], f)
  {
    assert s == [s[0]] + s[1..];
    SumAppend([s[0]], s[1..], f);
    SumOne(s[0], f);
  }

  lemma SumSplit<T>(s: seq<T>, k: int, f: T -> int)
    requires 0 <= k <= |s|
    ensures Sum(s, f) == Sum(s[..k], f) + Sum(s[k..], f)
  {
    assert s == s[..k] + s[k..];
    SumAppend(s[..k], s[k..], f);
  }

  lemma SumAround<T>(s: seq<T>, k: int, f: T -> int)
    requires 0 <= k < |s|
    ensures Sum(s, f) == Sum(s[..k], f) + f(s[k]) + Sum(s[k + 1..], f)
  {
    SumSplit(s, k, f);
    var t := s[k..];
    SumCons(t, f);
    assert t[1..] == s[k + 1..];
  }
}
