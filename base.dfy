/** Shared vocabulary: optional values, Go-style error values with wrapping,
    and the unsigned 64-bit integers the source uses for sibling order. */
module Base {

  datatype Option<T> = None | Some(value: T)

  /** A Go `(value, error)` pair where exactly one side is meaningful. */
  datatype Result<T> = Ok(value: T) | Err(error: Error)

  /** The error values of the system. `Wrapped` is `fmt.Errorf("<context>: %w", cause)`. */
  datatype Error =
    | NilItem                         // storage.ErrNilItem
    | ItemNotFound                    // storage.ErrItemNotFound
    | EmptyTitle                      // use.ErrEmptyTitle
    | TemplateInvalidDue              // use.errInvalidDue (template parser)
    | InvalidDue                      // cui.ErrInvalidDue (editor input parser)
    | EmptyInput                      // cui.errEmptyInput
    | External(name: string)          // an error produced outside the modelled code (io.EOF, an editor failure)
    | Wrapped(context: string, cause: Error)

  /** Go's `errors.Is`: `target` is `e` or somewhere on its chain of causes. */
  predicate Is(e: Error, target: Error)
  {
    e == target || (e.Wrapped? && Is(e.cause, target))
  }

  const TWO64: int := 0x1_0000_0000_0000_0000

  /** Go's uint64. */
  newtype U64 = x: int | 0 <= x < 0x1_0000_0000_0000_0000

  const MAX_U64: U64 := 0xFFFF_FFFF_FFFF_FFFF

  /** `x + y` on uint64, wrapping around modulo 2^64. */
  function Add(x: U64, y: U64): (r: U64)
    ensures x as int + y as int < TWO64 ==> r as int == x as int + y as int
    ensures x as int + y as int >= TWO64 ==> r as int == x as int + y as int - TWO64
  {
    ((x as int + y as int) % TWO64) as U64
  }

  /** `x++` on uint64. */
  function Inc(x: U64): (r: U64)
    ensures x < MAX_U64 ==> r as int == x as int + 1
    ensures x == MAX_U64 ==> r == 0
  {
    Add(x, 1)
  }

  /** `x++` done `n` times. */
  function IncTimes(x: U64, n: nat): U64
  {
    if n == 0 then x else Inc(IncTimes(x, n - 1))
  }

  /** Incrementing first is incrementing once more. */
  lemma {:induction false} IncTimesShift(x: U64, n: nat)
    ensures IncTimes(Inc(x), n) == IncTimes(x, n + 1)
  {
    if n > 0 {
      IncTimesShift(x, n - 1);
    }
  }

  /** `n` increments add `n` modulo 2^64. */
  lemma {:induction false} IncTimesIsAdd(x: U64, n: nat)
    ensures IncTimes(x, n) as int == (x as int + n) % TWO64
  {
    if n > 0 {
      IncTimesIsAdd(x, n - 1);
      var a := x as int + n - 1;
      var w := IncTimes(x, n - 1);
      assert a == (a / TWO64) * TWO64 + w as int;
      if w < MAX_U64 {
        assert a + 1 == (a / TWO64) * TWO64 + (w as int + 1);
      } else {
        assert a + 1 == (a / TWO64 + 1) * TWO64;
      }
    }
  }

  /** The inverse of an injective map, as the source's `init` loops build it. */
  function Invert<K, V>(m: map<K, V>): (r: map<V, K>)
    requires forall a, b :: a in m && b in m && m[a] == m[b] ==> a == b
    ensures forall k :: k in m ==> m[k] in r && r[m[k]] == k
    ensures forall v :: v in r ==> r[v] in m && m[r[v]] == v
  {
    map k | k in m :: m[k] := k
  }
}
