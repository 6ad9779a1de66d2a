/** Small vocabulary shared by the whole model. */
module Prelude {

  datatype Option<+T> = None | Some(value: T)

  datatype Result<+T, +E> = Success(value: T) | Failure(error: E)

  /** One octet. */
  type byte = b: int | 0 <= b < 256

  type bytes = seq<byte>

  /** Python's `str.isspace` for one character. */
  predicate IsSpace(c: char) {
    var u := c as int;
    0x09 <= u <= 0x0D || 0x1C <= u <= 0x20 || u == 0x85 || u == 0xA0 || u == 0x1680 ||
    0x2000 <= u <= 0x200A || u == 0x2028 || u == 0x2029 || u == 0x202F || u == 0x205F || u == 0x3000
  }

  /** True when `strip()` would leave nothing. */
  predicate Blank(s: string) {
    forall c :: c in s ==> IsSpace(c)
  }

  /** A set that maps injectively into another one is no larger. */
  lemma {:induction false} InjectionSize<A, B>(a: set<A>, b: set<B>, f: map<A, B>)
    requires a <= f.Keys
    requires forall x :: x in a ==> f[x] in b
    requires forall x, y :: x in a && y in a && f[x] == f[y] ==> x == y
    ensures |a| <= |b|
  {
    if a != {} {
      var x :| x in a;
      InjectionSize(a - {x}, b - {f[x]}, f);
    }
  }

  lemma {:induction false} SubsetSize<T>(a: set<T>, b: set<T>)
    requires a <= b
    ensures |a| <= |b|
  {
    if a != {} {
      var x :| x in a;
      SubsetSize(a - {x}, b - {x});
    }
  }
}
