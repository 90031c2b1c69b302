/**
 * Container tagging (vmpy/utils.py). The library accepts a plain Python list
 * or an array-like object (ndarray or Series). A list is copied into a fresh
 * numeric buffer; any other array-like is used as it is, so later in-place
 * writes reach the caller's object. The tag remembers which case applied so
 * that results can be rebuilt as a list.
 */
module Utils {

  /** `type(arg) == list` or anything else. */
  datatype Tag = ListTag | OtherTag

  /** A caller's stream: a list (a value) or a mutable numeric buffer. */
  datatype ArrayLike = PyList(items: seq<real>) | NdArray(buf: array<real>)

  function TagOf(arg: ArrayLike): Tag
  {
    if arg.PyList? then ListTag else OtherTag
  }

  /** The objects an operation on `arg` may read or write. */
  function Footprint(arg: ArrayLike): set<object>
  {
    if arg.NdArray? then {arg.buf} else {}
  }

  function Values(arg: ArrayLike): seq<real>
    reads Footprint(arg)
  {
    match arg
    case PyList(xs) => xs
    case NdArray(b) => b[..]
  }

  /**
   * `to_ndarray`: a list becomes a fresh buffer holding the same samples in the
   * same order; any other input is returned as the very same buffer.
   */
  method ToNdarray(arg: ArrayLike) returns (y: array<real>, tag: Tag)
    ensures tag == TagOf(arg)
    ensures tag == ListTag <==> arg.PyList?
    ensures y[..] == Values(arg)
    ensures y.Length == |Values(arg)|
    ensures arg.PyList? ==> fresh(y)
    ensures arg.NdArray? ==> y == arg.buf
    ensures CastToOriginalType(y, tag) == arg
  {
    match arg
    case PyList(xs) =>
      y := new real[|xs|](i requires 0 <= i < |xs| => xs[i]);
      tag := ListTag;
    case NdArray(b) =>
      y := b;
      tag := OtherTag;
  }

  /**
   * Inverse of the tag: a list input gets its result back as a list
   * (`tolist()`, a copy of the values); any other input gets the buffer.
   */
  function CastToOriginalType(y: array<real>, tag: Tag): (r: ArrayLike)
    reads y
    ensures TagOf(r) == tag
    ensures Footprint(r) <= {y}
    ensures Values(r) == y[..]
  {
    match tag
    case ListTag => PyList(y[..])
    case OtherTag => NdArray(y)
  }
}
