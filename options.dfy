/**
 * The options a `config` decorator carries (`ConfigDecorator` in config.ts)
 * and the attribute-wise merge `{ ...a, ...b }` the option store uses.
 */
module Options {
  import opened Wrappers
  import opened Js

  /** `adapters` is one function or an array of functions. */
  datatype Adapters = One(fn: Adapter) | Many(fns: seq<Adapter>)

  /** `[sources].flat()`: a single function counts as a one-element list. */
  function Flat(a: Adapters): (r: seq<Adapter>)
    ensures a.One? ==> r == [a.fn]
    ensures a.Many? ==> r == a.fns
  {
    match a
    case One(fn) => [fn]
    case Many(fns) => fns
  }

  /** Each attribute is `None` when the options object does not mention it. */
  datatype Options = Options(
    prefix: Option<string>,
    key: Option<string>,
    validate: Option<Validator>,
    adapters: Option<Adapters>)

  /** `{}`. */
  const Empty := Options(None, None, None, None)

  /** The attribute of `later` when it is given, otherwise that of `earlier`. */
  function Over<T>(earlier: Option<T>, later: Option<T>): Option<T> {
    if later.Some? then later else earlier
  }

  /** `{ ...earlier, ...later }`: attributes of `later` win, one by one. */
  function Merge(earlier: Options, later: Options): (r: Options)
    ensures later.prefix.Some? ==> r.prefix == later.prefix
    ensures later.prefix.None? ==> r.prefix == earlier.prefix
    ensures later.key.Some? ==> r.key == later.key
    ensures later.key.None? ==> r.key == earlier.key
    ensures later.validate.Some? ==> r.validate == later.validate
    ensures later.validate.None? ==> r.validate == earlier.validate
    ensures later.adapters.Some? ==> r.adapters == later.adapters
    ensures later.adapters.None? ==> r.adapters == earlier.adapters
  {
    Options(
      Over(earlier.prefix, later.prefix),
      Over(earlier.key, later.key),
      Over(earlier.validate, later.validate),
      Over(earlier.adapters, later.adapters))
  }

  /** Spreading `{}` on either side changes nothing. */
  lemma MergeEmpty(o: Options)
    ensures Merge(Empty, o) == o
    ensures Merge(o, Empty) == o
  {
  }

  /** Spreading the same object twice is spreading it once. */
  lemma MergeIdempotent(o: Options)
    ensures Merge(o, o) == o
  {
  }

  /** Successive merges can be grouped either way. */
  lemma MergeAssociative(a: Options, b: Options, c: Options)
    ensures Merge(Merge(a, b), c) == Merge(a, Merge(b, c))
  {
  }
}
