/** Witness values that may be unknown. A circuit synthesized for key generation
    carries no witness, so every value it would assign is `Unknown`; the same
    synthesis with a real witness assigns `Known` values. */
module Values {

  datatype Value<T> = Unknown | Known(v: T) {

    /** Applies `f` to a known value; an unknown value stays unknown. */
    function Map<U>(f: T -> U): (r: Value<U>)
      ensures r.Known? <==> Known?
      ensures Known? ==> r.v == f(v)
    {
      match this
      case Unknown => Unknown
      case Known(a) => Known(f(a))
    }

    /** Pairs two values; the pair is known only when both parts are. */
    function Zip<U>(other: Value<U>): (r: Value<(T, U)>)
      ensures r.Known? <==> Known? && other.Known?
      ensures r.Known? ==> r.v.0 == v && r.v.1 == other.v
    {
      if Known? && other.Known? then Known((v, other.v)) else Unknown
    }
  }
}
