/** Last-activity timestamps (section 5.6 of RFC 3339). Hub and runtime index keep the same code
    for them, each in its own file, and merge independently. */
module Activity {
  import opened Text

  /** A timestamp as a string of the protocol. `Readable(seconds, spelling)` is any text that parses
      to an instant within second `seconds`; spelling 0 is the canonical one, in UTC and without a
      fraction. Everything else, blank text included, is `Unreadable`. */
  datatype Stamp = Unreadable(text: Bytes) | Readable(seconds: int, spelling: nat)

  const NO_STAMP := Unreadable([])

  function Normalize(value: Stamp): (canonical: Stamp) {
    match value
    case Unreadable(_) => NO_STAMP
    case Readable(seconds, _) => Readable(seconds, 0)
  }

  function Latest(current: Stamp, candidate: Stamp): (latest: Stamp) {
    var a, b := Normalize(current), Normalize(candidate);
    if a == NO_STAMP then b
    else if b == NO_STAMP then a
    else if b.seconds > a.seconds then b else a
  }

  /** `earlier` does not come after `later`; no timestamp comes before every timestamp. */
  predicate NotAfter(earlier: Stamp, later: Stamp) {
    earlier.Unreadable? || (later.Readable? && earlier.seconds <= later.seconds)
  }

  /** Latest is the join of the order: an upper bound of both, and the least one. */
  lemma LatestIsLeastUpperBound(a: Stamp, b: Stamp, bound: Stamp)
    ensures NotAfter(a, Latest(a, b)) && NotAfter(b, Latest(a, b))
    ensures NotAfter(a, bound) && NotAfter(b, bound) ==> NotAfter(Latest(a, b), bound)
  {
  }

  /** Hence it is idempotent, commutative and associative, up to normalisation of its arguments,
      and does not care whether they were normalised before. */
  lemma LatestIsSemilattice(a: Stamp, b: Stamp, c: Stamp)
    ensures Latest(a, a) == Normalize(a)
    ensures Latest(a, b) == Latest(b, a)
    ensures Latest(Latest(a, b), c) == Latest(a, Latest(b, c))
    ensures Latest(Normalize(a), b) == Latest(a, b) == Normalize(Latest(a, b))
  {
  }

  lemma NotAfterIffLatest(a: Stamp, b: Stamp)
    ensures NotAfter(a, b) <==> Latest(a, b) == Normalize(b)
  {
  }
}
