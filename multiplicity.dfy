/**
  The multiplicity law of the interface meta-model.

  `Occurrences` says how many values of a field one operation (genesis or a
  transition) may carry; `Req` says how many values of a field an interface
  expects a contract to hold. Both denote an inclusive count range.
 */
module Multiplicity {
  import opened Wrappers

  /** An inclusive count range `[min, max]`; `max == None` is unbounded. */
  datatype Range = Range(min: nat, max: Option<nat>) {

    predicate Contains(n: nat) {
      min <= n && (max.Some? ==> n <= max.value)
    }

    /** Every count of this range lies in `outer`. */
    predicate Within(outer: Range) {
      outer.min <= min && (outer.max.Some? ==> max.Some? && max.value <= outer.max.value)
    }
  }

  /** How many times a field occurs in one operation. */
  datatype Occurrences = Once | NoneOrOnce | NoneOrMore | OnceOrMore {

    function Bounds(): Range {
      match this
      case Once => Range(1, Some(1))
      case NoneOrOnce => Range(0, Some(1))
      case NoneOrMore => Range(0, None)
      case OnceOrMore => Range(1, None)
    }

    /** The count check applied to an operation, one case per kind. */
    predicate Check(count: nat) {
      match this
      case Once => count == 1
      case NoneOrOnce => count <= 1
      case NoneOrMore => true
      case OnceOrMore => count > 0
    }
  }

  /** How many values of a field an interface expects a contract to hold. */
  datatype Req = Optional | Required | NoneOrMore | OneOrMore {

    function Bounds(): Range {
      match this
      case Optional => Range(0, Some(1))
      case Required => Range(1, Some(1))
      case NoneOrMore => Range(0, None)
      case OneOrMore => Range(1, None)
    }

    predicate IsRequired() {
      Required? || OneOrMore?
    }

    predicate IsMultiple() {
      NoneOrMore? || OneOrMore?
    }
  }

  /** The count check accepts exactly the counts of the declared range. */
  lemma OccurrenceLaw(o: Occurrences, count: nat)
    ensures o.Check(count) <==> o.Bounds().Contains(count)
  {
  }

  /** The law on the counts 0, 1 and 2, kind by kind. */
  lemma OccurrenceLawSamples()
    ensures Occurrences.Once.Check(1) && !Occurrences.Once.Check(0) && !Occurrences.Once.Check(2)
    ensures Occurrences.NoneOrOnce.Check(0) && Occurrences.NoneOrOnce.Check(1) && !Occurrences.NoneOrOnce.Check(2)
    ensures !Occurrences.OnceOrMore.Check(0) && Occurrences.OnceOrMore.Check(1) && Occurrences.OnceOrMore.Check(2)
    ensures Occurrences.NoneOrMore.Check(0) && Occurrences.NoneOrMore.Check(1) && Occurrences.NoneOrMore.Check(2)
  {
  }

  /** A requirement demands at least one value iff it is required, and
      allows more than one iff it is multiple. */
  lemma ReqFlags(r: Req)
    ensures r.IsRequired() <==> r.Bounds().min >= 1
    ensures r.IsMultiple() <==> r.Bounds().Contains(2)
  {
  }

  /** An operation whose occurrence range lies within a requirement never
      carries a count that the requirement rejects. */
  lemma WithinKeepsCounts(o: Occurrences, r: Req, count: nat)
    requires o.Bounds().Within(r.Bounds())
    requires o.Check(count)
    ensures r.Bounds().Contains(count)
  {
  }
}
