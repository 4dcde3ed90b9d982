/** The decision helper behind a manual Powerwall tariff push: given the force
    flag and the computed tariff diff, say whether the tariff should be pushed
    and why, or which of the two input errors the call raises.

    Python's loose typing is modelled by tagged variants: the force flag is
    either a genuine `bool` or some other value, and the diff is absent, a
    mapping, a sequence, a text value (str, bytes, bytearray, which Python
    counts as sequences) or anything else. Only the element count of a diff
    is kept, because only its emptiness is ever inspected. */
module ManualPush {

  datatype Option<T> = None | Some(value: T)

  /** The `force_push` argument: a real `bool`, or a value of any other type
      (an int, a string, None, ...). */
  datatype ForceArg = Bool(b: bool) | NotBool

  /** The `tariff_change` argument. `size` is the element count `len(...)`
      would report: entries of a mapping, elements of a sequence, characters
      or bytes of a text value. */
  datatype Change =
    | Absent                 // None
    | Mapping(size: nat)     // any collections.abc.Mapping, e.g. dict
    | Sequence(size: nat)    // any non-text collections.abc.Sequence, e.g. list, tuple
    | Textual(size: nat)     // str, bytes or bytearray
    | Other                  // anything else, e.g. 42, 0.5, a set

  /** The reason code returned beside the decision. */
  datatype Reason = Changed | Forced | Unchanged {
    /** The string the source returns for this reason: one of the three
        documented codes, with "unchanged" reserved for the one reason that
        does not push. */
    function Label(): (s: string)
      ensures s in {"changed", "forced", "unchanged"}
      ensures s == "unchanged" <==> this == Unchanged
    {
      match this
      case Changed => "changed"
      case Forced => "forced"
      case Unchanged => "unchanged"
    }
  }

  /** The three reason strings are distinct, so a caller can tell the reasons
      apart by the string alone. */
  lemma LabelsDistinct(r1: Reason, r2: Reason)
    ensures r1.Label() == r2.Label() <==> r1 == r2
  {
  }

  /** A call either returns the pair `(should_push, reason)` or raises:
      `ValueError` for a bad force flag, `TypeError` for a bad diff. */
  datatype Outcome = Ok(push: bool, reason: Reason) | InvalidArgument | TypeMismatch

  /** A diff the helper accepts: absent, a mapping, or a non-text sequence. */
  predicate Accepted(c: Change) {
    c.Absent? || c.Mapping? || c.Sequence?
  }

  /** There is something to push: an accepted diff with at least one element. */
  predicate HasChange(c: Change) {
    (c.Mapping? || c.Sequence?) && c.size > 0
  }

  /** The classification step: whether a mapping or a non-text sequence is
      empty, and no answer for text or any other value (the `TypeError`
      case); it is never asked about an absent diff. */
  function IsEmpty(c: Change): (r: Option<bool>)
    ensures r.Some? <==> c.Mapping? || c.Sequence?
    ensures r.Some? ==> (r.value <==> !HasChange(c))
  {
    match c
    case Mapping(n) => Some(n == 0)
    case Sequence(n) => Some(n == 0)
    case _ => None
  }

  /** `should_push_tariff_data(force_push, tariff_change)`, branch by branch in
      the source's order: validate the flag, handle an absent diff, classify
      the diff, then changed / forced / unchanged. */
  function ShouldPush(f: ForceArg, c: Change): (r: Outcome)
    // the flag is checked before anything else
    ensures r == InvalidArgument <==> f.NotBool?
    ensures r == TypeMismatch <==> f.Bool? && !Accepted(c)
    // on success the decision and the reason agree, and each reason has its cause
    ensures r.Ok? ==> (r.push <==> r.reason != Unchanged)
    ensures r.Ok? ==> (r.reason == Changed <==> HasChange(c))
    ensures r.Ok? ==> (r.reason == Forced <==> f.b && !HasChange(c))
  {
    match f
    case NotBool => InvalidArgument
    case Bool(force) =>
      if c.Absent? then
        Ok(force, if force then Forced else Unchanged)
      else
        match IsEmpty(c)
        case None => TypeMismatch
        case Some(empty) =>
          if !empty then Ok(true, Changed)
          else if force then Ok(true, Forced)
          else Ok(false, Unchanged)
  }

  /** The decision for valid inputs, stated on its own: a pending change
      always wins, otherwise the flag decides. An absent diff counts as
      "no change". */
  function Decide(force: bool, change: bool): (r: Outcome)
    ensures r.Ok?
    ensures r.push <==> change || force
    ensures r.reason == Changed <==> change
    ensures r.reason == Forced <==> force && !change
  {
    if change then Ok(true, Changed)
    else if force then Ok(true, Forced)
    else Ok(false, Unchanged)
  }

  // ---------------------------------------------------------------------
  // Properties of ShouldPush

  /** A non-boolean flag raises `ValueError` whatever the diff is, even a diff
      that would itself raise `TypeError`. */
  lemma InvalidFlagWins(c: Change)
    ensures ShouldPush(NotBool, c) == InvalidArgument
  {
  }

  /** With no diff, the flag alone decides: `(True, "forced")` or
      `(False, "unchanged")`. */
  lemma AbsentDiff(force: bool)
    ensures ShouldPush(Bool(force), Absent) == (if force then Ok(true, Forced) else Ok(false, Unchanged))
  {
  }

  /** A valid flag with a present diff raises `TypeError` exactly when the
      diff is neither a mapping nor a non-text sequence; text values are
      rejected even when empty. */
  lemma RejectedDiffs(force: bool, c: Change)
    requires !c.Absent?
    ensures ShouldPush(Bool(force), c) == TypeMismatch <==> c.Textual? || c.Other?
  {
  }

  /** A non-empty mapping or sequence is always pushed as "changed", forced or
      not. */
  lemma ChangeAlwaysWins(force: bool, c: Change)
    requires HasChange(c)
    ensures ShouldPush(Bool(force), c) == Ok(true, Changed)
  {
  }

  /** An empty mapping or sequence is pushed as "forced" when forced, and not
      pushed ("unchanged") otherwise. */
  lemma EmptyDiff(force: bool, c: Change)
    requires c.Mapping? || c.Sequence?
    requires c.size == 0
    ensures ShouldPush(Bool(force), c) == (if force then Ok(true, Forced) else Ok(false, Unchanged))
  {
  }

  /** For valid inputs the outcome depends on the diff only through whether it
      holds a change: ShouldPush factors through Decide. */
  lemma FactorsThroughDecide(force: bool, c: Change)
    requires Accepted(c)
    ensures ShouldPush(Bool(force), c) == Decide(force, HasChange(c))
  {
  }

  /** Hence a mapping and a sequence of the same length are interchangeable,
      and an absent diff behaves exactly like an empty one. */
  lemma ShapeIrrelevant(f: ForceArg, n: nat)
    ensures ShouldPush(f, Mapping(n)) == ShouldPush(f, Sequence(n))
    ensures ShouldPush(f, Absent) == ShouldPush(f, Mapping(0))
  {
  }

  /** The outcomes the helper can produce are exactly the two errors and the
      three documented pairs; `(False, "changed")`, `(True, "unchanged")` and
      `(False, "forced")` never occur. */
  lemma OutcomeSpace(o: Outcome)
    ensures (exists f, c :: ShouldPush(f, c) == o) <==>
            o in {InvalidArgument, TypeMismatch, Ok(true, Changed), Ok(true, Forced), Ok(false, Unchanged)}
  {
    match o
    case InvalidArgument => assert ShouldPush(NotBool, Absent) == o;
    case TypeMismatch => assert ShouldPush(Bool(false), Other) == o;
    case Ok(_, _) =>
      if o == Ok(true, Changed) {
        assert ShouldPush(Bool(false), Mapping(1)) == o;
      } else if o == Ok(true, Forced) {
        assert ShouldPush(Bool(true), Absent) == o;
      } else if o == Ok(false, Unchanged) {
        assert ShouldPush(Bool(false), Absent) == o;
      }
  }

  /** With a valid flag, every diff either raises `TypeError`, is "changed",
      or gets the flag's own answer; each of the three happens for some diff. */
  lemma OutcomesUnderFlag(force: bool, o: Outcome)
    ensures (exists c :: ShouldPush(Bool(force), c) == o) <==>
            o in {TypeMismatch, Ok(true, Changed), if force then Ok(true, Forced) else Ok(false, Unchanged)}
  {
    if o == TypeMismatch {
      assert ShouldPush(Bool(force), Other) == o;
    } else if o == Ok(true, Changed) {
      assert ShouldPush(Bool(force), Sequence(1)) == o;
    } else if o == (if force then Ok(true, Forced) else Ok(false, Unchanged)) {
      assert ShouldPush(Bool(force), Absent) == o;
    }
  }

  /** The force flag makes a difference to the outcome exactly when the diff
      is absent or an empty mapping or sequence. */
  lemma FlagDecisiveIffNoChange(c: Change)
    ensures (exists b1, b2 :: ShouldPush(Bool(b1), c) != ShouldPush(Bool(b2), c)) <==>
            Accepted(c) && !HasChange(c)
  {
    if Accepted(c) && !HasChange(c) {
      assert ShouldPush(Bool(true), c) != ShouldPush(Bool(false), c);
    }
  }
}
