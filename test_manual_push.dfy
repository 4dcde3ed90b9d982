/** The unit tests of the push helper, each restated as a lemma about the
    model. Diff contents such as `{"import": {"rate": 0.12}}` are represented
    by their element count alone. */
module ManualPushTests {
  import opened ManualPush

  /** `should_push_tariff_data(False, {"import": {"rate": 0.12}})` is
      `(True, "changed")`, and so is the forced call with the same diff. */
  lemma ChangeDetected()
    ensures ShouldPush(Bool(false), Mapping(1)) == Ok(true, Changed)
    ensures ShouldPush(Bool(true), Mapping(1)) == Ok(true, Changed)
    ensures Changed.Label() == "changed"
  {
  }

  /** `should_push_tariff_data(True, {})` is `(True, "forced")`. */
  lemma ForcedWithoutChanges()
    ensures ShouldPush(Bool(true), Mapping(0)) == Ok(true, Forced)
    ensures Forced.Label() == "forced"
  {
  }

  /** `should_push_tariff_data(False, [])` is `(False, "unchanged")`. */
  lemma NoChangeNotForced()
    ensures ShouldPush(Bool(false), Sequence(0)) == Ok(false, Unchanged)
    ensures Unchanged.Label() == "unchanged"
  {
  }

  /** `should_push_tariff_data(False, None)` is `(False, "unchanged")`. */
  lemma NoneChangeNotForced()
    ensures ShouldPush(Bool(false), Absent) == Ok(false, Unchanged)
  {
  }

  /** `should_push_tariff_data("yes", None)` raises `ValueError`; so does
      `("yes", 42)`, since the flag is checked first. */
  lemma InvalidForceFlag()
    ensures ShouldPush(NotBool, Absent) == InvalidArgument
    ensures ShouldPush(NotBool, Other) == InvalidArgument
  {
  }

  /** `should_push_tariff_data(False, 42)` raises `TypeError`, and so does an
      empty string. */
  lemma InvalidChangeType()
    ensures ShouldPush(Bool(false), Other) == TypeMismatch
    ensures ShouldPush(Bool(false), Textual(0)) == TypeMismatch
  {
  }
}
