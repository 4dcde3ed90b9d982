# Manual tariff push decision, modelled in Dafny

This project models the decision helper `should_push_tariff_data` in the
agile-powerwall repository. It decides whether a computed tariff diff should
be pushed to the Powerwall. The helper takes a force flag and a loosely
typed diff. It either returns `(should_push, reason)`, with the reason
`"changed"`, `"forced"` or `"unchanged"`, or raises: `ValueError` for a
non-boolean flag and `TypeError` for a diff it does not understand.

- `manual_push.dfy`, module `ManualPush`: the inputs are tagged variants.
  `ForceArg` is a real `bool` or any other value. `Change` is absent, a
  mapping, a non-text sequence, a text value (str/bytes/bytearray) or
  anything else, and keeps only its element count. The result is `Outcome`:
  `Ok(push, reason)`, `InvalidArgument` (the `ValueError`) or `TypeMismatch`
  (the `TypeError`). `ShouldPush` follows the source's branch order. `Decide`
  is a reference statement of the decision rule: a change always wins,
  otherwise the flag decides. The lemmas relate the two and pin down the set
  of outcomes the helper can produce.
- `test_manual_push.dfy`, module `ManualPushTests`: each unit test of the
  repository, restated as a lemma.

The helper is pure. Calling it twice with the same inputs gives the same
result because `ShouldPush` is a Dafny function, so no lemma states this.
The docstring, the unit tests and the code agree on every branch.

## Model

| member | source | states |
|---|---|---|
| `ManualPush.ShouldPush` | src/modules/manual_push.py:13-41 | `ValueError` exactly when the flag is not a bool. `TypeError` exactly when the flag is valid and the diff is not absent, a mapping or a non-text sequence. On success, `should_push` is true exactly when the reason is not "unchanged". The reason is "changed" exactly when the diff has elements. It is "forced" exactly when the flag is set and there is no change |
| `ManualPush.IsEmpty` | src/modules/manual_push.py:26-33 | A diff has an emptiness answer exactly when it is a mapping or a non-text sequence. The answer is "empty" exactly when it holds no change |
| `ManualPush.Reason.Label` | src/modules/manual_push.py:24-41 | The string returned for each reason is one of "changed", "forced" and "unchanged". It is "unchanged" exactly for the reason that does not push |
| `ManualPush.LabelsDistinct` | src/modules/manual_push.py:24-41 | The three reason strings returned are pairwise distinct |
| `ManualPush.Decide` | src/modules/manual_push.py:35-41 | The reference rule for valid inputs: it always succeeds, pushes exactly when there is a change or the flag is set, reports "changed" exactly when there is a change, and "forced" exactly when forced without a change |
| `ManualPush.InvalidFlagWins` | src/modules/manual_push.py:20-21 | A non-boolean flag gives `ValueError` for every diff, including a diff that would itself give `TypeError` |
| `ManualPush.AbsentDiff` | src/modules/manual_push.py:23-24 | With no diff the result is `(True, "forced")` when forced and `(False, "unchanged")` otherwise |
| `ManualPush.RejectedDiffs` | src/modules/manual_push.py:26-33 | With a valid flag, a present diff gives `TypeError` exactly when it is text or of another type. Empty text is rejected too |
| `ManualPush.ChangeAlwaysWins` | src/modules/manual_push.py:35-36 | A non-empty mapping or sequence gives `(True, "changed")` whatever the flag is |
| `ManualPush.EmptyDiff` | src/modules/manual_push.py:38-41 | An empty mapping or sequence gives `(True, "forced")` when forced and `(False, "unchanged")` otherwise |
| `ManualPush.FactorsThroughDecide` | src/modules/manual_push.py:23-41 | For a valid flag and an accepted diff, the result equals the reference rule `Decide` applied to the flag and to "the diff holds a change". The diff matters only through its emptiness |
| `ManualPush.ShapeIrrelevant` | src/modules/manual_push.py:23-41 | A mapping and a sequence of the same length give the same result. An absent diff gives the same result as an empty one |
| `ManualPush.OutcomeSpace` | src/modules/manual_push.py:20-41 | Over all inputs, the helper produces exactly five outcomes: the two errors, `(True, "changed")`, `(True, "forced")` and `(False, "unchanged")`. Each one is reachable and no other is |
| `ManualPush.OutcomesUnderFlag` | src/modules/manual_push.py:23-41 | For a fixed valid flag, the outcomes over all diffs are exactly `TypeError`, `(True, "changed")` and the flag's own answer |
| `ManualPush.FlagDecisiveIffNoChange` | src/modules/manual_push.py:23-41 | Changing the flag changes the outcome exactly when the diff is absent or an empty mapping or sequence |
| `ManualPushTests.ChangeDetected` | tests/test_manual_push.py:20-27 | `(False, {"import": ...})` gives `(True, "changed")`, and the forced call does too |
| `ManualPushTests.ForcedWithoutChanges` | tests/test_manual_push.py:34-39 | `(True, {})` gives `(True, "forced")` |
| `ManualPushTests.NoChangeNotForced` | tests/test_manual_push.py:46-51 | `(False, [])` gives `(False, "unchanged")` |
| `ManualPushTests.NoneChangeNotForced` | tests/test_manual_push.py:58-63 | `(False, None)` gives `(False, "unchanged")` |
| `ManualPushTests.InvalidForceFlag` | tests/test_manual_push.py:70-74 | `("yes", None)` raises `ValueError`. So does `("yes", 42)` |
| `ManualPushTests.InvalidChangeType` | tests/test_manual_push.py:81-85 | `(False, 42)` raises `TypeError`. So does `(False, "")` |

## Left out

- Python's runtime type tests (`isinstance` against `collections.abc.Mapping`
  and `Sequence`, and the exclusion of str/bytes/bytearray) are not modelled.
  The caller picks the `Change` variant, which stands for the result of those
  tests.
- The contents of a diff, such as nested rate values, are not modelled. They
  are never inspected; only the element count is kept.
- The text of the two error messages is not modelled. Only the two error
  kinds are distinguished.
- The test harness (`sys.path` set-up, `unittest.main`) is not modelled. The
  actual push to the device (network, authentication, scheduling) is not
  part of these files.
