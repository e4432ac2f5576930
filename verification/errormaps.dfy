/**
  The per-field error maps (`Record<FormField, string>`) every screen keeps,
  and the one update shape all three field validators share: copy the map,
  drop the field's entry when the new value is non-blank, then record the
  rule's message if the rule fails.
 */
module ErrorMaps {
  import opened Wrappers

  /** Both maps agree on key `k`: both lack it, or both hold the same message. */
  predicate SameEntry<K>(a: map<K, string>, b: map<K, string>, k: K) {
    (k in a <==> k in b) && (k in a && k in b ==> a[k] == b[k])
  }

  /** `b` differs from `a` at most at key `k`. */
  ghost predicate OnlyChangedAt<K(!new)>(a: map<K, string>, b: map<K, string>, k: K) {
    forall g :: g != k ==> SameEntry(a, b, g)
  }

  /**
    The validators' update of `errors` for `field`: `filled` is
    `value.trim().length > 0`, `verdict` the message of the field's failed
    rule (`None` when the rule passes or the field has no rule).
   */
  function Revalidate<K(!new)>(errors: map<K, string>, field: K, filled: bool, verdict: Option<string>): (r: map<K, string>)
    ensures OnlyChangedAt(errors, r, field)
    ensures verdict.Some? ==> field in r && r[field] == verdict.value
    ensures verdict.None? ==> (field in r <==> !filled && field in errors)
    ensures verdict.None? && field in r ==> r[field] == errors[field]
  {
    var cleared := if filled then errors - {field} else errors;
    match verdict
    case Some(message) => cleared[field := message]
    case None => cleared
  }
}
