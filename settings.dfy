/**
  Quiz settings as the setup form's submit handler reads them: the question
  count is clamped to 5..25 and the per-question timer to 0..600 seconds.
 */
module Settings {
  import opened Wrappers

  /** `State.settings`; `kind` is the `type` setting ("" for any). */
  datatype Settings = Settings(
    amount: int,
    category: string,
    difficulty: string,
    kind: string,
    timerSeconds: int)

  /** The settings the page starts with. */
  const Defaults: Settings := Settings(10, "", "", "", 20)

  /**
    The setup form's fields: `amount` and `timer` are what `Number(field.value)`
    gives, with `None` for NaN.
   */
  datatype Form = Form(
    amount: Option<int>,
    category: string,
    difficulty: string,
    kind: string,
    timer: Option<int>)

  /** `Math.max(lo, Math.min(hi, n))`. */
  function Clamp(n: int, lo: int, hi: int): (r: int)
    ensures r >= lo
    ensures lo <= hi ==> r <= hi
    ensures lo <= n <= hi ==> r == n
    ensures n < lo ==> r == lo
    ensures lo <= hi < n ==> r == hi
  {
    var upper := if hi < n then hi else n;
    if lo > upper then lo else upper
  }

  /** `Number(value) || fallback`: NaN and 0 are falsy. */
  function NumberOr(parsed: Option<int>, fallback: int): (r: int)
    ensures parsed.Some? && parsed.value != 0 ==> r == parsed.value
    ensures parsed.None? || parsed == Some(0) ==> r == fallback
  {
    match parsed
    case Some(n) => if n != 0 then n else fallback
    case None => fallback
  }

  /** A settings value the submit handler can produce. */
  predicate InRange(s: Settings) {
    5 <= s.amount <= 25 && 0 <= s.timerSeconds <= 600
  }

  /**
    The submit handler's reading of the form: an empty or zero amount means 10,
    an empty or zero timer means 0 (no countdown), and both are clamped.
   */
  function ReadSettings(form: Form): (s: Settings)
    ensures InRange(s)
    ensures form.amount.None? || form.amount == Some(0) ==> s.amount == 10
    ensures form.amount.Some? && 5 <= form.amount.value <= 25 ==> s.amount == form.amount.value
    ensures form.amount.Some? && form.amount.value != 0 && form.amount.value < 5 ==> s.amount == 5
    ensures form.amount.Some? && form.amount.value > 25 ==> s.amount == 25
    ensures form.timer.Some? && 0 <= form.timer.value <= 600 ==> s.timerSeconds == form.timer.value
    ensures form.timer.None? || form.timer.value <= 0 ==> s.timerSeconds == 0
    ensures form.timer.Some? && form.timer.value > 600 ==> s.timerSeconds == 600
    ensures s.category == form.category && s.difficulty == form.difficulty && s.kind == form.kind
  {
    Settings(
      Clamp(NumberOr(form.amount, 10), 5, 25),
      form.category,
      form.difficulty,
      form.kind,
      Clamp(NumberOr(form.timer, 0), 0, 600))
  }
}
