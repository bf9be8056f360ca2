/** How js/ui.js reads its settings back from `localStorage`: a flag is on
    unless the stored string is "false", a number is `parseFloat(stored) ||
    default`, and the preset name is `stored || 'mid'`. A stored string is
    None when the key is absent; a parsed number is None when `parseFloat`
    gives NaN. Writing a number stores its `toString()`, which `parseFloat`
    reads back exactly, so a written number is `Some(v)`. */
module StoredValues {
  import opened Wrappers

  /** `getItem(key) !== 'false'`. */
  predicate ReadFlag(stored: Option<string>)
  {
    stored != Some("false")
  }

  /** `setItem(key, b)`: the boolean as the string "true" or "false". */
  function WriteFlag(b: bool): Option<string>
  {
    Some(if b then "true" else "false")
  }

  /** `x || d` on a number: 0 and NaN fall back to the default. */
  function OrDefault(n: Option<real>, d: real): real
  {
    if n.None? || n.value == 0.0 then d else n.value
  }

  /** `parseFloat(getItem(key)) || d`, as the source reads numbers. */
  function ReadNumber(parsed: Option<real>, d: real): real
  {
    OrDefault(parsed, d)
  }

  /** `setItem(key, v.toString())`, as `parseFloat` will see it. */
  function WriteNumber(v: real): Option<real>
  {
    Some(v)
  }

  /** The read the source evidently intends: the default only when the key
      is absent or not a number. */
  function ReadStoredNumber(parsed: Option<real>, d: real): real
  {
    if parsed.None? then d else parsed.value
  }

  /** `getItem(key) || d` for a string. */
  function ReadText(stored: Option<string>, d: string): string
  {
    if stored.None? || stored.value == "" then d else stored.value
  }

  // ---------------------------------------------------------------------

  /** A written flag reads back as written, and an absent flag reads as
      on. */
  lemma FlagRoundTrip(b: bool)
    ensures ReadFlag(WriteFlag(b)) == b
    ensures ReadFlag(None)
  {
  }

  /** As written, a stored number reads back unchanged unless it is 0,
      which reads back as the default. */
  lemma NumberReadBack(v: real, d: real)
    ensures v != 0.0 ==> ReadNumber(WriteNumber(v), d) == v
    ensures ReadNumber(WriteNumber(0.0), d) == d
    ensures ReadNumber(None, d) == d
  {
  }

  /** A stored volume of 0 reads back as full volume, and a stored bloom
      intensity of 0 as 0.7. */
  lemma StoredZeroReadsDefault()
    ensures ReadNumber(WriteNumber(0.0), 1.0) == 1.0
    ensures ReadNumber(WriteNumber(0.0), 0.7) == 0.7
  {
    NumberReadBack(0.0, 1.0);
    NumberReadBack(0.0, 0.7);
  }

  /** The intended read gives back every written number, 0 included, and
      the default only for a missing one. */
  lemma StoredNumberRoundTrip(v: real, d: real)
    ensures ReadStoredNumber(WriteNumber(v), d) == v
    ensures ReadStoredNumber(None, d) == d
  {
  }

  /** The two reads differ exactly on a stored 0 whose default is not 0. */
  lemma ReadsDiffer(parsed: Option<real>, d: real)
    ensures ReadNumber(parsed, d) != ReadStoredNumber(parsed, d) <==>
              parsed == Some(0.0) && d != 0.0
  {
  }
}
