/** The market-feature snapshot: a mapping from feature name to number,
    read with a per-call default, as `features.get(name, default)` does. */
module Features {

  type Snapshot = map<string, real>

  /** `features.get(key, default)` */
  function Get(f: Snapshot, key: string, default: real): (v: real)
    ensures key in f ==> v == f[key]
    ensures key !in f ==> v == default
  {
    if key in f then f[key] else default
  }

  /** A feature value as the extractor produces it: a number or NaN. */
  datatype Value = Num(x: real) | NaN
}
