/** The upstream's data as the plugin sees it: one record per hero and tier,
    and the outcome of one request to the statistics endpoint. */
module Records {

  /** A number from the upstream's JSON: the text `str()` prints for it and
      its value as `float()` reads it. */
  datatype Num = Num(text: string, value: real)

  /** The number `0` the source substitutes for a missing field. */
  const MISSING: Num := Num("0", 0.0)

  /** One hero's statistics in one tier: its id, `str()` of its role field
      (`hero_type`), and its numeric fields keyed by name (`win_ratio`,
      `selection_ratio`, `ban_ratio`, `kda`). */
  datatype HeroRecord = HeroRecord(heroId: string, heroType: string, fields: map<string, Num>)

  /** `h.get(key, 0)`. */
  function Field(h: HeroRecord, key: string): Num
  {
    if key in h.fields then h.fields[key] else MISSING
  }

  /** What one request to the statistics endpoint produced: an exception
      (transport or decoding failure), or an HTTP status with the record list
      taken from the decoded body. */
  datatype FetchOutcome = Raised | Answered(status: int, data: seq<HeroRecord>)
}
