/** Live distributor offers, as BOM lines carry them and the enrichment service fetches them. */
module Offers {
  import opened Lists

  /** One distributor's answer for one MPN; refreshedAt in seconds. */
  datatype Offer = Offer(mpn: string, distributor: string, unitUsd: Option<real>, error: Option<string>, refreshedAt: int)

  /** An offer that carries a price (a zero price counts as none). */
  predicate Priced(o: Offer) { o.error.None? && o.unitUsd.Some? && o.unitUsd.value != 0.0 }

  function Price(o: Offer): real { if o.unitUsd.Some? then o.unitUsd.value else 0.0 }
}
