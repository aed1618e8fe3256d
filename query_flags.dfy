/** Symbolic names for the directory-query constants used by the land search.
    The numeric DFQ_* bit values and ST_* codes are defined in a header that is
    not part of this model, so the flags word is a set of flag names and nothing
    here depends on bit positions or on two constants differing numerically. */
module QueryFlags {

  /** One bit of the 32-bit query-flags word of a directory land query. */
  datatype QueryFlag =
    | PgSimsOnly        // DFQ_PG_SIMS_ONLY
    | MatureSimsOnly    // DFQ_MATURE_SIMS_ONLY
    | IncPg             // DFQ_INC_PG
    | IncMature         // DFQ_INC_MATURE
    | IncAdult          // DFQ_INC_ADULT
    | FilterGaming      // DFQ_FILTER_GAMING
    | NameSort          // DFQ_NAME_SORT
    | PriceSort         // DFQ_PRICE_SORT
    | PerMeterSort      // DFQ_PER_METER_SORT
    | AreaSort          // DFQ_AREA_SORT
    | SortAsc           // DFQ_SORT_ASC
    | LimitByPrice      // DFQ_LIMIT_BY_PRICE
    | LimitByArea       // DFQ_LIMIT_BY_AREA

  /** The sort-key bits; a land query carries at most one of them. */
  const SortKeyBits: set<QueryFlag> := {NameSort, PriceSort, PerMeterSort, AreaSort}

  /** The land-sale category sent as the query's search type. */
  datatype SearchType =
    | AllTypes          // ST_ALL
    | Auction           // ST_AUCTION
    | Mainland          // ST_MAINLAND
    | Estate            // ST_ESTATE

  /** A signed 32-bit integer, the width of the Price, Area and QueryStart fields. */
  newtype int32 = x: int | -0x8000_0000 <= x < 0x8000_0000
}
