/** The configuration record the cache is built from. */
module UcacheConfig {

  /** Sizing and admission settings; `ttl` is a duration in the clock's unit.
      Nothing here is validated: the fields may be zero, negative or
      inconsistent with one another. */
  datatype Config = Config(
    itemsNum: int,
    averageItemCost: int,
    minCacheableItemCost: int,
    maxCacheableItemCost: int,
    ttl: int
  )
}
