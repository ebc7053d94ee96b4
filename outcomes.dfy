/**
 * What a service call leaves behind: the tables, the cache and its result.
 * A call made under @Transactional(rollbackFor = Exception.class) that
 * throws leaves the tables it started from; its cache writes stay.
 */
module Outcomes {
  import opened Wrappers
  import opened Entities
  import opened RedisCache
  import opened Database

  datatype Outcome<T> = Outcome(tables: Tables, store: Store, result: Result<T, Fault>)

  /** The rollback of a transactional call that threw. */
  function Transactional<T>(before: Tables, o: Outcome<T>): (r: Outcome<T>)
    ensures r.store == o.store && r.result == o.result
    ensures r.tables == if o.result.Err? then before else o.tables
  {
    if o.result.Err? then o.(tables := before) else o
  }
}
