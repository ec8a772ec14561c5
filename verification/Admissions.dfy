/** What a caller asks an admission gate, and how the queue is configured. */
module Admissions {
  import opened Common

  type Id = nat
  type FairKey = string

  datatype Rate = Rate(limit: int, periodMs: int)

  /** `retryMs` has its default already applied; `fair` is `fairness: 'key'`, `lifo` is `order: 'lifo'`. */
  datatype Config = Config(concurrency: Option<int>, rate: Option<Rate>, retryMs: int, fair: bool, lifo: bool)

  datatype Item = Item(priority: Option<int>, key: Option<FairKey>, waiterId: Option<Id>)

  datatype Admission = Admitted | Denied(retryAt: int)

  function PriorityOf(item: Item): int {
    if item.priority.Some? then item.priority.value else 0
  }

  predicate Ordered(cfg: Config, item: Item) {
    cfg.fair || cfg.lifo || item.priority.Some? || item.waiterId.Some?
  }
}
