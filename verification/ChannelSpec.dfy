/** What a shared-memory channel promises its users: a FIFO queue between two counting
    semaphores. Puts and gets are three steps each, because a thread may stop between its wait,
    its copy and its post. */
module ChannelSpec {

  datatype Chan<T> = Chan(space: nat, items: nat, queue: seq<T>)

  datatype Op<T> =
    | WaitSpace
    | Enqueue(item: T)
    | PostItems
    | WaitItems
    | Dequeue(item: T)
    | PostSpace
    | Stutter

  predicate Enabled<T(==)>(c: Chan<T>, op: Op<T>) {
    match op
    case WaitSpace => c.space > 0
    case WaitItems => c.items > 0
    case Dequeue(x) => c.queue != [] && c.queue[0] == x
    case _ => true
  }

  function Next<T(==)>(c: Chan<T>, op: Op<T>): Chan<T>
    requires Enabled(c, op)
  {
    match op
    case WaitSpace => c.(space := c.space - 1)
    case Enqueue(x) => c.(queue := c.queue + [x])
    case PostItems => c.(items := c.items + 1)
    case WaitItems => c.(items := c.items - 1)
    case Dequeue(x) => c.(queue := c.queue[1..])
    case PostSpace => c.(space := c.space + 1)
    case Stutter => c
  }
}
