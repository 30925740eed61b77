/**
 * The application's tool chain (App\Capability\ToolChain): on construction it
 * hands its logger to every item that accepts one, then passes the items on
 * to the SDK's tool chain unchanged.
 */
module Capability {

  /**
   * The PSR-3 logger handed to the items. Its only modelled state is the
   * record of the `setLogger` calls that received it, in call order. Its
   * `info` side, the one the executor uses, is `ExecuteSQL.InfoLogger`.
   */
  class Logger {
    ghost var boundTo: seq<Item>

    constructor ()
      ensures boundTo == []
    {
      boundTo := [];
    }
  }

  /** A chain item: identified by name; some implement LoggerAwareInterface. */
  class Item {
    const name: string
    const loggerAware: bool
    var logger: Logger?

    constructor (name: string, loggerAware: bool)
      ensures this.name == name && this.loggerAware == loggerAware && logger == null
    {
      this.name := name;
      this.loggerAware := loggerAware;
      logger := null;
    }

    /**
     * LoggerAwareInterface::setLogger; `ExecuteSQL.ExecuteSQLExecutor.SetLogger`
     * is the same trait method on the executor, one of these items.
     */
    method SetLogger(l: Logger)
      requires loggerAware
      modifies this, l
      ensures logger == l
      ensures l.boundTo == old(l.boundTo) + [this]
    {
      logger := l;
      l.boundTo := l.boundTo + [this];
    }
  }

  /** The logger-aware items of `items`, in order, each occurrence once. */
  function LoggerAware(items: seq<Item>): (r: seq<Item>)
    ensures |r| <= |items|
    ensures forall k :: 0 <= k < |r| ==> r[k] in items && r[k].loggerAware
    ensures forall j :: 0 <= j < |items| && items[j].loggerAware ==> items[j] in r
    decreases |items|
  {
    if items == [] then []
    else (if items[0].loggerAware then [items[0]] else []) + LoggerAware(items[1..])
  }

  lemma {:induction false} LoggerAwareAppend(items: seq<Item>, x: Item)
    ensures LoggerAware(items + [x]) == LoggerAware(items) + (if x.loggerAware then [x] else [])
    decreases |items|
  {
    if items == [] {
      assert items + [x] == [x];
    } else {
      assert (items + [x])[1..] == items[1..] + [x];
      LoggerAwareAppend(items[1..], x);
    }
  }

  class ToolChain {
    /** The items as the application passed them. */
    const items: seq<Item>
    /** The items the SDK's chain received. */
    const parentItems: seq<Item>

    constructor (items: seq<Item>, logger: Logger)
      modifies (set i | i in items), logger
      ensures this.items == items && parentItems == items
      ensures logger.boundTo == old(logger.boundTo) + LoggerAware(items)
      ensures forall j :: 0 <= j < |items| && items[j].loggerAware ==> items[j].logger == logger
      ensures forall j :: 0 <= j < |items| && !items[j].loggerAware ==> items[j].logger == old(items[j].logger)
    {
      var i := 0;
      while i < |items|
        invariant 0 <= i <= |items|
        invariant logger.boundTo == old(logger.boundTo) + LoggerAware(items[..i])
        invariant forall j :: 0 <= j < |items| ==>
          items[j].logger == if items[j].loggerAware && items[j] in items[..i] then logger else old(items[j].logger)
      {
        var item := items[i];
        if item.loggerAware {
          item.SetLogger(logger);
        }
        LoggerAwareAppend(items[..i], item);
        assert items[..i + 1] == items[..i] + [item];
        i := i + 1;
      }
      assert items[..i] == items;
      this.items := items;
      parentItems := items;
    }
  }
}
