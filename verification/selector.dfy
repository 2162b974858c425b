/**
 * The backend selector of www/src/logic/index.ts: the first caller probes
 * whether the browser supports module workers and fixes the implementation
 * for the rest of the page's lifetime.
 */
module Selector {
  import opened Messages

  /** The two implementations of `Logic`. */
  datatype Logic = WorkerLogicImpl | LocalLogicImpl

  /**
   * What `new Worker('blob://', tester)` does in this browser: whether it reads
   * the `type` option (through the tester's getter), and whether it then throws.
   */
  datatype Browser = Browser(readsTypeOption: bool, constructorThrows: bool)

  const UsingWorker: string := "Using web worker"
  const UsingLocal: string := "Worker ES modules not supported, falling back to thread-local implementation"

  /** How a statement list ends: normally, with `return`, or with an exception. */
  datatype Completion = Normal | Return(value: bool) | Throw

  /**
   * `try { B } finally { F }` (section 14.15.3 of ECMA-262): a finally block
   * that completes normally passes B's completion on; one that ends abruptly
   * replaces it, an exception from B included.
   */
  function TryFinally(block: Completion, finalizer: Completion): Completion
  {
    if finalizer.Normal? then block else finalizer
  }

  /**
   * `supportsWorkerType`: the getter sets the flag, and the `finally` block's
   * `return supports` overrides whatever the constructor did, so the probe
   * always returns the flag and never throws.
   */
  method SupportsWorkerType(browser: Browser) returns (c: Completion)
    ensures c == Return(browser.readsTypeOption)
  {
    var supports := false;
    // `new Worker('blob://', tester)` reads the options first: the getter flips the flag
    if browser.readsTypeOption {
      supports := true;
    }
    var tried := if browser.constructorThrows then Throw else Normal;
    c := TryFinally(tried, Return(supports));
  }

  /** The implementation a probe answer selects. */
  function Choice(supports: bool): (logic: Logic)
    ensures logic.WorkerLogicImpl? <==> supports
  {
    if supports then WorkerLogicImpl else LocalLogicImpl
  }

  /** The module variable `impl` and the console it logs the choice to. */
  class Implementation {
    const browser: Browser
    var impl: Option<Logic>
    var log: seq<string>

    constructor (browser: Browser)
      ensures this.browser == browser && impl == None && log == []
    {
      this.browser := browser;
      impl := None;
      log := [];
    }

    /** `getImplementation`: probe and assign on the first call, return the cached choice afterwards. */
    method GetImplementation() returns (logic: Logic)
      modifies this
      ensures impl == Some(logic)
      ensures old(impl).Some? ==> logic == old(impl).value && log == old(log)
      ensures old(impl).None? ==> logic == Choice(browser.readsTypeOption)
      ensures old(impl).None? ==> log == old(log) + [if browser.readsTypeOption then UsingWorker else UsingLocal]
    {
      if impl.None? {
        var probe := SupportsWorkerType(browser);
        if probe.value {
          log := log + [UsingWorker];
          impl := Some(WorkerLogicImpl);
        } else {
          log := log + [UsingLocal];
          impl := Some(LocalLogicImpl);
        }
      }
      logic := impl.value;
    }
  }

  /** However often it is asked, a page gets one answer, and probes once. */
  method RepeatedCallsAgree(browser: Browser, n: nat) returns (first: Logic, last: Logic, log: seq<string>)
    requires n > 0
    ensures first == last == Choice(browser.readsTypeOption)
    ensures |log| == 1
  {
    var selector := new Implementation(browser);
    first := selector.GetImplementation();
    last := first;
    var i := 1;
    while i < n
      invariant selector.impl == Some(first) && |selector.log| == 1 && last == first
    {
      last := selector.GetImplementation();
      i := i + 1;
    }
    log := selector.log;
  }
}
