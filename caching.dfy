/**
 * `stopCaching`: the service's `cacheActive` flag guards the call that
 * stops the caching image manager. No live code sets the flag to true: the
 * only such line, 209, is in the commented-out caching block of `getLibrary`.
 */
module Caching {

  class CacheState {
    var cacheActive: bool
    /** How many times `stopCachingImagesForAllAssets` has been sent to the manager. */
    var stopRequests: nat

    /** `var cacheActive = false` */
    constructor ()
      ensures !cacheActive && stopRequests == 0
    {
      cacheActive := false;
      stopRequests := 0;
    }

    /** Stops the manager only when caching is active, and always leaves it inactive. */
    method StopCaching()
      modifies this
      ensures !cacheActive
      ensures stopRequests == old(stopRequests) + (if old(cacheActive) then 1 else 0)
    {
      if cacheActive {
        stopRequests := stopRequests + 1;
        cacheActive := false;
      }
    }
  }

  /** Stopping twice sends exactly what the first stop sends: the second call finds the flag cleared. */
  method StopTwice(c: CacheState)
    modifies c
    ensures !c.cacheActive
    ensures c.stopRequests == old(c.stopRequests) + (if old(c.cacheActive) then 1 else 0)
  {
    c.StopCaching();
    var afterFirst := c.stopRequests;
    c.StopCaching();
    assert c.stopRequests == afterFirst;
  }
}
