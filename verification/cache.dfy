/** The shutdown cache that the handlers defer requests into. Its Go definition
    (`data.SaveLinksCache`, `data.SaveNumberLinksCache`, `data.SDCache`) is not
    part of this model: it is represented only as two append-only ghost
    sequences, and nothing more is assumed about it. */
module DeferredCache {

  class ShutdownCache {
    /** URL lists deferred by the check handler, oldest first. */
    ghost var cacheLinks: seq<seq<string>>
    /** Id lists deferred by the report handler, oldest first. */
    ghost var numberLinks: seq<seq<int>>

    ghost method SaveLinksCache(links: seq<string>)
      modifies this
      ensures cacheLinks == old(cacheLinks) + [links]
      ensures numberLinks == old(numberLinks)
    {
      cacheLinks := cacheLinks + [links];
    }

    ghost method SaveNumberLinksCache(ids: seq<int>)
      modifies this
      ensures numberLinks == old(numberLinks) + [ids]
      ensures cacheLinks == old(cacheLinks)
    {
      numberLinks := numberLinks + [ids];
    }
  }
}
