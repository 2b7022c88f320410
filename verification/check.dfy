/** The link-checking path of api/check.go: URL normalisation, the
    availability rule, the fan-in merge of probe results, and the handler's
    admission order. */
module Check {
  import opened Seqs
  import opened Data
  import opened Lifecycle
  import opened DeferredCache

  const SchemeSeparator: string := "://"
  const DefaultScheme: string := "http://"

  /** `t` occurs in `s` starting at index `i`. */
  predicate OccursAt(s: string, t: string, i: nat)
  {
    i + |t| <= |s| && s[i..i + |t|] == t
  }

  /** `strings.Contains(s, t)`. */
  predicate Contains(s: string, t: string)
  {
    exists i: nat :: i <= |s| && OccursAt(s, t, i)
  }

  /** The address actually probed: `http://` is prefixed when the URL has no
      `://` anywhere in it. */
  function Normalize(url: string): (normalized: string)
  {
    if Contains(url, SchemeSeparator) then url else DefaultScheme + url
  }

  /** A normalised URL always carries a scheme separator, ends with the URL
      given, and equals it exactly when that URL already had one. */
  lemma NormalizeAddsScheme(url: string)
    ensures Contains(Normalize(url), SchemeSeparator)
    ensures |url| <= |Normalize(url)| && Normalize(url)[|Normalize(url)| - |url|..] == url
    ensures Normalize(url) == url <==> Contains(url, SchemeSeparator)
  {
    if !Contains(url, SchemeSeparator) {
      var n := DefaultScheme + url;
      assert n[4..7] == SchemeSeparator;
      assert OccursAt(n, SchemeSeparator, 4);
      assert n[|n| - |url|..] == url;
    }
  }

  /** Normalising twice is normalising once. */
  lemma NormalizeIdempotent(url: string)
    ensures Normalize(Normalize(url)) == Normalize(url)
  {
    NormalizeAddsScheme(url);
  }

  /** What a single GET yields: a transport error (refused, DNS, timeout, ...)
      or a response with its status code. The network itself is not modelled. */
  datatype ProbeOutcome = TransportError | Response(statusCode: int)

  /** `IsAvailable`: probe the normalised URL through `get` and accept any
      response whose status code lies in [200, 400). */
  function IsAvailable(url: string, get: string -> ProbeOutcome): (available: bool)
  {
    var outcome := get(Normalize(url));
    outcome.Response? && 200 <= outcome.statusCode && outcome.statusCode < 400
  }

  /** Available means: the probe of the normalised URL answered, and its status
      class (hundreds digit) is 2xx or 3xx; a transport error never is. */
  lemma AvailableIffSuccessOrRedirect(url: string, get: string -> ProbeOutcome)
    ensures IsAvailable(url, get) <==>
              var outcome := get(Normalize(url));
              outcome.Response? && (outcome.statusCode / 100 == 2 || outcome.statusCode / 100 == 3)
    ensures get(Normalize(url)).TransportError? ==> !IsAvailable(url, get)
  {
    var outcome := get(Normalize(url));
    if outcome.Response? {
      var c := outcome.statusCode;
      var q := c / 100;
      assert c == 100 * q + c % 100 && 0 <= c % 100 < 100;
      assert 200 <= c < 400 <==> q == 2 || q == 3;
    }
  }

  /** `Link`: one message on the results channel. */
  datatype Link = Link(url: string, status: string)

  /** One finished probe goroutine: the URL it was started for and the network
      as that goroutine saw it. */
  datatype Probe = Probe(url: string, get: string -> ProbeOutcome)

  /** The message a probe goroutine sends (check.go:96-102). */
  function Message(p: Probe): (l: Link)
    ensures l.url == p.url
    ensures l.status == AvailableStatus <==> IsAvailable(p.url, p.get)
    ensures l.status == AvailableStatus || l.status == NotAvailableStatus
  {
    Link(p.url, if IsAvailable(p.url, p.get) then AvailableStatus else NotAvailableStatus)
  }

  /** The URLs of the probes, in arrival order. */
  function Urls(ps: seq<Probe>): (us: seq<string>)
    ensures |us| == |ps|
    ensures forall i :: 0 <= i < |ps| ==> us[i] == ps[i].url
  {
    if ps == [] then [] else [ps[0].url] + Urls(ps[1..])
  }

  /** The channel delivers exactly one probe per input occurrence, duplicates
      included, in any order. */
  predicate OnePerOccurrence(links: seq<string>, arrivals: seq<Probe>)
  {
    multiset(Urls(arrivals)) == multiset(links)
  }

  /** The merge of the first messages: each arrival writes its status under its
      URL, so the last arrival for a URL wins. */
  function Merged(ps: seq<Probe>): (merged: map<string, string>)
  {
    if ps == [] then map[]
    else
      var last := Message(ps[|ps| - 1]);
      Merged(ps[..|ps| - 1])[last.url := last.status]
  }

  /** The merged map has one key per distinct URL that arrived and holds only
      the two status strings. */
  lemma {:induction false} MergedKeysAndValues(ps: seq<Probe>)
    ensures forall u :: u in Merged(ps) <==> u in Urls(ps)
    ensures forall u :: u in Merged(ps) ==>
              Merged(ps)[u] == AvailableStatus || Merged(ps)[u] == NotAvailableStatus
  {
    if ps != [] {
      var init := ps[..|ps| - 1];
      MergedKeysAndValues(init);
      assert Urls(ps) == Urls(init) + [ps[|ps| - 1].url];
    }
  }

  /** Last writer wins: a URL's merged status is the one of its last arrival. */
  lemma {:induction false} MergedLastArrivalWins(ps: seq<Probe>, i: nat)
    requires i < |ps|
    requires forall j :: i < j < |ps| ==> ps[j].url != ps[i].url
    ensures ps[i].url in Merged(ps)
    ensures Merged(ps)[ps[i].url] == Message(ps[i]).status
  {
    if i < |ps| - 1 {
      var init := ps[..|ps| - 1];
      MergedLastArrivalWins(init, i);
    }
  }

  /** The fan-in loop of `currentLinksCheck` and `CacheLinksCheck`: receive
      exactly `len(links)` results and write each into the map. */
  method FanIn(links: seq<string>, arrivals: seq<Probe>) returns (statusLinks: map<string, string>)
    requires OnePerOccurrence(links, arrivals)
    ensures statusLinks == Merged(arrivals)
    ensures forall u :: u in statusLinks <==> u in links
    ensures forall u :: u in statusLinks ==>
              statusLinks[u] == AvailableStatus || statusLinks[u] == NotAvailableStatus
    ensures |statusLinks| <= |links|
    ensures |statusLinks| == |links| <==> NoDuplicates(links)
  {
    assert |arrivals| == |links| by {
      assert |multiset(Urls(arrivals))| == |multiset(links)|;
    }
    statusLinks := map[];
    var i := 0;
    while i < |links|
      invariant 0 <= i <= |links|
      invariant statusLinks == Merged(arrivals[..i])
    {
      var res := Message(arrivals[i]);
      assert arrivals[..i + 1][..i] == arrivals[..i];
      statusLinks := statusLinks[res.url := res.status];
      i := i + 1;
    }
    assert arrivals[..i] == arrivals;
    MergedKeysAndValues(arrivals);
    forall u ensures u in statusLinks <==> u in links {
      assert u in Urls(arrivals) <==> u in multiset(Urls(arrivals));
      assert u in links <==> u in multiset(links);
    }
    assert statusLinks.Keys == set u | u in links;
    DistinctCount(links);
  }

  /** `currentLinksCheck`: merge the probe results and store the map; returns
      the map and the id the store assigned to it. */
  method CurrentLinksCheck(store: Storage, links: seq<string>, arrivals: seq<Probe>)
    returns (statusLinks: map<string, string>, linksSetNum: int)
    requires store.Valid() && OnePerOccurrence(links, arrivals)
    modifies store
    ensures store.Valid()
    ensures statusLinks == Merged(arrivals)
    ensures linksSetNum == old(store.nextID) && store.nextID == old(store.nextID) + 1
    ensures store.data == old(store.data)[linksSetNum := statusLinks]
  {
    statusLinks := FanIn(links, arrivals);
    linksSetNum := store.SaveResults(statusLinks);
  }

  /** `CacheLinksCheck`: the same merge and store, used to replay a deferred
      batch; the id is discarded but still consumed. */
  method CacheLinksCheck(store: Storage, links: seq<string>, arrivals: seq<Probe>)
    requires store.Valid() && OnePerOccurrence(links, arrivals)
    modifies store
    ensures store.Valid()
    ensures store.nextID == old(store.nextID) + 1
    ensures store.data == old(store.data)[old(store.nextID) := Merged(arrivals)]
  {
    var statusLinks := FanIn(links, arrivals);
    var _ := store.SaveResults(statusLinks);
  }

  /** The admission order shared by both POST handlers: an empty list is
      rejected first, then a set shutdown flag defers the request. */
  datatype Admission = RejectEmpty | DeferForShutdown | Proceed

  function Admit(count: nat, shuttingDown: bool): (a: Admission)
    ensures a == RejectEmpty <==> count == 0
    ensures a == DeferForShutdown <==> count > 0 && shuttingDown
    ensures a == Proceed <==> count > 0 && !shuttingDown
  {
    if count == 0 then RejectEmpty
    else if shuttingDown then DeferForShutdown
    else Proceed
  }

  const NoLinksMessage: string := "ссылок нет"
  const UnavailableMessage: string := "сервис недоступен - повторите запрос позднее"

  /** What `checkPostHandler` answers, once the body has been decoded. */
  datatype CheckReply =
    | CheckBadRequest(message: string)
    | CheckUnavailable(message: string)
    | CheckOk(links: map<string, string>, linksNum: int)
  {
    function Code(): int
    {
      match this
      case CheckBadRequest(_) => 400
      case CheckUnavailable(_) => 503
      case CheckOk(_, _) => 200
    }
  }

  /** `checkPostHandler` from the decoded link list on: 400 for an empty list,
      503 with the list deferred while shutting down (nothing probed or
      stored), otherwise probe, merge, store and answer 200. */
  method CheckPostHandler(links: seq<string>, arrivals: seq<Probe>,
                          store: Storage, srv: Server, cache: ShutdownCache)
    returns (reply: CheckReply)
    requires store.Valid() && OnePerOccurrence(links, arrivals)
    modifies store, cache
    ensures store.Valid()
    ensures reply.Code() == 400 <==> |links| == 0
    ensures reply.Code() == 503 <==> |links| > 0 && srv.isShutdown
    ensures reply.CheckBadRequest? ==> reply.message == NoLinksMessage
    ensures reply.CheckUnavailable? ==> reply.message == UnavailableMessage
    ensures !reply.CheckOk? ==> unchanged(store)
    ensures reply.CheckUnavailable? ==> cache.cacheLinks == old(cache.cacheLinks) + [links]
    ensures !reply.CheckUnavailable? ==> unchanged(cache)
    ensures reply.CheckOk? ==>
              && reply.links == Merged(arrivals)
              && reply.linksNum == old(store.nextID)
              && store.nextID == old(store.nextID) + 1
              && store.data == old(store.data)[reply.linksNum := reply.links]
  {
    var shuttingDown := srv.IsShutdown();
    match Admit(|links|, shuttingDown)
    case RejectEmpty =>
      reply := CheckBadRequest(NoLinksMessage);
    case DeferForShutdown =>
      cache.SaveLinksCache(links);
      reply := CheckUnavailable(UnavailableMessage);
    case Proceed =>
      var statusLinks, linksSetNum := CurrentLinksCheck(store, links, arrivals);
      reply := CheckOk(statusLinks, linksSetNum);
  }
}
