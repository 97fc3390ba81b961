/** The service worker (public/sw.js): the cache table through the install,
    activate and fetch events of the W3C Service Workers lifecycle, the push
    and notification-click handlers, and the background sync of the offline
    telemetry entry.

    Cache Storage is an ordered list of named caches (the order in which they
    were created, which is the order `caches.keys()` lists and
    `caches.match` searches). Each cache maps request URLs to responses.
    The network, the JSON parser and the user's clicks are parameters. */
module ServiceWorker {
  import opened Wrappers

  const CacheName: string := "drone-control-v1"

  const UrlsToCache: seq<string> :=
    ["/", "/static/js/bundle.js", "/static/css/main.css", "/manifest.json", "/icon-192x192.png", "/icon-512x512.png"]

  const OfflineDataUrl: string := "/offline-drone-data"
  const SyncTag: string := "drone-data-sync"

  datatype Request = Request(verb: string, url: string)
  datatype Response = Response(status: int, body: string)
  datatype NamedCache = NamedCache(name: string, entries: map<string, Response>)

  predicate DistinctNames(cs: seq<NamedCache>)
  {
    forall i, j :: 0 <= i < j < |cs| ==> cs[i].name != cs[j].name
  }

  predicate HasCache(cs: seq<NamedCache>, name: string)
  {
    exists i :: 0 <= i < |cs| && cs[i].name == name
  }

  /** The position of the named cache. */
  function IndexOf(cs: seq<NamedCache>, name: string): (k: nat)
    requires HasCache(cs, name)
    ensures k < |cs| && cs[k].name == name
    ensures forall i :: 0 <= i < k ==> cs[i].name != name
  {
    if cs[0].name == name then 0
    else
      assert HasCache(cs[1..], name) by {
        var i :| 0 <= i < |cs| && cs[i].name == name;
        assert cs[1..][i - 1].name == name;
      }
      1 + IndexOf(cs[1..], name)
  }

  /** `caches.open(name)`: the named cache, created empty at the end when absent. */
  function Open(cs: seq<NamedCache>, name: string): (r: seq<NamedCache>)
    ensures HasCache(r, name)
    ensures DistinctNames(cs) ==> DistinctNames(r)
    ensures HasCache(cs, name) ==> r == cs
    ensures !HasCache(cs, name) ==> r == cs + [NamedCache(name, map[])]
  {
    if HasCache(cs, name) then cs
    else
      var r := cs + [NamedCache(name, map[])];
      assert r[|cs|].name == name;
      r
  }

  /** The named cache with its entries replaced; the others are untouched. */
  function Replace(cs: seq<NamedCache>, name: string, entries: map<string, Response>): (r: seq<NamedCache>)
    requires HasCache(cs, name)
    ensures |r| == |cs| && HasCache(r, name)
    ensures forall i :: 0 <= i < |cs| ==> r[i].name == cs[i].name
    ensures forall i :: 0 <= i < |cs| && cs[i].name != name ==> r[i] == cs[i]
    ensures DistinctNames(cs) ==> DistinctNames(r)
  {
    var k := IndexOf(cs, name);
    var r := cs[k := NamedCache(name, entries)];
    assert r[k].name == name;
    r
  }

  function EntriesOf(cs: seq<NamedCache>, name: string): map<string, Response>
    requires HasCache(cs, name)
  {
    cs[IndexOf(cs, name)].entries
  }

  /** The caches whose names are not in `gone`, in their order. */
  function Without(cs: seq<NamedCache>, gone: set<string>): (r: seq<NamedCache>)
    ensures forall c :: c in r <==> c in cs && c.name !in gone
    ensures DistinctNames(cs) ==> DistinctNames(r)
  {
    if cs == [] then []
    else
      var rest := Without(cs[1..], gone);
      assert DistinctNames(cs) ==> forall c :: c in rest ==> c.name != cs[0].name by {
        if DistinctNames(cs) {
          forall c | c in rest ensures c.name != cs[0].name {
            var i :| 0 <= i < |cs[1..]| && cs[1..][i] == c;
            assert cs[i + 1] == c;
          }
        }
      }
      if cs[0].name in gone then rest else [cs[0]] + rest
  }

  lemma {:induction false} WithoutTwice(cs: seq<NamedCache>, a: set<string>, b: set<string>)
    ensures Without(Without(cs, a), b) == Without(cs, a + b)
  {
    if cs != [] {
      WithoutTwice(cs[1..], a, b);
    }
  }

  lemma {:induction false} WithoutNothing(cs: seq<NamedCache>)
    ensures Without(cs, {}) == cs
  {
    if cs != [] {
      WithoutNothing(cs[1..]);
    }
  }

  lemma {:induction false} WithoutAll(cs: seq<NamedCache>, gone: set<string>)
    requires forall i :: 0 <= i < |cs| ==> cs[i].name in gone
    ensures Without(cs, gone) == []
  {
    if cs != [] {
      WithoutAll(cs[1..], gone);
    }
  }

  /** Removing every other name leaves exactly the one kept cache. */
  lemma {:induction false} WithoutAllBut(cs: seq<NamedCache>, gone: set<string>, k: nat)
    requires k < |cs| && cs[k].name !in gone
    requires forall i :: 0 <= i < |cs| && i != k ==> cs[i].name in gone
    ensures Without(cs, gone) == [cs[k]]
  {
    if k == 0 {
      WithoutAll(cs[1..], gone);
    } else {
      WithoutAllBut(cs[1..], gone, k - 1);
    }
  }

  /** The names of all caches other than the current one. */
  function StaleNames(cs: seq<NamedCache>): (r: set<string>)
    ensures forall c :: c in cs ==> (c.name in r <==> c.name != CacheName)
    ensures CacheName !in r
  {
    set i | 0 <= i < |cs| && cs[i].name != CacheName :: cs[i].name
  }

  /** `caches.keys()`: the names in order. */
  function NamesOf(cs: seq<NamedCache>): (names: seq<string>)
    ensures |names| == |cs| && forall i :: 0 <= i < |cs| ==> names[i] == cs[i].name
  {
    seq(|cs|, i requires 0 <= i < |cs| => cs[i].name)
  }

  /** The names among the first `n` that the activate handler deletes. */
  function StalePrefix(names: seq<string>, n: nat): set<string>
    requires n <= |names|
  {
    if n == 0 then {}
    else StalePrefix(names, n - 1) + (if names[n - 1] != CacheName then {names[n - 1]} else {})
  }

  /** Deleting one more stale name extends the deleted prefix. */
  lemma DeleteStep(cs: seq<NamedCache>, names: seq<string>, i: nat)
    requires i < |names| && names[i] != CacheName
    ensures Without(Without(cs, StalePrefix(names, i)), {names[i]}) == Without(cs, StalePrefix(names, i + 1))
  {
    WithoutTwice(cs, StalePrefix(names, i), {names[i]});
  }

  lemma StalePrefixOfAllNames(cs: seq<NamedCache>)
    ensures StalePrefix(NamesOf(cs), |cs|) == StaleNames(cs)
  {
    StalePrefixOfNames(cs, |cs|);
    assert cs[..|cs|] == cs;
  }

  lemma {:induction false} StalePrefixOfNames(cs: seq<NamedCache>, n: nat)
    requires n <= |cs|
    ensures StalePrefix(NamesOf(cs), n) == StaleNames(cs[..n])
  {
    if n > 0 {
      StalePrefixOfNames(cs, n - 1);
      assert cs[..n] == cs[..n - 1] + [cs[n - 1]];
      var a := StaleNames(cs[..n - 1]);
      var b := StaleNames(cs[..n]);
      var extra: set<string> := if cs[n - 1].name != CacheName then {cs[n - 1].name} else {};
      assert b == a + extra by {
        forall x | x in b ensures x in a + extra {
          var i :| 0 <= i < n && cs[..n][i].name != CacheName && cs[..n][i].name == x;
          if i < n - 1 { assert cs[..n - 1][i] == cs[i]; }
        }
        forall x | x in a ensures x in b {
          var i :| 0 <= i < n - 1 && cs[..n - 1][i].name != CacheName && cs[..n - 1][i].name == x;
          assert cs[..n][i] == cs[i];
        }
        if cs[n - 1].name != CacheName {
          assert cs[..n][n - 1] == cs[n - 1];
        }
      }
    } else {
      assert StaleNames(cs[..0]) == {};
    }
  }

  // -------------------------------------------------------------------------
  // install

  /** A response `addAll` accepts: an ok status (200 to 299) other than 206. */
  predicate Storable(r: Response)
  {
    200 <= r.status <= 299 && r.status != 206
  }

  /** Every URL was fetched (the network map has it) with a storable response. */
  predicate AllFetched(urls: seq<string>, network: map<string, Response>)
  {
    forall j :: 0 <= j < |urls| ==> urls[j] in network && Storable(network[urls[j]])
  }

  /** `cache.addAll(urls)` on the existing entries: all or nothing. */
  function AddAll(entries: map<string, Response>, urls: seq<string>, network: map<string, Response>): (r: map<string, Response>)
    requires AllFetched(urls, network)
    ensures forall j :: 0 <= j < |urls| ==> urls[j] in r && r[urls[j]] == network[urls[j]]
    ensures forall u :: u in r <==> u in entries || u in urls
    ensures forall u :: u in entries && u !in urls ==> r[u] == entries[u]
  {
    map u | u in entries.Keys + (set j | 0 <= j < |urls| :: urls[j]) ::
      if u in urls then network[u] else entries[u]
  }

  /** The install event: open the current cache, then add the six URLs;
      when a fetch fails the cache is left created but unfilled. */
  datatype Installed = Installed(ok: bool, caches: seq<NamedCache>)

  function InstallEffect(cs: seq<NamedCache>, network: map<string, Response>): (r: Installed)
    ensures r.ok <==> AllFetched(UrlsToCache, network)
    ensures HasCache(r.caches, CacheName)
    ensures DistinctNames(cs) ==> DistinctNames(r.caches)
    ensures !r.ok ==> r.caches == Open(cs, CacheName)
    ensures r.ok ==> forall j :: 0 <= j < |UrlsToCache| ==>
              UrlsToCache[j] in EntriesOf(r.caches, CacheName) &&
              EntriesOf(r.caches, CacheName)[UrlsToCache[j]] == network[UrlsToCache[j]]
    // the other caches are untouched
    ensures forall c :: c in cs && c.name != CacheName ==> c in r.caches
  {
    var current := Open(cs, CacheName);
    if AllFetched(UrlsToCache, network) then
      var filled := Replace(current, CacheName, AddAll(EntriesOf(current, CacheName), UrlsToCache, network));
      assert forall c :: c in current && c.name != CacheName ==> c in filled by {
        forall c | c in current && c.name != CacheName ensures c in filled {
          var i :| 0 <= i < |current| && current[i] == c;
          assert filled[i] == c;
        }
      }
      Installed(true, filled)
    else Installed(false, current)
  }

  // -------------------------------------------------------------------------
  // fetch

  /** `caches.match(request)`: the first cache, in order, holding the URL;
      only GET requests match. */
  function MatchAll(cs: seq<NamedCache>, req: Request): (r: Option<Response>)
    ensures r.Some? <==> req.verb == "GET" && exists i :: 0 <= i < |cs| && req.url in cs[i].entries
    ensures r.Some? ==> exists i :: 0 <= i < |cs| && req.url in cs[i].entries && cs[i].entries[req.url] == r.value &&
                                   forall j :: 0 <= j < i ==> req.url !in cs[j].entries
  {
    if req.verb != "GET" || cs == [] then None
    else if req.url in cs[0].entries then Some(cs[0].entries[req.url])
    else
      var r := MatchAll(cs[1..], req);
      assert r.Some? ==> exists i :: 0 <= i < |cs| && req.url in cs[i].entries && cs[i].entries[req.url] == r.value &&
                                   forall j :: 0 <= j < i ==> req.url !in cs[j].entries by {
        if r.Some? {
          var i :| 0 <= i < |cs[1..]| && req.url in cs[1..][i].entries && cs[1..][i].entries[req.url] == r.value &&
                   forall j :: 0 <= j < i ==> req.url !in cs[1..][j].entries;
          assert forall j :: 0 <= j < i + 1 ==> req.url !in cs[j].entries by {
            forall j | 0 <= j < i + 1 ensures req.url !in cs[j].entries {
              if j > 0 { assert cs[j] == cs[1..][j - 1]; }
            }
          }
        }
      }
      assert (exists i :: 0 <= i < |cs| && req.url in cs[i].entries) ==> exists i :: 0 <= i < |cs[1..]| && req.url in cs[1..][i].entries by {
        if exists i :: 0 <= i < |cs| && req.url in cs[i].entries {
          var i :| 0 <= i < |cs| && req.url in cs[i].entries;
          assert cs[1..][i - 1] == cs[i];
        }
      }
      r
  }

  datatype FetchResult = FromCache(response: Response) | FromNetwork(response: Response) | NetworkError

  /** The fetch handler: the cached response when there is one, otherwise
      the network's (`network` is None when the network request fails). */
  function Fetch(cs: seq<NamedCache>, req: Request, network: Option<Response>): (f: FetchResult)
    ensures f.FromCache? <==> MatchAll(cs, req).Some?
    ensures f.FromCache? ==> exists i :: 0 <= i < |cs| && req.url in cs[i].entries && cs[i].entries[req.url] == f.response
    ensures f.FromNetwork? ==> network == Some(f.response)
    ensures f.NetworkError? <==> MatchAll(cs, req).None? && network.None?
  {
    match MatchAll(cs, req)
    case Some(r) => FromCache(r)
    case None => if network.Some? then FromNetwork(network.value) else NetworkError
  }

  /** After a complete install and an activation, every precached URL is
      served from the current cache with the response fetched at install. */
  lemma InstalledThenActivatedServesPrecache(cs: seq<NamedCache>, network: map<string, Response>, j: nat, online: Option<Response>)
    requires DistinctNames(cs)
    requires AllFetched(UrlsToCache, network)
    requires j < |UrlsToCache|
    ensures var installed := InstallEffect(cs, network).caches;
            var active := Without(installed, StaleNames(installed));
            Fetch(active, Request("GET", UrlsToCache[j]), online) == FromCache(network[UrlsToCache[j]])
  {
    var installed := InstallEffect(cs, network).caches;
    var k := IndexOf(installed, CacheName);
    assert forall i :: 0 <= i < |installed| && i != k ==> installed[i].name in StaleNames(installed);
    WithoutAllBut(installed, StaleNames(installed), k);
    var active := Without(installed, StaleNames(installed));
    assert active == [installed[k]];
  }

  // -------------------------------------------------------------------------
  // push and notification click

  /** JavaScript's `value || fallback` on an optional string. */
  function OrDefault(v: Option<string>, fallback: string): (r: string)
    ensures v.Some? && v.value != "" ==> r == v.value
    ensures v.None? || v.value == "" ==> r == fallback
  {
    if v.Some? && v.value != "" then v.value else fallback
  }

  datatype PushPayload = PushPayload(title: Option<string>, body: Option<string>, icon: Option<string>,
                                     url: Option<string>, id: Option<string>)

  /** `event.data`: absent, not valid JSON (so `json()` throws), or a payload. */
  datatype PushData = NoData | Malformed | Payload(payload: PushPayload)

  datatype NotificationAction = NotificationAction(action: string, title: string, icon: Option<string>)

  datatype ShownNotification = ShownNotification(
    title: string, body: string, icon: string, badge: string, vibrate: seq<int>,
    dateOfArrival: int, primaryKey: string, url: string, actions: seq<NotificationAction>)

  const DefaultTitle: string := "Drone Control Station"
  const DefaultBody: string := "Drone telemetry update"
  const AppIcon: string := "/icon-192x192.png"

  /** The push handler: nothing is shown without data (or when the data does
      not parse); missing or empty fields take the defaults. */
  function Push(data: PushData, now: int): (n: Option<ShownNotification>)
    ensures n.Some? <==> data.Payload?
    ensures n.Some? ==> n.value.title == OrDefault(data.payload.title, DefaultTitle)
    ensures n.Some? ==> n.value.body == OrDefault(data.payload.body, DefaultBody)
    ensures n.Some? ==> n.value.url == OrDefault(data.payload.url, "/")
    ensures n.Some? ==> n.value.title != "" && n.value.body != "" && n.value.url != ""
    ensures n.Some? ==> |n.value.actions| == 2 && [n.value.actions[0].action, n.value.actions[1].action] == ["view", "dismiss"]
  {
    match data
    case Payload(p) =>
      Some(ShownNotification(
        OrDefault(p.title, DefaultTitle), OrDefault(p.body, DefaultBody), OrDefault(p.icon, AppIcon),
        AppIcon, [100, 50, 100], now, OrDefault(p.id, "1"), OrDefault(p.url, "/"),
        [NotificationAction("view", "View Details", Some(AppIcon)), NotificationAction("dismiss", "Dismiss", None)]))
    case _ => None
  }

  /** A click always closes the notification; it may open a window. */
  datatype ClickOutcome = ClickOutcome(closed: bool, window: Option<string>)

  function NotificationClick(action: string, dataUrl: Option<string>): (o: ClickOutcome)
    ensures o.closed
    ensures action == "view" ==> o.window == Some(OrDefault(dataUrl, "/"))
    ensures action == "dismiss" ==> o.window.None?
    ensures action != "view" && action != "dismiss" ==> o.window == Some("/")
    ensures o.window.Some? ==> o.window.value != ""
  {
    if action == "view" then ClickOutcome(true, Some(OrDefault(dataUrl, "/")))
    else if action == "dismiss" then ClickOutcome(true, None)
    else ClickOutcome(true, Some("/"))
  }

  // -------------------------------------------------------------------------
  // background sync

  /** How the POST of the offline data ends: `fetch` resolves with any
      status, and rejects only on a network failure. */
  datatype PostOutcome = Resolved(status: int) | Rejected

  datatype SyncReport = NotTriggered | NoOfflineData | ReadFailed | PostFailed | Synced

  datatype Synced = SyncResult(report: SyncReport, posted: bool, caches: seq<NamedCache>)

  /** `syncDroneData`: the current cache is opened (and so created), the
      offline entry is read, POSTed, and deleted once the POST resolved. */
  function SyncEffect(cs: seq<NamedCache>, parses: bool, post: PostOutcome): (r: Synced)
    ensures HasCache(r.caches, CacheName)
    ensures DistinctNames(cs) ==> DistinctNames(r.caches)
    // no entry, no POST
    ensures OfflineDataUrl !in EntriesOf(Open(cs, CacheName), CacheName) ==>
              !r.posted && r.report == NoOfflineData && r.caches == Open(cs, CacheName)
    // the entry is deleted only after a POST that resolved
    ensures r.report == Synced <==> r.posted && post.Resolved?
    ensures r.report == Synced ==>
              EntriesOf(r.caches, CacheName) == EntriesOf(Open(cs, CacheName), CacheName) - {OfflineDataUrl}
    // a failure leaves everything as opened
    ensures r.report != Synced ==> r.caches == Open(cs, CacheName)
    ensures r.posted <==> OfflineDataUrl in EntriesOf(Open(cs, CacheName), CacheName) && parses
  {
    var current := Open(cs, CacheName);
    var entries := EntriesOf(current, CacheName);
    if OfflineDataUrl !in entries then SyncResult(NoOfflineData, false, current)
    else if !parses then SyncResult(ReadFailed, false, current)
    else if post.Rejected? then SyncResult(PostFailed, true, current)
    else
      var r := Replace(current, CacheName, entries - {OfflineDataUrl});
      assert IndexOf(r, CacheName) == IndexOf(current, CacheName);
      SyncResult(Synced, true, r)
  }

  /** The worker with the Cache Storage it owns. */
  class Worker {
    var caches: seq<NamedCache>

    ghost predicate Valid()
      reads this
    {
      DistinctNames(caches)
    }

    constructor (existing: seq<NamedCache>)
      requires DistinctNames(existing)
      ensures Valid() && caches == existing
    {
      caches := existing;
    }

    /** The install event. */
    method OnInstall(network: map<string, Response>) returns (ok: bool)
      requires Valid()
      modifies this
      ensures Valid()
      ensures ok == InstallEffect(old(caches), network).ok
      ensures caches == InstallEffect(old(caches), network).caches
    {
      caches := Open(caches, CacheName);
      if !AllFetched(UrlsToCache, network) {
        return false;
      }
      caches := Replace(caches, CacheName, AddAll(EntriesOf(caches, CacheName), UrlsToCache, network));
      ok := true;
    }

    /** The activate event: every cache listed by `caches.keys()` whose name
        is not the current one is deleted. */
    method OnActivate()
      requires Valid()
      modifies this
      ensures Valid()
      ensures caches == Without(old(caches), StaleNames(old(caches)))
      ensures forall c :: c in caches <==> c in old(caches) && c.name == CacheName
    {
      var before := caches;
      var names := NamesOf(before);
      var remaining := before;
      WithoutNothing(before);
      var i := 0;
      while i < |names|
        invariant 0 <= i <= |names|
        invariant remaining == Without(before, StalePrefix(names, i))
      {
        if names[i] != CacheName {
          DeleteStep(before, names, i);
          remaining := Without(remaining, {names[i]});
        } else {
          assert StalePrefix(names, i + 1) == StalePrefix(names, i);
        }
        i := i + 1;
      }
      StalePrefixOfAllNames(before);
      caches := remaining;
    }

    /** The fetch event. */
    method OnFetch(req: Request, network: Option<Response>) returns (f: FetchResult)
      ensures f == Fetch(caches, req, network)
    {
      f := Fetch(caches, req, network);
    }

    /** The sync event: only the drone-data tag runs `syncDroneData`. */
    method OnSync(tag: string, parses: bool, post: PostOutcome) returns (report: SyncReport)
      requires Valid()
      modifies this
      ensures Valid()
      ensures tag != SyncTag ==> report == NotTriggered && caches == old(caches)
      ensures tag == SyncTag ==> report == SyncEffect(old(caches), parses, post).report &&
                                 caches == SyncEffect(old(caches), parses, post).caches
    {
      if tag != SyncTag {
        return NotTriggered;
      }
      var r := SyncEffect(caches, parses, post);
      caches := r.caches;
      report := r.report;
    }
  }
}
