/** `fetch_all_berries_concurrently`: walk the paginated berry listing from
    `{poke_api_url}/berry` along each page's `next` cursor, collect every
    page's `results`, then hand the `url` of every descriptor to a fresh
    thread-pool manager. */
module ApiClient {
  import opened Values
  import opened Network
  import opened ThreadPool

  /** The first listing request. */
  function BerryUrl(pokeApiUrl: string): (u: string)
    ensures u == pokeApiUrl + "/berry" && u != ""
  {
    pokeApiUrl + "/berry"
  }

  /** One decoded listing page: `data["results"]` and `data["next"]`. */
  datatype Page = Page(results: seq<Json>, next: Json)

  /** Reading `data["results"]` and `data["next"]` from a decoded body;
      anything else raises a KeyError or TypeError. */
  function DecodePage(body: Json): (r: Outcome<Page>)
    ensures r.Ok? <==> body.JObj? && "results" in body.fields && body.fields["results"].JArr? && "next" in body.fields
    ensures r.Ok? ==> r.value.results == body.fields["results"].items && r.value.next == body.fields["next"]
    ensures r.Raised? ==> r.error == LookupError
  {
    if body.JObj? && "results" in body.fields && body.fields["results"].JArr? && "next" in body.fields then
      Ok(Page(body.fields["results"].items, body.fields["next"]))
    else
      Raised(LookupError)
  }

  /** GET one listing page, raise for a bad status, decode it, read its fields. */
  function FetchPage(web: Web, url: string): (r: Outcome<Page>)
    ensures Get(web, url).Raised? ==> r == Raised(Get(web, url).error)
    ensures Get(web, url).Ok? ==> r == DecodePage(Get(web, url).value)
  {
    match Get(web, url)
    case Raised(e) => Raised(e)
    case Ok(body) => DecodePage(body)
  }

  /** Where the walk over the listing ends: every listing URL requested, and
      either the accumulated descriptors or the exception that stopped it.
      `OutOfFuel` marks a chain longer than the bound being explored. */
  datatype Listing =
    | Done(visited: seq<string>, items: seq<Json>)
    | Failed(visited: seq<string>, error: Error)
    | OutOfFuel

  /** A walk that first requested `visited`, collecting `items`, then went on as `rest`. */
  function Append(visited: seq<string>, items: seq<Json>, rest: Listing): (l: Listing)
    ensures rest.OutOfFuel? <==> l.OutOfFuel?
  {
    match rest
    case Done(v, more) => Done(visited + v, items + more)
    case Failed(v, e) => Failed(visited + v, e)
    case OutOfFuel => OutOfFuel
  }

  lemma AppendAppend(v1: seq<string>, i1: seq<Json>, v2: seq<string>, i2: seq<Json>, rest: Listing)
    ensures Append(v1, i1, Append(v2, i2, rest)) == Append(v1 + v2, i1 + i2, rest)
  {
    match rest
    case Done(v, more) =>
      assert v1 + (v2 + v) == v1 + v2 + v;
      assert i1 + (i2 + more) == i1 + i2 + more;
    case Failed(v, e) =>
      assert v1 + (v2 + v) == v1 + v2 + v;
    case OutOfFuel =>
  }

  /** The `while data["next"]` loop from the cursor `next`, for at most
      `fuel` more pages: stop at a falsy cursor, fail on a cursor `get`
      cannot use, otherwise request it and go on from its page's cursor. */
  function Follow(web: Web, next: Json, fuel: nat): (l: Listing)
    ensures !Truthy(next) ==> l == Done([], [])
    ensures !l.OutOfFuel? ==> |l.visited| <= fuel
    ensures l.Failed? ==> IsRequestException(l.error) || l.error == LookupError
    decreases fuel
  {
    if !Truthy(next) then Done([], [])
    else if !next.JStr? then Failed([], InvalidUrl)
    else if fuel == 0 then OutOfFuel
    else
      match FetchPage(web, next.s)
      case Raised(e) => Failed([next.s], e)
      case Ok(page) => Append([next.s], page.results, Follow(web, page.next, fuel - 1))
  }

  /** One request of the walk from a URL cursor. */
  lemma FollowStep(web: Web, url: string, fuel: nat)
    requires url != "" && fuel > 0
    ensures FetchPage(web, url).Raised? ==> Follow(web, JStr(url), fuel) == Failed([url], FetchPage(web, url).error)
    ensures FetchPage(web, url).Ok? ==>
              Follow(web, JStr(url), fuel) ==
              Append([url], FetchPage(web, url).value.results, Follow(web, FetchPage(web, url).value.next, fuel - 1))
  {
  }

  /** The whole listing phase, from the first request on. */
  function ListBerries(web: Web, pokeApiUrl: string, fuel: nat): (l: Listing)
    ensures !l.OutOfFuel? ==> l.visited != [] && l.visited[0] == pokeApiUrl + "/berry"
  {
    Follow(web, JStr(BerryUrl(pokeApiUrl)), fuel)
  }

  /** The cursor reached after requesting `visited` from `cursor`, when each
      URL is the current cursor and each of their pages is read without an
      exception; `None` when `visited` is not such a walk. */
  function CursorAfter(web: Web, cursor: Json, visited: seq<string>): Option<Json>
    decreases |visited|
  {
    if visited == [] then Some(cursor)
    else if Truthy(cursor) && cursor == JStr(visited[0]) && FetchPage(web, visited[0]).Ok? then
      CursorAfter(web, FetchPage(web, visited[0]).value.next, visited[1..])
    else None
  }

  /** The `results` of the pages at `visited`, concatenated in visit order. */
  function ItemsOf(web: Web, visited: seq<string>): seq<Json>
    decreases |visited|
  {
    if visited == [] then []
    else
      (match FetchPage(web, visited[0])
       case Ok(page) => page.results
       case Raised(_) => []) + ItemsOf(web, visited[1..])
  }

  /** `visited` is a complete chain from `cursor`: it ends on a falsy `next`. */
  predicate IsChain(web: Web, cursor: Json, visited: seq<string>)
  {
    CursorAfter(web, cursor, visited).Some? && !Truthy(CursorAfter(web, cursor, visited).value)
  }

  /** A walk along a chain: the first request is the cursor, and every later
      request is exactly the `next` of the page before it. */
  lemma {:induction false} CursorAfterLinks(web: Web, cursor: Json, visited: seq<string>)
    requires CursorAfter(web, cursor, visited).Some? && visited != []
    ensures cursor == JStr(visited[0])
    ensures forall i :: 0 <= i < |visited| ==> FetchPage(web, visited[i]).Ok? && visited[i] != ""
    ensures forall i :: 0 <= i < |visited| - 1 ==> FetchPage(web, visited[i]).value.next == JStr(visited[i + 1])
    ensures CursorAfter(web, cursor, visited).value == FetchPage(web, visited[|visited| - 1]).value.next
    decreases |visited|
  {
    var next := FetchPage(web, visited[0]).value.next;
    if |visited| > 1 {
      CursorAfterLinks(web, next, visited[1..]);
      assert forall i :: 1 <= i < |visited| ==> visited[i] == visited[1..][i - 1];
    }
  }

  /** A walk that ends normally visited a complete chain and collected the
      concatenation of its pages' results, duplicates included. */
  lemma {:induction false} DoneWalkIsChain(web: Web, cursor: Json, fuel: nat)
    requires Follow(web, cursor, fuel).Done?
    ensures IsChain(web, cursor, Follow(web, cursor, fuel).visited)
    ensures Follow(web, cursor, fuel).items == ItemsOf(web, Follow(web, cursor, fuel).visited)
    decreases fuel
  {
    if Truthy(cursor) {
      var url := cursor.s;
      var page := FetchPage(web, url).value;
      DoneWalkIsChain(web, page.next, fuel - 1);
      var rest := Follow(web, page.next, fuel - 1);
      assert Follow(web, cursor, fuel).visited == [url] + rest.visited;
      assert ([url] + rest.visited)[1..] == rest.visited;
    }
  }

  /** Conversely, a complete chain of k pages is walked with exactly k
      listing requests, given a bound of at least k. */
  lemma {:induction false} ChainIsWalked(web: Web, cursor: Json, visited: seq<string>, fuel: nat)
    requires IsChain(web, cursor, visited) && fuel >= |visited|
    ensures Follow(web, cursor, fuel) == Done(visited, ItemsOf(web, visited))
    decreases |visited|
  {
    if visited != [] {
      var page := FetchPage(web, visited[0]).value;
      ChainIsWalked(web, page.next, visited[1..], fuel - 1);
      assert [visited[0]] + visited[1..] == visited;
    }
  }

  /** A walk that fails stopped at its last request, whose page raised the
      error, or at a truthy cursor that is not a string. */
  lemma {:induction false} FailedWalkStopsAtFault(web: Web, cursor: Json, fuel: nat)
    requires Follow(web, cursor, fuel).Failed?
    ensures var l := Follow(web, cursor, fuel);
            || (l.visited != [] &&
                CursorAfter(web, cursor, l.visited[..|l.visited| - 1]) == Some(JStr(l.visited[|l.visited| - 1])) &&
                FetchPage(web, l.visited[|l.visited| - 1]) == Raised(l.error))
            || (CursorAfter(web, cursor, l.visited).Some? &&
                Truthy(CursorAfter(web, cursor, l.visited).value) &&
                !CursorAfter(web, cursor, l.visited).value.JStr? && l.error == InvalidUrl)
    decreases fuel
  {
    var l := Follow(web, cursor, fuel);
    if Truthy(cursor) && cursor.JStr? {
      var url := cursor.s;
      if FetchPage(web, url).Ok? {
        var page := FetchPage(web, url).value;
        FailedWalkStopsAtFault(web, page.next, fuel - 1);
        var rest := Follow(web, page.next, fuel - 1);
        assert l.visited == [url] + rest.visited;
        assert l.visited[1..] == rest.visited;
        if rest.visited != [] {
          assert l.visited[..|l.visited| - 1][1..] == rest.visited[..|rest.visited| - 1];
        }
      } else {
        assert l.visited[..0] == [];
      }
    }
  }

  /** Conversely, a walk that reaches a URL whose page raises fails there
      with that error, having requested the URLs before it and that URL. */
  lemma {:induction false} FaultIsReached(web: Web, cursor: Json, visited: seq<string>, url: string, e: Error, fuel: nat)
    requires CursorAfter(web, cursor, visited) == Some(JStr(url)) && url != ""
    requires FetchPage(web, url) == Raised(e)
    requires fuel > |visited|
    ensures Follow(web, cursor, fuel) == Failed(visited + [url], e)
    decreases |visited|
  {
    if visited != [] {
      var page := FetchPage(web, visited[0]).value;
      FaultIsReached(web, page.next, visited[1..], url, e, fuel - 1);
      assert [visited[0]] + (visited[1..] + [url]) == visited + [url];
    }
  }

  /** Two listing pages, the first pointing at the second and the second
      ending the chain: two requests, and the items of both pages in order. */
  lemma TwoPageListing(d1: Json, d2: Json, d3: Json)
    ensures var web := map[
              "api/berry" := Response(200, Some(JObj(map["results" := JArr([d1, d2]), "next" := JStr("api/berry?offset=2")]))),
              "api/berry?offset=2" := Response(200, Some(JObj(map["results" := JArr([d3]), "next" := JNull])))];
            ListBerries(web, "api", 2) == Done(["api/berry", "api/berry?offset=2"], [d1, d2, d3])
  {
    var web := map[
      "api/berry" := Response(200, Some(JObj(map["results" := JArr([d1, d2]), "next" := JStr("api/berry?offset=2")]))),
      "api/berry?offset=2" := Response(200, Some(JObj(map["results" := JArr([d3]), "next" := JNull])))];
    assert BerryUrl("api") == "api/berry";
    assert FetchPage(web, "api/berry") == Ok(Page([d1, d2], JStr("api/berry?offset=2")));
    assert FetchPage(web, "api/berry?offset=2") == Ok(Page([d3], JNull));
    assert Follow(web, JStr("api/berry?offset=2"), 1) == Done(["api/berry?offset=2"], [d3]);
  }

  predicate HasUrl(descriptor: Json)
  {
    descriptor.JObj? && "url" in descriptor.fields
  }

  /** `[url_result["url"] for url_result in url_results]`: the `url` field
      of every descriptor, in order, or the KeyError / TypeError of the
      first descriptor that has none. */
  function DetailUrls(descriptors: seq<Json>): (r: Outcome<seq<Json>>)
    ensures r.Ok? <==> forall i :: 0 <= i < |descriptors| ==> HasUrl(descriptors[i])
    ensures r.Ok? ==> |r.value| == |descriptors|
    ensures r.Ok? ==> forall i :: 0 <= i < |descriptors| ==> r.value[i] == descriptors[i].fields["url"]
    ensures r.Raised? ==> r.error == LookupError
  {
    if descriptors == [] then Ok([])
    else if !HasUrl(descriptors[0]) then Raised(LookupError)
    else
      match DetailUrls(descriptors[1..])
      case Raised(e) => Raised(e)
      case Ok(rest) => Ok([descriptors[0].fields["url"]] + rest)
  }

  /** What the network and the pool observe of one call: the listing URLs
      requested in order, the detail URLs submitted to the pool, and whether
      the pool was shut down. */
  datatype Trace = Trace(listingRequests: seq<string>, jobsSubmitted: seq<Json>, poolShutDown: bool)

  /** The listing loop of `fetch_all_berries_concurrently`: request the
      first page, then follow `next` while it is truthy, collecting every
      page's `results`. `pageBound` is a ghost bound on the length of the
      page chain; one exists exactly when the chain is finite, the only case
      in which the loop terminates. */
  method ListPages(web: Web, pokeApiUrl: string, ghost pageBound: nat)
    returns (r: Outcome<seq<Json>>, requested: seq<string>)
    requires !ListBerries(web, pokeApiUrl, pageBound).OutOfFuel?
    ensures requested == ListBerries(web, pokeApiUrl, pageBound).visited
    ensures r.Raised? <==> ListBerries(web, pokeApiUrl, pageBound).Failed?
    ensures r.Raised? ==> r.error == ListBerries(web, pokeApiUrl, pageBound).error
    ensures r.Ok? ==> r.value == ListBerries(web, pokeApiUrl, pageBound).items
  {
    ghost var listing := ListBerries(web, pokeApiUrl, pageBound);
    var first := BerryUrl(pokeApiUrl);
    requested := [first];
    var response := FetchPage(web, first);
    if response.Raised? {
      return Raised(response.error), requested;
    }
    var data := response.value;
    var urlResults := data.results;
    ghost var fuel: nat := pageBound - 1;
    while Truthy(data.next)
      invariant Append(requested, urlResults, Follow(web, data.next, fuel)) == listing
      decreases fuel
    {
      if !data.next.JStr? {
        return Raised(InvalidUrl), requested;
      }
      var url := data.next.s;
      FollowStep(web, url, fuel);
      response := FetchPage(web, url);
      if response.Raised? {
        return Raised(response.error), requested + [url];
      }
      ghost var later := Follow(web, response.value.next, fuel - 1);
      AppendAppend(requested, urlResults, [url], response.value.results, later);
      data := response.value;
      requested := requested + [url];
      urlResults := urlResults + data.results;
      fuel := fuel - 1;
    }
    assert listing == Done(requested, urlResults) by {
      assert requested + [] == requested && urlResults + [] == urlResults;
    }
    r := Ok(urlResults);
  }

  /** `fetch_all_berries_concurrently`: build the pool manager, list the
      berries, extract their detail URLs and fetch them through the pool.
      `pageBound` is as for `ListPages`. */
  method FetchAllBerriesConcurrently(pokeApiUrl: string, web: Web, picks: seq<nat>, shutdownFault: bool, ghost pageBound: nat)
    returns (r: Outcome<seq<Json>>, trace: Trace)
    requires !ListBerries(web, pokeApiUrl, pageBound).OutOfFuel?
    ensures trace.listingRequests == ListBerries(web, pokeApiUrl, pageBound).visited
    ensures ListBerries(web, pokeApiUrl, pageBound).Failed? ==>
              r == Raised(ListBerries(web, pokeApiUrl, pageBound).error) &&
              trace.jobsSubmitted == [] && !trace.poolShutDown
    ensures ListBerries(web, pokeApiUrl, pageBound).Done? &&
            DetailUrls(ListBerries(web, pokeApiUrl, pageBound).items).Raised? ==>
              r == Raised(LookupError) && trace.jobsSubmitted == [] && !trace.poolShutDown
    ensures ListBerries(web, pokeApiUrl, pageBound).Done? &&
            DetailUrls(ListBerries(web, pokeApiUrl, pageBound).items).Ok? ==>
              var urls := DetailUrls(ListBerries(web, pokeApiUrl, pageBound).items).value;
              r == Ok(PoolResult(web, Handles(0, urls), picks)) &&
              trace.jobsSubmitted == urls && trace.poolShutDown
  {
    var manager := new ThreadPoolManager(10);
    var listed, requested := ListPages(web, pokeApiUrl, pageBound);
    if listed.Raised? {
      return Raised(listed.error), Trace(requested, [], false);
    }
    var urls := DetailUrls(listed.value);
    if urls.Raised? {
      return Raised(urls.error), Trace(requested, [], false);
    }
    r := manager.FetchAllConcurrently(urls.value, web, picks, shutdownFault);
    trace := Trace(requested, manager.executor.submitted, manager.executor.shutDown);
  }
}
