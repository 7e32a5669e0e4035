/** NetBox's paginated list endpoints and the loop that follows their "next" links
    (internal/netbox/client.go:518-539). */
module Paging {
  import opened Wrappers

  /** A NetBox installation: the path its base URL carries, how many rows it returns from an offset, and
      which offsets it answers at all. */
  datatype Site = Site(basePath: string, width: nat -> nat, up: nat -> bool)

  /** Every page makes progress, so the next links advance. */
  ghost predicate Advances(site: Site) {
    forall offset: nat :: site.width(offset) > 0
  }

  datatype Request = Request(path: string, offset: nat)

  datatype Page<T> = Page(results: seq<T>, next: Option<Request>)

  /** What the server answers. The client prefixes every path with the base URL, so a list that lives at
      `path` under the base is served exactly for that path; a next link is absolute and already carries
      the base path. */
  function Answer<T>(site: Site, path: string, table: seq<T>, req: Request): Result<Page<T>> {
    if req.path != path || !site.up(req.offset) || req.offset > |table| then Err
    else
      var end := req.offset + site.width(req.offset);
      if end < |table| then Ok(Page(table[req.offset..end], Some(Request(site.basePath + path, end))))
      else Ok(Page(table[req.offset..], None))
  }

  /** Every page from `offset` on is answered. */
  ghost predicate PagesUp(site: Site, rows: nat, offset: nat)
    requires Advances(site)
    decreases rows - offset
  {
    && site.up(offset)
    && (offset + site.width(offset) < rows ==> PagesUp(site, rows, offset + site.width(offset)))
  }

  /** The whole list can be read: all pages answer, and it has a second page only if the base URL has no path. */
  ghost predicate Readable(site: Site, rows: nat)
    requires Advances(site)
  {
    && PagesUp(site, rows, 0)
    && (site.basePath == "" || rows <= site.width(0))
  }

  /** Follow the next links until there is none. The result is the whole table, in order and exactly once,
      or an error; it is an error exactly when the list is not readable. */
  method ListAll<T>(site: Site, path: string, table: seq<T>) returns (r: Result<seq<T>>)
    requires Advances(site)
    ensures r == if Readable(site, |table|) then Ok(table) else Err
  {
    var all: seq<T> := [];
    var req := Request(path, 0);
    while true
      invariant req.offset <= |table| && all == table[..req.offset]
      invariant req.path == if req.offset == 0 then path else site.basePath + path
      invariant req.offset > 0 ==> site.up(0) && site.width(0) < |table|
      invariant PagesUp(site, |table|, 0) <==> PagesUp(site, |table|, req.offset)
      decreases |table| - req.offset
    {
      var answer := Answer(site, path, table, req);
      if answer.Err? {
        if req.offset > 0 && site.up(req.offset) {
          assert |site.basePath + path| == |site.basePath| + |path|;
        }
        return Err;
      }
      var page := answer.value;
      all := all + page.results;
      if page.next.None? {
        assert req.offset > 0 ==> |site.basePath + path| == |site.basePath| + |path|;
        assert all == table;
        return Ok(all);
      }
      req := page.next.value;
    }
  }

  /** The first row of a table that a lookup accepts, as the find loops read it. */
  function FirstMatch<T>(table: seq<T>, accept: T -> bool): (r: Option<nat>)
    ensures r.Some? ==>
      r.value < |table| && accept(table[r.value]) && forall j :: 0 <= j < r.value ==> !accept(table[j])
    ensures r.None? ==> forall j :: 0 <= j < |table| ==> !accept(table[j])
  {
    if table == [] then None
    else if accept(table[0]) then Some(0)
    else
      match FirstMatch(table[1..], accept)
      case None =>
        assert forall j :: 1 <= j < |table| ==> table[j] == table[1..][j - 1];
        None
      case Some(i) =>
        assert forall j :: 1 <= j < |table| ==> table[j] == table[1..][j - 1];
        Some(i + 1)
  }
}
