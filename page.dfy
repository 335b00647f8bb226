/**
 * The search page's component state and the handlers that change it: the
 * criteria, the two region lists, the results and the loading flag.  Network
 * replies are parameters: `Failed` stands for a request, or the decoding of
 * its reply, that throws; `Body(data)` for a decoded reply whose `data`
 * field may be absent.
 */
module Page {
  import opened Options
  import Filters
  import Query
  import Listings

  /** A province or regency option: its code and its display name. */
  datatype Region = Region(code: string, name: string)

  /** The outcome of one request to a data service; a reply's list is `data.GetOr([])` (`data.data || []`). */
  datatype Reply<T> = Failed | Body(data: Option<T>)

  class SearchPage {
    var filters: Filters.Filters
    var provinsiList: seq<Region>
    var kabupatenList: seq<Region>
    var results: seq<Listings.DisplayListing>
    var loading: bool

    /**
     * Between events: no regencies are listed while no province is chosen,
     * and a regency is chosen only together with a province.
     */
    predicate Valid()
      reads this
      // A convenience for callers; the invariant's worth is that the constructor
      // establishes it and the event and search methods preserve it.
      ensures Valid() && kabupatenList != [] ==> filters.kodeProvinsi != ""
    {
      && (filters.kodeProvinsi == "" ==> kabupatenList == [])
      && Filters.RegionConsistent(filters)
    }

    /** The first render: initial criteria, empty lists, not loading. */
    constructor ()
      ensures Valid()
      ensures filters == Filters.Initial
      ensures provinsiList == [] && kabupatenList == [] && results == [] && !loading
    {
      filters := Filters.Initial;
      provinsiList := [];
      kabupatenList := [];
      results := [];
      loading := false;
    }

    /** The mount effect: the province list is replaced on success and kept on failure. */
    method FetchProvinces(reply: Reply<seq<Region>>)
      requires Valid()
      modifies this
      ensures Valid()
      ensures provinsiList == if reply.Body? then reply.data.GetOr([]) else old(provinsiList)
      ensures filters == old(filters) && kabupatenList == old(kabupatenList)
      ensures results == old(results) && loading == old(loading)
    {
      if reply.Body? {
        provinsiList := reply.data.GetOr([]);
      }
    }

    /**
     * `handleChange`: one input event, both queued updates applied.  It is a
     * step of `Change` only: on its own it may leave a stale regency list
     * behind a cleared province, which `Valid` forbids.
     */
    method HandleChange(n: Filters.Field, value: string)
      modifies this
      ensures filters == Filters.HandleChange(old(filters), n, value)
      ensures provinsiList == old(provinsiList) && kabupatenList == old(kabupatenList)
      ensures results == old(results) && loading == old(loading)
    {
      filters := Filters.HandleChange(filters, n, value);
    }

    /**
     * The effect run when the province changes: no province empties the
     * regency list without a request; otherwise the reply's list replaces it,
     * and a failed request leaves it as it was.  It is a step of `Change`
     * only, run after `HandleChange` when the province has changed.
     */
    method FetchKabupaten(reply: Reply<seq<Region>>)
      modifies this
      ensures filters.kodeProvinsi == "" ==> kabupatenList == []
      ensures kabupatenList ==
        if filters.kodeProvinsi == "" then []
        else if reply.Body? then reply.data.GetOr([])
        else old(kabupatenList)
      ensures filters == old(filters) && provinsiList == old(provinsiList)
      ensures results == old(results) && loading == old(loading)
    {
      if filters.kodeProvinsi == "" {
        kabupatenList := [];
        return;
      }
      if reply.Body? {
        kabupatenList := reply.data.GetOr([]);
      }
    }

    /**
     * One input event followed by the regency effect, which React runs only
     * when the province differs from the one of the previous render.  The
     * regency input is disabled while the regency list is empty, so it fires
     * no event then.
     */
    method Change(n: Filters.Field, value: string, reply: Reply<seq<Region>>)
      requires Valid()
      requires n == Filters.KodeKabupaten ==> kabupatenList != []
      modifies this
      ensures Valid()
      ensures filters == Filters.HandleChange(old(filters), n, value)
      ensures n == Filters.KodeProvinsi ==> filters.kodeKabupaten == ""
      ensures filters.kodeProvinsi == old(filters).kodeProvinsi ==> kabupatenList == old(kabupatenList)
      ensures filters.kodeProvinsi != old(filters).kodeProvinsi ==>
        kabupatenList ==
          if filters.kodeProvinsi == "" then []
          else if reply.Body? then reply.data.GetOr([])
          else old(kabupatenList)
      ensures provinsiList == old(provinsiList) && results == old(results) && loading == old(loading)
    {
      var before := filters.kodeProvinsi;
      HandleChange(n, value);
      if filters.kodeProvinsi != before {
        FetchKabupaten(reply);
      }
    }

    /**
     * `fetchData`: the search.  Results are cleared, the query is built from
     * the current criteria, a successful reply's records are normalised in
     * order, and loading ends on success and on failure alike.
     */
    method FetchData(reply: Reply<seq<Listings.RawListing>>, decode: Listings.Decoder)
      returns (params: seq<Query.Param>)
      requires Valid()
      modifies this
      ensures Valid()
      ensures params == Query.QueryParams(filters)
      ensures results == if reply.Body? then Listings.NormaliseAll(reply.data.GetOr([]), decode) else []
      ensures |results| == if reply.Body? then |reply.data.GetOr([])| else 0
      ensures !loading
      ensures filters == old(filters) && provinsiList == old(provinsiList) && kabupatenList == old(kabupatenList)
    {
      loading := true;
      results := [];
      params := Query.BuildParams(filters);
      if reply.Body? {
        results := Listings.NormaliseAll(reply.data.GetOr([]), decode);
      }
      loading := false;
    }
  }
}
