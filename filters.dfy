/**
 * The search form's criteria and the `handleChange` transition.  Every form
 * input carries the name of the criterion it edits; choosing a province also
 * clears the chosen regency.
 */
module Filters {

  /** The six criteria, in the form's order; each is the `name` of one input. */
  datatype Field = Keyword | OrderBy | OrderDirection | Limit | KodeProvinsi | KodeKabupaten

  /**
   * The criteria record.  Every value is the text an input delivers; `limit`
   * starts as the number 10, which is written "10" here because that is how
   * it reaches the query string.
   */
  datatype Filters = Filters(
    keyword: string,
    orderBy: string,
    orderDirection: string,
    limit: string,
    kodeProvinsi: string,
    kodeKabupaten: string)

  /** The state before any input: sort by registered count, ascending, 10 results, no region. */
  const Initial := Filters("", "jumlah_terdaftar", "ASC", "10", "", "")

  /** The input name of a criterion, which is also its query-parameter key. */
  function Name(n: Field): (s: string)
    ensures s != []
  {
    match n
    case Keyword => "keyword"
    case OrderBy => "order_by"
    case OrderDirection => "order_direction"
    case Limit => "limit"
    case KodeProvinsi => "kode_provinsi"
    case KodeKabupaten => "kode_kabupaten"
  }

  /** Distinct criteria have distinct input names. */
  lemma NameInjective(n: Field, m: Field)
    requires Name(n) == Name(m)
    ensures n == m
  {
  }

  /** The criterion `n` of `f`. */
  function Get(f: Filters, n: Field): string
  {
    match n
    case Keyword => f.keyword
    case OrderBy => f.orderBy
    case OrderDirection => f.orderDirection
    case Limit => f.limit
    case KodeProvinsi => f.kodeProvinsi
    case KodeKabupaten => f.kodeKabupaten
  }

  /** `{ ...f, [name]: value }`: replace one criterion and keep the others. */
  function Set(f: Filters, n: Field, value: string): (g: Filters)
    ensures Get(g, n) == value
    ensures forall m :: m != n ==> Get(g, m) == Get(f, m)
  {
    match n
    case Keyword => f.(keyword := value)
    case OrderBy => f.(orderBy := value)
    case OrderDirection => f.(orderDirection := value)
    case Limit => f.(limit := value)
    case KodeProvinsi => f.(kodeProvinsi := value)
    case KodeKabupaten => f.(kodeKabupaten := value)
  }

  /**
   * One `handleChange` event.  The handler queues two updates, `{...filters,
   * [name]: value}` and, for the province, `prev => ({...prev, kode_kabupaten:
   * ""})`; React applies both before the next render, so the event is their
   * composition.
   */
  function HandleChange(f: Filters, n: Field, value: string): (g: Filters)
    ensures n == KodeProvinsi ==> g.kodeProvinsi == value && g.kodeKabupaten == ""
    ensures n != KodeProvinsi ==> Get(g, n) == value
    ensures forall m ::
      Get(g, m) == (if n == KodeProvinsi && m == KodeKabupaten then "" else if m == n then value else Get(f, m))
  {
    var g := Set(f, n, value);
    if n == KodeProvinsi then Set(g, KodeKabupaten, "") else g
  }

  /** A regency is chosen only together with a province. */
  predicate RegionConsistent(f: Filters)
  {
    f.kodeKabupaten != "" ==> f.kodeProvinsi != ""
  }

  /**
   * Every event except picking a regency keeps a regency tied to a province;
   * the regency input is enabled only once a regency list is loaded.
   */
  lemma HandleChangeKeepsRegion(f: Filters, n: Field, value: string)
    requires RegionConsistent(f)
    requires n != KodeKabupaten
    ensures RegionConsistent(HandleChange(f, n, value))
  {
  }

  /** Repeating an event changes nothing more. */
  lemma HandleChangeIdempotent(f: Filters, n: Field, value: string)
    ensures HandleChange(HandleChange(f, n, value), n, value) == HandleChange(f, n, value)
  {
  }

  /** The initial criteria name no region. */
  lemma InitialConsistent()
    ensures RegionConsistent(Initial)
    ensures Initial.kodeProvinsi == "" && Initial.kodeKabupaten == ""
  {
  }
}
