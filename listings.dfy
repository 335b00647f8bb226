/**
 * Reshaping the listing service's raw records into the cards the page shows.
 * Each raw record becomes exactly one display record, in the same order; the
 * text-encoded programme-of-study field becomes a list of titles, or the empty
 * list when it is absent or cannot be decoded.
 */
module Listings {
  import opened Options
  import Scoring

  /** A raw record's company object. */
  datatype Company = Company(namaPerusahaan: Option<string>, namaKabupaten: Option<string>)

  /** One entry of the decoded programme-of-study list; its `title` may be missing. */
  datatype Program = Program(title: Option<string>)

  /** A raw vacancy record as the listing service sends it; any field may be absent. */
  datatype RawListing = RawListing(
    posisi: Option<string>,
    perusahaan: Option<Company>,
    jumlahKuota: Option<nat>,
    jumlahTerdaftar: Option<nat>,
    programStudi: Option<string>)

  /** The display record of one card. */
  datatype DisplayListing = DisplayListing(
    posisi: Option<string>,
    perusahaan: Option<string>,
    lokasi: Option<string>,
    jumlahKuota: Option<nat>,
    jumlahTerdaftar: Option<nat>,
    programStudi: seq<Option<string>>)

  /**
   * A decoder for the programme-of-study text: `Some(entries)` when the text
   * decodes to a list of objects on which `.map(p => p.title)` succeeds, and
   * `None` when decoding throws or the result is not such a list.
   */
  type Decoder = string -> Option<seq<Program>>

  /** The `title` of every entry, in order. */
  function Titles(ps: seq<Program>): (ts: seq<Option<string>>)
    ensures |ts| == |ps|
    ensures forall j :: 0 <= j < |ps| ==> ts[j] == ps[j].title
  {
    seq(|ps|, j requires 0 <= j < |ps| => ps[j].title)
  }

  /**
   * The programme titles of one record: decoded only when the field is a
   * non-empty text, and empty whenever it is absent, empty or does not decode.
   */
  function ProgramTitles(field: Option<string>, decode: Decoder): (ts: seq<Option<string>>)
    ensures field.None? || field == Some("") ==> ts == []
    ensures field.Some? && field.value != "" && decode(field.value).None? ==> ts == []
    ensures field.Some? && field.value != "" && decode(field.value).Some? ==>
      ts == Titles(decode(field.value).value)
  {
    match field
    case None => []
    case Some(text) =>
      if text == "" then []
      else match decode(text)
        case None => []
        case Some(ps) => Titles(ps)
  }

  /**
   * The callback of `data.map`: copy the shown fields, take the company name
   * and locality through `d.perusahaan?.`, decode the titles.
   */
  function Normalise(d: RawListing, decode: Decoder): DisplayListing
  {
    var company := d.perusahaan;
    DisplayListing(
      d.posisi,
      if company.Some? then company.value.namaPerusahaan else None,
      if company.Some? then company.value.namaKabupaten else None,
      d.jumlahKuota,
      d.jumlahTerdaftar,
      ProgramTitles(d.programStudi, decode))
  }

  /** `data.map(...)`: one display record per raw record, in order. */
  function NormaliseAll(data: seq<RawListing>, decode: Decoder): (r: seq<DisplayListing>)
    ensures |r| == |data|
    ensures forall i :: 0 <= i < |data| ==> r[i] == Normalise(data[i], decode)
  {
    if data == [] then []
    else [Normalise(data[0], decode)] + NormaliseAll(data[1..], decode)
  }

  /** Normalising a concatenation normalises each part: the mapping keeps order and mixes no records. */
  lemma {:induction false} NormaliseAllAppend(a: seq<RawListing>, b: seq<RawListing>, decode: Decoder)
    ensures NormaliseAll(a + b, decode) == NormaliseAll(a, decode) + NormaliseAll(b, decode)
  {
    if a == [] {
      assert a + b == b;
    } else {
      assert (a + b)[1..] == a[1..] + b;
      NormaliseAllAppend(a[1..], b, decode);
    }
  }

  /**
   * Per-record isolation: replacing one raw record, say by one whose
   * programme field is malformed, changes only that record's card.
   */
  lemma NormaliseAllLocal(data: seq<RawListing>, i: nat, d: RawListing, decode: Decoder)
    requires i < |data|
    ensures var before, after := NormaliseAll(data, decode), NormaliseAll(data[i := d], decode);
      |after| == |before| && after[i] == Normalise(d, decode) &&
      forall j :: 0 <= j < |data| && j != i ==> after[j] == before[j]
  {
  }

  /** A record whose programme field does not decode gets no titles, and its siblings keep theirs. */
  lemma MalformedProgramIsolated(data: seq<RawListing>, i: nat, decode: Decoder)
    requires i < |data|
    requires data[i].programStudi.Some? && decode(data[i].programStudi.value).None?
    ensures NormaliseAll(data, decode)[i].programStudi == []
    ensures forall j :: 0 <= j < |data| && j != i ==>
      NormaliseAll(data, decode)[j].programStudi == ProgramTitles(data[j].programStudi, decode)
  {
    var r := NormaliseAll(data, decode);
    var text := data[i].programStudi.value;
    assert r[i].programStudi == ProgramTitles(Some(text), decode);
  }

  /**
   * The badge of a card: `Number(x) || 0` turns an absent quota or absent
   * registered count into 0, and the badge is the percentage and band of
   * those two counts, so the percentage is always in [0, 100] with a real band.
   */
  function Chance(l: DisplayListing): (r: (nat, Scoring.Label))
    ensures r == (Scoring.Percent(l.jumlahKuota.GetOr(0), l.jumlahTerdaftar.GetOr(0)), Scoring.Classify(r.0))
    ensures r.0 <= 100 && r.1 != Scoring.Unavailable
    ensures l.jumlahKuota.None? || l.jumlahKuota == Some(0) ==> r.0 == 0 && r.1 == Scoring.SangatRendah
  {
    var q, reg := l.jumlahKuota.GetOr(0), l.jumlahTerdaftar.GetOr(0);
    var p := Scoring.Percent(q, reg);
    Scoring.NoQuota(reg);
    (p, Scoring.Classify(p))
  }
}
