/**
 * The query string of the vacancy search: four fixed parameters, then up to
 * three optional region and keyword parameters.  Regency codes such as
 * "11.01" are sent without their dots.
 */
module Query {
  import opened Filters

  /** A query-string key: the name of a criterion, or the fixed `page`. */
  datatype Key = Criterion(field: Field) | PageNo

  /** The text of a key. */
  function KeyText(k: Key): (s: string)
    ensures s != []
  {
    match k
    case Criterion(n) => Name(n)
    case PageNo => "page"
  }

  /** One `key=value` entry of the query string, before percent-encoding. */
  datatype Param = Param(key: Key, value: string)

  /** `s.replace(/\./g, "")`: delete every '.' and keep the rest in order. */
  function StripDots(s: string): (r: string)
    ensures '.' !in r
    ensures |r| <= |s|
    ensures '.' !in s ==> r == s
    ensures forall i :: 0 <= i < |r| ==> r[i] in s
  {
    if s == [] then []
    else (if s[0] == '.' then [] else [s[0]]) + StripDots(s[1..])
  }

  /** Stripping works piece by piece, so it keeps the order of what it leaves. */
  lemma {:induction false} StripDotsAppend(s: string, t: string)
    ensures StripDots(s + t) == StripDots(s) + StripDots(t)
  {
    if s == [] {
      assert s + t == t;
    } else {
      assert (s + t)[0] == s[0];
      assert (s + t)[1..] == s[1..] + t;
      StripDotsAppend(s[1..], t);
    }
  }

  /** A dot disappears; any other character stays where it was. */
  lemma StripDotsSnoc(s: string, c: char)
    ensures StripDots(s + [c]) == StripDots(s) + (if c == '.' then [] else [c])
  {
    StripDotsAppend(s, [c]);
  }

  /** Stripping twice is stripping once. */
  lemma StripDotsIdempotent(s: string)
    ensures StripDots(StripDots(s)) == StripDots(s)
  {
  }

  /** Stripping drops exactly the dots: the length falls by their number. */
  lemma {:induction false} StripDotsLength(s: string)
    ensures |StripDots(s)| == |s| - Dots(s)
  {
    if s != [] {
      StripDotsLength(s[1..]);
    }
  }

  function Dots(s: string): nat
  {
    if s == [] then 0 else (if s[0] == '.' then 1 else 0) + Dots(s[1..])
  }

  /** The position of each key in the order the page code adds them. */
  function KeyRank(k: Key): nat
  {
    match k
    case Criterion(OrderBy) => 0
    case Criterion(OrderDirection) => 1
    case PageNo => 2
    case Criterion(Limit) => 3
    case Criterion(Keyword) => 4
    case Criterion(KodeProvinsi) => 5
    case Criterion(KodeKabupaten) => 6
  }

  predicate HasKey(q: seq<Param>, k: Key)
  {
    exists i :: 0 <= i < |q| && q[i].key == k
  }

  /** The four parameters every search sends, whatever the criteria. */
  function Fixed(f: Filters): (r: seq<Param>)
    ensures |r| == 4 && Ordered(r) && RanksBelow(r, 4)
    ensures r[2] == Param(PageNo, "1")
    ensures Faithful(f, r)
  {
    [Param(Criterion(OrderBy), f.orderBy), Param(Criterion(OrderDirection), f.orderDirection),
     Param(PageNo, "1"), Param(Criterion(Limit), f.limit)]
  }

  /**
   * A parameter for criterion `n`, present exactly when the criterion is
   * filled in (tested before any dots are deleted), keyed by `n`.
   */
  function Optional(f: Filters, n: Field): (r: seq<Param>)
    ensures |r| <= 1
    ensures r != [] <==> Get(f, n) != ""
    ensures forall i :: 0 <= i < |r| ==> r[i].key == Criterion(n)
    ensures n != KodeKabupaten ==> Faithful(f, r)
  {
    if Get(f, n) == "" then []
    else [Param(Criterion(n), if n == KodeKabupaten then StripDots(Get(f, n)) else Get(f, n))]
  }

  /**
   * The parameters of one search for criteria `f`: the four fixed ones,
   * always, in this order, then keyword, province and regency, each only when
   * its criterion is non-empty.  The regency is examined before its dots are
   * deleted, so a code made only of dots is still sent, as an empty value.
   */
  function QueryParams(f: Filters): (q: seq<Param>)
    ensures 4 <= |q| <= 7
    ensures q[..4] == Fixed(f)
  {
    Fixed(f) + Optional(f, Keyword) + Optional(f, KodeProvinsi) + Optional(f, KodeKabupaten)
  }

  /** The fixed parameters come first, from the current criteria, and there are at most three more. */
  lemma QueryStartsFixed(f: Filters)
    ensures 4 <= |QueryParams(f)| <= 7
    ensures QueryParams(f)[..4] == [Param(Criterion(OrderBy), f.orderBy),
                                    Param(Criterion(OrderDirection), f.orderDirection),
                                    Param(PageNo, "1"), Param(Criterion(Limit), f.limit)]
  {
    var q := QueryParams(f);
    assert q == Fixed(f) + (Optional(f, Keyword) + Optional(f, KodeProvinsi) + Optional(f, KodeKabupaten));
  }

  /** Keys strictly increase in rank: they follow the page code's order and none repeats. */
  predicate Ordered(q: seq<Param>)
  {
    forall i, j :: 0 <= i < j < |q| ==> KeyRank(q[i].key) < KeyRank(q[j].key)
  }

  /** Every key of `q` ranks below `r`. */
  predicate RanksBelow(q: seq<Param>, r: nat)
  {
    forall i :: 0 <= i < |q| ==> KeyRank(q[i].key) < r
  }

  /** Appending keys of rank at least `r` to keys ranked below `r` keeps the order. */
  lemma OrderedAppend(a: seq<Param>, b: seq<Param>, r: nat)
    requires Ordered(a) && Ordered(b) && RanksBelow(a, r)
    requires forall j :: 0 <= j < |b| ==> r <= KeyRank(b[j].key)
    ensures Ordered(a + b)
  {
    var q := a + b;
    forall i, j | 0 <= i < j < |q| ensures KeyRank(q[i].key) < KeyRank(q[j].key) {
      if j < |a| {
        assert q[i] == a[i] && q[j] == a[j];
      } else if i < |a| {
        assert q[i] == a[i] && q[j] == b[j - |a|];
      } else {
        assert q[i] == b[i - |a|] && q[j] == b[j - |a|];
      }
    }
  }

  lemma RanksBelowAppend(a: seq<Param>, b: seq<Param>, r: nat)
    requires RanksBelow(a, r) && RanksBelow(b, r)
    ensures RanksBelow(a + b, r)
  {
    forall i | 0 <= i < |a + b| ensures KeyRank((a + b)[i].key) < r {
      if i >= |a| { assert (a + b)[i] == b[i - |a|]; }
    }
  }

  /** Keys appear in the page code's order and none twice. */
  lemma QueryKeysOrdered(f: Filters)
    ensures Ordered(QueryParams(f))
  {
    var x, k, p, r := Fixed(f), Optional(f, Keyword), Optional(f, KodeProvinsi), Optional(f, KodeKabupaten);
    assert RanksBelow(x, 4);
    OrderedAppend(x, k, 4);
    RanksBelowAppend(x, k, 5);
    OrderedAppend(x + k, p, 5);
    RanksBelowAppend(x + k, p, 6);
    OrderedAppend(x + k + p, r, 6);
  }

  lemma HasKeyAppend(a: seq<Param>, b: seq<Param>, k: Key)
    ensures HasKey(a + b, k) <==> HasKey(a, k) || HasKey(b, k)
  {
    if HasKey(a, k) {
      var i :| 0 <= i < |a| && a[i].key == k;
      assert (a + b)[i] == a[i];
    }
    if HasKey(b, k) {
      var j :| 0 <= j < |b| && b[j].key == k;
      assert (a + b)[|a| + j] == b[j];
    }
    if HasKey(a + b, k) {
      var i :| 0 <= i < |a + b| && (a + b)[i].key == k;
      if i >= |a| {
        assert b[i - |a|].key == k;
      }
    }
  }

  /** The optional parameter of `m` carries key `n` exactly when `m` is `n` and is filled in. */
  lemma OptionalHasKey(f: Filters, m: Field, n: Field)
    ensures HasKey(Optional(f, m), Criterion(n)) <==> m == n && Get(f, m) != ""
  {
    if m == n && Get(f, m) != "" {
      assert Optional(f, m)[0].key == Criterion(n);
    }
  }

  /** Each optional key is sent exactly when its criterion is non-empty. */
  lemma QueryOptionalPresence(f: Filters, n: Field)
    requires n == Keyword || n == KodeProvinsi || n == KodeKabupaten
    ensures HasKey(QueryParams(f), Criterion(n)) <==> Get(f, n) != ""
  {
    var x, k, p, r := Fixed(f), Optional(f, Keyword), Optional(f, KodeProvinsi), Optional(f, KodeKabupaten);
    var c := Criterion(n);
    HasKeyAppend(x, k, c);
    HasKeyAppend(x + k, p, c);
    HasKeyAppend(x + k + p, r, c);
    assert !HasKey(x, c) by {
      assert RanksBelow(x, 4);
    }
    OptionalHasKey(f, Keyword, n);
    OptionalHasKey(f, KodeProvinsi, n);
    OptionalHasKey(f, KodeKabupaten, n);
  }

  /** Every criterion value in `q` is the one in `f`, the regency stripped of its dots. */
  predicate Faithful(f: Filters, q: seq<Param>)
  {
    forall i :: 0 <= i < |q| && q[i].key.Criterion? ==>
      q[i].value == if q[i].key.field == KodeKabupaten then StripDots(f.kodeKabupaten) else Get(f, q[i].key.field)
  }

  lemma FaithfulAppend(f: Filters, a: seq<Param>, b: seq<Param>)
    requires Faithful(f, a) && Faithful(f, b)
    ensures Faithful(f, a + b)
  {
    var q := a + b;
    forall i | 0 <= i < |q| && q[i].key.Criterion?
      ensures q[i].value == if q[i].key.field == KodeKabupaten then StripDots(f.kodeKabupaten) else Get(f, q[i].key.field)
    {
      if i >= |a| { assert q[i] == b[i - |a|]; }
    }
  }

  /** Every value sent is the criterion's own value, except that the regency loses its dots. */
  lemma QueryValues(f: Filters)
    ensures Faithful(f, QueryParams(f))
  {
    var k, p, r := Optional(f, Keyword), Optional(f, KodeProvinsi), Optional(f, KodeKabupaten);
    FaithfulAppend(f, Fixed(f), k);
    FaithfulAppend(f, Fixed(f) + k, p);
    FaithfulAppend(f, Fixed(f) + k + p, r);
  }

  /** The regency value sent is the selected code without its dots, and contains no dot. */
  lemma QueryRegencyHasNoDots(f: Filters)
    ensures var q := QueryParams(f);
      forall i :: 0 <= i < |q| && q[i].key == Criterion(KodeKabupaten) ==>
        q[i].value == StripDots(f.kodeKabupaten) && '.' !in q[i].value
  {
    QueryValues(f);
  }

  /**
   * The `URLSearchParams` object built step by step: constructed from the
   * four fixed entries, then appended to once per filled-in criterion.
   */
  method BuildParams(f: Filters) returns (params: seq<Param>)
    ensures params == QueryParams(f)
  {
    params := [Param(Criterion(OrderBy), f.orderBy), Param(Criterion(OrderDirection), f.orderDirection),
               Param(PageNo, "1"), Param(Criterion(Limit), f.limit)];
    if f.keyword != "" {
      params := params + [Param(Criterion(Keyword), f.keyword)];
    }
    if f.kodeProvinsi != "" {
      params := params + [Param(Criterion(KodeProvinsi), f.kodeProvinsi)];
    }
    if f.kodeKabupaten != "" {
      params := params + [Param(Criterion(KodeKabupaten), StripDots(f.kodeKabupaten))];
    }
  }

  /** A search from the initial criteria sends only the four fixed parameters, with their defaults. */
  lemma InitialQuery()
    ensures QueryParams(Initial) == [Param(Criterion(OrderBy), "jumlah_terdaftar"),
                                     Param(Criterion(OrderDirection), "ASC"),
                                     Param(PageNo, "1"), Param(Criterion(Limit), "10")]
  {
  }

  /** A regency code made only of dots is still sent, last, with an empty value. */
  lemma DotsOnlyRegency(f: Filters)
    requires f.kodeKabupaten != ""
    requires forall i :: 0 <= i < |f.kodeKabupaten| ==> f.kodeKabupaten[i] == '.'
    ensures var q := QueryParams(f); q[|q| - 1] == Param(Criterion(KodeKabupaten), "")
  {
    AllDots(f.kodeKabupaten);
    StripDotsLength(f.kodeKabupaten);
    var r := Optional(f, KodeKabupaten);
    assert r == [Param(Criterion(KodeKabupaten), "")];
    var q := QueryParams(f);
    assert q == (Fixed(f) + Optional(f, Keyword) + Optional(f, KodeProvinsi)) + r;
  }

  /** A text of dots only has as many dots as characters. */
  lemma {:induction false} AllDots(s: string)
    requires forall i :: 0 <= i < |s| ==> s[i] == '.'
    ensures Dots(s) == |s|
  {
    if s != [] {
      AllDots(s[1..]);
    }
  }

  /** Distinct keys have distinct texts, so no key text is sent twice. */
  lemma KeyTextInjective(k: Key, k': Key)
    requires KeyText(k) == KeyText(k')
    ensures k == k'
  {
    if k.Criterion? && k'.Criterion? {
      NameInjective(k.field, k'.field);
    }
  }
}
