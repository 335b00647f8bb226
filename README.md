# MagangHub internship search — a Dafny model of its page logic

The application is one React page (`src/App.jsx`). It lists internship vacancies from a public
listing service. Users filter by keyword, sort order, result limit, province and regency, and
each card shows a "chance if you register too" percentage with a coloured label. This project
models the logic of that page:

- **Scoring** (`scoring.dfy`). The chance is quota / (registered + 1), capped at 1, rounded to a
  whole percentage. It is classified into Tinggi (≥ 75), Cukup (≥ 50), Rendah (≥ 25) or Sangat
  Rendah. The rounding is exact round-half-up (`RoundHalfUp`). It is specified against an
  independent definition: p is the integer nearest to n/d, with halves going up (`IsNearest`).
  `Badge` repeats the render code's step-by-step reassignments and is proved equal to the
  functions.
- **Filter criteria** (`filters.dfy`). A record of the six inputs. `HandleChange` is one input
  event with both queued React updates applied, so choosing a province clears the regency.
- **Query string** (`query.dfy`). The list of `key=value` parameters of a search, the dot
  stripping of regency codes (`StripDots`), and the step-by-step builder `BuildParams`.
- **Normaliser** (`listings.dfy`). Raw vacancy records become display records one by one, in
  order. The programme-of-study text is decoded by an abstract decoder, and a failure empties
  only that record's title list.
- **Page state** (`page.dfy`). The component's state as a class `SearchPage`: criteria, province
  and regency lists, results and the loading flag. Its handler methods take the network replies
  as parameters. Its invariant says no regency is listed or chosen while no province is chosen.

The model follows the code, including where the code does less than its design intends:

- The code does not coerce `limit`: it is sent as entered.
- The code has no guard against a stale regency reply.
- The "ratio 0 when total is 0" branch cannot run, because registered + 1 is never 0 for a
  non-negative count.
- The "Tidak tersedia" label is only the initial value of a variable that every branch
  overwrites (`Badge`, `Classify`).

The code decides whether to send the regency before it removes the dots. So any non-empty code
made only of dots is still sent, last and with an empty value (`Query.DotsOnlyRegency`).

## Model

| member | source | states |
|---|---|---|
| Scoring.RoundHalfUp | src/App.jsx:266 | the result is the integer nearest to n/d, halves rounded up (`IsNearest`) |
| Scoring.NearestMonotone | src/App.jsx:266 | rounding is monotone: a smaller fraction never rounds to a larger integer |
| Scoring.NearestUnique | src/App.jsx:266 | at most one integer is the rounded value of a fraction, so the rounding spec determines the percentage |
| Scoring.NearestCap | src/App.jsx:264-266 | a fraction capped at 1, times 100, rounds to at most 100 |
| Scoring.Percent | src/App.jsx:258-266 | the percentage is in [0, 100] and is the rounded value of 100 · min(Q, R+1) / (R+1) |
| Scoring.Classify | src/App.jsx:272-294 | total; the label is never `Unavailable`; each band holds exactly when the percentage is in its range (≥75, [50,75), [25,50), <25) |
| Scoring.LabelText | src/App.jsx:272-293 | the badge text of each label; no real band reads "Tidak tersedia" |
| Scoring.Badge | src/App.jsx:257-294 | the step-by-step computation (ratio starts at 0, is set when total > 0, capped at 1, rounded; label starts "Tidak tersedia" and is overwritten) equals `Percent` and `Classify`, and never yields `Unavailable` |
| Scoring.FullChance | src/App.jsx:262-278 | quota ≥ registered + 1 gives 100% and Tinggi |
| Scoring.NoQuota | src/App.jsx:258-294 | quota 0 gives 0% and Sangat Rendah |
| Scoring.PercentGrowsWithQuota | src/App.jsx:258-266 | more quota never lowers the percentage |
| Scoring.PercentFallsWithRegistered | src/App.jsx:258-266 | more registered candidates never raise the percentage |
| Scoring.ClassifyMonotone | src/App.jsx:274-294 | a higher percentage never gets a lower band |
| Scoring.Examples | src/App.jsx:258-294 | (5, 4) gives 100% Tinggi, (2, 7) gives 25% Rendah, (1, 19) gives 5% Sangat Rendah |
| Scoring.BandEdges | src/App.jsx:274-294 | lower bounds are inclusive: 75 Tinggi, 74 and 50 Cukup, 49 and 25 Rendah, 24 Sangat Rendah |
| Filters.Name | src/App.jsx:126-215 | every input has a non-empty name |
| Filters.NameInjective | src/App.jsx:126-215 | distinct criteria have distinct input names |
| Filters.Set | src/App.jsx:51 | the spread update replaces the named criterion and leaves every other criterion unchanged |
| Filters.HandleChange | src/App.jsx:49-56 | a province event sets the province and empties the regency; any other event sets exactly its criterion; every other criterion is unchanged |
| Filters.HandleChangeKeepsRegion | src/App.jsx:49-56 | every event except choosing a regency keeps "a regency only with a province" |
| Filters.HandleChangeIdempotent | src/App.jsx:49-56 | repeating an event changes nothing more |
| Filters.InitialConsistent | src/App.jsx:4-11 | the initial criteria choose no province and no regency |
| Query.KeyText | src/App.jsx:63-76 | every query key has non-empty text |
| Query.KeyTextInjective | src/App.jsx:63-76 | distinct keys have distinct texts, so keys that do not repeat give key texts that do not repeat |
| Query.StripDots | src/App.jsx:76 | the result has no dot, is no longer than the input, keeps only characters of the input, and is the input itself when the input has no dot |
| Query.StripDotsAppend | src/App.jsx:76 | stripping a concatenation strips each part, so the order of the kept characters is preserved |
| Query.StripDotsSnoc | src/App.jsx:76 | a trailing dot disappears and any other trailing character stays |
| Query.StripDotsIdempotent | src/App.jsx:76 | stripping twice equals stripping once |
| Query.StripDotsLength | src/App.jsx:76 | the length falls by exactly the number of dots |
| Query.Fixed | src/App.jsx:63-68 | the four fixed parameters: in rank order, all ranked before the optional ones, page is "1", and order_by, order_direction and limit carry the criteria's values |
| Query.Optional | src/App.jsx:70-76 | an optional parameter is at most one entry keyed by its criterion, present if and only if the criterion (before dot removal) is non-empty; keyword and province carry their own values |
| Query.QueryParams | src/App.jsx:63-77 | a search sends between four and seven parameters, the first four being the fixed ones |
| Query.QueryStartsFixed | src/App.jsx:63-68 | the parameters start with order_by, order_direction, page=1, limit from the current criteria, and at most three follow |
| Query.QueryKeysOrdered | src/App.jsx:63-76 | keys appear in the order the code adds them (fixed four, keyword, province, regency), none twice |
| Query.QueryOptionalPresence | src/App.jsx:70-76 | keyword, province and regency are each sent if and only if their criterion is non-empty |
| Query.QueryValues | src/App.jsx:63-76 | every criterion value sent is the criterion's own value, except the regency, which is sent stripped |
| Query.QueryRegencyHasNoDots | src/App.jsx:73-77 | the regency value sent is the chosen code with its dots removed and contains no dot |
| Query.BuildParams | src/App.jsx:63-77 | the step-by-step construction and appends yield exactly the specified parameter list |
| Query.InitialQuery | src/App.jsx:63-77 | searching with the initial criteria sends only order_by=jumlah_terdaftar, order_direction=ASC, page=1, limit=10 |
| Query.DotsOnlyRegency | src/App.jsx:73-77 | any non-empty regency code made only of dots is still sent, as the last parameter, with an empty value, whatever the other criteria |
| Listings.Titles | src/App.jsx:90 | the titles list has one entry per decoded programme, each its `title`, in order |
| Listings.ProgramTitles | src/App.jsx:87-94 | titles are empty when the field is absent, empty or does not decode, and otherwise the decoded entries' titles |
| Listings.NormaliseAll | src/App.jsx:86-103 | one display record per raw record, same length, record i normalised from raw record i |
| Listings.NormaliseAllAppend | src/App.jsx:86-103 | normalising a concatenation concatenates the normalised parts, so order is preserved |
| Listings.NormaliseAllLocal | src/App.jsx:86-103 | replacing one raw record changes only that record's display record |
| Listings.MalformedProgramIsolated | src/App.jsx:87-94 | a record whose programme text does not decode gets no titles, and every other record keeps its own titles |
| Listings.Chance | src/App.jsx:257-294 | the card's badge is `Percent` and `Classify` of its quota and registered count, each taken as 0 when absent; so the percentage is in [0, 100] with a real band, and no quota gives 0% Sangat Rendah |
| Page.SearchPage.Valid | src/App.jsx:32-56 | the page invariant: no regency list while no province is chosen, and a regency only with a province; in particular a non-empty regency list implies a chosen province |
| Page.SearchPage.constructor | src/App.jsx:4-15 | initial criteria, empty lists and results, not loading, invariant established |
| Page.SearchPage.FetchProvinces | src/App.jsx:18-29 | a decoded reply replaces the province list, a failure keeps it, nothing else changes |
| Page.SearchPage.HandleChange | src/App.jsx:49-56 | the criteria become `Filters.HandleChange` of the old criteria; lists, results and loading are unchanged |
| Page.SearchPage.FetchKabupaten | src/App.jsx:32-47 | no province empties the regency list without a request; otherwise a decoded reply replaces it and a failure keeps it |
| Page.SearchPage.Change | src/App.jsx:32-56 | an event followed by the regency effect keeps the page invariant; the criteria become `Filters.HandleChange` of the old ones; an unchanged province keeps the regency list; a changed province empties it when the new province is empty, and otherwise a decoded reply replaces it and a failure keeps it |
| Page.SearchPage.FetchData | src/App.jsx:59-111 | the parameters sent are those of the current criteria; results are the normalised records of a decoded reply, empty on failure; loading ends false; criteria and lists are unchanged |

## Left out

- All network requests, `async`/`await` and the order in which replies arrive. Replies are
  method parameters (`Page.Reply`), and each handler applies its reply at once. Interleaved
  or stale replies are not modelled, and the code has no guard against them. The
  `console.error` logging on every failure path (`src/App.jsx:25`, `43`, `107`) is left out
  too: it changes no state.
- A `data` element that is not an object makes the whole search fail. If an element is
  `null`, reading `d.program_studi` throws inside the inner `try`. Reading `d.posisi` then
  throws outside it, so the outer `catch` runs and `results` stays empty. The model's records
  are always objects, and such a reply is a `Failed` one. Per-record isolation
  (`Listings.MalformedProgramIsolated`) covers only the programme field.
- `src/App.jsx:39` uses the undefined name `selectedProvince`. In the code, every regency request
  therefore throws before it is sent and behaves like a `Failed` reply. The regency list thus
  stays empty and its input stays disabled. The model does not build this failure in.
- The proxy handlers `api/provinces.js` and `api/regencies.js`: HTTP plumbing over `fetch`.
- `vite.config.js`: build and development proxy configuration.
- All JSX rendering and the CSS class strings chosen next to each label (`textClass`, `bgClass`,
  `badgeClass`). Only the label and the percentage are modelled.
- Scoring.Percent: the code divides and rounds in IEEE double precision. The model uses the
  exact fraction. The two can differ when 100·Q/(R+1) is exactly a half (or very close to one)
  and the floating-point product lands just below it.
- `Number(x) || 0` on arbitrary JSON values. Counts are non-negative integers, and an absent
  count is 0. Negative, fractional or textual counts are not modelled.
- `JSON.parse` and `.map(p => p.title)`. They are an abstract decoder (`Listings.Decoder`) that
  fails (`None`) exactly where the code would throw.
- The percent-encoding and serialisation of `URLSearchParams`. The model stops at the list of
  key/value pairs.
- `limit` is the text of the input. The initial number 10 appears as "10", its text in the
  query. The code does not coerce it, and neither does the model.
- Input events whose name is not one of the six criteria. Each form input carries one of them.
- Two events handled before React re-renders. The first update reads the `filters` of the last
  render, so the earlier event could be lost. The model applies each event to the current state.
- The rule that a chosen regency belongs to the last regency list. `Page.SearchPage.Valid`
  states only that a regency is chosen together with a province.
