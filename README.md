# Farm dashboard: commodity prices and dashboard derivations

A Dafny model of the data logic of a farm-management dashboard
(`campo-visionario-painel`), in two parts:

- **The commodity price service** (`src/services/commoditiesService.ts`).
  `getCommodityPrices` joins three backend payloads: the general commodity
  list, the CEPEA regional price index and the dollar rate. It maps over the
  general list and overwrites `price`, `change`, `trend` and `source` of the
  `Soja`, `Milho` and `Leite` entries from CEPEA and of the `Dólar` entry from
  the dollar feed. When a call throws it returns a fixed five-entry list.
  `getCommodityHistory` returns the remote series verbatim, or on failure
  builds one synthetic entry per day, ending today, with each value drawn from
  a bounded range.
- **The dashboard derivations** (`src/components/Dashboard.tsx`): the greeting
  chosen from the clock, the herd counts per life phase and their percentage
  badges, the "next 7 days" events filter, the overdue-vaccination filter,
  and the caps on how many rows are shown.

Files:

- `wrappers.dfy`: module `Wrappers`, an `Option` type for JavaScript's `null`/`undefined`.
- `array_ops.dfy`: module `ArrayOps`, `Array.prototype.filter` (`Filter`, with
  an order-preserving subsequence contract) and `slice(0, n)` (`Take`).
- `commodities_service.dfy`: module `CommoditiesService`. The price merge is
  written as pure functions, as in the source. The history fallback is a
  method whose `while` loop runs the source's count-down `for` loop and
  appends to a list.
- `iso_dates.dfy`: module `IsoDates`. JavaScript's `<` on strings, proved to be
  a strict total order. The proof shows that it orders `YYYY-MM-DD` strings
  by calendar date.
- `dashboard.dfy`: module `Dashboard`, the derivations as pure functions.

Inputs that the source reads from the outside world are parameters:

- the three price payloads are a `PriceResponses` value: `Threw`, or `Got` with an optional payload per feed;
- the history call's outcome is a `HistoryResponse`;
- each `Math.random()` call is a `Fraction` in [0, 1);
- `new Date().toISOString()` is a `now` string;
- the history's "today" is a day number;
- the dashboard's clock is an hour, a minute, today's ISO date string and today's midnight in milliseconds.

The model follows what the code does in three places where a reader might expect otherwise:

- A missing general list yields `[]`, not the fallback list (`commoditiesService.ts:82`).
- The dollar quote is applied only when the CEPEA payload is present as well (`commoditiesService.ts:37`, `67`).
- A negative `days` gives an empty fallback history, because the loop does not run.

`GetCommodityPrices` is a function of the three settled payloads. The order in which the parallel calls complete therefore cannot change its result.

## Model

| member | source | states |
|---|---|---|
| `CommoditiesService.WithQuote` | src/services/commoditiesService.ts:41-47 | The object spread keeps `name`, `unit`, `icon` and `lastUpdate` of the entry and takes `price`, `change`, `trend` and `source` from the quote. |
| `CommoditiesService.MergeEntry` | src/services/commoditiesService.ts:39-76 | The map callback keeps the entry's identity fields. It takes the quoted fields from the applicable feed: CEPEA for Soja/Milho/Leite, the dollar feed for Dólar. It returns the entry unchanged when the name is not tracked or the feed value is absent. |
| `CommoditiesService.Merge` | src/services/commoditiesService.ts:37-79 | The merged list has the general list's length and order. At every index it keeps `name`, `unit`, `icon` and `lastUpdate`. It takes the quoted fields from the applicable feed, or passes the entry through unchanged. |
| `CommoditiesService.FallbackPrices` | src/services/commoditiesService.ts:83-135 | The fallback list is exactly Soja, Milho, Leite, Boi Gordo, Dólar in that order. `trend` is up exactly when `change` > 0. `source` is present exactly on the first three entries. Every `lastUpdate` is the current time. |
| `CommoditiesService.GetCommodityPrices` | src/services/commoditiesService.ts:24-137 | A throw gives the fallback list. A missing general payload gives `[]`, not the fallback. A missing CEPEA payload gives the general list unchanged. When both are present the result has the general list's names in order, with per-index provenance of every field. |
| `CommoditiesService.DollarNeedsCepea` | src/services/commoditiesService.ts:37-75 | Without the CEPEA payload the dollar payload has no effect on the result. |
| `CommoditiesService.DollarOverride` | src/services/commoditiesService.ts:67-75 | With CEPEA, dollar and general payloads present, a `Dólar` entry shows the dollar quote and keeps its identity fields. |
| `CommoditiesService.MergeKeepsNamesUnique` | src/services/commoditiesService.ts:39-82 | If the general list's names are unique, so are the result's. |
| `CommoditiesService.SynthesizedDay` | src/services/commoditiesService.ts:154-161 | One synthesized day carries the given date. Each of its five values lies in its half-open range: soja [155,165), milho [87,92), leite [2.40,2.70), boiGordo [305,320), dolar [5.15,5.55). |
| `CommoditiesService.Synthesized` | src/services/commoditiesService.ts:150-163 | A synthesized series of `count` days has length max(count, 0). Its k-th date is the first date plus k, and every entry is within the fallback ranges. |
| `CommoditiesService.SynthesizedAt` | src/services/commoditiesService.ts:151-161 | Entry k of the series is built from the k-th set of random draws. |
| `CommoditiesService.SynthesizeHistory` | src/services/commoditiesService.ts:150-163 | The fallback loop yields max(days, 0) entries. Their dates are consecutive and ascending and end today. Every value is in its range. Entry k is the day `today - (n-1-k)` made from the k-th draws. |
| `CommoditiesService.GetCommodityHistory` | src/services/commoditiesService.ts:139-165 | When the call reports no error, the remote data is returned verbatim. Otherwise the result is the synthesized series of max(days, 0) entries. `days` defaults to 30. |
| `Dashboard.GetGreeting` | src/components/Dashboard.tsx:40-51 | "Bom dia" exactly from 4:00 to 12:30. "Boa tarde" exactly from 13:00 to 18:30. "Boa noite" exactly before 4:00, from 12:31 to 12:59, and after 18:30. |
| `Dashboard.GreetingNoonGap` | src/components/Dashboard.tsx:42-50 | At 12:45 the code greets "Boa noite"; the corrected greeting says "Boa tarde". |
| `Dashboard.GreetingIntended` | src/components/Dashboard.tsx:41-49 | The greeting with the 12:31–12:59 gap closed: "Bom dia" from 4:00 to 12:30, "Boa noite" only before 4:00 or after 18:30, "Boa tarde" in between. The comments conflict (lines 41 and 45 leave 12:31–12:59 to no greeting, line 49 excludes night there), and "Boa tarde" is the chosen reading. |
| `Dashboard.GreetingIntendedAgrees` | src/components/Dashboard.tsx:40-51 | The corrected greeting differs from the written one exactly between 12:31 and 12:59. |
| `Dashboard.PhaseSumBound` | src/components/Dashboard.tsx:54-60 | The four phase counts sum to at most the herd size. They sum to exactly the herd size when every animal has one of the four phases. |
| `Dashboard.PhaseCountIsMultiplicity` | src/components/Dashboard.tsx:56-59 | `animals.filter(a => a.phase === p).length` is the number of times phase `p` occurs among the animals. |
| `Dashboard.ComputeAnimalStats` | src/components/Dashboard.tsx:54-60 | `total` is the herd size. Each phase field is the number of animals with exactly that phase string. Each is at most `total`, and the four sum to at most `total`, with equality when every phase is one of the four. |
| `Dashboard.PercentBadge` | src/components/Dashboard.tsx:274 | 0 when the herd is empty. Otherwise the integer r with (2r-1)·total ≤ 200·count < (2r+1)·total, which is the percentage rounded half up. It is at most 100 when count ≤ total. The same expression appears at lines 285, 296 and 307. |
| `Dashboard.PercentBadgeRounds` | src/components/Dashboard.tsx:274 | The badge is within half a point of count/total×100, with ties going up, as `Math.round` does. |
| `Dashboard.CeilDays` | src/components/Dashboard.tsx:67 | `Math.ceil(ms / day)` is the least d with ms ≤ d·day. |
| `Dashboard.UpcomingEvents` | src/components/Dashboard.tsx:63-69 | The result is an order-preserving subsequence of the events. An event is kept iff it is not completed and its time lies in (today − 1 day, today + 7 days], measured from today's midnight, and it is kept as many times as it occurs. The lower bound is one day early because the day difference rounds up. |
| `Dashboard.OverdueVaccinations` | src/components/Dashboard.tsx:72-75 | The result is an order-preserving subsequence of the vaccinations. A vaccination is kept iff its next dose date is present and non-empty and compares below today's date string, and it is kept as many times as it occurs. |
| `Dashboard.OverdueMeansBefore` | src/components/Dashboard.tsx:72-75 | With ISO dates on both sides, a vaccination is overdue exactly when its next dose date is strictly before today. |
| `Dashboard.EmptyDoseDateNotOverdue` | src/components/Dashboard.tsx:73 | An empty next dose date is never overdue, although `""` compares below every date. |
| `Dashboard.DaysOverdue` | src/components/Dashboard.tsx:385 | `daysOverdue` is a non-negative whole number. For a past dose it is the elapsed time in days, rounded up. For a future dose it is the remaining time in days, rounded down. |
| `Dashboard.ShownCommodities` | src/components/Dashboard.tsx:153 | At most 5 commodities are shown, all of them when there are fewer, as a prefix of the list. |
| `Dashboard.ShownEvents` | src/components/Dashboard.tsx:334 | At most 5 upcoming events are shown, all of them when there are fewer, as a prefix of the list. |
| `Dashboard.ShownOverdue` | src/components/Dashboard.tsx:383 | At most 3 overdue rows are shown, all of them when there are fewer, as a prefix of the list. |
| `Dashboard.MoreOverdue` | src/components/Dashboard.tsx:399-401 | The "e mais N" line appears exactly when rows are hidden. Shown rows plus N equal the number of overdue vaccinations, so N is count − 3. |
| `IsoDates.IsoDateOrder` | src/components/Dashboard.tsx:35 | String `<` on `YYYY-MM-DD` texts (the date part of `toISOString()`) agrees with calendar order. |
| `IsoDates.DigitsOrder` | src/components/Dashboard.tsx:74 | Zero-padded fixed-width decimal texts compare with `<` as their numbers do, and are equal exactly when the numbers are. |
| `ArrayOps.Filter` | src/components/Dashboard.tsx:63-75 | `filter` keeps only elements that satisfy the test, keeps every such element, and keeps them in their original order. |
| `ArrayOps.FilterMultiplicity` | src/components/Dashboard.tsx:63-75 | `filter` keeps every occurrence of an element that satisfies the test and no other element, so its length counts the satisfying occurrences. |

## Left out

- Backend access is not modelled: `supabase.functions.invoke`, `Promise.all` and the data hooks. Their outcomes are inputs.
- `console.error` logging is not modelled.
- React rendering is not modelled: JSX, `framer-motion` animation, CSS classes, and the arrow and colour chosen from the sign of `change`.
- `toFixed` and `toLocaleDateString` formatting, and the animal-name lookup for each overdue row, are not modelled.
- `src/pages/Index.tsx` is a tab switcher and is not part of this model. The stock-alert panel is not part of this model either.
- Floating point is not modelled. Prices, changes, draws and percentages are exact rationals or integers. IEEE doubles may place a `Math.round` tie or a range bound differently by one unit in the last place.
- The `Date` API and time zones are not modelled. History dates are day numbers rather than `YYYY-MM-DD` texts. The code steps the date back with the local-time `setDate` but prints it with the UTC `toISOString`, and that mismatch is not represented.
- Date parsing is not modelled. Event times and dose times are already milliseconds. An unparsable date, which gives `NaN` and fails every comparison, is not represented.
- GetCommodityHistory: a remote reply with no error and a `null` `data` is returned as `null` by the code. The model's reply always carries a list.
- GetCommodityHistory: a non-integer `days` is not modelled; `days` is an integer.
- Anything in a payload that makes the merge throw, such as a general payload that is not an array, is covered only by the `Threw` input, not by its shape.
- Commodity names are not assumed to be unique. `MergeKeepsNamesUnique` takes uniqueness as a hypothesis.
- `IsoDates.LexLess` orders Unicode scalar values, where JavaScript's `<` compares UTF-16 code units. The two differ only for strings with characters above U+D7FF; dates are ASCII.
- `trend` is not checked against `change` for entries passed through from upstream. The code does not enforce that either.

## Findings

| source | as written | input that shows it | evidently intended | confidence | as-written member | corrected member |
|---|---|---|---|---|---|---|
| src/components/Dashboard.tsx:46 | The morning test ends at 12:30 but the afternoon test starts at hour 13, so 12:31–12:59 falls through to "Boa noite" | hour 12, minute 45 (`Dashboard.GreetingNoonGap`) | The comments conflict: lines 41 and 45 leave 12:31–12:59 to no greeting, and line 49 limits night to before 4:00 and from 18:30 on, which excludes 12:31–12:59. Night there is evidently unintended; "Boa tarde" is the chosen reading. | medium; not executed | `Dashboard.GetGreeting` | `Dashboard.GreetingIntended` |
