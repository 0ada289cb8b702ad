# Gowri Panchangam planetary-hour table, in Dafny

This project models the core of the Gowri / Hora panchangam calculator (`app.py`).
For a city and a date, the calculator:

- takes the day's sunrise and sunset from a sunrise-sunset service;
- shifts them by the fixed Indian Standard Time offset (+5:30);
- looks up the weekday's starting planet and its position in the seven-planet hora rotation;
- splits daylight (sunrise to sunset) into eight equal segments;
- splits the night (sunset to the next day's sunrise) into eight more;
- labels segment `i` with the planet `i` steps along the rotation.

The night starts one step past the day's start, because `(start + 8) mod 7` equals `(start + 1) mod 7`.

Modules, one per component:

- `wrappers.dfy`, module `Wrappers`: `Option` and `Result`, used for the collaborators' answers.
- `hora_table.dfy`, module `HoraTable`: the two constant tables and the rotation lookup.
  - `Planet` is a seven-constructor datatype. `Name` gives each planet's printed label.
  - `HoraCycle` is the rotation. `DayStartPlanet` maps weekday to starting planet (Monday = 0).
  - `IndexOf` / `IndexFrom` model the list lookup `HORA_CYCLE.index`.
  - `PlanetAt(k)` is `HORA_CYCLE[k % 7]`. Python's `%` floors, and Dafny's `%` is Euclidean. The two agree for the positive divisor 7.
- `segmenter.dfy`, module `Segmenter`: the nested `block` function.
  - `Block` is a method with the source's cursor loop. It appends one row per step.
  - `SegmentsOf` / `BlockLinesOf` give the same rows in closed form. `Block` is proved equal to `BlockLinesOf`.
  - The lemmas state numbering, planet labels, equal widths, contiguity and the partition of the interval.
- `panchangam.dfy`, module `Panchangam`: `predict`.
  - `Predict` is a method that appends the report entries in the source's order.
  - `ReportOf` is the report as a value.

Time instants are `real` seconds on one time line. With exact arithmetic, eight segments of width `(end - start) / 8` end exactly at `end`.

The collaborators are parameters of `Predict`:

- The geocoder's answer is an `Option<Coord>`. `None` stands for an unresolved city.
- The sunrise-sunset service is a total function from `SunRequest` (coordinates and date text) to `Result<SunTimes, string>`. A `Failure` carries the text of the exception that the source's catch-all would return.
- The calendar library's reading of the date text is a `Result<CalendarDay, string>`: the weekday number (Monday = 0) and the next date's text, or the parse error's text.
- `Predict` also returns the list of service queries it made. This lets the contract say that an unresolved city triggers no query, and that a full report queries the date and then the next date.

The source performs no `end > start` check, and neither does the model. The segmenter accepts any interval, and contiguity and equal widths hold for any interval. Only the partition lemmas ask for a forward interval.

Chennai, 2024-06-01: 12 h 30 min / 8 = 5625 s, so the first day row runs 05:45:00 to 07:18:45 (`ChennaiSaturday`).

## Model

| member | source | states |
|---|---|---|
| `HoraTable.CycleHoldsEachPlanetOnce` | app.py:32-40 | the rotation has exactly 7 entries, pairwise distinct, and every planet occurs in it |
| `HoraTable.Name` | app.py:33-39 | each planet's label is its glyph, a space, then its English name |
| `HoraTable.NamesDistinct` | app.py:32-50 | two planets have the same printed label exactly when they are the same planet, so a lookup by label is a lookup by planet |
| `HoraTable.StartTableComplete` | app.py:42-50 | every weekday 0..6 has a starting planet, and that planet occurs in the rotation |
| `HoraTable.StartPlanet` | app.py:76 | the weekday's table lookup always succeeds and yields a planet of the rotation |
| `HoraTable.IndexFrom` | app.py:77 | scanning from a position returns the first later position holding the planet, or None exactly when no later position holds it |
| `HoraTable.IndexOf` | app.py:77 | the list lookup returns the first position holding the planet (none earlier holds it), or None exactly when the planet is absent |
| `HoraTable.IndexOfUnique` | app.py:77 | in a sequence without repeats the lookup returns the one position holding the planet |
| `HoraTable.IndexOfPlanetAt` | app.py:77 | looking up the planet at cycle position `k` gives back `k mod 7` |
| `HoraTable.PlanetAtIndexOf` | app.py:77 | every planet is found by the lookup, and the planet at the found position is the one looked up |
| `HoraTable.StartIndex` | app.py:76-77 | the start index is below 7, holds the weekday's starting planet, and is the only position that does |
| `HoraTable.StartIndexTable` | app.py:42-50 | the start index of Monday..Sunday is 6, 2, 5, 1, 4, 0, 3 |
| `HoraTable.PlanetAt` | app.py:93 | `HORA_CYCLE[(idx+i)%7]` always lands in the rotation, and within the first turn (0..6) it is the rotation entry at that position |
| `HoraTable.PlanetAtCongruent` | app.py:93 | reducing the base position modulo 7 before stepping `k` on gives the same planet as stepping from the unreduced position |
| `HoraTable.PlanetAtPeriodic` | app.py:93 | the planet labelling repeats every 7 positions |
| `Segmenter.Width` | app.py:86 | `dur`: `parts` slices of this width add up exactly to the interval, and the width is non-negative for a forward interval |
| `Segmenter.SegmentsOf` | app.py:85-98 | the closed-form segmentation has exactly `parts` rows |
| `Segmenter.BlockLinesOf` | app.py:90-100 | a block is its heading followed by exactly `parts` rows, row `i + 1` holding segment `i` |
| `Segmenter.Block` | app.py:85-100 | the cursor loop produces exactly the heading followed by the closed-form segments (row `i` runs from `start + i*w` to `start + (i+1)*w`, `w = (end - start)/parts`) |
| `Segmenter.SegmentsLabelled` | app.py:91-96 | rows are numbered 1..parts in order, and row `i` is ruled by `HORA_CYCLE[(idx + i) % 7]` |
| `Segmenter.PlanetsRepeatEverySeven` | app.py:93 | along a block, the row 7 places later has the same planet |
| `Segmenter.WrapFromLastPosition` | app.py:93 | starting at position 6, eight rows give Moon, Saturn, Jupiter, Mars, Sun, Venus, Mercury, Moon |
| `Segmenter.SegmentsEqualWidth` | app.py:86-92 | every row spans exactly `(end - start) / parts` |
| `Segmenter.SegmentsContiguous` | app.py:88-98 | the first row starts at `start`, each row ends where the next starts, and the last ends exactly at `end` |
| `Segmenter.BlockSpansInterval` | app.py:88-98 | a block opens with its heading; its first row is numbered 1, starts at `start` under the planet at `idx`; its last row is numbered `parts` and ends at `end` |
| `Segmenter.SegmentsOrdered` | app.py:91-98 | for a forward interval each row ends no later than any later row starts |
| `Segmenter.SegmentsPartition` | app.py:85-98 | for a forward interval every instant in `[start, end)` lies in one row and in no other |
| `Panchangam.NightStartIndex` | app.py:111 | the night's start position `(s + 8) % 7` is below 7, equals `(s + 1) % 7`, and holds the planet 8 steps after the day's start |
| `Panchangam.ReportOf` | app.py:79-113 | a report has exactly seven entries: the date line with its weekday, sunrise, sunset, the printed starting planet, the day block, a blank line, the night block |
| `Panchangam.Predict` | app.py:61-116 | unresolved city: exactly the invalid-city text and no service query. Resolved city: the first query is for the date; a second, for the next date, is made only after the first query and the date parse succeed. A report exactly when every step succeeds, laid out by `ReportOf` from the weekday's starting planet and index. Otherwise the text of the failing step |
| `Panchangam.NightContinuesDay` | app.py:102-111 | the day's last row ends at sunset, where the night's first row starts; day row `k` has the planet at `s + k` and night row `k` the planet at `s + 8 + k`, so the sixteen rows follow the rotation without a break |
| `Panchangam.ReportSpansLocalSunTimes` | app.py:69-111 | every time in the report is shifted by the same 19800 s. The day block runs from local sunrise to local sunset and opens under the starting planet, the same one the report's starting-planet line prints. The night block runs from local sunset to the next local sunrise and opens at `(s + 1) % 7` |
| `Panchangam.ChennaiSaturday` | app.py:69-111 | worked example through the report itself: Saturday (weekday 5) starts at Saturn (index 0). Service times 00:15/12:45 UTC appear as sunrise 05:45 and sunset 18:15. Day row 1 is 05:45:00 to 07:18:45 under Saturn, day row 8 runs 16:41:15 to 18:15:00 under Saturn, and the night's first row is Jupiter's |

## Left out

- `get_coordinates` (app.py:9-15): a call to the Nominatim geocoding service. Its answer is the `located` input.
- `get_sun_times` (app.py:20-27): an HTTP request and ISO-8601 parsing. Its answer is the `sun` parameter; any failure there (network, missing field, bad timestamp) is a `Failure` carrying the error text.
- Calendar arithmetic of the `datetime` library: `strptime`, `weekday()` (app.py:73-74), the weekday name from `strftime('%A')` (app.py:80), and the next-day date text (app.py:106). They are the `calendar` input. The report keeps the weekday number rather than its name. No Gregorian successor function is modelled.
- Float and microsecond rounding of `total_seconds() / parts` and `timedelta(seconds=dur)` (app.py:86-87). The model uses exact reals, so its last row ends exactly at `end`. The source's rows may drift from that by rounding.
- Text rendering: `fmt` / `strftime("%H:%M:%S")` (app.py:55-56), the emoji prefixes of the report lines (app.py:80-83), the `"{i+1:02d} | … → … |"` row format (app.py:96), the trailing newline after the starting-planet line, and the newline joins (app.py:100, 113). The report is modelled as a list of structured entries, each holding full instants where the source prints only the time of day.
- The catch-all `except Exception` (app.py:115-116) is modelled only for failures of the service and of the date parse. Other exceptions the source could raise are not modelled, such as date overflow near year 9999.
- Failures inside `get_coordinates` (app.py:11): a geocoder timeout or service error is raised rather than returned as `None`, reaches the catch-all and yields the exception's text. `located` is an `Option<Coord>` and cannot express this, so the model gives an answer only for a resolved or an unresolved city.
- The Gradio user interface: `ui`, `gr.Blocks` and `demo.launch` (app.py:121-134).
- `Segmenter.Block` requires `parts > 0`. The source divides by `parts` and always passes 8; a zero would raise a division error caught by the catch-all, and that path is not modelled.
