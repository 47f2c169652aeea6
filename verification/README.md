# Beam-current and luminosity series of `L_date`

`L_date` reads a CSV file of daily LER beam-current readings. The file has a
header line, then one row per day: the current and a `%Y-%m-%d` date. For each
row the program builds one entry in each of nine parallel series:

- a time axis: whole seconds since 1 January 1995, shared by the LER, HER and
  collision plots;
- the LER current and the HER current, which is the LER current × 1.83/2.58;
- the bunch currents: each current / 2346 × 1000;
- the bunch-current product and a luminosity estimate,
  `mA2 × Lsph(mA2) × 2346 / 10^35`.

The product and the luminosity are only computed for days strictly after
2024-10-22, the day collisions started (`day1`). On every earlier day, and on
2024-10-22 itself, both entries get the sentinel −100. A real product is never
negative (`Derive.ProductNonNegative`), so −100 in the product series always
means a day before collisions. Only the nominal 2346-bunch formula is live; the
branch for another filling scheme is commented out.

The Dafny project models that per-row pipeline:

- `calendar.dfy`: proleptic Gregorian dates. `DayNumber` is Boost's Julian day
  number formula. It is proved equal to an independent day count built from year
  and month lengths, and that count is proved strictly monotone.
- `time_axis.dfy`: from a date to the seconds on the time axis, and the
  collision gate.
- `date_text.dfy`: reading and writing `YYYY-MM-DD`.
- `csv.dfy`: `ParseCsv`, meaning one row per line with the header dropped, and a
  comma splitter for plain lines.
- `derive.dfy`: the derived currents, the product, the luminosity and the gate
  for one row.
- `pipeline.dfy`: the row check (exactly two fields) and the main loop that fills
  the nine series.
- `results.dfy`: result and option types.

Currents are exact rationals (`real`). The time axis is an exact integer. The
model takes three things as parameters:

- the line tokeniser;
- the text-to-number conversion `lexical_cast<double>`;
- the specific-luminosity model `Lsph`.

## Model

| member | source | states |
|---|---|---|
| Calendar.DayNumber | src/L_date.cpp:135-138 | Boost's Julian day number, whose differences give `date - epoch`; no contract of its own: Calendar.DayNumberCountsDays states what it counts |
| DateText.FormatDate | src/L_date.cpp:124 | writes a date in the `%Y-%m-%d` layout of the input facet; no contract of its own: DateText.ParseFormat and DateText.FormatParse state that it inverts ParseDate |
| Csv.SplitOnComma | src/L_date.cpp:43-45 | the tokeniser on plain lines; no contract of its own: Csv.PiecesJoin, Csv.JoinPieces and Csv.TwoFieldsOneComma state its behaviour |
| TimeAxis.UnixSeconds | src/L_date.cpp:135-138 | `(date - epoch).total_seconds()` at midnight; no contract of its own: TimeAxis.AxisSecondsIsMidnight and TimeAxis.AxisOrder state its value and order |
| TimeAxis.AxisSeconds | src/L_date.cpp:139 | `sec`, Unix seconds minus 788918400; no contract of its own: TimeAxis.AxisSecondsIsMidnight, TimeAxis.ReferenceDateIsOrigin and TimeAxis.AxisOrder state its value, origin and order |
| TimeAxis.Collides | src/L_date.cpp:152 | the gate `ptimed > day1`; no contract of its own: TimeAxis.CollidesAfterCollisionStart states when it is open |
| Derive.SampleOf | src/L_date.cpp:135-152 | a reading's time value, current and gate decision; no contract of its own: Derive.SampleOfReading states them |
| Derive.DeriveSample | src/L_date.cpp:141-172 | the loop body after the row is read; no contract of its own: Derive.DeriveProducts, Derive.SentinelMeansGateClosed and Pipeline.SeriesEntries state what it yields |
| Derive.DeriveRow | src/L_date.cpp:127-172 | the loop body for a reading on a date; no contract of its own: Derive.GateIgnoresCurrent, Derive.GatedOutExample and Derive.GatedInExample state its gating |
| Pipeline.Push | src/L_date.cpp:141-172 | one `push_back` on each of the nine series; no contract of its own: Pipeline.PushAppends states its effect |
| Csv.ParseCsv | src/L_date.cpp:33-52 | the rows are the tokenised lines in file order with the first (header) line dropped: exactly one row per line after the first, row i being the tokens of line i+1; at least one line is required because erasing the first row of an empty table is undefined |
| Csv.PiecesJoin | src/L_date.cpp:43-45 | splitting a line at commas loses no text: the fields joined with commas give back the line, no field contains a comma, and there is one more field than commas |
| Csv.JoinPieces | src/L_date.cpp:43-45 | the converse: comma-free fields joined with commas split back into exactly those fields |
| Csv.TwoFieldsOneComma | src/L_date.cpp:122 | a plain non-empty line passes the two-column check exactly when it holds one comma |
| Pipeline.ReadRow | src/L_date.cpp:122-133 | a row is accepted only if it has exactly two fields (any other width is the malformed-row failure, never coerced), field 0 converts to a number (the LER current) and field 1 parses as a date; the checks run in that order, so a two-field row with a bad number is a bad-current failure and one with a good number and a bad date is a bad-date failure with the parser's reason; an accepted row carries exactly those values |
| Pipeline.OneFieldRowRejected | src/L_date.cpp:122 | the one-field row `1.2345` fails the column check, whatever the number converter does |
| DateText.ParseDate | src/L_date.cpp:124-132 | a date field that is accepted always denotes a valid calendar day |
| DateText.ParseFormat | src/L_date.cpp:124-132 | every valid date written as `YYYY-MM-DD` is read back as the same date |
| DateText.FormatParse | src/L_date.cpp:124-132 | every accepted date field is the canonical spelling of its date, so formatting the parsed date reproduces the field (re-normalising is idempotent) |
| Calendar.DayNumberCountsDays | src/L_date.cpp:135-138 | Boost's day-number difference between a date and 1970-01-01 equals the number of days counted from year and month lengths |
| Calendar.EpochDayOrder | src/L_date.cpp:135-139 | the day count is strictly increasing in calendar order and injective: a date is earlier iff its count is smaller, and equal iff the counts are equal |
| TimeAxis.AxisSecondsIsMidnight | src/L_date.cpp:135-141 | the time-axis value of a date is (days from 1970-01-01) × 86400 − 788918400, so it is always a multiple of 86400 |
| TimeAxis.ReferenceDateIsOrigin | src/L_date.cpp:139-141 | 788918400 is exactly the 9131 days from 1970-01-01 to 1995-01-01, so 1995-01-01 maps to 0 |
| TimeAxis.AxisOrder | src/L_date.cpp:135-139 | time normalisation is strictly monotone in both directions: a strictly later date has a strictly larger axis value and conversely; distinct dates never share one |
| TimeAxis.AxisSecondsExactInDouble | src/L_date.cpp:137-139 | for every representable date the Unix seconds and the axis seconds lie strictly within ±2^53, so the 64-bit `time_t` and the conversion to `double` are exact |
| TimeAxis.CollidesAfterCollisionStart | src/L_date.cpp:152 | the comparison `ptimed > day1` holds exactly for dates after 2024-10-22; 2024-10-22 itself is gated out |
| Derive.HerCurrentLinear | src/L_date.cpp:128 | the HER current is linear in the LER current |
| Derive.ProductOfBunchCurrents | src/L_date.cpp:163-165 | the value pushed into the product series equals LER bunch current × HER bunch current, and the `mA2` fed to the luminosity model equals that product |
| Derive.ProductNonNegative | src/L_date.cpp:163-171 | a real bunch-current product is never negative (positive for a non-zero current), so it can never be mistaken for the −100 sentinel |
| Derive.SampleOfReading | src/L_date.cpp:135-152 | a row's time value is (days from 1970-01-01) × 86400 − 788918400, its current is the reading itself, and its gate is open exactly for days after 2024-10-22 |
| Derive.DeriveProducts | src/L_date.cpp:152-172 | with the gate open the product is LER bunch current × HER bunch current and the luminosity is `mA2 × Lsph(mA2) × 2346 / 1e35` at that product; with it closed both are −100, whatever the current |
| Derive.SentinelMeansGateClosed | src/L_date.cpp:152-172 | the product entry is −100 exactly when the gate is closed, and a closed gate also gives −100 as luminosity |
| Derive.GateIgnoresCurrent | src/L_date.cpp:152-172 | whether a row's product is the sentinel depends only on its date, never on its current: it is the sentinel exactly when the date is not after 2024-10-22 |
| Derive.GatedOutExample | src/L_date.cpp:152-173 | a 1.2345 reading on 2024-10-20 gets the sentinel in both the product and the luminosity |
| Derive.GatedInExample | src/L_date.cpp:127-165 | a 1.2345 reading on 2024-10-25 passes the gate and gives HER ≈ 0.8756, bunch currents ≈ 0.5262 and ≈ 0.3732, and product ≈ 0.1964 |
| Pipeline.PushAppends | src/L_date.cpp:141-173 | appending a row's values keeps the nine series the same length, leaves earlier entries unchanged and puts the row's values last |
| Pipeline.ProcessRows | src/L_date.cpp:120-174 | the loop succeeds iff every row reads. On success all nine series have one entry per row, and index i holds exactly what row i's reading derives. On failure it reports the first row that does not read, with that row's reason |
| Pipeline.ProcessFile | src/L_date.cpp:100-174 | for a file of n ≥ 1 lines: success iff every line after the header reads; on success the nine series have n − 1 entries and entry i is derived from line i + 1; a failure names the first data row that does not read, with its reason |
| Pipeline.SeriesEntries | src/L_date.cpp:141-172 | index-wise over finished series: vsler[i] = vsher[i] = vscol[i] = the row's time value; viher[i] = viler[i] × 1.83/2.58; vbler[i], vbher[i] = current / 2346 × 1000; with the gate open vbpro[i] = vbler[i] × vbher[i] and vlumi[i] = vbpro[i] × Lsph(vbpro[i]) × 2346 / 1e35; with it closed vlumi[i] = −100; vbpro[i] = −100 iff the gate is closed |
| Pipeline.SeriesTimeOrder | src/L_date.cpp:141-150 | on the shared time axis, entry i lies before entry j iff row i's date is earlier than row j's |

## Left out

- Rendering: ROOT canvases, graphs, axes, legends, styles and the event loop
  (`src/L_date.cpp:57-69`, `:176-326`). They only present the finished series.
- Command-line parsing with `boost::program_options` (`src/L_date.cpp:74-92`).
- Reading the file (`std::ifstream`, `std::getline`). The model starts from the
  file's lines as a sequence of strings.
- Csv.SplitOnComma: models `boost::escaped_list_separator` only on lines without
  quote or backslash characters. On such a line it is exact, including zero
  fields for an empty line. Quoting and escapes are not modelled. `ParseCsv` and
  the pipeline take any tokeniser as a parameter.
- `boost::lexical_cast<double>` is the parameter `toReal`. A `None` stands for
  its `bad_lexical_cast` exception. Rounding to `double` is not modelled, so
  currents are exact rationals.
- Lsph: its body `(4.77727·exp(−2.4878·mA2) + 4.33312)·1e31` is floating-point
  numerics. It is a parameter of the model, as an uninterpreted function.
- DateText.ParseDate: accepts exactly `YYYY-MM-DD` with a year from 1400 to 9999
  (Boost's year range). The leniencies of Boost's input facet are not modelled,
  such as fewer digits or trailing text.
- Pipeline.ReadRow: stops with an error when the date field does not parse. The
  program instead continues with `not_a_date_time`, and the values it then
  computes are library-defined, so they are not modelled.
- Pipeline.ReadRow: models the failed column assertion as an error result. A build
  with assertions enabled aborts there, so no series comes out of a malformed file
  in either case.
- Pipeline.ReadRow: does not model a build with `NDEBUG`, where the column check at
  `src/L_date.cpp:122` is compiled out. There a row of three or more fields is read
  as its first two fields, and a one-field row reads `data[1]` past the end of the
  row, which is undefined behaviour.
- Dead code: the unused constants `day0`, `day2`, `day3` and `nb393`, the unused
  model `Lspl`, and the commented-out 393-bunch filling-scheme branch
  (`src/L_date.cpp:95`, `:97-98`, `:108`, `:115-118`, `:155-160`). Only the nominal
  2346-bunch formula is live.
- The per-row input facet's lifetime. The facet is built at `src/L_date.cpp:124`
  with the default reference count, so the locale imbued into `iss` at `:131`
  owns it. The program still deletes it at `:133`, and destroying `iss` at the
  end of the iteration releases it a second time. This undefined behaviour is
  not modelled.
- `macro/plotLsp.C` reads a data file and fits an exponential with ROOT. It is
  I/O plus floating-point fitting.
- Other timestamp formats (`YYYY/MM/DD HH:MM:SS.ffffff`), several channels, and
  configuration files belong to sibling programs. They are not part of this model.
