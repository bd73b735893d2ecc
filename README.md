# Categorical encoders and the two-pass feature pipeline, in Dafny

This project models the integer and string core of a crime-risk pipeline
written in C++. It covers:

- **Label encoders.** There are three variants of the string-to-id
  vocabulary:
  - the freezable `LabelEncoder` of `Encoders.cpp`, with trimming, the `-1`
    sentinel, `"UNKNOWN"` and a text save/load format;
  - the older counter-based `LabelEncoder` of `LabelEncoder.cpp`;
  - the untrimmed `LabelEncoder` of `LabelEncoderGPU.cpp`.
- **The hierarchical canton encoder.** It maps a province id and a canton
  name to `provId * 1000 + localId`, with local ids dense per province.
- **The field parsers `parseDate` and `parseNumeric`.**
- **The training pipeline of `main.cpp`.** The input is a sequence of CSV
  lines.
  - Pass 1 fills the vocabularies and counts the rows with at least five
    fields.
  - Pass 2 writes the pre-sized feature matrix, the label vector and the
    per-canton label histories.
  - The windowing step turns the histories into (current, next) samples
    with a clamped target.
- **The lookup server of `Server/server_lookup.cpp`.**
  - It loads the INEC cache and the embedding cache.
  - The embedding loader applies the "latest date wins, ties go to the
    later row" rule.
  - The `/predict` handler looks the zone up, pads a missing INEC entry with
    zeros and fuses the two feature vectors.
- **The risk server of `Server/server.cpp`.**
  - `toUpper` and the case-insensitive zone filter.
  - The encoder warm-up over the zone table, after which the province
    encoder is frozen.
  - The `/riesgo` handler, which builds one 42-slot query vector for each
    matching zone.

## How the model is built

- **Modules.** There is one module per source file:
  - `Encoders` (Encoders.cpp and Server/HierarchicalCantonEncoder.cpp);
  - `BasicLabelEncoder` (LabelEncoder.cpp);
  - `GpuLabelEncoder` (LabelEncoderGPU.cpp);
  - `Helpers` (Helpers.cpp);
  - `Pipeline` and `Windowing` (main.cpp);
  - `LookupServer` (server_lookup.cpp);
  - `RiskServer` (server.cpp).

  Four shared modules model the standard library pieces the source relies
  on:
  - `Strings`: trimming and `std::map` key order;
  - `Tokenizer`: `std::getline` on a delimiter;
  - `Numbers`: `std::stoi`, `std::stol`, stream extraction `>>` and decimal
    printing;
  - `Wrappers`: `Option`.
- **Classes.** Every encoder is a `class` with the source's fields. Its
  methods carry `modifies` clauses. Each method's `ensures` ties the new
  state and the result to a specification function of the old state, for
  example `Encoders.VocabEncode` or `Encoders.CantonEncode`. The
  properties the source promises are lemmas about those functions.
- **State-changing pipeline code.**
  - The Pass 1 and Pass 2 loops, the matrix writes, the windowing loops and
    the cache loaders are methods with `while` loops.
  - The matrices and cubes are `array2`, and the label vector is an
    `array`.
  - Each loop is proved against a function over the lines it has consumed:
    `Pass1Loop`, `Accepted`, `Histories`, `Windows`, `InecLoad` and
    `EmbLoad`.
- **Inputs and the floating-point parser.** A file is given as its lines,
  or as `None` when it cannot be opened. `std::stod` and `std::stof` are a
  parameter `decimal: string -> Option<real>`; `None` stands for a thrown
  exception.
- **Integers.** They are unbounded. `std::stoi` and `std::stol` check the
  32-bit and 64-bit ranges explicitly. A `>>` read into an `int` follows
  the C++11 rule: a conversion that fails stores 0, and one out of range
  stores the nearest `int` limit; either fails the stream, so later reads
  assign nothing.
- **The zone table.** `ZONES` is an arbitrary sequence of `Zone` records.
- **The service encoder is never frozen.** main.cpp:141-142 freezes only
  the province and subtype encoders, so the service encoder stays unfrozen
  in Pass 2.
  - Pass 2 therefore uses the service encoder as Pass 1 left it, because
    every service name of a long row is already known (`Pipeline.Pass1Warm`).
  - Rows are dropped in Pass 2 only when their service field is blank.
- **One canton encoder for two files.** Server/HierarchicalCantonEncoder.cpp
  repeats Encoders.cpp:94-107 line for line, so one class,
  `Encoders.HierarchicalCantonEncoder`, models both.
- **Column 0 is filled with `parseNumeric`.** main.cpp:167 writes
  `parseNumeric(row[4])` into column 0. The comment on that line calls the
  column "Date", but `parseDate` is not called, and the model follows the
  code.

## Model

| member | source | states |
|---|---|---|
| `Strings.Trim` | Encoders.cpp:13-18 | The trimmed string is empty exactly when the input consists only of `" \t\r\n"` characters. |
| `Strings.TrimSpec` | Encoders.cpp:13-18 | The result of trimming is a contiguous slice of the input. Everything before and after that slice is trim-space. A non-empty result neither starts nor ends with a trim-space character. |
| `Strings.TrimIdempotent` | Encoders.cpp:13-18 | Trimming twice gives the same string as trimming once. |
| `Strings.LeastKey` | Server/server_lookup.cpp:204 | `inec_cache.begin()` is the key that is lexicographically least, under byte order, among all keys in the map. |
| `Tokenizer.FindFirst` | Encoders.cpp:70 | `find(',')` returns the index of the first comma, or the length of the string when it has none. |
| `Tokenizer.GetlineFields` | main.cpp:132 | The getline loop collects the pieces of a plain split at the delimiter, minus a last piece that is empty. |
| `Tokenizer.Fields` | main.cpp:132 | The cells the getline loop collects. Defined by its body; characterised by `Tokenizer.GetlineFields` and `Tokenizer.ReadTerminated`. |
| `Tokenizer.ReadTerminated` | Encoders.cpp:50-69 | Writing the lines with `"\n"` after each and reading them back with `getline` gives back exactly those lines, provided no line contains the delimiter. |
| `Numbers.StringToInteger` | Encoders.cpp:74 | `stoi` and `stol` succeed only with a value inside the target type's range. |
| `Numbers.Stoi` | Encoders.cpp:74 | `std::stoi` succeeds only with a value inside the `int` range. Defined by `Numbers.StringToInteger`; characterised by `Numbers.StoiOfNatToString`. |
| `Numbers.Stol` | Server/server_lookup.cpp:103-107 | `std::stol` succeeds only with a value inside the `long` range. Defined by `Numbers.StringToInteger`. |
| `Numbers.NatToString` | Encoders.cpp:51 | `out << i` prints a non-empty digit string whose value is `i`. |
| `Numbers.StoiOfNatToString` | Encoders.cpp:74 | `stoi` reads back any printed id up to `INT_MAX`. |
| `Numbers.ExtractInt` | Helpers.cpp:16 | One successful `>>` read of an `int` yields a value inside the `int` range and moves past at least one character. |
| `Numbers.StoreInt` | Helpers.cpp:16 | The value a `>>` read stores on a good stream: nothing when only white space is left, and otherwise an `int`, which is the value read whenever the read succeeds. |
| `Encoders.VocabEncode` | Encoders.cpp:11-32 | A blank input gives `-1` and changes no state. A known trimmed string gives its stored id unchanged. An unseen string on a frozen encoder gives `-1` and changes nothing. An unseen string on an unfrozen encoder gets the size of `reverse_map` as its id, is appended to `reverse_map` and is added to `forward_map`. |
| `Encoders.AddPreservesBijective` | Encoders.cpp:27-29 | Appending a new name under the next id keeps the forward map and the reverse list inverse to each other. |
| `Encoders.EncodeBijective` | Encoders.cpp:20-31 | Encoding keeps the bijection between the forward map and the reverse list. Decoding a returned id other than `-1` gives the trimmed input. |
| `Encoders.EncodeIdInRange` | Encoders.cpp:27-31 | Every returned id is `-1` or below the size of `reverse_map` and non-negative, so ids stay dense from 0. |
| `Encoders.UnfrozenSentinel` | Encoders.cpp:13-31 | On an unfrozen encoder, the id is non-negative exactly when the input is not blank. |
| `Encoders.EncodeTwice` | Encoders.cpp:20-22 | Encoding the same string again gives the same id and the same state, so `numClasses()` does not change. |
| `Encoders.EncodeAllBijective` | Encoders.cpp:11-32 | Any sequence of encodes keeps the bijection. |
| `Encoders.VocabDecode` | Encoders.cpp:34-39 | An id inside the table decodes to its stored name. A negative or too-large id decodes to `"UNKNOWN"`. |
| `Encoders.SaveLines` | Encoders.cpp:50-52 | Save writes one line per entry: line `i` is `i,reverse_map[i]`, in id order. |
| `Encoders.SaveLine` | Encoders.cpp:51 | The line written for entry `i`. Defined by its body; characterised by `Encoders.SaveLines` and `Encoders.SaveLineEntry`. |
| `Encoders.LineEntry` | Encoders.cpp:70-75 | The id and name load takes from one line. Defined by its body; characterised by `Encoders.LineEntrySpec`. |
| `Encoders.LineEntrySpec` | Encoders.cpp:70-75 | A line without a comma is skipped. A line whose first comma is at `k` has an entry exactly when `stoi` accepts the text before `k`; the id is that `stoi` value and the name is everything after the comma. |
| `Encoders.LoadLine` | Encoders.cpp:70-82 | Unparseable and negative ids leave the state unchanged. A valid line grows `reverse_map` to `id + 1` when needed, fills the gap with `""`, stores the name at `id` and maps the name to `id`. Every other slot and the frozen flag are kept. |
| `Encoders.LoadLines` | Encoders.cpp:69-83 | The line loop never shrinks the reverse table. Every stored id ends up below its final size. |
| `Encoders.Loaded` | Encoders.cpp:64-84 | Load starts from a cleared encoder and always ends frozen. |
| `Encoders.LastIndex` | Encoders.cpp:76-79 | `LastIndex(reverse)` has exactly the names of `reverse` as keys, and maps each to a position that holds it. For the lines `save` writes, this is the forward map load rebuilds (`Encoders.LoadSavedLines`). |
| `Encoders.LastIndexIsLast` | Encoders.cpp:79 | That position is the name's last one: later lines overwrite earlier ones, so the name occurs nowhere after it. |
| `Encoders.SaveLineEntry` | Encoders.cpp:74-75 | A saved line `i,name` parses back to `(i, name)`. |
| `Encoders.LoadSaveLine` | Encoders.cpp:76-79 | Loading the saved line of the next id appends that name exactly as `encode` would. |
| `Encoders.LoadSavedLines` | Encoders.cpp:69-83 | Loading the save output from a cleared encoder restores `reverse_map`. The forward map maps each name to its last position. |
| `Encoders.BijectiveLastIndex` | Encoders.cpp:79 | For a bijective vocabulary, the map that load rebuilds is the forward map it had. |
| `Encoders.SaveLoadRoundTrip` | Encoders.cpp:44-87 | Save followed by load restores the same `reverse_map` and leaves the encoder frozen, provided no name contains a newline. For a bijective encoder, load restores the whole encoder with `frozen = true`. |
| `Encoders.LabelEncoder.constructor` | Encoders.h:12-14 | A new encoder is empty and unfrozen. |
| `Encoders.LabelEncoder.Encode` | Encoders.cpp:11-32 | The new fields and the returned id are those of `VocabEncode` on the old fields. |
| `Encoders.LabelEncoder.Decode` | Encoders.cpp:34-39 | Decode returns `VocabDecode` of the current fields. |
| `Encoders.LabelEncoder.Freeze` | Encoders.cpp:41 | Freeze sets the flag and keeps both tables, so it is idempotent. |
| `Encoders.LabelEncoder.Unfreeze` | Encoders.cpp:42 | Unfreeze clears the flag and keeps both tables. |
| `Encoders.LabelEncoder.NumClasses` | Encoders.cpp:89 | `numClasses()` is the size of `reverse_map`. |
| `Encoders.LabelEncoder.Save` | Encoders.cpp:44-55 | The text written is the saved lines, each followed by `"\n"`. |
| `Encoders.LabelEncoder.Load` | Encoders.cpp:57-87 | A file that cannot be opened leaves the state untouched. Otherwise the new state is `Loaded` of the file's lines. |
| `Encoders.CantonEncode` | Encoders.cpp:94-107 | A blank name gives `-1` and leaves the hierarchy untouched. Otherwise the trimmed name ends up under `provId`, and the result is `provId * 1000 + localId`. A new name gets local id equal to the province's current child count. The children of every other province are unchanged. |
| `Encoders.CantonEncodeDense` | Encoders.cpp:101-104 | Local ids stay dense from 0 within each province. |
| `Encoders.CantonEncodeTwice` | Encoders.cpp:101-106 | Repeating the same call returns the same value and changes nothing further. |
| `Encoders.CompositeUnique` | Server/HierarchicalCantonEncoder.cpp:16-36 | While every province has at most 1000 cantons, different (province, name) pairs get different composite ids. |
| `Encoders.HierarchicalCantonEncoder.constructor` | Server/HierarchicalCantonEncoder.cpp:14 | The hierarchy starts empty. |
| `Encoders.HierarchicalCantonEncoder.Encode` | Server/HierarchicalCantonEncoder.cpp:19-37 | The new hierarchy and the id are those of `CantonEncode` on the old hierarchy. |
| `BasicLabelEncoder.LabelEncoder.constructor` | LabelEncoder.cpp:9-11 | The encoder starts with empty tables and `next_id == 0`. |
| `BasicLabelEncoder.LabelEncoder.Encode` | LabelEncoder.cpp:13-26 | A blank input gives `-1` and changes nothing. A repeated trimmed string gives its id and changes nothing. A new one gets `next_id`, which then increments, and the string is appended to `reverse_mapping`. The invariant that `next_id` equals the sizes of `reverse_mapping` and `mapping` is kept, and so is the inverse relation between the two tables. |
| `BasicLabelEncoder.LabelEncoder.Decode` | LabelEncoder.cpp:29-34 | An id inside the table decodes to its string. Any other id decodes to `"Unknown Service"`. |
| `BasicLabelEncoder.LabelEncoder.NumClasses` | LabelEncoder.cpp:36 | `numClasses()` is `next_id`, which equals the size of both tables. |
| `GpuLabelEncoder.LabelEncoder.constructor` | LabelEncoderGPU.h:15-16 | Both tables start empty. |
| `GpuLabelEncoder.LabelEncoder.Encode` | LabelEncoderGPU.cpp:3-12 | Labels are used verbatim, and the empty string gets an id too. A known label gives its id and changes nothing. A new label gets the size of `idToLabel` as its id and is appended. |
| `GpuLabelEncoder.LabelEncoder.Decode` | LabelEncoderGPU.cpp:14-18 | An id inside the table decodes to its label. A negative or too-large id decodes to `""`. |
| `GpuLabelEncoder.LabelEncoder.NumClasses` | LabelEncoderGPU.cpp:20-23 | `numClasses()` is the size of `idToLabel`. |
| `GpuLabelEncoder.LabelEncoder.EncodeThenDecode` | LabelEncoderGPU.cpp:8-17 | `decode(encode(s)) == s` for every string. |
| `Helpers.ReplaceSlashes` | Helpers.cpp:13 | Every `'/'` becomes a space, and no other character changes. |
| `Helpers.ParseDate` | Helpers.cpp:10-11 | `parseDate("")` is 0, and every defined result fits in an `int`. |
| `Helpers.ParseDateOfDigits` | Helpers.cpp:12-17 | For well-formed `d/m/y` digit input, the result is `y*10000 + m*100 + d` of the three digit runs. |
| `Helpers.ParseDateWithoutYear` | Helpers.cpp:12-17 | When the text after the second slash cannot start a number, the third read stores 0 and the result is `m*100 + d`. |
| `Helpers.ParseDateWithoutYearUndefined` | Helpers.cpp:15-17 | When only white space follows the second slash, `y` is never assigned and the result is undefined. |
| `Helpers.ParseDateExample` | Helpers.cpp:9-17 | `parseDate("05/03/2024")` is 20240305. |
| `Helpers.ParseDateWithoutYearExample` | Helpers.cpp:12-17 | `parseDate("05/03/x")` is 305. |
| `Helpers.ParseNumeric` | Helpers.cpp:20-30 | The empty string gives 0, and so does an all-whitespace string. An unparseable string gives 0 as well. Otherwise the result is the value the decimal parse gives. |
| `Pipeline.CountColumns` | main.cpp:119-121 | The header loop counts the header's getline fields. |
| `Pipeline.NumStatsCols` | main.cpp:122 | `numStatsCols = max(0, headerFields - 5)`. |
| `Pipeline.NumFeatures` | main.cpp:124 | `n_feats = 27 + numStatsCols`. |
| `Pipeline.Pass1Encode` | main.cpp:135-139 | One long row applies, in order, the province encode, the canton encode under the province id, the service encode and the subtype encode. |
| `Pipeline.Pass1Row` | main.cpp:133-139 | One long row of Pass 1. Defined by its body; characterised by `Pipeline.Pass1Encode` and `Pipeline.Pass1RowGrows`. |
| `Pipeline.Pass1Loop` | main.cpp:127-140 | The encoders after the Pass 1 loop, short rows skipped. Defined by its body; characterised by `Pipeline.Pass1Scan`, `Pipeline.Pass1LoopKnown` and `Pipeline.Pass1LoopServBijective`. |
| `Pipeline.Pass1RowGrows` | main.cpp:135-138 | A Pass 1 row only adds entries to the encoders. It does not change their frozen flags. |
| `Pipeline.Pass1Scan` | main.cpp:127-140 | The Pass 1 loop leaves the encoders as `Pass1Loop` of the rows. `totalRows` is exactly the number of rows with at least 5 fields. |
| `Pipeline.Pass1LoopKnown` | main.cpp:127-140 | After the loop, the encoders know every long row's province, canton, service and subtype. |
| `Pipeline.Pass1` | main.cpp:115-142 | Pass 1 gives four distinct fresh encoders in the state `Pass1Result` of the body, and it gives the long-row count. |
| `Pipeline.Pass1Warm` | main.cpp:141-142 | After Pass 1 the province and subtype encoders are frozen, and the service encoder is not. Re-encoding any long row in Pass 2 changes no encoder. |
| `Pipeline.Pass1LoopServBijective` | main.cpp:137 | The service encoder stays bijective through Pass 1. |
| `Pipeline.Accepted` | main.cpp:160-163 | The rows Pass 2 keeps are no more than the rows read, and each of them has at least 5 fields. |
| `Pipeline.AcceptedAccepts` | main.cpp:160-163 | Every kept row has at least 5 fields and a service that encodes to an id other than `-1`. |
| `Pipeline.AcceptedFrom` | main.cpp:154-160 | Every kept row is a row of the file. |
| `Pipeline.AcceptedPrefix` | main.cpp:154 | The rows kept from a prefix of the file are a prefix of the rows kept from the whole file. |
| `Pipeline.AcceptedCount` | main.cpp:160-163 | When the service encoder is unfrozen, the rows kept are exactly the long rows with a non-blank service. |
| `Pipeline.AcceptedAtMostLong` | main.cpp:154-163 | No more rows are kept than there are long rows, so the final `idx` is at most `totalRows`. |
| `Pipeline.WriteOneHot` | main.cpp:169 | Rows 1..24 of the column are 1 exactly at `1 + provId`. They are all 0 when `provId` is outside 0..23. Nothing else changes. |
| `Pipeline.WriteStats` | main.cpp:175-178 | Row `27 + k` is written with `parseNumeric(row[5 + k])` only when field `5 + k` exists. No other column changes. |
| `Pipeline.WriteColumn` | main.cpp:167-178 | Column `idx` receives `parseNumeric(row[4])`, the one-hot province, the canton id, the subtype id and the statistics. Every other column is kept. |
| `Pipeline.Pass2Row` | main.cpp:160-178 | A long row is kept exactly when its service encodes to an id other than `-1`. A kept row writes its label and its column at `idx`. A dropped row writes nothing. The encoders are unchanged. |
| `Pipeline.HistoriesSnoc` | main.cpp:181 | A kept row appends its label to the history of its composite canton id. |
| `Pipeline.Histories` | main.cpp:181 | The per-canton label histories of the kept rows. Defined by its body; characterised by `Pipeline.HistoriesSnoc`, `Pipeline.HistoriesByCanton`, `Pipeline.HistoriesTotal` and `Pipeline.HistoriesBounded`. |
| `Pipeline.HistoriesByCanton` | main.cpp:181 | Each canton's history is the labels of its kept rows, in file order. A canton has a history exactly when it has a kept row. |
| `Pipeline.HistoriesTotal` | main.cpp:181-182 | The lengths of all histories add up to the number of kept rows, which is the final `idx`. |
| `Pipeline.HistoriesBounded` | main.cpp:181 | When every kept label lies in a range, so does every history entry. |
| `Pipeline.LabelInRange` | main.cpp:162-164 | A kept row's label is a valid service id. |
| `Pipeline.Pass2Step` | main.cpp:160-182 | One row of the loop extends the kept rows, the filled columns and the histories exactly by that row when it is kept. |
| `Pipeline.Pass2Line` | main.cpp:156-183 | One getline step of Pass 2 keeps the loop invariant: `idx` is the number of rows kept so far, and those columns and histories are filled. |
| `Pipeline.Pass2Loop` | main.cpp:154-183 | The loop stops at the end of the file or when `idx` reaches `totalRows`, and never writes at or past `totalRows`. On exit, the columns `0..idx` and the histories are those of the rows kept so far. |
| `Pipeline.Pass2` | main.cpp:144-184 | The matrix is `n_feats x totalRows`, and the encoders are unchanged. `idx` is the number of kept rows, capped at `totalRows`. Columns `0..idx` hold those rows, and the histories are theirs. |
| `Pipeline.Pass2Facts` | main.cpp:154-182 | After Pass 1, the number of kept rows is the number of long rows with a non-blank service. Every label, and every history entry, lies in `[0, numClasses)`. |
| `Pipeline.BothPasses` | main.cpp:115-184 | Pass 1 followed by Pass 2 fills columns `0..idx` with exactly the kept rows, and the histories are theirs. |
| `Pipeline.Run` | main.cpp:115-242 | The whole pipeline combines three results: the matrix sized from the header and the long-row count, the filled columns and histories, and the window cubes built from those histories. |
| `Windowing.SortedKeys` | main.cpp:204 | The map is iterated in ascending key order, and every key appears exactly once. |
| `Windowing.SampleCount` | main.cpp:206 | A history of length `n > 1` contributes `n - 1` samples, and a shorter one contributes none. |
| `Windowing.CountSamples` | main.cpp:203-207 | `totalLstmSamples` is the sum of those counts. |
| `Windowing.Clamp` | main.cpp:233-236 | The target is clamped into `[0, numClasses - 1]`. A value already in range is kept. |
| `Windowing.PairsAt` | main.cpp:228-238 | Sample `i` of a history is `(h[i], cantonId, clamp(h[i + 1]))`. |
| `Windowing.PairsUnclamped` | main.cpp:233-236 | For a history of valid labels, the clamp changes nothing. |
| `Windowing.Windows` | main.cpp:224-242 | The samples of all histories, in key order. Defined by its body; characterised by `Windowing.WindowsCount`, `Windowing.TargetsInRange`, `Windowing.FillCubes` and `Windowing.Window`. |
| `Windowing.WindowsCount` | main.cpp:203-242 | The number of samples emitted equals `totalLstmSamples`. |
| `Windowing.TargetsInRange` | main.cpp:234-236 | Every emitted target lies in `[0, numClasses)`. |
| `Windowing.WriteHistory` | main.cpp:226-241 | The inner loop writes one history's samples at `c_idx` onward and advances `c_idx` by their number. |
| `Windowing.FillCubes` | main.cpp:224-242 | The outer loop writes every history's samples in key order, and `c_idx` ends at `totalLstmSamples`. |
| `Windowing.Window` | main.cpp:203-242 | The cubes are sized to `totalLstmSamples` and hold exactly the windows, in order. |
| `LookupServer.Cells` | Server/server_lookup.cpp:68-74 | There is one feature per field in the range. A field whose `stof` throws gives 0. |
| `LookupServer.ParseCells` | Server/server_lookup.cpp:66-74 | The feature loop builds exactly `Cells` of the row. |
| `LookupServer.InecLine` | Server/server_lookup.cpp:59-75 | One line of `load_inec`. Defined by its body; characterised by `LookupServer.InecLoadKeys`, `LookupServer.InecLoadLast` and `LookupServer.InecLoadUntouched`. |
| `LookupServer.InecLoad` | Server/server_lookup.cpp:58-76 | The INEC cache after the body lines. Defined by its body; characterised by the same three lemmas. |
| `LookupServer.InecLoadKeys` | Server/server_lookup.cpp:58-76 | After loading, a zone is in the cache exactly when it was there before or some row with at least 3 fields has it as `row[0]`. |
| `LookupServer.InecLoadLast` | Server/server_lookup.cpp:75 | A zone's features come from its last row with at least 3 fields, taken from field 2 onward, because later rows overwrite earlier ones. |
| `LookupServer.InecLoadUntouched` | Server/server_lookup.cpp:63-75 | A zone with no long enough row keeps its old features. |
| `LookupServer.EmbLoadValid` | Server/server_lookup.cpp:114-124 | The embedding cache and the date cache keep the same key set. Every embedding has 32 entries. |
| `LookupServer.EmbLoadMax` | Server/server_lookup.cpp:111-124 | The stored date of a zone is at least its old date and at least the date of every row for it with at least 34 fields. |
| `LookupServer.EmbLoadAttained` | Server/server_lookup.cpp:111-124 | The stored date is the zone's old date or the date of one of its rows, so it is the maximum. |
| `LookupServer.EmbLoadOlder` | Server/server_lookup.cpp:111-112 | Rows older than the stored date change nothing for their zone. |
| `LookupServer.EmbLoadTieLater` | Server/server_lookup.cpp:111-123 | The stored embedding is that of the last row carrying the maximal date, so ties go to the later row. |
| `LookupServer.Updates` | Server/server_lookup.cpp:98-112 | The update rule: a row with at least 34 fields replaces its zone's entry when the zone is new or the row's date is not older. Defined by its body; characterised by `LookupServer.EmbLoadMax`, `LookupServer.EmbLoadOlder` and `LookupServer.EmbLoadTieLater`. |
| `LookupServer.EmbLine` | Server/server_lookup.cpp:96-124 | One line of `load_embeddings_lookup`. Defined by its body; characterised by `LookupServer.EmbLoadValid`, `LookupServer.EmbLoadMax`, `LookupServer.EmbLoadAttained`, `LookupServer.EmbLoadOlder` and `LookupServer.EmbLoadTieLater`. |
| `LookupServer.EmbLoad` | Server/server_lookup.cpp:96-124 | The caches after the body lines. Defined by its body; characterised by the same five lemmas. |
| `LookupServer.LookupCaches.constructor` | Server/server_lookup.cpp:34-41 | All three global maps start empty. |
| `LookupServer.LookupCaches.LoadInec` | Server/server_lookup.cpp:50-79 | A file that cannot be opened changes nothing. Otherwise the header is skipped and the cache is `InecLoad` of the remaining lines. |
| `LookupServer.LookupCaches.LoadEmbeddings` | Server/server_lookup.cpp:81-130 | A file that cannot be opened changes nothing. Otherwise the header is skipped and both caches are `EmbLoad` of the remaining lines. Cache validity is kept. |
| `LookupServer.InecPart` | Server/server_lookup.cpp:197-207 | A zone with INEC data gets its own features. A zone without it gets zeros: as many as the least-keyed entry has, or 5 when the cache is empty. |
| `LookupServer.FusedWidth` | Server/server_lookup.cpp:209-212 | When all INEC entries have width `w`, every answered zone gets `32 + w` features. |
| `LookupServer.LookupCaches.Predict` | Server/server_lookup.cpp:178-212 | An empty zone gives 400, and a zone without an embedding gives 404. Otherwise the answer carries the embedding followed by the INEC part, and the zone's stored date. |
| `RiskServer.ToUpper` | Server/server.cpp:272-275 | `toUpper` keeps the length and upper-cases each character on its own. |
| `RiskServer.ToUpperIdempotent` | Server/server.cpp:272-275 | Upper-casing twice gives the same string as upper-casing once. |
| `RiskServer.ToUpperChanges` | Server/server.cpp:273 | A character changes exactly when it is an ASCII lower-case letter. No lower-case letter remains. |
| `RiskServer.Matches` | Server/server.cpp:328-331 | The `matchProv && matchCant` filter. Defined by its body; characterised by `RiskServer.EmptyFiltersMatch` and `RiskServer.MatchesIgnoresCase`. |
| `RiskServer.EmptyFiltersMatch` | Server/server.cpp:328-331 | Empty filters match every zone. |
| `RiskServer.MatchesIgnoresCase` | Server/server.cpp:328-331 | Matching ignores case, both in the filters and in the zone's names. |
| `RiskServer.WarmStepFacts` | Server/server.cpp:285-287 | One warm-up step keeps the encoders consistent and forgets nothing. The zone's province and canton are known afterwards. |
| `RiskServer.WarmStep` | Server/server.cpp:285-287 | One warm-up step. Defined by its body; characterised by `RiskServer.WarmStepFacts` and `RiskServer.WarmZone`. |
| `RiskServer.Warm` | Server/server.cpp:284-288 | The encoders after the warm-up loop. Defined by its body; characterised by `RiskServer.WarmKnown` and `RiskServer.WarmAll`. |
| `RiskServer.WarmKnown` | Server/server.cpp:284-288 | After the warm-up loop, every zone of the table is known to both encoders. |
| `RiskServer.FrozenKnown` | Server/server.cpp:290 | Freezing the province encoder keeps every zone known. |
| `RiskServer.WarmZone` | Server/server.cpp:285-287 | The loop body encodes the province twice, then the canton under the second id. |
| `RiskServer.WarmAll` | Server/server.cpp:284-288 | The loop warms the encoders on the zones in table order. |
| `RiskServer.WarmUp` | Server/server.cpp:279-290 | Two fresh encoders are warmed on the table, and then the province encoder is frozen. |
| `RiskServer.QuerySlots` | Server/server.cpp:350-362 | The query vector has 42 slots. Slot 0 is 202510, and slot 25 is the canton id. Slot `1 + pIdx` is 1 exactly when `0 <= pIdx < 24`. Every other slot is 0. |
| `RiskServer.BuildQuery` | Server/server.cpp:350-362 | The array filled in place equals the query vector. |
| `RiskServer.EncodeZone` | Server/server.cpp:338-342 | The handler encodes the province, then the canton under that province id. |
| `RiskServer.EncodeIds` | Server/server.cpp:338-342 | The two encodings of a matching zone. Defined by its body; characterised by `RiskServer.EncodeZone` and `RiskServer.EncodeKnownZone`. |
| `RiskServer.EncodeKnownZone` | Server/server.cpp:338-347 | For a known zone, encoding changes no encoder. Both ids are non-negative exactly when neither name is blank, and then they are the stored ids. |
| `RiskServer.HandleZone` | Server/server.cpp:328-347 | One zone of the handler loop. Defined by its body; characterised by `RiskServer.HandleZoneStable` and `RiskServer.RiesgoZone`. |
| `RiskServer.Handle` | Server/server.cpp:322-347 | The handler over the table in order. Defined by its body; characterised by `RiskServer.HandleStable`, `RiskServer.ServedStable` and `RiskServer.Riesgo`. |
| `RiskServer.HandleZoneStable` | Server/server.cpp:328-347 | For a known zone, the handler step changes nothing. It answers exactly when the zone matches and both names are not blank. |
| `RiskServer.HandleStable` | Server/server.cpp:322-347 | Over known zones, the handler changes no encoder. It emits each matching zone with non-blank names exactly once, in table order, carrying the encoders' ids. |
| `RiskServer.ServedStable` | Server/server.cpp:284-347 | After the warm-up, every request gives those answers and leaves the encoders as they were. |
| `RiskServer.IgnoresTableIds` | Server/server.cpp:338-362 | The table's own `idCanton` and `idProvincia` columns do not affect the answers. |
| `RiskServer.PointsIndex` | Server/server.cpp:349-362 | Each answer's query vector is built from that answer's ids. |
| `RiskServer.RiesgoZone` | Server/server.cpp:328-362 | One zone of the handler loop gives the answer `HandleZone` specifies, and its query vector. |
| `RiskServer.Riesgo` | Server/server.cpp:322-385 | The handler loop gives the answers `Handle` specifies, in table order, with one query vector per answer. |

## Left out

- **File I/O**
  - Files are given as their lines, or as `None` when they cannot be opened.
  - The stream state after `file.clear()` and `seekg(0)` is not modelled; Pass 2 re-reads the same lines.
  - Console logging is left out, including the `loaded_count` counter of the embedding loader.
- **Floating point**
  - `stod`, `stof` and `stol` are opaque: `decimal` for the first two, and an integer scan with a range check for `stol`.
  - The float casts of ids and features are not modelled. This covers `(float)encServ.encode(...)`, `fmat` cells and `vector<float>`. The model uses `int` and `real`, which agree with the source while ids stay below 2^24.
- **Cube normalisation**
  - The divisions `history[i] / numClasses` and `cantonId / maxCant` at main.cpp:230-231 are left out, because they are float arithmetic.
  - The cubes hold the numerators instead.
  - `maxLabelFound` is only logged and is left out.
- **Training and classification**
  - The CUDA and LibTorch checks and the LSTM module are left out, together with mlpack `Split`, random-forest and RNN training, and model save and load.
  - Also left out are `rf.Classify`, `rf_model->predict` and the probability and percentage output.
  - The `"ALTO"`/`"BAJO"` threshold is left out because it is a float comparison on a model output. `/predict` and `/riesgo` return the feature vector that would be classified.
- **Diagnostics, HTTP and startup**
  - `CheckOrthogonality` and the float duplicate `backend/Helpers.cpp` are left out.
  - HTTP and JSON plumbing are left out, including the parameter reading and the response headers.
  - The `system_ready` check (500 status) at Server/server_lookup.cpp:167-171 and the server's refusal to start without embeddings at Server/server_lookup.cpp:155-160 are left out. These belong to startup, which is not modelled.
- **Concurrency**
  - httplib serves requests on several threads, and `/riesgo` calls the canton encoder from the handler.
  - The model handles one request at a time.
- **The zone table.** The literal rows of `ZONES` are left out; the table is an arbitrary sequence of zones.
- **Integer width, undefined behaviour and allocation failure**
  - The `int` overflow of `provId * 1000` in the canton encoder is not modelled, because integers are unbounded.
  - `load` with id `-1` writes out of bounds, and with id `INT_MAX` `id + 1` overflows. Both are excluded by the precondition `LoadDefined`.
  - An id `<= -2` makes `resize` throw `length_error`, and the line is skipped. A huge positive id that exhausts memory (`bad_alloc`) is not modelled.
  - `parseDate` has undefined behaviour on two kinds of input. On the first, the first or second read fails, or only white space is left for the third, so `y` is read without ever being assigned. On the second, `y*10000 + m*100 + d` overflows `int` at some step. `Helpers.ParseDate` returns `None` on these inputs and does not model what the compiled code would return.
- **Repeated ids in a loaded file.** When two lines of a file carry the same id, load keeps the name the later line overwrote in `forward_map`, as Encoders.cpp:76-79 does. `decode(encode(name))` can then differ from `name`. `Encoders.LoadLine` models this, but the round-trip lemmas cover only files `save` writes.
- **Unwritten matrix cells.** The model states nothing about cells that the source never writes: statistics past the row's fields, and columns at or past the final `idx`.
- **Character sets**
  - Strings are sequences of characters.
  - Byte-wise `std::string` comparison is modelled as lexicographic order on those characters.
  - `::toupper` is the ASCII-only C-locale mapping, and locale-dependent and multibyte characters such as `Ñ` are not modelled.
- `LookupServer.LookupCaches.Predict` requires that both caches have the same key set, which the loaders establish (`LookupServer.EmbLoadValid`). Under that precondition, the source's `latest_date_cache[zona]` never inserts a new key. The 32-entry width of the embeddings is not required.
- `Strings.Trim`: its own contract states only when the result is empty. The slice and its ends are stated by the lemma `Strings.TrimSpec`.
- `Encoders.LoadLines`: for an arbitrary file it states only that the table never shrinks and that every loaded id lies below the final size. The per-line effect is the contract of `Encoders.LoadLine`, and the full result for a saved file is `Encoders.LoadSavedLines`.
- `Pipeline.Accepted`: its own contract states only sizes. What a kept row satisfies is the lemma `Pipeline.AcceptedAccepts`.
