# CellDBMS cell model

CellDBMS loads a CSV file of mobile phones into an in-memory database. Each
row becomes a `Program.Cell` (main.cs). The cell keeps a database index. It
also keeps an `Object[]` column array with one slot per attribute: OEM,
model, launch announced, launch status, body dimensions, body weight, SIM
type, display type, display size, display resolution, features/sensors and
OS. The constructor allocates the array and calls `CleanAndIngest`. That
method cleans each raw field by its own rule and stores the result, or
leaves the slot null. The accessors return a slot, the array, a column
header or the index. `CompareTo` orders two cells by body weight.

The project is laid out as follows.

- `options.dfy`: the `Option` type.
- `strings.dfy`: the .NET string operations the rules use:
  - `Split(sep)[0]`;
  - `Replace("\"", "")`;
  - ordinal `Contains`;
  - `Int32.TryParse` on a run of digits.
- `patterns.dfy`: the two regular expressions, written as scanners and proved
  against reference predicates:
  - the quoted run `"(?:[^\\"]|\\\\|\\")*"`;
  - the four-digit run `\d{4}`.
- `schema.dfy`: the attribute enumeration, the column headers, the boxed slot
  value (`Value`) and a typed `Record` of one cleaned row.
- `ingest.dfy`: one pure function per column rule, and `Normalize`, which
  cleans a whole row into a `Record`.
- `cell.dfy`: the class `Cell` over `array<Value>`. `CleanAndIngest` writes
  the slots in the source's order. It is proved to leave exactly
  `Normalize(row)` in the array.
- `samples.dfy`: concrete fields pushed through the rules.

Three behaviours of main.cs are easy to misread, and the model keeps them
as written.

- **OS.** The code cuts the *raw* OS text at its first comma (main.cs:205),
  after the quoted run has been stored (main.cs:202-204). When that prefix is
  not empty it replaces the quoted value. So `"A, B"` gives `"A`
  (`Samples.SampleQuotedOSWithComma`), not `A`. When the prefix is empty, the
  quote-stripped run stays even if it is empty: `,""` gives a present, empty
  OS (`Samples.SampleEmptyQuotedOS`).
- **DisplaySize.** The slot is left null, not 0, when the text before the
  first space is empty (main.cs:169).
- **Record store.** main.cs defines `CellData` with two fields and no
  operations, so there is no record store or query to model.

## Model

| member | source | states |
|---|---|---|
| Strings.BeforeFirst | main.cs:137 | `Split(sep)[0]` is a prefix of the text that holds no separator and is followed by the separator, unless it is the whole text |
| Strings.BeforeFirstUnique | main.cs:137 | those three facts determine the prefix: any string with them is `BeforeFirst` |
| Strings.BeforeFirstEmpty | main.cs:167-169 | the prefix is empty exactly when the text is empty or starts with the separator |
| Strings.BeforeFirstWholeIf | main.cs:137 | a text without the separator is its own prefix |
| Strings.RemoveAll | main.cs:112 | `Replace("\"", "")` leaves no quote, keeps every other character with its multiplicity, and changes nothing in a text without quotes |
| Strings.RemoveAllAppend | main.cs:112 | removing quotes distributes over concatenation, so the kept characters stay in order |
| Strings.RemoveAllDelimited | main.cs:112 | a run that starts and ends with a quote loses at least those two characters |
| Strings.ContainsFrom | main.cs:148 | the search from position i succeeds exactly when the pattern occurs at some position at or after i |
| Strings.Contains | main.cs:148 | `Contains("SIM")` is true exactly when "SIM" occurs somewhere in the text |
| Strings.DigitsValue | main.cs:118 | the value of a digit string of length n is below 10^n |
| Strings.ShowDigits | main.cs:118 | writing a number in `width` digits gives `width` ASCII digits |
| Strings.ShowDigitsValue | main.cs:118 | reading back the digits written for n < 10^width gives n |
| Strings.DigitsValueShow | main.cs:118 | writing back the value read from a digit string gives the same string, leading zeros included |
| Strings.TryParseInt32 | main.cs:117-118 | `Int32.TryParse` of the match gives 0 for the empty match; otherwise a number below 10^len whose zero-padded digits are the match |
| Patterns.FindDigitsFrom | main.cs:115-116 | the scan finds the first four-digit run at or after i, or reports None only when there is none |
| Patterns.FirstFourDigits | main.cs:115-116 | the `\d{4}` match is empty exactly when no four digits occur; otherwise it is the four digits at the leftmost such position |
| Patterns.FirstFourDigitsAt | main.cs:115-116 | the leftmost four-digit run is the one returned |
| Patterns.FirstFourDigitsOccurs | main.cs:127-128 | the returned run is a piece of the searched text |
| Patterns.ScanBody | main.cs:108 | the body scanner stops only on a quote at or after its start |
| Patterns.ScanBodySound | main.cs:108 | what the scanner accepts is a body of the pattern |
| Patterns.ScanBodyComplete | main.cs:108 | every body closed by a quote ends where the scanner stops, so backtracking cannot produce a different match from the same start |
| Patterns.FindRunFrom | main.cs:108-109 | a reported match starts with a quote at or after i and ends where the body scanner stops |
| Patterns.NoRunWhereScanFails | main.cs:108-109 | no match starts at a position that is not a quote or whose body the scanner rejects |
| Patterns.FindRunFromSound | main.cs:108-109 | the reported span is a match of the quoted-run pattern |
| Patterns.FindRunFromLeftmost | main.cs:108-109 | no match starts before the reported one, and None means no match at or after i |
| Patterns.FirstQuotedRun | main.cs:108-109 | `match.Groups[0].Value` is at least two characters long and starts and ends with a quote |
| Patterns.FirstQuotedRunSpec | main.cs:108-109 | `match.Success` is false exactly when nothing matches; otherwise the value is the match with the leftmost start, and from that start it can end in one place only |
| Patterns.NoQuoteNoRun | main.cs:109-111 | a text without a quote never matches |
| Patterns.StrippedRun | main.cs:111-112 | the quote-stripped match exists exactly when a match exists, holds no quote, is at least two characters shorter than the match, and is the match with every quote removed and every other character kept in order |
| Patterns.StrippedRunIsBody | main.cs:111-112 | the quote-stripped match is the body between the delimiting quotes with its escaped quotes removed |
| Schema.Attribute.Index | main.cs:27-40 | `(int)attribute` is a column below 12 |
| Schema.IndexInjective | main.cs:27-40 | distinct attributes have distinct columns |
| Schema.GetInjective | main.cs:8 | the column array determines the cleaned record: two records that agree on every slot are equal |
| Ingest.TryParseFloat | main.cs:136-137 | `float.TryParse` gives the parsed value, or 0 when the parse fails |
| Ingest.Preferred | main.cs:109-113 | a quoted run, when there is one, replaces the raw text with its quote-free contents |
| Ingest.PreferredUnquoted | main.cs:109-113 | text without quotes is used as it is |
| Ingest.CleanText | main.cs:99-105 | OEM and model are absent exactly when empty, and verbatim otherwise |
| Ingest.CleanLaunchAnnounced | main.cs:107-119 | the year is in 0..9999; it is 0 when the preferred text has no four digits, and otherwise those four digits are its zero-padded form |
| Ingest.CleanLaunchStatus | main.cs:121-129 | "Discontinued" and "Cancelled" are kept; any other text becomes its leftmost four digits or ""; the result is one of those shapes and occurs in the raw text |
| Ingest.CleanBodyDimensions | main.cs:131-133 | absent exactly for "-", verbatim otherwise |
| Ingest.CleanBodyWeight | main.cs:135-138 | the weight is the parse of the text before the first space, and of the whole text when it has no space; it is 0 when that prefix is empty (empty text or a leading space), because the parse of "" fails |
| Ingest.CleanBodySim | main.cs:140-150 | present exactly when the preferred text contains "SIM", and then equal to it |
| Ingest.CleanDisplayType | main.cs:152-163 | absent exactly when there is no quoted run and the text is "-"; otherwise the preferred text |
| Ingest.CleanDisplaySize | main.cs:166-173 | absent exactly when the text is empty or starts with a space; otherwise the parse of the text before the first space |
| Ingest.CleanOS | main.cs:199-209 | the raw text before the first comma when that is not empty; otherwise the stripped quoted run; absent exactly when both are missing; never both a comma and a quote |
| Ingest.Normalize | main.cs:94-210 | every cleaned row has non-empty OEM/model when present, a year in 0..9999, a status of one of the three shapes, dimensions other than "-", and a SIM type that contains "SIM" |
| Ingest.ColumnsIndependent | main.cs:94-210 | each attribute depends on its own raw field only |
| Ingest.VerbatimColumnsRecoverable | main.cs:99-133 | the raw OEM, model and dimensions can be read back from the record |
| Cells.CompareWeights | main.cs:218-226 | the result is 1, -1 or 0 exactly when the first weight is greater, smaller or equal |
| Cells.CompareWeightsAntisymmetric | main.cs:213-227 | swapping the operands negates the comparison |
| Cells.CompareWeightsTransitive | main.cs:213-227 | "not greater" is transitive, so cells sort consistently by weight |
| Cells.Cell.constructor | main.cs:43-48 | the new cell has the given index and a fresh array as long as the row; the array holds the cleaned row slot by slot, and the slots past the twelfth are null |
| Cells.Cell.CleanAndIngest | main.cs:94-210 | after the twelve rules run on a null array, the slot of every attribute is that attribute of `Normalize(row)`, and every other slot is still null |
| Cells.Cell.IngestOem | main.cs:99-101 | writes the OEM slot with the cleaned OEM and no other slot |
| Cells.Cell.IngestModel | main.cs:103-105 | writes the model slot with the cleaned model and no other slot |
| Cells.Cell.IngestLaunchAnnounced | main.cs:107-119 | writes the announced year into its slot and no other slot |
| Cells.Cell.IngestLaunchStatus | main.cs:121-129 | writes the cleaned status into its slot and no other slot |
| Cells.Cell.IngestBodyDimensions | main.cs:131-133 | writes the cleaned dimensions into their slot and no other slot |
| Cells.Cell.IngestBodyWeight | main.cs:135-138 | writes the parsed weight into its slot and no other slot |
| Cells.Cell.IngestBodySim | main.cs:140-150 | writes the SIM type into its slot only when it contains "SIM", and no other slot |
| Cells.Cell.IngestDisplayType | main.cs:152-163 | writes the cleaned display type, or null, into its slot and no other slot |
| Cells.Cell.IngestDisplaySize | main.cs:166-173 | writes the parsed size into its slot only when the prefix is not empty, and no other slot |
| Cells.Cell.IngestDisplayResolution | main.cs:175-187 | after the always-taken first write and its replacement, the slot holds the preferred text; no other slot changes |
| Cells.Cell.IngestFeatureSensors | main.cs:189-197 | writes the preferred text into the features slot and no other slot |
| Cells.Cell.IngestOS | main.cs:199-209 | after the quoted-run write and the comma-prefix overwrite, the slot holds the cleaned OS; no other slot changes |
| Cells.Cell.GetColumn | main.cs:51-53 | returns the attribute's slot, which in a valid cell is that attribute of the record |
| Cells.Cell.GetColumns | main.cs:56-58 | returns the cell's own array, not a copy, which in a valid cell holds the record slot by slot |
| Cells.Cell.GetColumnName | main.cs:61-63 | returns the attribute's header, which is never empty |
| Cells.Cell.GetIndex | main.cs:66-68 | returns the database index given at construction |
| Cells.Cell.Weight | main.cs:215-216 | the unboxed weight slot of a valid cell is the record's body weight |
| Cells.Cell.CompareTo | main.cs:213-227 | returns 1, -1 or 0 exactly when this cell's weight is greater, smaller or equal to the other's |
| Cells.ValidCellsComparable | main.cs:213-227 | two valid cells always hold float weights, so comparing them never fails the cast, and the comparison is antisymmetric |
| Cells.AlwaysWritten | main.cs:94-210 | in a valid cell the launch announced, launch status, body weight, display resolution and features slots are never null, because they are written on every path |
| Cells.ColumnNamesDistinct | main.cs:11-24 | the twelve headers are distinct, so a header names one attribute |
| Samples.SampleYearDigits | main.cs:117-118 | "2022" reads as 2022 |
| Samples.SampleAnnounced | main.cs:107-119 | "2022, February 09" is announced in 2022 |
| Samples.SampleStatus | main.cs:126-128 | "Released 2022" has status "2022" |
| Samples.SampleWeight | main.cs:135-138 | "167 g (5.89 oz)" is weighed by parsing "167" |
| Samples.SampleEmptyWeight | main.cs:135-138 | an empty weight text is stored as 0 |
| Samples.SampleSize | main.cs:166-173 | "5.8 inches" is sized by parsing "5.8" |
| Samples.SampleSim | main.cs:140-150 | "Nano-SIM" is kept as the SIM type |
| Samples.SampleDashDisplayType | main.cs:158-159 | a display type of "-" is null |
| Samples.SampleOS | main.cs:205-208 | "Android 14" is kept whole |
| Samples.SampleQuotedOSWithComma | main.cs:199-209 | a quoted OS with a comma ends up as the raw text before the comma, opening quote included |
| Samples.SampleEmptyQuotedOS | main.cs:199-209 | `,""` gives a present, empty OS |

## Left out

- Reading the CSV file, and every other kind of I/O, is not modelled. A cell is built from a row that is already split into fields.
- `ToStringVerbose` and `ToString` (main.cs:71-91) only format text for display and are not modelled.
- `CellData` (main.cs:231-234) has fields only, so there is nothing in it to model.
- `float.TryParse` is not modelled. It is the parameter `parseFloat`, which returns None where the parse fails. Its type, `FloatParser`, guarantees only that the empty text fails to parse. So which other texts parse, NaN, infinities, culture-dependent formats and rounding to 32 bits are outside the model.
- `\d` is modelled as the ASCII digits 0-9. .NET's `\d` also matches other Unicode decimal digits, and the model does not capture that.
- Cells.Cell.constructor: requires at least twelve raw fields. A shorter row makes the source throw an index exception, and exceptions are not modelled.
- Cells.Cell.CleanAndIngest: requires a freshly allocated, all-null array, which is what its only caller passes. Each Ingest method likewise requires its own slot to be null when the rule may leave it unwritten.
- Cells.Cell.CompareTo: requires both weight slots to hold floats, and an argument that is a Cell. A null argument, a non-Cell argument and a failed unboxing throw in the source; none of these is modelled.
- Cells.Cell.GetColumns: returns the array itself. Changes a caller makes through it are outside the model, because the cell's invariant covers only its own methods.
- Missing `;` at main.cs:47 and `Attributes.Model` at main.cs:103-104 against the enum member `Moodel`: these are compile errors in the source. They are modelled as evidently intended, a statement terminator and the second attribute.
