# Obras urbanas: cleaning, loading and the life of a public work

This project models the core of a small Python pipeline built around the
open-data CSV of public works in the City of Buenos Aires.

- `GestionarObra.limpiar_datos` cleans the CSV column by column. It:
  - folds accents;
  - drops columns;
  - drops duplicate rows, keeping the first;
  - normalises amounts, dates, terms, percentages, districts,
    neighbourhoods, addresses, coordinates and separators;
  - removes one corrupt row;
  - fills defaults.
- `GestionarObra.cargar_datos` walks over the cleaned rows. For each row it
  finds or creates the lookup rows with peewee's `get_or_create`, then
  stores an `Obra` inside `try`. A row whose save fails is reported and
  skipped, but its lookup rows stay.
- `modelo_orm.py` is the schema the loader writes to: tables, foreign
  keys, NOT NULL and UNIQUE columns.
- `modelo_orm2.py` is a richer `Obra` with a lifecycle. `save` runs
  `validate` and writes only a valid row. Each transition assigns fields,
  finds or creates its stage in the `Etapa` table, and saves.
- `read_observatorioObrasUrbanas_csv.py` is a separate cleaning script for
  the same CSV. Its rules resemble those of `limpiar_datos` but differ in
  detail.

## Modules

| Module | What it models |
|---|---|
| `Wrappers` | `Option`. |
| `Text` | The pandas string operations the scripts use: `strip`, `lower`/`upper`, character replacement and deletion, `re.sub(r"\s+", " ")`, `re.sub(r"\s*;\s*", ";")` and `str.contains` with `.` wildcards. |
| `Numbers` | See the list below. |
| `Cells` | Raw rows (`map<string, Option<string>>`, with `None` for NaN) and cleaned rows (`map<string, Cell>`). Also column selection, `drop_duplicates(keep="first")` and boolean masks. |
| `Limpieza` | One function per column rule of `limpiar_datos`, and the pass over the table as a method. |
| `Lookup` | `get_or_create` on an append-only table. |
| `Schema` | The tables of `modelo_orm.py` and their constraints. |
| `Carga` | The loader, as a `Database` class whose methods update the tables. |
| `Ciclo` | The lifecycle of `modelo_orm2.py`, with the `Obra` and `Etapa` tables as classes. |
| `Observatorio` | The stand-alone script, and lemmas that compare each of its rules with the rule of `limpiar_datos`. |

`Numbers` models how the scripts read and write numbers:

- `ParseNumber` is `pd.to_numeric(errors="coerce")`.
- `ParseInteger` is `int(str)`.
- `IntToText` is `str(int)`.
- `Trunc` is `astype(int)`.
- `Ceil` is `np.ceil`.

Two tables in the cleaning pass never change a value:

- The district table (gestionar_obras.py:126-142) maps multi-district text
  such as "7, 8 y 9" to one district (line 134). The code applies it at
  line 142, after the numeric conversion of line 123, which has already
  turned every such text into NaN and then 0. So the table never applies
  (`Limpieza.ComunaVariantsUnused`).
- The neighbourhood table has capitalised keys, but it is matched after
  lower-casing. So only its `"."` entry can fire
  (`Limpieza.BarrioVariantsReachable`).

## Model

| member | source | states |
|---|---|---|
| Cells.SelectColumns | gestionar_obras.py:44-51 | The kept row has exactly the columns the predicate accepts, with their values unchanged. |
| Cells.DropDuplicates | gestionar_obras.py:59 | No longer than the input; every input row occurs in the output and every output row in the input. |
| Cells.DropDuplicatesOrdered | gestionar_obras.py:59 | The rows kept are pairwise distinct and appear in the order of their first occurrence in the input. |
| Cells.DropDuplicatesDistinct | gestionar_obras.py:59 | A table without repeated rows is left as it is. |
| Cells.DropDuplicatesIdempotent | gestionar_obras.py:59 | Dropping duplicates twice is dropping them once. |
| Cells.Select | gestionar_obras.py:197 | A boolean mask keeps only rows it accepts, and every row it accepts. `SelectCount` and `SelectAppend` give multiplicity and order. |
| Cells.SelectCount | gestionar_obras.py:197 | An accepted row occurs in the result as often as in the input; a refused row does not occur. |
| Cells.SelectAppend | gestionar_obras.py:197 | Filtering a concatenation concatenates the filtered parts, so the rows kept stay in input order. |
| Cells.SelectMap | gestionar_obras.py:197 | Filtering the cleaned rows equals cleaning the rows whose cleaned form passes the filter. |
| Cells.DedupApplyFilter | gestionar_obras.py:59-197 | Deduplicate, clean every row, then filter. Every output row is the cleaned form of a distinct input row, in first-occurrence order, and passes the filter. Every input row whose cleaned form passes is represented. |
| Text.Strip | gestionar_obras.py:65 | `strip()` returns the block between the leading and trailing whitespace; the result has no whitespace at either end. |
| Text.StripIdempotent | gestionar_obras.py:65 | Stripping twice is stripping once. |
| Text.DeleteDollarAndSpaceSpec | gestionar_obras.py:67 | Deleting `[$\s]` leaves neither dollar signs nor whitespace, and keeps every other character the same number of times. |
| Text.DeleteRemovesOnly | gestionar_obras.py:69 | Deleting a character removes all of its occurrences and keeps the counts of every other character. |
| Text.ReplaceCharCounts | gestionar_obras.py:70 | Replacing `,` by `.` moves every comma and touches no other character. |
| Text.LowerNormalizes | gestionar_obras.py:146 | Lower-casing leaves no capital, ASCII or Latin-1. It keeps stripped and collapsed text so, and leaves lower-case text unchanged. |
| Text.Lower | gestionar_obras.py:146 | Lower-casing keeps the length and maps each character on its own. |
| Text.LowerLatin1 | gestionar_obras.py:146 | "NUÑEZ" lower-cases to "nuñez": Latin-1 capitals are folded too. |
| Text.CollapseCollapsed | gestionar_obras.py:147 | After `re.sub(r"\s+", " ")` every whitespace character is a single plain space. |
| Text.CollapseKeepsText | gestionar_obras.py:147 | `re.sub(r"\s+", " ")` keeps every non-whitespace character, in order. |
| Text.CollapseFixpoint | gestionar_obras.py:147 | Collapsed text is left unchanged, so the rule is idempotent. |
| Text.CollapseKeeps | gestionar_obras.py:146-147 | Collapsing keeps stripped text stripped and lower-case text lower-case. |
| Text.CollapseSpaced | gestionar_obras.py:147 | Two words separated by any run of whitespace come out separated by one space. |
| Text.StripBetween | gestionar_obras.py:146 | Text without whitespace at its ends, between two runs of whitespace, strips to itself. |
| Text.Collapse | gestionar_obras.py:147 | The result is empty exactly when the input is. It starts with whitespace exactly when the input does, and otherwise with the same character. |
| Text.NormalizeSemicolons | gestionar_obras.py:192 | After `re.sub(r"\s*;\s*", ";")` no semicolon has whitespace on either side. Every non-whitespace character is kept, in order. |
| Text.NormalizeSemicolonsFixpoint | gestionar_obras.py:192 | Text with no whitespace next to a semicolon is unchanged, so the rule is idempotent. |
| Text.NormalizeSemicolonsWithoutSemicolon | gestionar_obras.py:192 | Text without a semicolon is unchanged, inner whitespace included. |
| Text.ContainsPattern | gestionar_obras.py:197 | `str.contains` with a pattern of literal characters and `.` wildcards holds exactly when the pattern matches at some position. |
| Numbers.Trunc | gestionar_obras.py:90 | `astype(int)` rounds toward zero: the result is within one of the input and not farther from zero. |
| Numbers.TruncIntegral | gestionar_obras.py:90 | `astype(int)` keeps a value exactly when the value is integral. |
| Numbers.Ceil | read_observatorioObrasUrbanas_csv.py:117 | `np.ceil` gives the least integer not below its input. |
| Numbers.CeilVersusTrunc | read_observatorioObrasUrbanas_csv.py:117 | Ceiling and truncation agree on integral values; on a positive value with a fraction, the ceiling is one more. |
| Numbers.ParseNumberDigits | gestionar_obras.py:74 | `pd.to_numeric` reads a digit string as its decimal value. |
| Numbers.ParseNumberDecimal | gestionar_obras.py:74 | `pd.to_numeric` reads `whole.frac` as that decimal. |
| Numbers.ParseNumberMinus | gestionar_obras.py:186 | A leading minus sign negates the value read. |
| Numbers.ParseNumberNeedsDigit | gestionar_obras.py:74 | Text with no digit, blanks and words included, is not a number. |
| Numbers.ParseNumber | gestionar_obras.py:72 | Text read as a number holds only digits, points, signs and ASCII whitespace, and at least one digit. |
| Numbers.ParseInteger | modelo_orm.py:56 | Text `int()` accepts is, once stripped, not empty and made of digits, underscores and one leading sign. A plain digit string reads as its value. |
| Numbers.IntToText | modelo_orm2.py:133 | `str(n)` reads back as `n`, by `int()` and by `pd.to_numeric`. |
| Numbers.ParseIntegerUnderscore | modelo_orm.py:56 | `int("1_000")` is 1000: an underscore between digits is accepted. |
| Numbers.ParseIntegerMisplacedUnderscore | modelo_orm.py:56 | Two underscores in a row, or one at either end, are refused. |
| Limpieza.Transliterate | gestionar_obras.py:37-40 | The listed columns become `unidecode(str(value))`; every other column is unchanged and no column is added or removed. |
| Limpieza.PreparedShape | gestionar_obras.py:37-51 | After folding and pruning, the columns the pass reads are present and the accent columns hold text. |
| Limpieza.ReadColumnKept | gestionar_obras.py:44-51 | No column the pass reads is among those dropped. |
| Limpieza.MontoContrato | gestionar_obras.py:63-72 | An amount becomes a number or NaN. A blank rewritten text gives 0. It is NaN exactly when the rewritten text is not blank and not a number. Otherwise it is the number that text reads as. |
| Limpieza.MontoArgentineFormat | gestionar_obras.py:65-74 | `$ 1.234.567,89`, with any run of `$` and blanks in front, becomes the decimal 1234567.89: thousands dots dropped, comma read as the decimal point. |
| Limpieza.MontoMissing | gestionar_obras.py:65-74 | A NaN amount stays NaN, because `"nan"` is not a number. |
| Limpieza.MontoBlank | gestionar_obras.py:71 | An empty amount becomes 0. |
| Limpieza.MontoWord | gestionar_obras.py:74 | An amount made only of lower-case letters becomes NaN. |
| Limpieza.Fecha | gestionar_obras.py:80-81 | A date is a day or NaT, and NaN stays NaT. |
| Limpieza.PlazoMeses | gestionar_obras.py:84-88 | The term is always a whole number. NaN and the "no data" markers give 0, and so does text that is not a number. A number is truncated toward zero, negative ones included. |
| Limpieza.PorcentajeDigits | gestionar_obras.py:95-100 | `"<digits>%"` becomes the number of the digits, whatever its size: the value is not limited to 0-100. |
| Limpieza.PercentDropped | gestionar_obras.py:98 | Removing `%` from `<digits>%` leaves the digits. |
| Limpieza.PorcentajeAvance | gestionar_obras.py:93-98 | The progress is always a number. NaN and blanks give 0. Otherwise it is the number left once `%` is removed, or 0 when that is not a number. |
| Limpieza.LicitacionAnio | gestionar_obras.py:105-107 | NaN and blanks give 0. A number is kept as read. Any other text gives NaN, and only such text does. |
| Limpieza.ManoObra | gestionar_obras.py:111-113 | The workforce is the number read, and 0 for NaN, blanks and text that is not a number. |
| Limpieza.Destacada | gestionar_obras.py:117-118 | `destacada` is true exactly when the stripped text is "si" in some letter case; NaN gives false. |
| Limpieza.UpperSi | gestionar_obras.py:117-118 | Upper-casing gives "SI" exactly for the four spellings of "si". |
| Limpieza.Comuna | gestionar_obras.py:122-142 | The district is always an integral number. A number is truncated toward zero (line 211 applies `int`); NaN, blanks and non-numbers give 0. |
| Limpieza.ComunaVariantsUnused | gestionar_obras.py:122-142 | Every key of the district table, "7, 8 y 9" included, is cleaned to 0: the table never changes a value. |
| Limpieza.ComunaNotNumber | gestionar_obras.py:122-123 | A district with any character a number cannot hold becomes 0. |
| Limpieza.NormalizeNameNormalized | gestionar_obras.py:146-147 | Strip, lower-case and collapse give a stripped, lower-case, collapsed name. |
| Limpieza.NormalizeNameFixpoint | gestionar_obras.py:146-147 | Normalising a normalised name leaves it unchanged. |
| Limpieza.BarrioVariantsReachable | gestionar_obras.py:146-173 | The only key of the neighbourhood table a lower-cased name can equal is ".". |
| Limpieza.BarrioReplaceNormalized | gestionar_obras.py:173 | On a normalised name the table only turns "." into a blank. |
| Limpieza.Barrio | gestionar_obras.py:146-212 | A cleaned neighbourhood is the input stripped, lower-cased and with its whitespace runs made single spaces (`NormalizeName`); when that name is "", "nan" or "." (the one table key a lower-cased name can reach, whose value " " is then blank) it is "sin barrio" instead. It is never a key of the table. |
| Limpieza.BarrioExample | gestionar_obras.py:146-178 | "  Villa   URQUIZA " is cleaned to "villa urquiza" both as a neighbourhood and as an address. |
| Limpieza.BarrioOfNormalized | gestionar_obras.py:146-212 | A normalised name other than ".", "nan" and "" is its own neighbourhood. |
| Limpieza.BarrioIdempotent | gestionar_obras.py:146-212 | Cleaning a cleaned neighbourhood gives it back. |
| Limpieza.BarrioShape | gestionar_obras.py:212 | A cleaned neighbourhood cell holds text that is "sin barrio" or a normalised name other than "" and "nan". |
| Limpieza.Direccion | gestionar_obras.py:177-215 | A cleaned address is the input stripped, lower-cased and with its whitespace runs made single spaces, unless that gives "nan", which becomes a single space. |
| Limpieza.Coordinate | gestionar_obras.py:182-186 | A coordinate becomes a number or NaN. |
| Limpieza.CoordinateBlank | gestionar_obras.py:182-186 | A blank coordinate ends as NaN, not 0. |
| Limpieza.CoordinateOf | gestionar_obras.py:182-186 | A stripped coordinate is the number its text reads as once `,` becomes `.`. |
| Limpieza.CoordinateDecimalComma | gestionar_obras.py:182-186 | `-34,6037` is read as the negative decimal -34.6037. |
| Limpieza.Separated | gestionar_obras.py:190-192 | A separated list has no whitespace around `;` and keeps every other non-blank character; NaN stays NaN. |
| Limpieza.Nombre | gestionar_obras.py:205-213 | A name is never "nan" or blank. A usable name is kept as it is; any other becomes "SIN NOMBRE". |
| Limpieza.Descripcion | gestionar_obras.py:205-214 | A description is never "nan". A usable one is kept; any other becomes a single space. |
| Limpieza.CleanCell | gestionar_obras.py:62-215 | Each column rule produces the kind of value the column holds once cleaned. |
| Limpieza.CleanRow | gestionar_obras.py:62-215 | Cleaning a row keeps its columns. |
| Limpieza.CleanRowCleaned | gestionar_obras.py:62-215 | Every column of a cleaned row holds the kind of value its rule produces. |
| Limpieza.Prepare | gestionar_obras.py:37-51 | The prepared row keeps exactly the columns not dropped. Accent columns become `unidecode(str(value))`; the others are unchanged. |
| Limpieza.IsCorrupt | gestionar_obras.py:196-197 | A row is marked corrupt only when its file number is text at least as long as the pattern. |
| Limpieza.LimpiarDatos | gestionar_obras.py:32-217 | When a column the pass reads is missing, the pass fails, and only then. Otherwise: the rows kept are distinct prepared rows, in first-occurrence order; each output row is its source row cleaned; every prepared row not marked corrupt is kept; no output row is corrupt; each output row has the shape of a cleaned row. |
| Limpieza.NanFolded | gestionar_obras.py:37-39 | With a transliteration that keeps ASCII text, a NaN in a folded text column reaches the cleaning rules as "nan". |
| Limpieza.NanTextColumns | gestionar_obras.py:37-215 | A CSV row with NaN neighbourhood, name, description and address ends as "sin barrio", "SIN NOMBRE", " " and " ". |
| Limpieza.NanRules | gestionar_obras.py:146-215 | The text "nan" becomes "sin barrio", "SIN NOMBRE", " " and " " under the four text rules. |
| Lookup.IdOf | modelo_orm.py:11 | `get` returns the id of the first row equal to the key. |
| Lookup.GetOrCreate | gestionar_obras.py:271-276 | The id returned names a row equal to the key. A row is created exactly when none was there: it is appended and takes the next id. Otherwise the table is unchanged. |
| Lookup.GetOrCreateIdempotent | gestionar_obras.py:271-276 | A second `get_or_create` with the same key finds the row and creates nothing. |
| Lookup.GetOrCreateKeepsIds | gestionar_obras.py:271-276 | Rows already in the table keep their ids. |
| Lookup.GetOrCreateDistinct | modelo_orm.py:17 | A table without repeated rows stays so, and the row found is the only one equal to the key. |
| Schema.EmptyWellFormed | modelo_orm.py:10-91 | The freshly created database satisfies every constraint. |
| Schema.UniqueNames | modelo_orm.py:10-26 | A second `Entorno`, `Etapa` or `TipoObra` with an existing name breaks the constraints. |
| Schema.RepeatNotDistinct | modelo_orm.py:11 | Appending a row already present makes the table repeat it. |
| Schema.RepeatedNamesAccepted | modelo_orm.py:28-44 | A repeated `ContratacionTipo`, `AreaResponsable` or `Comuna` name is accepted. |
| Schema.ObraFitsExtends | modelo_orm.py:71-91 | Adding rows to tables keeps every reference of a stored `Obra` valid. |
| Carga.NanOr | gestionar_obras.py:259-263 | The text is kept unless it reads "nan", in which case the default is used. |
| Carga.ComunaNombre | gestionar_obras.py:264 | The district name stored is text that `int()` reads back as the district number. |
| Carga.CharValue | gestionar_obras.py:355 | A text column receives the text, or "nan" for NaN. |
| Carga.IntegerOf | gestionar_obras.py:289 | `nro_contratacion` is stored as an integer exactly when `int()` reads it, and as the text otherwise. |
| Carga.OrZero | gestionar_obras.py:318-328 | A missing amount, year or workforce counts as 0; a present one is kept. |
| Carga.FilasOf | gestionar_obras.py:257-336 | One value row per cleaned row, in order. |
| Carga.FilaOf | gestionar_obras.py:259-336 | The district text reads back as the cleaned district. Neighbourhood and address are the cleaned ones. No lookup name reads "nan". A date is set exactly when the cleaned row has it. A missing amount or year gives 0. |
| Carga.Lookups | gestionar_obras.py:271-316 | Looking up a row's lookup rows never touches the `Obra` table. |
| Carga.LookupsWellFormed | gestionar_obras.py:271-316 | The lookups keep the constraints of the tables they touch. |
| Carga.LookupsDistinct | gestionar_obras.py:271-316 | The lookups never add a row equal to one already there. |
| Carga.LookupsExtends | gestionar_obras.py:271-316 | The lookups only add rows at the end of their tables. |
| Carga.LookupsRefs | gestionar_obras.py:271-316 | Every id handed to the `Obra` names an existing row of its table. |
| Carga.LookupsForeignKeys | gestionar_obras.py:284-316 | Every `Barrio` names an existing `Comuna`, and every `Direccion` an existing `Barrio`. |
| Carga.LookupsIdempotent | gestionar_obras.py:271-316 | Looking the same row up again adds nothing and returns the same ids. |
| Carga.LookupsIgnoreObras | gestionar_obras.py:271-316 | The lookups do not depend on the `Obra` table. |
| Carga.NuevaObra | gestionar_obras.py:339-358 | The `Obra` refers to the ids found for its row and carries the row's dates. |
| Carga.Saves | modelo_orm.py:83-84 | Only an `Obra` with both dates set is stored. |
| Carga.LoadRow | gestionar_obras.py:259-361 | One pass stores the `Obra` exactly when the database takes it, and it is then the only `Obra` added; otherwise the `Obra` table is unchanged. |
| Carga.LoadAll | gestionar_obras.py:257-361 | The loop only appends to the tables, and adds at most one `Obra` per row. |
| Carga.LoadRowWellFormed | gestionar_obras.py:259-361 | One pass of the loop keeps the schema's constraints, adds no repeated lookup row and only appends. |
| Carga.AddObraWellFormed | gestionar_obras.py:339-359 | Storing an `Obra` whose references exist and whose dates are set keeps the constraints. |
| Carga.LoadRowKeepsLookups | gestionar_obras.py:338-361 | After a pass, saved or not, the row's lookup rows are all present. A failed save keeps the lookup rows and adds no `Obra`. |
| Carga.LoadRowTwice | gestionar_obras.py:271-361 | Loading the same row twice creates its lookup rows once and finds the same ids. |
| Carga.LoadRowStoresDated | gestionar_obras.py:338-359 | A row with both dates that the database accepts is stored, whatever its amounts and percentages. |
| Carga.LoadRowSkipsUndated | modelo_orm.py:83-84 | A row missing either date is never stored. |
| Carga.LoadAllWellFormed | gestionar_obras.py:257-361 | Loading any sequence of rows keeps the constraints, repeats no lookup row and only appends. |
| Carga.Flags | gestionar_obras.py:257-361 | One saved-or-not flag per row. |
| Carga.FlagsSaved | gestionar_obras.py:257-361 | Row k's flag is whether its `Obra` was stored, whatever the rows after it. |
| Carga.SavedPrefix | gestionar_obras.py:257-361 | Whether a row was stored does not depend on the rows after it. |
| Carga.Failed | gestionar_obras.py:360-361 | The rows reported are exactly those not stored, in increasing order. |
| Carga.FailedNotSaved | gestionar_obras.py:360-361 | A row is reported exactly when its `Obra` was not stored. |
| Carga.PositionsFalse | gestionar_obras.py:360-361 | `Positions` lists exactly the positions of the `false` flags. |
| Carga.PositionsIncreasing | gestionar_obras.py:360-361 | `Positions` lists them in increasing order. |
| Carga.ExtendsTrans | gestionar_obras.py:257-361 | Growing the tables twice is growing them once. |
| Carga.PreparedLoadColumns | gestionar_obras.py:37-51 | When the CSV has every column the loop reads, folding and pruning keep them all. |
| Carga.CleanedLoadShape | gestionar_obras.py:259-358 | A cleaned row with the loaded columns holds in each the kind of value the loop expects. |
| Carga.NombreAsCleaned | gestionar_obras.py:266 | The `Obra` takes the cleaned name: the loader's own default never applies. |
| Carga.BarrioDefaultInert | gestionar_obras.py:265 | The neighbourhood default the loop computes and never uses equals the cleaned neighbourhood anyway. |
| Carga.Database.constructor | gestionar_obras.py:233-244 | The database starts with every table empty. |
| Carga.Database.CargarFila | gestionar_obras.py:259-361 | One pass: the tables and the saved flag are those of `LoadRow` on the old tables. |
| Carga.Database.CargarFilas | gestionar_obras.py:257-361 | The tables after the loop are `LoadAll` of the rows. The constraints hold and the tables only grew. The rows reported are exactly those not stored, and the `Obra` count grows by the number stored. |
| Carga.Database.CargarDatos | gestionar_obras.py:253-363 | `cargar_datos` cleans the CSV rows and loads them. The cleaned rows are cleaned prepared CSV rows, in CSV order. Every CSV row that is not corrupt is among them, and none that is. The tables and the failures are those of loading them. |
| Ciclo.Validate | modelo_orm2.py:104-114 | `validate` passes exactly when every check holds. Each error, the `TypeError` of comparing a `None` included, is raised exactly when every earlier check passes and its own fails. |
| Ciclo.PersistioValido | modelo_orm2.py:116-118 | A save stores only valid rows, so the stored row stays valid; the row is written exactly when there is no error. |
| Ciclo.Etapas.constructor | modelo_orm2.py:18-21 | The stage table starts empty. |
| Ciclo.Etapas.ObtenerOCrear | modelo_orm2.py:19 | The stage of that name is found or created. Its id names it. A name already present adds nothing, and names stay unique. |
| Ciclo.Obra.constructor | modelo_orm2.py:67-99 | A work built in memory has no stored row, and is consistent when its stage table keeps its names unique. |
| Ciclo.Obra.Save | modelo_orm2.py:116-118 | `save` writes the fields exactly when `validate` passes, keeps the old stored row otherwise, and leaves the fields as they were. |
| Ciclo.Obra.NuevoProyecto | modelo_orm2.py:120-123 | Stage "Proyecto" and progress 0; nothing else changes; then saved. |
| Ciclo.Obra.IniciarContratacion | modelo_orm2.py:125-129 | Stage "Licitación", contracting type and number; nothing else changes; then saved. |
| Ciclo.Obra.AdjudicarObra | modelo_orm2.py:131-135 | Company, stage "Adjudicada" and `str` of the file number: a number is stored as text that reads back as it, a text as itself. Then saved. |
| Ciclo.Obra.IniciarObra | modelo_orm2.py:137-144 | Flag, both dates, funding source, workforce and stage "En Ejecucion"; then saved. |
| Ciclo.Obra.ActualizarPorcentajeAvance | modelo_orm2.py:146-151 | A value in 0-100 is set and saved. Any other raises, and neither the fields nor the stored row change. |
| Ciclo.Obra.IncrementarPlazo | modelo_orm2.py:153-155 | The term grows by the amount in memory, whether or not the save then accepts it. A term of `None` makes the addition raise, and nothing changes. |
| Ciclo.Obra.IncrementarManoObra | modelo_orm2.py:157-159 | As for the term. A workforce of `None` makes the addition raise, and nothing changes. |
| Ciclo.Obra.FinalizarObra | modelo_orm2.py:161-165 | Stage "Finalizada", progress 100, finished; then saved. |
| Ciclo.Obra.RescindirObra | modelo_orm2.py:167-170 | Rescinded, stage "Rescindida"; progress and the finished flag are untouched. |
| Ciclo.FinalizarYReabrir | modelo_orm2.py:120-165 | No transition checks the stage. A finished work sent back to "Proyecto" has progress 0, stays marked finished, and a valid one is saved. |
| Ciclo.FinalizarDosVeces | modelo_orm2.py:161-165 | Repeating a transition reuses the stage row the first call created. |
| Ciclo.IncrementoPlazo | modelo_orm2.py:153-155 | On a valid work, growing the term by a possibly negative amount is accepted exactly when the new term is not negative; otherwise the term check fails. |
| Ciclo.IncrementoManoObra | modelo_orm2.py:157-159 | On a valid work, growing the workforce is accepted exactly when the new workforce is not negative. |
| Ciclo.ManoObraAntesQueTextos | modelo_orm2.py:111-114 | A work failing both the workforce and the text checks fails on the workforce: the checks run in the source's order. |
| Ciclo.SinPlazoNoSeGuarda | modelo_orm2.py:104-118 | A work without a term is never stored: `validate` raises a `TypeError` first. |
| Ciclo.ExpedienteTexto | modelo_orm2.py:133 | `str` of a number reads back as it; a text stays itself; `None` becomes "None". |
| Ciclo.NombresDeEtapa | modelo_orm2.py:121-169 | The six stage names are pairwise distinct, so each transition has a stage of its own. |
| Observatorio.ObsReadColumnsKept | read_observatorioObrasUrbanas_csv.py:19-33 | No column the script indexes is among those it drops. |
| Observatorio.ObsDropsMore | read_observatorioObrasUrbanas_csv.py:27-33 | The script drops every column `limpiar_datos` drops, and also the coordinates, `imagen_1`, `mano_obra`, `destacada` and `financiamiento`. |
| Observatorio.Padded | read_observatorioObrasUrbanas_csv.py:83 | A number zero-padded to a width is that many digits, and reads back as the number when it fits. |
| Observatorio.FormatDate | read_observatorioObrasUrbanas_csv.py:83 | `strftime("%Y-%m-%d")` gives ten characters that read back as the same date. |
| Observatorio.FormatDateInjective | read_observatorioObrasUrbanas_csv.py:83 | Distinct dates are written differently. |
| Observatorio.MontoObs | read_observatorioObrasUrbanas_csv.py:47-61 | A missing amount becomes 0. An amount is NaN exactly when its rewritten text (`$` removed, stripped, `.` removed, `,` made `.`) is not a number, a blank included; otherwise it is the number that text reads as. |
| Observatorio.MontoWholeAmount | read_observatorioObrasUrbanas_csv.py:47-61 | An amount with no separators after its `$` and blanks, such as `$ 1500`, is the value of its digits. |
| Observatorio.ZeroAmount | read_observatorioObrasUrbanas_csv.py:47-61 | The 0 that replaces NaN survives the rewriting as 0. |
| Observatorio.MontoContrast | read_observatorioObrasUrbanas_csv.py:47-61 | A missing amount is 0 here and NaN in `limpiar_datos`; an empty one is NaN here and 0 there. |
| Observatorio.MontoArgentineAgrees | read_observatorioObrasUrbanas_csv.py:47-61 | `$ 1.234.567,89` becomes 1234567.89 here too, the same value `limpiar_datos` gives. |
| Observatorio.ArgentineAmountText | read_observatorioObrasUrbanas_csv.py:51-58 | The rewriting turns `$ 1.234.567,89` into the text `1234567.89`. |
| Observatorio.FechaObs | read_observatorioObrasUrbanas_csv.py:78-101 | A date is kept exactly when it is present, not a "no data" marker, and readable. It is then written as text that reads back as that date and is never blank. |
| Observatorio.FechaVersusLimpieza | read_observatorioObrasUrbanas_csv.py:78-101 | The dates agree with `limpiar_datos` except on the "no data" markers, which become NaT here. |
| Observatorio.PlazoObs | read_observatorioObrasUrbanas_csv.py:113-117 | The term is a whole number. NaN, markers and non-numbers give 0. Any other number is rounded up. |
| Observatorio.PlazoVersusLimpieza | read_observatorioObrasUrbanas_csv.py:113-117 | The term equals that of `limpiar_datos`, plus one month exactly for a positive number with a fraction. |
| Observatorio.PorcentajeObs | read_observatorioObrasUrbanas_csv.py:204-205 | The percentage is the number left once `%` is removed, truncated toward zero, and 0 when there is none. |
| Observatorio.PorcentajeVersusLimpieza | read_observatorioObrasUrbanas_csv.py:204-205 | The percentage is that of `limpiar_datos` with its fraction dropped. |
| Observatorio.LugarObs | read_observatorioObrasUrbanas_csv.py:141-168 | A place name is missing exactly when its text strips to nothing; otherwise it is the text stripped, lower-cased and with its whitespace runs made single spaces, and not empty. |
| Observatorio.LugarExample | read_observatorioObrasUrbanas_csv.py:141-142 | "  Villa   URQUIZA " is cleaned to "villa urquiza". |
| Observatorio.LugarAccentedCapital | read_observatorioObrasUrbanas_csv.py:141 | "NUÑEZ" is lower-cased to "nuñez". |
| Observatorio.StripLowerCollapse | read_observatorioObrasUrbanas_csv.py:141-143 | A normalised name is empty exactly when the stripped text is. |
| Observatorio.LugarIdempotent | read_observatorioObrasUrbanas_csv.py:141-168 | A cleaned place name is cleaned to itself. |
| Observatorio.LugarVersusLimpieza | read_observatorioObrasUrbanas_csv.py:141-168 | NaN is "nan" here, where `limpiar_datos` writes "sin barrio" and " ". A "." is kept here but becomes "sin barrio" there. Any other normalised name is the same in both. |
| Observatorio.BlankToMissing | read_observatorioObrasUrbanas_csv.py:130-263 | Exactly "" and " " become missing; every other value is kept unchanged. |
| Observatorio.ContratacionTipoObs | read_observatorioObrasUrbanas_csv.py:232-235 | The contracting type always ends as text, never missing. |
| Observatorio.ContratacionTipoVersusLimpieza | read_observatorioObrasUrbanas_csv.py:232-235 | A blank becomes the transliterated text "<NA>". Otherwise the value equals what `limpiar_datos` produces. |
| Observatorio.CleanObsCell | read_observatorioObrasUrbanas_csv.py:40-263 | Each column rule produces the kind of value its column holds once cleaned. |
| Observatorio.CleanObsRow | read_observatorioObrasUrbanas_csv.py:19-263 | A cleaned row has exactly the kept columns, each holding the kind of value its rule produces. |
| Observatorio.LimpiarObservatorio | read_observatorioObrasUrbanas_csv.py:19-263 | The script fails exactly when the table lacks a column it indexes. Otherwise every row is cleaned, in order, with none dropped or merged, and keeps the columns read. |
| Observatorio.ExpedienteSpelling | read_observatorioObrasUrbanas_csv.py:263 | A table whose file-number column is spelt `expediente-numero`, as `limpiar_datos` reads it, stops the script. |

## Left out

- Reading and writing the CSV files are not modelled. The tables are parameters and results:
  - `extraer_datos`, gestionar_obras.py:23-28;
  - the script's `read_csv` and `to_csv`, read_observatorioObrasUrbanas_csv.py:8 and 272.
- The many `print` calls and the duplicate report of line 55 are console output only, and are not modelled.
- `unidecode` and the general date parser `pd.to_datetime` are library calls. They are function parameters, `translit` and `parseDate`.
- Limpieza.Fecha: `pd.to_datetime` works on a whole column (gestionar_obras.py:80-81). In pandas 2 it infers one format from the first non-null cell, and a cell that does not match that format becomes NaT. Here `parseDate` reads each cell on its own, the same function for both date columns. So one row's date cannot change another row's result, nor, through the NOT NULL dates, which rows the loader fails to save.
- Observatorio.FechaObs: the same per-cell reading of `pd.to_datetime` (read_observatorioObrasUrbanas_csv.py:82 and 98); the format inferred from a column's first date is not modelled.
- Pandas' type inference when reading the CSV is not modelled: every cell starts as its text, or NaN.
- Floating point is not modelled. Amounts, percentages and coordinates are exact reals, and `ParseNumber` accepts no exponent, `inf` or `nan` literal.
- Limpieza.Coordinate: the loader's second float conversion, gestionar_obras.py:293-311, is reduced to "a number or None". It changes nothing on a cleaned row.
- Carga.Database.CargarFila: what SQLite may refuse besides the NOT NULL dates (disk, locks, driver errors) is the parameter `accepts`. The lookup inserts are assumed never to fail.
- The debug check at gestionar_obras.py:280-281 can never fire, because `get_or_create` always returns a saved row with an id. It is not modelled.
- The defaults computed at gestionar_obras.py:265 and 268 are never used. `Carga.BarrioDefaultInert` shows the first would change nothing anyway.
- Database setup and teardown have no logic of their own and are not modelled. This covers `connect_db`, `mapear_orm`, `desconectar_db` and the `__main__` block (gestionar_obras.py:15-19, 220-249, 376-392). `create_tables` appears only as the empty `Database`.
- The empty stubs are not modelled: `nueva_obra` and `obtener_indicadores` in gestionar_obras.py:366-373, and the lifecycle stubs in modelo_orm.py:107-129. The latter give the loader's `Obra` no `validate`, so `Carga.Saves` does no range checks.
- The plotting libraries are imported but unused, and are not modelled.
- Ciclo.Registro holds the fields of modelo_orm2.py's `Obra` that `validate` reads or a transition assigns. These other fields are never touched by the lifecycle and are not modelled: `tipo`, `area_responsable`, `barrio`, `licitacion_anio`, `lat`, `lng`, the images, `cuit_contratista`, `beneficiarios`, `compromiso` and the links.
- Ciclo.Obra.Save: a database error in `super().save()` is not modelled. Once `validate` passes, the write is taken to succeed.
- Ciclo.Obra.IniciarContratacion and the other transitions take the referenced rows (contracting type, company, funding source) as ids. The lookups of their tables are not part of the lifecycle.
- Ciclo.Obra.ActualizarPorcentajeAvance: Python compares mixed numbers in `0 <= valor <= 100`. Here the value is a real.
- Observatorio: the script's printed summaries (`info`, `describe`, `value_counts`) are not modelled, nor the commented-out tables of lines 145-154 and 171-185.
- Limpieza.LimpiarDatos and Carga.Database.CargarDatos take the CSV's column set as `header`. A missing column the cleaning pass reads makes `LimpiarDatos` fail, as the `KeyError` does. `CargarDatos` requires every column the loop reads: the `KeyError` a missing one raises partway through the loop (gestionar_obras.py:259-358) is not modelled.
- Limpieza.Prepare: `unidecode` is the parameter `translit`. The whole-pipeline NaN lemmas (`Limpieza.NanTextColumns`) assume only that it leaves ASCII text unchanged (`Limpieza.Unidecode`).
- Text.Upper: Python upper-cases "ß" to "SS", two characters; here it stays "ß". This cannot change whether the text equals "SI", the only use of `upper` in the model.
- Text.Lower: only Latin-1 is modelled, as the CSV is read as Latin-1 (read_observatorioObrasUrbanas_csv.py:8). Lower-casing of characters beyond U+00FF is the identity here.
- Ciclo.ExpedienteTexto: a file number given as anything other than an integer, a text or `None` (a float, say) is not modelled.
- Ciclo.Registro: fields that `validate` does not read and no transition adds to stay plain values. `None` in them changes nothing here.
