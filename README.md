# AutoDB Architect: the schema renderers and the page state

AutoDB Architect turns a plain-language description of a system into a
database design. A backend asks a language model for a schema document.
The browser front end (`main.js`) then renders that document four ways:
an entity-relationship diagram, a SQL DDL script, Python dataclasses and
raw JSON. It also keeps the current document and the selected tab.

This project models that front end in Dafny:

- `wrappers.dfy` (`Wrappers`): the `Option` and `Result` types.
- `text.dfy` (`Text`): the JavaScript built-ins the code relies on. These
  are `x || d` on a string that may be missing, template interpolation of a
  missing value (`"undefined"`), `includes`, `toUpperCase`/`toLowerCase`,
  `join`, `trim` and `Array.prototype.find`.
- `schemas.dfy` (`Schemas`): the schema document. Entities have fields.
  Relationships join entity names.
- `html.dfy` (`Html`): `escapeHtml`, its three ordered replace passes, and
  a decoder that inverts it.
- `sql.dfy` (`Sql`): `generateSQL`. There is a specification function
  `SqlText` and an imperative `GenerateSql` that appends to a string in two
  loops, proved equal to it.
- `python.dfy` (`Python`): `generatePythonClasses` and its SQL-to-Python
  type mapping. The chain of `if`s that overwrite `pyType` is an imperative
  method, proved equal to a data-driven precedence table.
- `erd.dfy` (`Erd`): `renderERD`, `renderEntityCard` and
  `renderRelationshipMatrix`, modelled as descriptors. One card per entity
  holds one row per field, and one edge per relationship. The markup is not
  modelled.
- `view.dfy` (`View`): the `Page` class.
  - Its fields are `currentSchema` and `activeTab`.
  - Its methods are the generate handler, the tab click, `updateContent`
    and the two download buttons.
  - Also here: the tab table and the `render*` functions per tab.

Three behaviours of the code are worth stating outright, because a reader
of the code could easily expect otherwise:

- Every field flagged `isPK` gets ` PRIMARY KEY` in the DDL, not only the
  first one (`main.js:90-94`).
- The Python type tests are independent `if`s, each overwriting the result
  (`main.js:122-128`). So the test written last wins, and the precedence is
  float > datetime > date > bool > int > str. As a result `BIGINT` is
  `int`, `DECIMAL(10,2)` is `float`, and `DATETIME` is `date`, because it
  contains `DATE` but not `TIMESTAMP`.
- A generation attempt sets `currentSchema` to null before the request
  (`main.js:283`). So a failed request leaves `currentSchema` null, not the
  previous document.

## Model

| member | source | states |
|---|---|---|
| Text.Fallback | main.js:62 | the `or` fallback on a string that may be missing: yields `d` when it is missing or empty, the string otherwise; so the result is empty only when both are, and a non-empty default never yields empty text (docstrings, captions, key types) |
| Text.Shown | main.js:91 | definition: template interpolation of a possibly missing value, where a missing one shows as `undefined` |
| Text.Contains | main.js:124-128 | definition: `includes` as a left-to-right scan; its meaning is stated by `Text.ContainsIff` |
| Text.Join | main.js:95 | definition: `join` with a separator; an empty array joins to the empty string |
| Text.Upper | main.js:123 | `toUpperCase`: same length, every character mapped on its own (ASCII letters) |
| Text.Lower | main.js:107 | `toLowerCase`: same length, every character mapped on its own (ASCII letters) |
| Text.UpperIgnoresCase | main.js:123 | upper-casing forgets the case the text was written in, and is idempotent |
| Text.UpperOfUpperCase | main.js:123 | text with no lower-case letter is its own upper-case form |
| Text.ContainsIff | main.js:124-128 | the left-to-right `includes` scan holds exactly when the needle occurs at some position |
| Text.FindIndex | main.js:103-104 | `find`: when it finds something, that is the first element satisfying the test; otherwise no element satisfies it |
| Text.Trim | main.js:274-275 | `trim`: a window of the input with only white space before and after it, that neither starts nor ends with white space; it is empty exactly when the input is all white space |
| Text.TrimUnique | main.js:274-275 | the two properties of `Trim` determine it: any window with only white space outside it and none at its ends is the trimmed text |
| Html.ReplaceAll | main.js:62 | a global `replace` of one character: every character of the result comes from the input, other than the replaced one, or from the replacement |
| Html.EscapeText | main.js:62 | definition: the three replace passes, `&` first, then `<`, then `>` |
| Html.EscapeHtml | main.js:61-63 | definition: `escapeHtml`, the three passes applied to the argument or to the empty string when it is missing |
| Html.EscapeTextIsEscapeEach | main.js:61-63 | the three ordered global passes (`&` first) equal escaping each character on its own in a single pass |
| Html.EscapeHtmlOfMissing | main.js:61-63 | `escapeHtml` of a missing argument is the empty string |
| Html.EscapeHtmlHasNoAngles | main.js:61-63 | the escaped text never contains `<` or `>` |
| Html.EscapeHtmlKeepsPlainText | main.js:61-63 | text without `&`, `<` and `>` comes back unchanged |
| Html.EscapeHtmlRoundTrip | main.js:61-63 | decoding `&amp;`, `&lt;` and `&gt;` gives the original text back, so escaping loses nothing |
| Sql.SqlText | main.js:84-113 | definition: the script `generateSQL` returns, the header followed by the table and relationship statements; its properties are the `Sql` lemmas below |
| Sql.FieldLine | main.js:91-92 | definition: `  <name> <type>`, followed by ` PRIMARY KEY` when the field is flagged `isPK` |
| Sql.TableBlock | main.js:89-96 | definition: `CREATE TABLE <name> (`, the column lines joined by `,\n`, and the closing `\n);\n\n` |
| Sql.CommentLine | main.js:106 | definition: the comment naming `from`, the label or `related to`, `to` and the type |
| Sql.AddColumnLine | main.js:107 | definition: the ALTER TABLE statement adding the key column to `to` |
| Sql.AddConstraintLine | main.js:108 | definition: the ALTER TABLE statement adding the constraint `fk_<to>_<from>` |
| Sql.PkType | main.js:105 | definition: the type of the referenced key field, else `INT`; its cases are stated by `Sql.ForeignKeyTarget` |
| Sql.PkName | main.js:108 | definition: the name of the referenced key field, else `id`; its cases are stated by `Sql.ForeignKeyTarget` |
| Sql.FieldLines | main.js:90-94 | one column line per field, in field order |
| Sql.EveryPkMarked | main.js:90-94 | a column line equals `  <name> <type> PRIMARY KEY` exactly when its field is flagged `isPK`, for every field, not only the first flagged one |
| Sql.PkField | main.js:103-104 | the referenced key is the first `isPK` field of the first entity with the referenced name, or nothing when there is no such entity or field |
| Sql.ForeignKeyTarget | main.js:103-108 | the new column's type is that key's type, else `INT`; the referenced column is its name, else `id` |
| Sql.FkColumn | main.js:107-108 | the added column is the lower-cased `from` name followed by `_id`, with no upper-case letter left |
| Sql.ForeignKeyOnly | main.js:99-100 | every relationship kept is a `One-to-Many`/`Many-to-One` one of the input, and each such relationship is kept as many times as it occurs in the input, the others never |
| Sql.ForeignKeyOnlyAppend | main.js:99-100 | the relationships are kept in their original order |
| Sql.RelationshipsOfForeignKeyOnly | main.js:99-110 | the relationship statements come only from `One-to-Many`/`Many-to-One` relationships |
| Sql.SqlIgnoresOtherKinds | main.js:99-110 | removing every relationship of any other type leaves the script unchanged |
| Sql.SqlTextShape | main.js:85-86 | the script is empty exactly when there is no document or no `entities` array; otherwise it starts with the two-line header and a blank line |
| Sql.TablesAppend | main.js:88-97 | the CREATE TABLE statements follow the entities in document order, one block per entity |
| Sql.TablesOne | main.js:89-96 | helper for the loop proof: one entity gives `CREATE TABLE <name> (`, its column lines joined by `,\n`, and `\n);\n\n` |
| Sql.RelationshipsAppend | main.js:99-110 | the relationship statements follow the relationships in document order |
| Sql.RelationshipsOne | main.js:100-109 | helper for the loop proof: one relationship gives its comment and two ALTER TABLE lines, or nothing |
| Sql.GenerateSql | main.js:84-113 | the string built by appending in the two loops is exactly the script specified by `SqlText` |
| Sql.AppendTables | main.js:88-97 | the entity loop appends exactly the CREATE TABLE statements of all entities |
| Sql.AppendRelationships | main.js:99-110 | the relationship loop appends exactly the statements of the foreign-key relationships |
| Sql.TableBlockCount | main.js:89-96 | without `;` in names and types, one CREATE TABLE block holds exactly one `;` |
| Sql.TablesCount | main.js:88-97 | all the CREATE TABLE blocks together hold one `;` per entity |
| Sql.KeyTextsPlain | main.js:103-108 | the key type and name looked up come from the document, so they hold no `;` when the document has none |
| Sql.AddColumnCount | main.js:107 | the ADD COLUMN line is one statement |
| Sql.AddConstraintCount | main.js:108 | the ADD CONSTRAINT line is one statement |
| Sql.RelationshipBlockCount | main.js:100-109 | a relationship contributes two statements when it is a foreign-key kind, none otherwise |
| Sql.RelationshipsCount | main.js:99-110 | the relationships contribute two statements per foreign-key relationship |
| Sql.SqlStatementCount | main.js:84-113 | after the header, the script holds one statement per entity plus two per `One-to-Many`/`Many-to-One` relationship |
| Python.PyTypeSpec | main.js:122-128 | definition: the precedence table `TypeRules` (float, datetime, date, bool, int, highest first) applied to the upper-cased type, `str` when no rule matches |
| Python.PyType | main.js:122-128 | the chain of overwriting `if`s yields the precedence-table type, always one of the six Python types |
| Python.FirstMatchUnrolled | main.js:122-128 | the precedence table is tried from the highest rule down: float, datetime, date, bool, int, then str |
| Python.PyTypeBuckets | main.js:122-128 | for each of the six results, the exact condition on the upper-cased type under which it is chosen |
| Python.PyTypeIsKnown | main.js:122-128 | every column maps to one of `float`, `datetime`, `date`, `bool`, `int`, `str` |
| Python.PyTypeIgnoresCase | main.js:123 | the mapping does not depend on the case the SQL type is written in |
| Python.PyTypeOfMissing | main.js:122-123 | a missing or empty type maps to `str` |
| Python.DecimalIsFloat | main.js:124-128 | `DECIMAL(10,2)` maps to `float` |
| Python.DateTimeIsDate | main.js:126-127 | `DATETIME` maps to `date`, not `datetime` |
| Python.DateTimeSubstrings | main.js:124-128 | `DATETIME` contains `DATE` but none of `FLOAT`, `DECIMAL`, `TIMESTAMP` |
| Python.PythonText | main.js:115-135 | definition: the code `generatePythonClasses` returns, the import header followed by one class per entity; its properties are the `Python` lemmas below |
| Python.FieldDecl | main.js:129 | definition: `    <name>: <type>` and a line break, the type given by the mapping |
| Python.ClassHead | main.js:120 | definition: the `@dataclass` line, the class line and the docstring line |
| Python.Docstring | main.js:120 | definition: the description, or `Model for <name>`; its cases are stated by `Python.DocstringDefault` |
| Python.PythonTextShape | main.js:116-117 | the code is empty exactly when there is no document or no `entities` array; otherwise it starts with the import header |
| Python.ClassesAppend | main.js:119-132 | classes follow the entities in document order, one per entity |
| Python.ClassesOne | main.js:119-132 | helper for the loop proof: one entity gives its head, its attribute lines and a blank line |
| Python.FieldDeclsAppend | main.js:121-130 | attribute lines follow the fields in order, one per field |
| Python.FieldDeclsOne | main.js:129 | helper for the loop proof: one field gives `    <name>: <type>` and a line break |
| Python.GeneratePython | main.js:115-135 | the string built by appending in the loops is exactly the code specified by `PythonText` |
| Python.AppendClasses | main.js:119-132 | the entity loop appends exactly one class per entity |
| Python.AppendFieldDecls | main.js:121-130 | the field loop appends exactly one attribute line per field, typed by the mapping |
| Python.DocstringDefault | main.js:120 | the docstring is the description when it is non-empty, else `Model for <name>` |
| Python.ClassHeadLines | main.js:120 | helper for the line count: the class head is the decorator line, the class line and the docstring line |
| Python.ClassHeadCount | main.js:120 | without line breaks in the name and the docstring, the head is exactly three lines |
| Python.FieldDeclCount | main.js:129 | each attribute is exactly one line |
| Python.FieldDeclsCount | main.js:121-130 | the attributes are exactly one line per field |
| Python.ClassLineCount | main.js:119-132 | a class is exactly its three head lines, one line per field and a blank line |
| Erd.FieldRows | main.js:140-149 | one row per field, in order, with a PK badge exactly for `isPK`, an FK badge exactly for `isFK`, and the type as interpolated (`undefined` when missing) |
| Erd.RenderEntityCard | main.js:139-164 | the card's title is the entity's name; it has one row per field, row i named after field i, with the PK badge exactly when that field is flagged `isPK`; its footer is the description, or empty |
| Erd.Cards | main.js:193 | one card per entity, in order |
| Erd.Edges | main.js:168-178 | one edge per relationship, in order, with the names as written and the caption `label`, else `related to` |
| Erd.RenderRelationshipMatrix | main.js:166-189 | no matrix at all without relationships; otherwise one edge per relationship |
| Erd.RenderErd | main.js:191-196 | nothing without a schema; otherwise card i is entity i's card, one per entity (none for a missing `entities` array), and the relationship matrix |
| Erd.CardFooter | main.js:161 | a card's footer is the description, or empty without one |
| Erd.PkBadges | main.js:142-144 | in the diagram, a field carries the PK badge exactly when it is flagged `isPK` |
| Erd.DanglingEdge | main.js:168-178 | a relationship whose `from` names no entity is still drawn with that name, and an unlabelled one reads `related to` |
| View.CodeBlock | main.js:65-80 | a code block shows its text with no `<` or `>`, and the shown text decodes back to the original |
| View.Render | main.js:191-214 | each tab's renderer shows nothing exactly when there is no schema |
| View.ContentFor | main.js:231-233 | an id that is not a tab's shows nothing |
| View.TabLookup | main.js:25-30 | each id of the four-entry tab table `Tabs` (`erd`, `sql`, `code`, `json`) finds its own tab |
| View.NoSchemaBlank | main.js:231-233 | with no schema, every tab's content is empty |
| View.KnownTabContent | main.js:231-233 | with a schema, each tab shows its own renderer's output, never nothing |
| View.SqlTabShowsScript | main.js:198-202 | the SQL tab shows the generated script, escaped so that it decodes back exactly |
| View.PythonTabShowsClasses | main.js:204-208 | the Python tab shows the generated classes, escaped so that they decode back exactly |
| View.DiagramTabShowsCards | main.js:191-196 | the diagram tab shows the schema's diagram: one card per entity, card i being entity i's card |
| View.RenderTab | main.js:191-214 | the renderers, calling the generators, produce the specified tab content |
| View.Page.constructor | main.js:5-6 | the page starts with no schema and the diagram tab selected |
| View.Page.UpdateContent | main.js:231-235 | the content area shows the active tab's rendering of the current schema; it changes nothing; with a schema and a known tab it is never empty |
| View.Page.SelectTab | main.js:222-226 | a tab click makes that tab active, keeps the schema and shows the tab's content |
| View.Page.StartGenerate | main.js:273-283 | a prompt that is empty once trimmed is refused with its message and changes nothing; otherwise the schema is cleared and the trimmed prompt is sent |
| View.Page.FinishGenerate | main.js:285-298 | a received schema becomes current and the diagram tab is shown; a failure shows the error and changes nothing more |
| View.Page.HandleGenerate | main.js:273-299 | the whole handler: an empty prompt changes nothing; a failure leaves no schema; a success sets the schema and selects the diagram tab; the active tab stays one of the tab bar |
| View.Page.DownloadSql | main.js:337-341 | refused with `There is no diagram to download` exactly when there is no schema; otherwise `schema.sql` holds the generated script |
| View.Page.DownloadJson | main.js:343-347 | refused with `There is no diagram to download` exactly when there is no schema; otherwise `schema.json` holds the serialised schema |

## Left out

- `server/server.js` is not part of this model. It is the proxy to the model provider's HTTP API: key loading, `fetch`, parsing the upstream reply and status codes.
- `generateSchemaFromText` is not modelled. The network call and its error parsing become the `Reply` parameter of `HandleGenerate`/`FinishGenerate`: a schema or a failure.
- A reply always carries a schema object. A reply whose JSON is `null` or not an object is not modelled.
- The DOM is not modelled: `showError`/`hideError`, `setLoading`, `innerHTML` writes, the hidden/visible toggles, the tab bar markup and the icons. Handlers return the content or the error message instead.
- The two-second `setTimeout` that hides the download error is not modelled, and neither is the clipboard copy handler.
- `downloadText` is not modelled: its Blob, object URL and anchor click. A download is returned as a file name and its content.
- View.CodeBlock: the random element id and the surrounding markup of `createCodeBlock` are not modelled. Only the escaped body and the language label are kept.
- View.Render: `JSON.stringify(schema, null, 2)` is not modelled as text. The JSON tab and the JSON download carry the schema itself.
- The Tailwind classes and HTML markup of the renderers are not modelled. The fixed headings of the SQL, Python and JSON tabs are not modelled either.
- The examples bar and the hospital quick-fill button are not modelled. They only write the prompt box.
- Text.Upper: only ASCII letters change case. JavaScript's full Unicode case mapping, including mappings that change length, is not modelled.
- Text.Lower: only ASCII letters change case. JavaScript's full Unicode case mapping, including mappings that change length, is not modelled.
- Names, relationship types and `from`/`to` are plain strings. A missing `name`, `from`, `to` or `type` is not modelled; the code would interpolate `undefined` or, for `from`, throw in `toLowerCase`.
- A missing `entities` array is kept apart from an empty one, because the generators return `""` only for a missing one. A missing `fields` or `relationships` array is the empty sequence, as the code reads it.
- The `isPK`/`isFK` flags are booleans. JavaScript truthiness of other values is not modelled.
- A missing field type in DDL and in the diagram shows as `undefined`. A JSON `null` type would show as `null`; that case is not modelled.
- Interleavings are not modelled: a tab click, or a second generation, landing while a request is in flight. `HandleGenerate` runs the handler from start to finish. `StartGenerate` and `FinishGenerate` stand for the two halves around the `await`.
