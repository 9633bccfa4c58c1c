# vulcan in Dafny

A model of the core of vulcan, a Go data-access library with a code generator.
The generator reads annotated mapper interfaces and model structs and writes the
SQL-building Go code; the runtime library builds SQL text with its builders and
runs it through an interceptor chain (pagination, caching, slow-query logging,
SQL debugging, transactions). The model covers:

- the condition language of the generator (`{1.EQ & 2.GT} | name.LIKE`): brace
  checks, the recursive-descent parser, and the rendering to SQL with parameter
  types (`CondParser`);
- the statement types of the SQL annotations, the placeholder extraction and
  whitespace normalisation of annotated SQL (`SqlStmt`, `Placeholders`,
  `SqlUtils`, `StringUtils`);
- the runtime `SqlBuilder`, the select, insert, update and delete builders,
  the query wrapper and the paging record (`Builder`, `SelectBuilder`,
  `InsertBuilding`, `UpdateBuilding`, `DeleteBuilding`, `QueryWrapping`,
  `Pages`);
- the interceptor chain with its pagination, slow-query and debug stages, the
  cache interceptors and transactions (`Interceptors`, `Cache`, `Transactions`);
- the code generator's helpers: type support checks, the SQL-to-Go type map and
  model struct generation, the `TableProperty` tag parser and its argument
  syntax, template helpers, utilities and error chains (`TypeSupport`,
  `ModelGenerator`, `ModelParser`, `GenArgs`, `Templates`, `GenUtils`,
  `ErrorChains`);
- the nullable column wrappers `Int64`, `Int32`, `Int16`, `Byte`, `Bool`
  and `String` (`Nullable`).

The Go standard-library functions the core calls (`strings.Split`, `Trim`,
`Cut`, `strconv.Atoi`, `ParseBool`, `Itoa` and the like) are modelled once,
in `Strs`; `Wrappers` holds `Option` and `Result`. Go strings are byte
strings; the model reads them as `seq<char>`, one character per decoded rune
(so `strings.TrimSpace` removes the Unicode white space `unicode.IsSpace`
names), and upper-casing and case folding are ASCII-only. The one place that
reads bytes one character per byte is `Nullable.B2s`, whose result only
meets the `== "null"` test of `db/nullable/string.go:15`, where the two
readings agree (`Nullable.NullCheck`). Go errors are `Result` values
holding the message text; a `log.Fatal` becomes an error value or a
precondition, as each row says.

Where the prose description of the library or the comments in the code
disagree with the code, the model follows the code:

- the expected outputs written in the comments at the end of
  `cmd/vulcan/internal/ast/parser/condparser.go` (lines 420-467) are not what
  the code produces: index 1 names the first column, no parse ever builds a
  group node (so no group parentheses are rendered; an `IN` condition still
  renders its own `col IN (?)`), and the last example is
  rejected as nested;
- the pagination stage renders order items as ` ORDER BY col DIR` once per
  item with no commas (`paging.go:14-27`), not as one comma-joined clause;
- the pagination stage only sees a `Paging`, whose `IsSelectCount` is always
  true, so the count query is always requested.

## Model

| member | source | states |
|---|---|---|
| CondParser.HasBalancedBraces | cmd/vulcan/internal/ast/parser/condparser.go:72-85 | the counting loop answers true exactly when the brace depth never goes negative and ends at zero |
| CondParser.HasNestedBraces | cmd/vulcan/internal/ast/parser/condparser.go:45-69 | the stack scan returns exactly the specification `HasNested`: some matched brace pair encloses another brace |
| CondParser.ShallowScan | cmd/vulcan/internal/ast/parser/condparser.go:45-69 | the scan finds no nesting while the depth stays within 0..1 and the open group holds no `{` |
| CondParser.DeepScan | cmd/vulcan/internal/ast/parser/condparser.go:45-69 | in a balanced text the scan finds nesting once the depth reaches two or the open group holds both braces |
| CondParser.NestedIffDeep | cmd/vulcan/internal/ast/parser/condparser.go:45-69 | in a balanced text `hasNestedBraces` is true exactly when the depth reaches two somewhere |
| CondParser.NoBracesIff | cmd/vulcan/internal/ast/parser/condparser.go:162-170 | the brace-free check of `isSingleLevelGroup` holds exactly when neither `{` nor `}` occurs |
| CondParser.OutermostFrom | cmd/vulcan/internal/ast/parser/condparser.go:173-189 | the scan from position i returns -1 or a position at or after i |
| CondParser.OutermostFromLeftmost | cmd/vulcan/internal/ast/parser/condparser.go:173-189 | the scan returns the leftmost `op` at brace depth zero, or -1 when there is none |
| CondParser.OutermostIndex | cmd/vulcan/internal/ast/parser/condparser.go:173-189 | the outermost operator index is -1 or a position in the text |
| CondParser.FindOutermostOperator | cmd/vulcan/internal/ast/parser/condparser.go:173-189 | the loop with its depth counter returns the leftmost `op` at depth zero (`OutermostIndex`) |
| CondParser.BraceFreeOutermost | cmd/vulcan/internal/ast/parser/condparser.go:173-189 | without braces the outermost operator is the first occurrence of `op` |
| CondParser.DepthBraceFree | cmd/vulcan/internal/ast/parser/condparser.go:173-189 | without braces the depth stays zero |
| CondParser.IsPureNumber | cmd/vulcan/internal/ast/parser/condparser.go:261-271 | the loop is true exactly for a non-empty string of decimal digits |
| CondParser.ColumnIndex | cmd/vulcan/internal/ast/parser/condparser.go:240-246 | the lookup returns the first column whose name equals the field ignoring case, or -1 when none does |
| CondParser.FindColumn | cmd/vulcan/internal/ast/parser/condparser.go:378-383 | the column loop returns the first case-insensitive match (`ColumnIndex`) |
| CondParser.IndexedUnit | cmd/vulcan/internal/ast/parser/condparser.go:196-208 | a bare index is accepted exactly when it lies in 1..len(Columns), and becomes Simple(index, EQ) |
| CondParser.FieldUnit | cmd/vulcan/internal/ast/parser/condparser.go:224-257 | a unit with a known operator becomes a well-formed Simple condition (index in range, or a column found by name), otherwise a unit error |
| CondParser.DottedUnit | cmd/vulcan/internal/ast/parser/condparser.go:210-222 | a dotted unit is accepted only with one of the ten operators after the first `.`, upper-cased, and yields a well-formed Simple condition |
| CondParser.ParseSimple | cmd/vulcan/internal/ast/parser/condparser.go:192-258 | `parseSimpleCondition` yields a well-formed Simple condition or one of its unit errors |
| CondParser.Join2 | cmd/vulcan/internal/ast/parser/condparser.go:119-155 | an Or/And node is built exactly when both sides parse, left error first |
| CondParser.ParseInternal | cmd/vulcan/internal/ast/parser/condparser.go:109-159 | `parseConditionInternal` yields a well-formed condition or a unit error |
| CondParser.Unwrapped | cmd/vulcan/internal/ast/parser/condparser.go:110-117 | unwrapping a single-level group never lengthens the text |
| CondParser.ParseOperators | cmd/vulcan/internal/ast/parser/condparser.go:119-158 | the operator split yields a well-formed condition or a unit error |
| CondParser.SplitAt | cmd/vulcan/internal/ast/parser/condparser.go:120-155 | splitting at an operator and parsing both sides yields a well-formed Or/And or a unit error |
| CondParser.OrStep | cmd/vulcan/internal/ast/parser/condparser.go:120-136 | with an outermost `|`, parsing splits there into an Or of both sides |
| CondParser.AndStep | cmd/vulcan/internal/ast/parser/condparser.go:139-155 | with no outermost `|` but an outermost `&`, parsing splits there into an And |
| CondParser.UnitStep | cmd/vulcan/internal/ast/parser/condparser.go:157-158 | with no outermost operator, the text is parsed as one unit |
| CondParser.GoTypeOfRange | cmd/vulcan/internal/ast/parser/condparser.go:386-404 | the type mapping answers one of int, string, bool, float64, time.Time, interface{} |
| CondParser.WellFormedShape | cmd/vulcan/internal/ast/parser/condparser.go:274-317 | a well-formed condition holds no group node and only in-range column indexes |
| CondParser.GroupInsideFlat | cmd/vulcan/internal/ast/parser/condparser.go:162-170 | the trimmed inside of a single-level group is not a single-level group again |
| CondParser.UnwrappedFlat | cmd/vulcan/internal/ast/parser/condparser.go:110-117 | a text that is no single-level group is only trimmed |
| CondParser.ParseFlat | cmd/vulcan/internal/ast/parser/condparser.go:109-119 | parsing a text that is no single-level group goes straight to the operator split |
| CondParser.UnwrapGroup | cmd/vulcan/internal/ast/parser/condparser.go:113-117 | parsing `{...}` is parsing its inside |
| CondParser.ParseConditionWellFormed | cmd/vulcan/internal/ast/parser/condparser.go:87-106 | every condition `ParseCondition` returns is well formed and contains no GroupCondition, so ToSQL emits no group parentheses (only the `(?)` of an `IN` condition) |
| CondParser.ParseCondition | cmd/vulcan/internal/ast/parser/condparser.go:87-106 | trims the text, refuses unbalanced and then nested braces, and otherwise parses it; what it returns is stated by ParseConditionWellFormed, NestedRejected and BraceFreeConditionOrder |
| CondParser.IsSingleLevelGroup | cmd/vulcan/internal/ast/parser/condparser.go:162-170 | `{` at the start, `}` at the end and no brace in between; see GroupInsideFlat and UnwrapGroup |
| CondParser.GoTypeOf | cmd/vulcan/internal/ast/parser/condparser.go:386-404 | the Go type of a column type by the substring tests, in the source's order; see GoTypeOfRange |
| CondParser.Units | cmd/vulcan/internal/ast/parser/condparser.go:274-306 | the units of a condition, left to right, are all Simple |
| CondParser.AllParamsAppend | cmd/vulcan/internal/ast/parser/condparser.go:290-306 | parameter types of two unit lists concatenate |
| CondParser.RenderWellFormed | cmd/vulcan/internal/ast/parser/condparser.go:274-368 | ToSQL of a well-formed condition succeeds without an index out of range, with one parameter per unit other than ISNULL/ISNOTNULL, in unit order |
| CondParser.ToSQL | cmd/vulcan/internal/ast/parser/condparser.go:274-317 | renders a condition tree, joining the sides of an Or or And by their operator; see RenderWellFormed |
| CondParser.SimpleSQL | cmd/vulcan/internal/ast/parser/condparser.go:320-368 | renders one unit as `col op ?` (no `?` for the null tests, `(?)` for IN) with its parameter type; see RenderWellFormed |
| CondParser.NoOrOrAboveAnd | cmd/vulcan/internal/ast/parser/condparser.go:119-155 | a tree without Or nodes trivially has Or above And |
| CondParser.BraceFreeFirst | cmd/vulcan/internal/ast/parser/condparser.go:173-189 | without braces `findOutermostOperator` is `strings.IndexRune` |
| CondParser.BraceFreeFlat | cmd/vulcan/internal/ast/parser/condparser.go:162-170 | a text without braces is no group |
| CondParser.FirstBarSplits | cmd/vulcan/internal/ast/parser/condparser.go:120-136 | a brace-free text with `|` splits at its first `|` |
| CondParser.BraceFreeAndStep | cmd/vulcan/internal/ast/parser/condparser.go:139-155 | a brace-free text without `|` splits at its first `&` |
| CondParser.SliceFree | cmd/vulcan/internal/ast/parser/condparser.go:121-126 | slices of a brace-free text stay brace-free, and `|`-free when the text is |
| CondParser.FlatSide | cmd/vulcan/internal/ast/parser/condparser.go:109-117 | a brace-free side is parsed trimmed, straight by the operator split |
| CondParser.BraceFreeOrSplit | cmd/vulcan/internal/ast/parser/condparser.go:120-136 | a brace-free text with `|` parses as Or of two shorter brace-free sides |
| CondParser.BraceFreeAndSplit | cmd/vulcan/internal/ast/parser/condparser.go:139-155 | a brace-free text with `&` and no `|` parses as And of two shorter sides without `|` |
| CondParser.BraceFreeUnit | cmd/vulcan/internal/ast/parser/condparser.go:157-158 | a brace-free text without operators is one unit |
| CondParser.NoBarNoOr | cmd/vulcan/internal/ast/parser/condparser.go:139-158 | a brace-free text without `|` parses, if at all, into a tree without Or |
| CondParser.BraceFreeOrAboveAnd | cmd/vulcan/internal/ast/parser/condparser.go:119-158 | a brace-free text parses, if at all, with no Or below an And: `a|b&c` is Or(a, And(b,c)) |
| CondParser.BraceFreeCondition | cmd/vulcan/internal/ast/parser/condparser.go:87-106 | a brace-free text passes both brace checks and goes straight to the operator split |
| CondParser.BraceFreeConditionOrder | cmd/vulcan/internal/ast/parser/condparser.go:87-106 | `ParseCondition` of a brace-free text puts every Or above every And |
| CondParser.NestedRejected | cmd/vulcan/internal/ast/parser/condparser.go:96-102 | a balanced condition is rejected for nesting exactly when the depth reaches two, e.g. `{1&{status.GT|3.LT}}` |
| CondParser.NestingCheck | cmd/vulcan/internal/ast/parser/condparser.go:87-106 | with balanced braces, the nesting error comes exactly from `hasNestedBraces`, never from the parser proper |
| SqlStmt.ToSqlType | cmd/vulcan/internal/ast/parser/types/sql.go:83-96 | a statement kind is recognised exactly when the name, upper-cased, is INSERT, DELETE, UPDATE or SELECT |
| SqlStmt.SqlTypeRoundTrip | cmd/vulcan/internal/ast/parser/types/sql.go:68-96 | `ToSqlType(t.String())` gives back every kind, the unsupported one included |
| SqlStmt.TypeName | cmd/vulcan/internal/ast/parser/types/sql.go:68-81 | the upper-case name of each statement kind; SqlTypeRoundTrip proves `ToSqlType` reads it back |
| SqlStmt.SqlTypeIgnoresCase | cmd/vulcan/internal/ast/parser/types/sql.go:83-84 | the kind does not depend on letter case |
| SqlStmt.ParseSqlArgs | cmd/vulcan/internal/ast/parser/types/sql.go:197-210 | the loop collects the `#{...}` names in order and replaces each placeholder by `?`, then keeps one trailing space (`SqlArgs`) |
| SqlStmt.SqlArgsIdempotent | cmd/vulcan/internal/ast/parser/types/sql.go:197-210 | parsing the output again changes nothing and finds no argument |
| SqlStmt.SqlArgsTrailing | cmd/vulcan/internal/ast/parser/types/sql.go:209 | the parsed SQL ends in exactly one space |
| SqlStmt.NewSimpleStmt | cmd/vulcan/internal/ast/parser/types/sql.go:126-130 | the SQL is the text extracted from the input with quotes and backquotes trimmed, and the arguments are its placeholders in order; it has one `?` per argument when the text had no `?` of its own |
| SqlStmt.TrailingKeepsCount | cmd/vulcan/internal/ast/parser/types/sql.go:209 | trailing-space normalisation keeps every `?` |
| SqlStmt.IfStmt.constructor | cmd/vulcan/internal/ast/parser/types/sql.go:184-195 | an if statement keeps its condition and holds the parsed, unquoted SQL and its arguments |
| SqlStmt.IfChainStmt.constructor | cmd/vulcan/internal/ast/parser/types/sql.go:218-222 | an if chain holds its statements |
| SqlStmt.ChooseStmt.constructor | cmd/vulcan/internal/ast/parser/types/sql.go:238-248 | a choose statement holds its whens; a non-empty otherwise is parsed, an empty one stays empty with no arguments |
| SqlStmt.TrimBranches | cmd/vulcan/internal/ast/parser/types/sql.go:138-150 | every branch SQL of an if, if chain or choose (otherwise included) loses its trailing spaces in place; arguments are untouched |
| SqlStmt.TrimAll | cmd/vulcan/internal/ast/parser/types/sql.go:142-144 | the loop trims each statement's SQL on the right and keeps its arguments |
| SqlStmt.WhereStmt.constructor | cmd/vulcan/internal/ast/parser/types/sql.go:137-152 | a where statement holds its condition, whose branch SQL has been right-trimmed in place |
| SqlStmt.SetStmt.constructor | cmd/vulcan/internal/ast/parser/types/sql.go:159-174 | a set statement holds its condition, whose branch SQL has been right-trimmed in place |
| SqlStmt.TrimUnquoted | cmd/vulcan/internal/ast/parser/types/sql.go:264-272 | trimming quotes leaves no quote at either end |
| SqlStmt.NewForeachStmt | cmd/vulcan/internal/ast/parser/types/sql.go:263-277 | the collection, item, separator, open and close names are the inputs with quotes and backquotes trimmed (so unquoted), the SQL is the extracted text trimmed of spaces at both ends, the arguments are the placeholders in order |
| SqlStmt.RawSqlRoundTrip | cmd/vulcan/internal/ast/parser/types/sql.go:284-296 | `NewRawSQL(s).Stmt()` is `s` |
| Placeholders.NameRun | internal/utils/sqlutils/sqlutils.go:13 | the name run is the longest prefix of `[\w.]` characters |
| Placeholders.TokenAt | cmd/vulcan/internal/ast/parser/types/sql.go:98 | a placeholder match at the start is exactly `#{` name `}`, its name free of `}`, non-empty name characters for the runtime pattern |
| Placeholders.RestoreReplaced | cmd/vulcan/internal/ast/parser/types/sql.go:197-208 | putting the collected names back into the `?` marks restores the text: nothing but the placeholders changes |
| Placeholders.OneMarkPerArg | cmd/vulcan/internal/ast/parser/types/sql.go:197-208 | in a text without its own `?`, the replaced text holds exactly one `?` per collected name |
| Placeholders.SettledUntouched | cmd/vulcan/internal/ast/parser/types/sql.go:197-208 | a text without placeholders has no arguments and is not changed |
| Placeholders.ReplacedBraces | cmd/vulcan/internal/ast/parser/types/sql.go:208 | replacing placeholders brings in no `}` |
| Placeholders.ReplacedSettled | cmd/vulcan/internal/ast/parser/types/sql.go:208 | after replacement no placeholder is left |
| Placeholders.FirstOfReplaced | cmd/vulcan/internal/ast/parser/types/sql.go:208 | the replaced text starts with `?` or with the original first character |
| Placeholders.SettledTrailing | cmd/vulcan/internal/ast/parser/types/sql.go:209 | trailing-space normalisation creates no placeholder |
| SqlUtils.SkipSpaces | internal/utils/sqlutils/sqlutils.go:36-38 | the loop stops at the first non-space at or after i, or at the end |
| SqlUtils.JoinFirstLineCount | internal/utils/sqlutils/sqlutils.go:29-40 | joining the first line break removes that `\n` and only spaces around it |
| SqlUtils.JoinLines | internal/utils/sqlutils/sqlutils.go:29-40 | after the newline loop no `\n` is left |
| SqlUtils.JoinLinesCount | internal/utils/sqlutils/sqlutils.go:29-40 | the newline loop keeps every character other than spaces and `\n` |
| SqlUtils.JoinLinesSingle | internal/utils/sqlutils/sqlutils.go:29-33 | a text without `\n` passes unchanged |
| SqlUtils.RemoveAll | internal/utils/sqlutils/sqlutils.go:43 | `strings.ReplaceAll(s, "\t", "")` removes every tab and adds nothing |
| SqlUtils.RemoveAllCount | internal/utils/sqlutils/sqlutils.go:43 | removing tabs keeps every other character |
| SqlUtils.SkipSpacesFrom | internal/utils/sqlutils/sqlutils.go:36-38 | the skip loop finds what `SkipSpaces` specifies |
| SqlUtils.ParseSQLStmt | internal/utils/sqlutils/sqlutils.go:15-49 | the method returns the names of `#{name}` in order and the SQL with `?` marks, joined lines and no tabs (`Parsed`), with no `\n` or `\t` |
| SqlUtils.ParsedClean | internal/utils/sqlutils/sqlutils.go:28-43 | the parsed SQL holds no newline or tab |
| SqlUtils.ArgsAreNames | internal/utils/sqlutils/sqlutils.go:13 | each parameter name is non-empty and made of `[\w.]` characters |
| SqlUtils.ParsedMarks | internal/utils/sqlutils/sqlutils.go:15-49 | a SQL text without its own `?` comes out with one `?` per parameter name |
| StringUtils.TrimTrailingRedundantSpaces | cmd/vulcan/internal/utils/stringutils/util.go:6-8 | the result ends in exactly one space |
| StringUtils.TrimTrailingIdempotent | internal/utils/stringutils/util.go:6-8 | normalising twice is normalising once |
| StringUtils.TrimTrailingAllSpaces | cmd/vulcan/internal/utils/stringutils/util.go:6-8 | a text of spaces becomes a single space |
| StringUtils.TrimTrailingDropLast | cmd/vulcan/internal/utils/stringutils/util.go:6-8 | without its last space the result is the text with trailing spaces removed |
| StringUtils.TitleAfter | cmd/vulcan/internal/utils/stringutils/util.go:15 | `strings.Title` keeps the length and changes characters only by upper-casing |
| StringUtils.Title | cmd/vulcan/internal/utils/stringutils/util.go:15 | a titled word starts upper-cased |
| StringUtils.TitledParts | cmd/vulcan/internal/utils/stringutils/util.go:13-17 | the kept parts are no more than the parts |
| StringUtils.ToPascalCaseByList | cmd/vulcan/internal/utils/stringutils/util.go:21-29 | the loop joins the titled non-empty parts (`PascalOf`) |
| StringUtils.ToPascalCase | cmd/vulcan/internal/utils/stringutils/util.go:10-19 | PascalCase of a snake name is `PascalOf` its `_`-split parts |
| StringUtils.JoinEmptySnoc | cmd/vulcan/internal/utils/stringutils/util.go:28 | joining with "" is concatenation |
| StringUtils.TitleKeepsUnderscore | cmd/vulcan/internal/utils/stringutils/util.go:15 | titling adds or removes no `_` |
| StringUtils.PascalNoUnderscore | cmd/vulcan/internal/utils/stringutils/util.go:21-29 | parts without `_` give a name without `_` |
| StringUtils.PascalCaseNoUnderscore | cmd/vulcan/internal/utils/stringutils/util.go:10-19 | a PascalCase name never holds `_` |
| StringUtils.PascalEmpty | cmd/vulcan/internal/utils/stringutils/util.go:21-29 | the name is empty exactly when every part is |
| Builder.FirstTrue | sqlbuilder.go:118-125 | the index of the first branch whose condition holds, or -1 exactly when none holds |
| Builder.ChosenIgnoresLater | sqlbuilder.go:118-124 | branches after the first true one contribute neither text nor arguments |
| Builder.SetDefaultWritesWhere | sqlbuilder.go:127-142 | as written, with no true branch and a default, `AppendSetStmtChoosed` writes `WHERE ` and the default, not `SET ` |
| Builder.ChosenIntendedKeyWord | sqlbuilder.go:117-142 | the intended text is empty exactly when nothing is chosen, otherwise starts with the key word, and equals the written text for `WHERE `, for a chosen branch and for an empty default |
| Builder.FirstTruePrefix | sqlbuilder.go:118-124 | adding branches after a true one does not move the choice |
| Builder.LoopWrittenJoin | sqlbuilder.go:90-97 | over all items the loop writes `sql` once per item with the separator between them and not after the last |
| Builder.LoopWrittenPrefix | sqlbuilder.go:90-97 | after `i` items the buffer holds `i` copies joined, plus a separator unless `i` is the last |
| Builder.SqlBuilder.constructor | sqlbuilder.go:12-19 | a new builder is empty; the capacity hints must not be negative |
| Builder.SqlBuilder.AppendWhereStmtConditional | sqlbuilder.go:21-29 | the fragment and its arguments are added only when the condition holds; the buffer is untouched |
| Builder.SqlBuilder.EndWhereStmt | sqlbuilder.go:31-41 | the buffer gains `WHERE 1 = 1` and the fragments joined by spaces, or nothing when there are none; the fragments are kept |
| Builder.SqlBuilder.String | sqlbuilder.go:144-146 | the text written so far; every appending method states its new value |
| Builder.SqlBuilder.Args | sqlbuilder.go:148-150 | the arguments collected so far; every appending method states their new value |
| Builder.SqlBuilder.AppendSetStmtConditional | sqlbuilder.go:43-51 | the SET fragment and its arguments are added only when the condition holds |
| Builder.SqlBuilder.EndSetStmt | sqlbuilder.go:53-63 | the buffer gains `SET` and the fragments joined by `, `, or nothing when there are none |
| Builder.SqlBuilder.AppendStmt | sqlbuilder.go:65-69 | text and arguments are appended unconditionally |
| Builder.SqlBuilder.AppendStmtConditional | sqlbuilder.go:71-78 | text and arguments are appended only when the condition holds |
| Builder.SqlBuilder.AppendStmtChoosed | sqlbuilder.go:117-134 | the loop writes the key word and the first true branch with its arguments, else `WHERE` and the default (whatever the key word), else nothing |
| Builder.SqlBuilder.AppendWhereStmtChoosed | sqlbuilder.go:136-138 | a choose over WHERE branches, as `AppendStmtChoosed` with `WHERE ` |
| Builder.SqlBuilder.AppendSetStmtChoosed | sqlbuilder.go:140-142 | a choose over SET branches, with `SET ` before a chosen branch but `WHERE ` before the default |
| Builder.AppendLoopStmt | sqlbuilder.go:81-105 | an empty collection writes nothing; otherwise open, one `sql` per item joined by the separator, close and a space; the arguments are every item's in order |
| Builder.AppendLoopItem | sqlbuilder.go:91-96 | one loop pass adds the item's arguments, its text and the separator unless it is the last |
| Builder.AppendLoopItems | sqlbuilder.go:90-97 | the loop writes one `sql` per item joined by the separator and appends every item's arguments in order |
| Builder.EndWhereTwice | sqlbuilder.go:31-41 | ending the WHERE clause twice writes it twice: the fragments are never cleared |
| Pages.SqlStmt | paging.go:14-27 | the loop renders each item as ` ORDER BY col ASC\|DESC`, in order (`OrdersSql`) |
| Pages.OrdersSqlAppend | paging.go:14-27 | the text of two lists is the text of each, one after the other |
| Pages.OrdersSqlStart | paging.go:14-27 | the text is empty exactly when there are no items, and otherwise starts with the first item's clause |
| Pages.DirectedItems | paging.go:70-87 | `AddDescs` and `AddAscs` make one item per column, in order, descending or ascending |
| Pages.Paging.constructor | paging.go:48-53 | `NewPaging` keeps page and size, with no totals and no orders |
| Pages.Paging.SetPageSize | paging.go:55-58 | only the page size changes |
| Pages.Paging.SetCurrentPage | paging.go:60-63 | only the current page changes |
| Pages.Paging.AddOrderItems | paging.go:65-68 | the items are appended to the orders; nothing else changes |
| Pages.Paging.AddDescs | paging.go:70-78 | the loop appends one descending item per column |
| Pages.Paging.AddAscs | paging.go:80-87 | the loop appends one ascending item per column |
| Pages.Paging.SetTotalCount | paging.go:105-107 | only the total count changes |
| Pages.Paging.SetTotalPages | paging.go:109-111 | only the total pages change |
| Pages.Paging.IsSelectCount | paging.go:113-115 | a `Paging` always asks for the count query |
| Pages.Paging.CurrentPage | paging.go:89-91 | the current page; SetCurrentPage and the constructor state it |
| Pages.Paging.PageSize | paging.go:93-95 | the page size; SetPageSize and the constructor state it |
| Pages.Paging.TotalCount | paging.go:97-99 | the total count; SetTotalCount states it |
| Pages.Paging.TotalPages | paging.go:101-103 | the total pages; SetTotalPages states it |
| Pages.Paging.Orders | paging.go:117-119 | the order items; AddOrderItems, AddDescs and AddAscs state them |
| SelectBuilder.Build | db/sqlbuilder/selectbuilder.go:18-65 | the statement as written (`SelectText`): head, conditions, order list, limit |
| SelectBuilder.WriteHead | db/sqlbuilder/selectbuilder.go:19-29 | `SELECT`, the fields joined by `, ` or `* `, ` FROM `, the table and ` WHERE `, even with no condition |
| SelectBuilder.WriteConditions | db/sqlbuilder/selectbuilder.go:30-36 | the loop writes `c = ?` per condition joined by `, ` (not AND), with a space after the last |
| SelectBuilder.WriteDescs | db/sqlbuilder/selectbuilder.go:37-49 | the countdown gives every descending column `DESC, ` except the last order item overall |
| SelectBuilder.WriteAscs | db/sqlbuilder/selectbuilder.go:51-57 | the ascending loop as written: the last column gets ` ASC` and then ` ASC, ` again |
| SelectBuilder.BuildFixed | db/sqlbuilder/selectbuilder.go:18-65 | with an `else` in the ascending loop, the statement is the intended one: all order items joined by `, ` |
| SelectBuilder.WriteAscsFixed | db/sqlbuilder/selectbuilder.go:51-57 | the corrected ascending loop ends the order list without a separator |
| SelectBuilder.SelectAgreesWithoutAsc | db/sqlbuilder/selectbuilder.go:51-57 | with no ascending column the written and the intended statement agree |
| SelectBuilder.AscWrittenTwice | db/sqlbuilder/selectbuilder.go:53-56 | as written, the last ascending column is written twice |
| SelectBuilder.OneAscPieces | db/sqlbuilder/selectbuilder.go:18-65 | the pieces of the statement for table `t` and ascending column `id` |
| SelectBuilder.SelectAscCounterexample | db/sqlbuilder/selectbuilder.go:51-57 | for that input the statement ends `ORDER BY id ASCid ASC, ` |
| SelectBuilder.SelectAscIntended | db/sqlbuilder/selectbuilder.go:51-57 | where `ORDER BY id ASC` is meant |
| SelectBuilder.IntendedOrderEnd | db/sqlbuilder/selectbuilder.go:42-57 | the intended order list ends with the last ascending column and no separator |
| InsertBuilding.InsertBuilder.constructor | db/sqlbuilder/insertbuilder.go:7-11 | a builder holds its fields, batch and table |
| InsertBuilding.InsertBuilder.Build | db/sqlbuilder/insertbuilder.go:13-41 | a batch of zero or less is reset to 1 on the builder; the statement is the header and the value group repeated batch times (`InsertText`) |
| InsertBuilding.WriteGroup | db/sqlbuilder/insertbuilder.go:24-34 | the loop writes one `?` per field separated by `, ` inside ` (` and `)` |
| InsertBuilding.InsertMarks | db/sqlbuilder/insertbuilder.go:13-41 | with no `?` in the names, the statement holds batch × fields placeholders |
| InsertBuilding.GroupMarks | db/sqlbuilder/insertbuilder.go:24-34 | one value group holds one `?` per field |
| InsertBuilding.JoinFree | db/sqlbuilder/insertbuilder.go:22 | joining texts free of a character with a separator free of it gives a text free of it |
| InsertBuilding.InsertEnds | db/sqlbuilder/insertbuilder.go:36-38 | the statement ends with a value group: nothing between or after the groups |
| UpdateBuilding.Build | db/sqlbuilder/updatebuilder.go:11-36 | `UPDATE t SET` with `f = ?` per field joined by `, `, then, with conditions, ` WHERE ` and `c = ?` joined by `, ` (`UpdateText`) |
| UpdateBuilding.WriteAssignments | db/sqlbuilder/updatebuilder.go:17-23 | the loop writes `n = ?` per name, joined by `, ` |
| UpdateBuilding.UpdateMarks | db/sqlbuilder/updatebuilder.go:11-36 | with no `?` in the names, one placeholder per field and per condition |
| DeleteBuilding.Build | db/sqlbuilder/deletebuilder.go:10-26 | `DELETE FROM t`, then, with conditions, ` WHERE ` and `c = ?` joined by ` AND ` (`DeleteText`) |
| DeleteBuilding.DeleteMarks | db/sqlbuilder/deletebuilder.go:10-26 | with no `?` in the names, one placeholder per condition |
| QueryWrapping.MarksJoined | db/wrapper/querywrapper.go:63-67 | the loop's `?` followed by `, ?` per further value is the n marks joined by `, ` |
| QueryWrapping.InKeyMarks | db/wrapper/querywrapper.go:61-68 | an IN key over n values holds exactly n placeholders |
| QueryWrapping.InKey | db/wrapper/querywrapper.go:61-68 | `field IN (?, ?, …)` with one mark per value; see MarksJoined and InKeyMarks |
| QueryWrapping.QueryWrapper.constructor | db/wrapper/querywrapper.go:14-16 | a new wrapper has no fields and no conditions |
| QueryWrapping.QueryWrapper.AddCondition | db/wrapper/querywrapper.go:42-50 | one condition is appended; the other lists stay |
| QueryWrapping.QueryWrapper.Eq | db/wrapper/querywrapper.go:18-20 | appends an `=` condition on the value |
| QueryWrapping.QueryWrapper.Ne | db/wrapper/querywrapper.go:22-24 | appends a `<>` condition |
| QueryWrapping.QueryWrapper.Gt | db/wrapper/querywrapper.go:26-28 | appends a `>` condition |
| QueryWrapping.QueryWrapper.Lt | db/wrapper/querywrapper.go:30-32 | appends a `<` condition |
| QueryWrapping.QueryWrapper.Le | db/wrapper/querywrapper.go:34-36 | appends a `<=` condition |
| QueryWrapping.QueryWrapper.Ge | db/wrapper/querywrapper.go:38-40 | appends a `>=` condition |
| QueryWrapping.QueryWrapper.Select | db/wrapper/querywrapper.go:52-55 | the fields are appended to the selected ones |
| QueryWrapping.QueryWrapper.In | db/wrapper/querywrapper.go:57-74 | no values changes nothing; otherwise one IN entry with one `?` per value and the values as given |
| QueryWrapping.QueryWrapper.Like | db/wrapper/querywrapper.go:76-83 | appends a LIKE condition whose value is the text wrapped in `%` |
| Interceptors.ExecOption.constructor | vulcan.go:23-29 | an option holds its statement, arguments, executor, extension and context |
| Interceptors.GetCacheInterceptor | cache.go:32-43 | a cache stage exactly when the context is non-nil and holds one, and then that stage |
| Interceptors.ExtraFrom | interceptor.go:47-55 | the method's lookup of the per-call interceptors agrees with `ExtraInterceptors`: one handler, a list, or none for an absent or other value |
| Interceptors.Slot | interceptor.go:61-82 | an optional stage contributes one entry when set and none otherwise |
| Interceptors.StageOrderEmpty | interceptor.go:84-87 | the chain is empty exactly when no slot is set and both lists are empty |
| Interceptors.StageOrderPositions | interceptor.go:57-82 | cache first, then pagination, debug, the global list, the per-call list and slow query last, each at its position |
| Interceptors.Registry.constructor | interceptor.go:13-18 | nothing is registered at start |
| Interceptors.Registry.AddInterceptors | interceptor.go:215-217 | the handlers are appended after those already registered; the slots stay |
| Interceptors.Registry.SetPaginationInterceptor | interceptor.go:203-205 | only the pagination slot changes |
| Interceptors.Registry.SetSqlDebugInterceptor | interceptor.go:207-209 | only the debug slot changes |
| Interceptors.Registry.SetSlowQueryLoggingInterceptor | interceptor.go:211-213 | only the slow-query slot changes |
| Interceptors.Registry.BuildInterceptorChain | interceptor.go:45-91 | the method assembles the stages in the fixed order (`ChainFor`) |
| Interceptors.Registry.Invoke | interceptor.go:20-42 | a nil context becomes the background context; with no stage the terminal runs once directly; otherwise the chain runs and an error replaces the value by the zero value |
| Interceptors.ChainForEmpty | interceptor.go:84-87 | no chain is built exactly when no cache stage, no slot, no global and no per-call interceptor is present |
| Interceptors.GetChainHandler | interceptor.go:101-109 | the terminal handler exactly for the last stage, otherwise the continuation into the next stage |
| Interceptors.Entries | interceptor.go:94-109 | stages k to n-1 entered in order |
| Interceptors.AllForward | interceptor.go:101-109 | stages that all forward from k on enter each stage once, then run the terminal |
| Interceptors.ChainRunsTerminalOnce | interceptor.go:94-109 | a chain of forwarding stages runs the terminal exactly once, after every stage, and returns its outcome |
| Interceptors.FirstAnswer | interceptor.go:101-109 | the first stage that answers without calling next ends the run; the terminal never runs |
| Interceptors.TotalPagesCeiling | interceptor.go:173-177 | with Go's truncating `/` and `%`, the page count is the count divided by the size rounded up |
| Interceptors.LimitClause | interceptor.go:153 | the LIMIT text starts with `LIMIT `, with no space before it |
| Interceptors.PaginationInterceptor | interceptor.go:143-180 | a SELECT with a page extension and non-zero size and number gets the page tail appended and, when counting, the page gains the count and page count; anything else passes unchanged; the stage always forwards |
| Interceptors.WritePageTail | interceptor.go:153-156 | the tail is the LIMIT text, after the order clauses when there are any |
| Interceptors.RecordTotals | interceptor.go:170-177 | the page stores the count and the page count derived from it; the request is kept |
| Interceptors.TailPieces | interceptor.go:153-155 | the pieces of the tail for page 1 of 10 ordered by `id` descending |
| Interceptors.PageTailRunsIn | interceptor.go:153-155 | as written, that tail reads ` ORDER BY id DESCLIMIT 10, 0` |
| Interceptors.PageTailSwapped | interceptor.go:153 | without orders it reads `LIMIT 10, 0`: offset 10 and no row |
| Interceptors.IntendedPageTailExample | interceptor.go:153-155 | the intended tail reads ` ORDER BY id DESC LIMIT 0, 10` |
| Interceptors.PageTailNoSpace | interceptor.go:153-155 | whenever there are orders, `LIMIT` directly follows the last `C` of `DESC` or `ASC` |
| Interceptors.IntendedLimitSeparated | interceptor.go:153-155 | in the intended tail ` LIMIT ` stands on its own right after the order clauses |
| Interceptors.AfterPrefix | interceptor.go:155 | the characters after a prefix are those of what follows it |
| Interceptors.Formatted | interceptor.go:119-135 | every argument is formatted, in order |
| Interceptors.DebugInterceptor | interceptor.go:116-139 | the debug stage logs the statement and the formatted arguments joined by `, `, then forwards unchanged |
| Interceptors.SlowQuery | interceptor.go:187-200 | the outcome is passed through; one report exactly when there is no error and the time exceeds the limit |
| Interceptors.SlowQueryWithinLimit | interceptor.go:195-197 | a time within the limit is never reported |
| Cache.MapManager.constructor | cache.go:15-19 | a map-backed cache manager starts empty |
| Cache.MapManager.Get | cache.go:16 | found exactly when the key is stored, with its stored pointer |
| Cache.MapManager.Set | cache.go:17 | the key maps to the value; other keys are kept |
| Cache.MapManager.Delete | cache.go:18 | the key is removed; other keys are kept |
| Cache.CacheableHandler | cache.go:62-127 | as written: calls the loader exactly on a miss with a non-empty key; the result and the new cache state are `CacheableResult` and `CacheableStore` |
| Cache.CacheableHandlerFixed | cache.go:95-100 | the corrected handler: a nil result with `CacheNil` off is returned and not stored |
| Cache.EmptyKey | cache.go:63-65 | an empty key fails with "empty key provided", stores nothing and loads nothing |
| Cache.HitSkipsNext | cache.go:68-70 | a hit returns the cached pointer without calling the loader |
| Cache.LoadErrorStoresNothing | cache.go:83-87 | a load error is returned and nothing is stored |
| Cache.StoredThenHit | cache.go:101-111 | a loaded value is stored and returned, and a later call hits it without loading |
| Cache.NilCached | cache.go:95-97 | with `CacheNil`, a nil result is stored as nil and later calls return nil |
| Cache.NilFallThrough | cache.go:95-111 | as written, with `CacheNil` off a nil result still falls through: nil is stored and the type assertion on the nil answer panics |
| Cache.NilNotCached | cache.go:98-99 | the evident intent: with `CacheNil` off a nil result is returned, not stored, and the next call loads again |
| Cache.IntendedAgrees | cache.go:62-127 | the corrected handler agrees with the written one in every other case |
| Cache.CacheEvictInterceptor | cache.go:129-146 | the key is deleted before the call, or after a successful call; an error is returned with a nil value |
| Cache.EvictBefore | cache.go:131-133 | with `BeforeInvocation` the key is gone whatever the call does, and other keys are kept |
| Cache.EvictAfter | cache.go:141-143 | otherwise the key survives exactly when the call fails |
| Cache.EvictThenMiss | cache.go:129-146 | after a successful evicting call the next cacheable call loads |
| Cache.CacheCtx | cache.go:45-55 | a cache context holds the stage and no per-call interceptors |
| Transactions.InterceptorCtx | vulcan.go:54-63 | the new context holds the interceptors and keeps the cache stage of the old one |
| Transactions.Apply | vulcan.go:46-63 | `WithTransaction` sets only the executor; `WithInterceptors` sets only the context |
| Transactions.InterceptorsJoinChain | vulcan.go:54-63 | interceptors given per call take their place in the chain after the global ones |
| Transactions.Transactional | vulcan.go:71-93 | the actions taken and the error returned are `TxActions` and `TxError` |
| Transactions.BeginFailure | vulcan.go:73-76 | a failed begin is returned and neither the callback, commit nor rollback happens |
| Transactions.CommitOrRollback | vulcan.go:77-92 | begin, the callback with the transaction, then commit exactly when it returned no error and did not panic, rollback otherwise |
| Transactions.TxSucceedsIff | vulcan.go:71-93 | no error exactly when begin, callback and commit all succeed |
| Transactions.EndErrorWins | vulcan.go:87-89 | a commit or rollback error replaces the callback's result |
| Transactions.PanicReported | vulcan.go:79-83 | a panic followed by a clean rollback is reported as "recovered from" and the value |
| GenUtils.Keys | cmd/vulcan/internal/utils/utils.go:18-27 | nil for a nil map; otherwise every key exactly once |
| GenUtils.Values | cmd/vulcan/internal/utils/utils.go:29-39 | nil for a nil map; otherwise one value per key, in the order of some enumeration of the keys |
| GenUtils.Contains | cmd/vulcan/internal/utils/utils.go:41-49 | true exactly when some element equals the value |
| GenUtils.ContainsPrefix | cmd/vulcan/internal/utils/utils.go:51-59 | true exactly when some element is a prefix of the text |
| GenUtils.GetPackageName | cmd/vulcan/internal/utils/utils.go:61-68 | the part after the last `/`, or the whole path when it has none |
| GenUtils.Find | cmd/vulcan/internal/utils/utils.go:70-79 | the first element the predicate accepts, with true, or the zero value and false when none does |
| GenUtils.TrimLineWithPrefix | cmd/vulcan/internal/utils/utils.go:147-163 | the loop keeps, each followed by `\n`, exactly the lines that start with none of the prefixes (`KeptLines`) |
| GenUtils.KeptAll | cmd/vulcan/internal/utils/utils.go:147-163 | with no prefix every line is kept |
| GenUtils.TrimNothing | cmd/vulcan/internal/utils/utils.go:147-163 | with no prefix the content comes back with one `\n` added |
| GenUtils.TrimEmptyPrefix | cmd/vulcan/internal/utils/utils.go:153-157 | an empty prefix drops every line |
| TypeSupport.TrimSuffix | cmd/vulcan/internal/ast/parser/types/validate.go:49 | `strings.TrimSuffix` removes the suffix when present and changes nothing otherwise |
| TypeSupport.IsTypeSupported | cmd/vulcan/internal/ast/parser/types/validate.go:43-58 | a generic type is supported exactly when it reads `sql.Null[T]` with T a basic type; any other type when it starts with a column type or is a basic type |
| TypeSupport.IsNullableType | cmd/vulcan/internal/ast/parser/types/validate.go:60-68 | true exactly when the name starts with one of the column types |
| TypeSupport.NullableIsSupported | cmd/vulcan/internal/ast/parser/types/validate.go:53-68 | every nullable type is supported |
| TypeSupport.SqlNullPrefixNullable | cmd/vulcan/internal/ast/parser/types/validate.go:38 | every name starting with `sql.Null` is nullable |
| TypeSupport.NullableIsSql | cmd/vulcan/internal/ast/parser/types/validate.go:29-40 | every nullable type is in the `sql.` package |
| TypeSupport.CutAtBracket | cmd/vulcan/internal/ast/parser/types/validate.go:45 | the cut splits at the first `[` |
| TypeSupport.GenericNullInt64 | cmd/vulcan/internal/ast/parser/types/validate.go:43-51 | `sql.Null[int64]` is supported |
| TypeSupport.GenericOtherHead | cmd/vulcan/internal/ast/parser/types/validate.go:43-51 | `sql.NullInt64[int64]` is not: the head must be exactly `sql.Null` |
| ErrorChains.ErrorChain.constructor | cmd/vulcan/internal/errors/errors.go:8-10 | a chain holds its errors |
| ErrorChains.ErrorChain.Error | cmd/vulcan/internal/errors/errors.go:12-20 | the loop writes the errors newest first, each followed by `\n` (`NewestFirst`) |
| ErrorChains.Errorf | cmd/vulcan/internal/errors/errors.go:22-24 | a new chain holding the one message |
| ErrorChains.Wrapf | cmd/vulcan/internal/errors/errors.go:26-35 | a chain gains the message at its end in place; a plain error becomes a new chain of it and the message |
| ErrorChains.WrappedLeads | cmd/vulcan/internal/errors/errors.go:12-20 | after wrapping, the new message is the first line of the text |
| ErrorChains.OneLinePerError | cmd/vulcan/internal/errors/errors.go:12-20 | with single-line messages the text has one line per error |
| Templates.KeptFields | cmd/vulcan/internal/ast/generator/dbgenerator/template.go:155-158 | the fields kept for an insert: all of them, or, with `ignorePrimary`, all but auto-increment primary keys |
| Templates.ColumnList | cmd/vulcan/internal/ast/generator/dbgenerator/template.go:159 | one backquoted column name per field, in order |
| Templates.ValueList | cmd/vulcan/internal/ast/generator/dbgenerator/template.go:170 | one `#{obj.Name}` placeholder per field, in order |
| Templates.GetTableFields | cmd/vulcan/internal/ast/generator/dbgenerator/template.go:153-162 | the loop joins the backquoted columns of the kept fields with `, ` |
| Templates.GetAddFields | cmd/vulcan/internal/ast/generator/dbgenerator/template.go:164-173 | the loop joins the placeholders of the kept fields with `, ` |
| Templates.CountSeparators | cmd/vulcan/internal/ast/generator/dbgenerator/template.go:161 | a join of comma-free parts holds one comma fewer than it has parts |
| Templates.SameSeparators | cmd/vulcan/internal/ast/generator/dbgenerator/template.go:161-172 | joins of equally many comma-free parts hold equally many commas |
| Templates.ColumnsMatchValues | cmd/vulcan/internal/ast/generator/dbgenerator/template.go:153-173 | the column list and the value list of an insert name the same fields in the same order, position by position |
| Templates.ValidateFrom | cmd/vulcan/internal/ast/generator/dbgenerator/template.go:198-206 | from position k, the first field of a listed column whose type is not nullable gives the error, and only such a field |
| Templates.ValidateNullableFields | cmd/vulcan/internal/ast/generator/dbgenerator/template.go:197-209 | no error exactly when every field of a listed column is nullable; otherwise the error names the first that is not |
| Templates.GetNullableTypeValidator | cmd/vulcan/internal/ast/generator/dbgenerator/template.go:211-218 | `len(obj.f) != 0` for `sql.RawBytes`, `obj.f.Valid` for every other type |
| Templates.GetNullableTypeValueName | cmd/vulcan/internal/ast/generator/dbgenerator/template.go:220-236 | `.V` for `sql.Null[T]`, the field for `sql.RawBytes`, the name after `sql.Null` otherwise, and no value (the fatal log) exactly when the type contains no `sql.Null` |
| Templates.NullableHead | cmd/vulcan/internal/ast/generator/dbgenerator/template.go:230-233 | every nullable type other than `sql.RawBytes…` starts with `sql.Null`, so its cut succeeds |
| Templates.GetTypeValueName | cmd/vulcan/internal/ast/generator/dbgenerator/template.go:238-244 | nullable types are read through `GetNullableTypeValueName`, others as the field; it fails only for types that start with `sql.RawBytes` and are longer |
| Templates.SqlNullReadable | cmd/vulcan/internal/ast/generator/dbgenerator/template.go:238-244 | a `sql.Null…` type always has a value name |
| Templates.NullInt64Reading | cmd/vulcan/internal/ast/generator/dbgenerator/template.go:220-236 | a `sql.NullInt64` field is read as `obj.f.Int64` |
| Templates.FieldFrom | cmd/vulcan/internal/ast/generator/dbgenerator/template.go:187-191 | from position k, the first field with the column, or none when no later field has it |
| Templates.GetStructField | cmd/vulcan/internal/ast/generator/dbgenerator/template.go:186-195 | the first field with the column; none (the fatal log) exactly when no field has it |
| Templates.GatherList | cmd/vulcan/internal/ast/generator/dbgenerator/template.go:255-268 | a gathered list has one term per pair |
| Templates.GatherStops | cmd/vulcan/internal/ast/generator/dbgenerator/template.go:246-268 | a lookup that fails for a prefix fails for the whole list |
| Templates.GatherConcat | cmd/vulcan/internal/ast/generator/dbgenerator/template.go:246-253 | the text for two lists is the text of each, one after the other |
| Templates.GatherListAt | cmd/vulcan/internal/ast/generator/dbgenerator/template.go:257-265 | the i-th gathered term is the term of the i-th pair |
| Templates.GenWhereQuery | cmd/vulcan/internal/ast/generator/dbgenerator/template.go:246-253 | the loop writes ` key col=#{value}` per pair, or fails at the first unknown column or unreadable type (`WhereQuery`) |
| Templates.WhereQueryConcat | cmd/vulcan/internal/ast/generator/dbgenerator/template.go:246-253 | the where query of two lists is the query of each, one after the other |
| Templates.IfCall | cmd/vulcan/internal/ast/generator/dbgenerator/template.go:264 | an `If(...)` call built from one-line pieces is one line |
| Templates.GenIfOfWhereAnnotation | cmd/vulcan/internal/ast/generator/dbgenerator/template.go:255-268 | the loop joins one `If(validator, "key col=#{value}")` per pair with `.\n\t\t\t`, and fails exactly when some term does |
| Templates.ValueNameOneLine | cmd/vulcan/internal/ast/generator/dbgenerator/template.go:220-236 | a value name built from one-line names is one line |
| Templates.IfTermOneLine | cmd/vulcan/internal/ast/generator/dbgenerator/template.go:258-264 | each `If` term built from one-line names is one line |
| Templates.IfAnnotationLines | cmd/vulcan/internal/ast/generator/dbgenerator/template.go:261-263 | the annotation of n pairs spans exactly n lines |
| ModelGenerator.GetGoTypeFromSqlType | cmd/vulcan/internal/ast/generator/dbgenerator/modelgenerator.go:135-152 | as written: an error exactly for a SQL type missing from the chosen table; with the nullable table every result is prefixed `sql.`, the unsigned ones included |
| ModelGenerator.GoTypeIntended | cmd/vulcan/internal/ast/generator/dbgenerator/modelgenerator.go:135-152 | the corrected lookup: the same errors, and `sql.` only before a `Null…` name |
| ModelGenerator.SameSqlTypes | cmd/vulcan/internal/ast/generator/dbgenerator/modelgenerator.go:20-104 | both tables know the same SQL types |
| ModelGenerator.PlainTypesBasic | cmd/vulcan/internal/ast/generator/dbgenerator/modelgenerator.go:20-61 | every plain mapping is a supported basic type |
| ModelGenerator.NullNamesShape | cmd/vulcan/internal/ast/generator/dbgenerator/modelgenerator.go:63-104 | every nullable mapping is a `Null…` name or a basic type |
| ModelGenerator.SqlNullName | cmd/vulcan/internal/ast/generator/dbgenerator/modelgenerator.go:143 | `sql.` before a `Null…` name gives a `sql.Null…` type |
| ModelGenerator.IntendedSupported | cmd/vulcan/internal/ast/generator/dbgenerator/modelgenerator.go:135-152 | every type the corrected lookup gives is supported by the validator |
| ModelGenerator.IntendedAgrees | cmd/vulcan/internal/ast/generator/dbgenerator/modelgenerator.go:135-152 | the corrected lookup agrees with the written one everywhere except the nullable unsigned types |
| ModelGenerator.ColumnTypeShape | cmd/vulcan/internal/ast/generator/dbgenerator/modelgenerator.go:20-104 | each column type is `sql.` followed by `N` or `R` |
| ModelGenerator.BasicTypeShape | cmd/vulcan/internal/ast/generator/dbgenerator/modelgenerator.go:20-61 | no basic type has `.` as its fourth character |
| ModelGenerator.NotNullableByFifth | cmd/vulcan/internal/ast/generator/dbgenerator/modelgenerator.go:20-104 | a name whose fifth character is neither `N` nor `R` is not nullable |
| ModelGenerator.BasicNotNullable | cmd/vulcan/internal/ast/generator/dbgenerator/modelgenerator.go:20-61 | no basic type is nullable |
| ModelGenerator.SqlUint64Unsupported | cmd/vulcan/internal/ast/generator/dbgenerator/modelgenerator.go:72 | `sql.uint64` is not a supported type |
| ModelGenerator.UnsignedNullType | cmd/vulcan/internal/ast/generator/dbgenerator/modelgenerator.go:135-152 | as written, a nullable `bigint unsigned` column is given the unsupported type `sql.uint64` |
| ModelGenerator.RenderedTags | cmd/vulcan/internal/ast/generator/dbgenerator/modelgenerator.go:198-208 | one rendered entry per tag |
| ModelGenerator.ModelFieldSpec.constructor | cmd/vulcan/internal/ast/generator/dbgenerator/modelgenerator.go:170-175 | a new field is empty |
| ModelGenerator.ModelFieldSpec.AddImport | cmd/vulcan/internal/ast/generator/dbgenerator/modelgenerator.go:182-184 | the import is appended; nothing else changes |
| ModelGenerator.ModelFieldSpec.AddTag | cmd/vulcan/internal/ast/generator/dbgenerator/modelgenerator.go:186-191 | the entry is appended; nothing else changes |
| ModelGenerator.ModelFieldSpec.Tag | cmd/vulcan/internal/ast/generator/dbgenerator/modelgenerator.go:193-212 | the loop writes each `key:"val"`, separated by single spaces, within backquotes (`TagText`) |
| ModelGenerator.CountJoinPairs | cmd/vulcan/internal/ast/generator/dbgenerator/modelgenerator.go:198-208 | joined entries with two quotes each hold twice as many quotes as entries |
| ModelGenerator.CountJoinSeparators | cmd/vulcan/internal/ast/generator/dbgenerator/modelgenerator.go:205-207 | n separator-free entries joined by a character hold n-1 of it |
| ModelGenerator.RenderTagCount | cmd/vulcan/internal/ast/generator/dbgenerator/modelgenerator.go:199-203 | the count of a character in one entry is its count in the pieces |
| ModelGenerator.TagEnds | cmd/vulcan/internal/ast/generator/dbgenerator/modelgenerator.go:193-212 | no tags gives two backquotes; otherwise the text ends with a quote and a backquote |
| ModelGenerator.TagCounts | cmd/vulcan/internal/ast/generator/dbgenerator/modelgenerator.go:193-212 | with plain keys and values, the tag holds two quotes per entry and one space fewer than entries |
| ModelGenerator.RenderedMarks | cmd/vulcan/internal/ast/generator/dbgenerator/modelgenerator.go:199-203 | one entry holds two quotes and no space |
| ModelGenerator.Backquoted | cmd/vulcan/internal/ast/generator/dbgenerator/modelgenerator.go:193-212 | backquotes add none of another character |
| ModelGenerator.PrefixDropped | cmd/vulcan/internal/ast/generator/dbgenerator/modelgenerator.go:406-412 | a table named `prefix_rest` gets the struct name of `rest` and the suffix |
| ModelGenerator.PrefixKept | cmd/vulcan/internal/ast/generator/dbgenerator/modelgenerator.go:406-412 | a table whose first part is not the prefix keeps all its parts |
| ModelGenerator.StructNameNoUnderscore | cmd/vulcan/internal/ast/generator/dbgenerator/modelgenerator.go:406-412 | a struct name holds no `_` unless the suffix brings one |
| ModelGenerator.ExtraTags | cmd/vulcan/internal/ast/generator/dbgenerator/modelgenerator.go:438-442 | no more extra tags than keys |
| ModelGenerator.ExtraTagsOf | cmd/vulcan/internal/ast/generator/dbgenerator/modelgenerator.go:438-442 | an extra tag for exactly the non-empty keys, each valued with the field name |
| ModelGenerator.DbTagSplit | cmd/vulcan/internal/ast/generator/dbgenerator/modelgenerator.go:429-436 | the `db` tag reads back as the column name, then `pk` and `auto_incr` as they apply |
| ModelGenerator.SplitFlag | cmd/vulcan/internal/ast/generator/dbgenerator/modelgenerator.go:431-434 | splitting after appending `,flag` gives the flag as the last part |
| ModelGenerator.BasicImports | cmd/vulcan/internal/ast/generator/dbgenerator/modelgenerator.go:420-424 | a basic type needs an import only when it is `time.Time` |
| ModelGenerator.FieldImportsOf | cmd/vulcan/internal/ast/generator/dbgenerator/modelgenerator.go:416-424 | as written, a field imports `database/sql` exactly when the column uses the nullable table, `time` when its type is `time.Time`, and nothing else |
| ModelGenerator.IntendedImportsOf | cmd/vulcan/internal/ast/generator/dbgenerator/modelgenerator.go:416-424 | with the corrected type, a field imports `database/sql` exactly for nullable types, `time` for `time.Time`, and nothing else |
| ModelGenerator.FieldTypeAgrees | cmd/vulcan/internal/ast/generator/dbgenerator/modelgenerator.go:135-152 | the field type as written fails exactly when the corrected one does, and the two agree unless a nullable column maps to a name that is not `Null…` |
| ModelGenerator.UnsignedNullField | cmd/vulcan/internal/ast/generator/dbgenerator/modelgenerator.go:416-424 | as written, a nullable `bigint unsigned` field gets `sql.uint64`, imports `database/sql` and is unsupported; the corrected type is `uint64` with no import |
| ModelGenerator.NewFieldSpec | cmd/vulcan/internal/ast/generator/dbgenerator/modelgenerator.go:415-442 | a column gives a new field with the type `getGoTypeFromSqlType` gives it as written, its PascalCase name, `db` tag, extra tags and imports, or the type error |
| ModelGenerator.AddExtraTags | cmd/vulcan/internal/ast/generator/dbgenerator/modelgenerator.go:438-442 | the loop appends the extra tags; nothing else changes |
| ModelGenerator.ConvertToModelSpec | cmd/vulcan/internal/ast/generator/dbgenerator/modelgenerator.go:405-448 | an error exactly when some column's type is unknown, and then the first such error; otherwise the struct name and one new field per column, in order |
| ModelGenerator.ModelStructName | cmd/vulcan/internal/ast/generator/dbgenerator/modelgenerator.go:406-412 | the struct name is the PascalCase of the table name's parts, without a leading table prefix, plus the suffix |
| ModelGenerator.ConvertColumns | cmd/vulcan/internal/ast/generator/dbgenerator/modelgenerator.go:414-445 | an error exactly when some column's type is unknown, and then the first such error; otherwise one new field per column, in order |
| ModelGenerator.FieldSpecOfType | cmd/vulcan/internal/ast/generator/dbgenerator/modelgenerator.go:420-442 | once the Go type is known, the new field has that type and its imports, the PascalCase name and the `db` and extra tags |
| ModelGenerator.GenFuncs | cmd/vulcan/internal/ast/generator/dbgenerator/modelgenerator.go:369-379 | three functions, plus the four by-id ones when some column is the primary key |
| GenArgs.FindFrom | cmd/vulcan/internal/ast/parser/dbparser/modelparser.go:536-540 | from position k, the first field whose Go name or column name is the name, or -1 when no later field has it |
| GenArgs.FindIndexByName | cmd/vulcan/internal/ast/parser/dbparser/modelparser.go:535-543 | the first field answering to the name, or -1 exactly when none does |
| GenArgs.ResolveIndex | cmd/vulcan/internal/ast/parser/dbparser/modelparser.go:486-528 | a token that resolves names a non-empty range of existing fields |
| GenArgs.RangePairs | cmd/vulcan/internal/ast/parser/dbparser/modelparser.go:514-516 | a range gives exactly the key paired with each column in it |
| GenArgs.RangeSnoc | cmd/vulcan/internal/ast/parser/dbparser/modelparser.go:514-516 | one more field at the end of a range adds its pair |
| GenArgs.ParseIndexToColumnName | cmd/vulcan/internal/ast/parser/dbparser/modelparser.go:484-533 | the loop adds to the set the pairs every token refers to, or stops at the first token's error (`IndexColumns`) |
| GenArgs.AddRange | cmd/vulcan/internal/ast/parser/dbparser/modelparser.go:514-516 | the inner loop adds the pair of the key with the column of every field from start to end |
| GenArgs.IndexColumnsErrorStays | cmd/vulcan/internal/ast/parser/dbparser/modelparser.go:485-530 | the error of the first failing token is the error of the whole list |
| GenArgs.OpenRangeNeverTaken | cmd/vulcan/internal/ast/parser/dbparser/modelparser.go:486-487 | the open-range branch is dead: a token holding `-` always splits into two or more parts |
| GenArgs.NumberToken | cmd/vulcan/internal/ast/parser/dbparser/modelparser.go:519-529 | a number within bounds names that one field |
| GenArgs.SplitRange | cmd/vulcan/internal/ast/parser/dbparser/modelparser.go:486 | `a-b` splits into `a` and `b` |
| GenArgs.DigitsNoDash | cmd/vulcan/internal/ast/parser/dbparser/modelparser.go:486 | a number holds no `-` |
| GenArgs.RangeToken | cmd/vulcan/internal/ast/parser/dbparser/modelparser.go:486-517 | a range `a-b` of numbers with `a <= b` within bounds names the fields a to b |
| GenArgs.OpenEndIsName | cmd/vulcan/internal/ast/parser/dbparser/modelparser.go:486-512 | because of that dead branch, `a-` looks up a field named "" and is refused as a bad range |
| GenArgs.BracketedLength | cmd/vulcan/internal/ast/parser/dbparser/modelparser.go:427-433 | a bracketed group is longer than its opening |
| GenArgs.WhereGroup | cmd/vulcan/internal/ast/parser/dbparser/modelparser.go:426-436 | tried in the order `AND[`, `OR[`, `[`: the first bracket form the part has gives its keyword (`AND`, `OR`, `AND`) and the text between that opening and the closing `]`; a part with none of them gives nothing |
| GenArgs.TrimAll | cmd/vulcan/internal/ast/parser/dbparser/modelparser.go:417-419 | each part with white space trimmed at both ends |
| GenArgs.ValidateFlag | cmd/vulcan/internal/ast/parser/dbparser/modelparser.go:465-479 | an absent flag is false, a boolean spelling gives its value, anything else the wrapped `ParseBool` error |
| GenArgs.ParseBoolError | cmd/vulcan/internal/ast/parser/dbparser/modelparser.go:465-479 | the `strconv.ParseBool` message, the flag passed through `strconv.Quote`; see ParseBoolErrorNamesFlag |
| GenArgs.ParseBoolErrorNamesFlag | cmd/vulcan/internal/ast/parser/dbparser/modelparser.go:465-479 | the message is `strconv.ParseBool: parsing ` then the quoted flag then `: invalid syntax`, and the text between the quotes reads back as exactly the rejected flag |
| Strs.Quote | cmd/vulcan/internal/ast/parser/dbparser/modelparser.go:465-479 | the flag in double quotes with `strconv.Quote`'s escapes; see UnquoteQuote, QuotePlain and QuoteEscapes |
| Strs.UnquoteQuote | cmd/vulcan/internal/ast/parser/dbparser/modelparser.go:465-479 | reading the escapes back gives the original text, for every text |
| Strs.QuoteReadsBack | cmd/vulcan/internal/ast/parser/dbparser/modelparser.go:465-479 | the text between the quotes of `Quote(s)` reads back as `s` |
| Strs.QuotePlain | cmd/vulcan/internal/ast/parser/dbparser/modelparser.go:465-479 | a text with no quote, backslash or ASCII control character is quoted as itself |
| Strs.QuoteEscapes | cmd/vulcan/internal/ast/parser/dbparser/modelparser.go:465-479 | `t"x` is quoted as `"t\"x"` and a tab as `"\t"` |
| GenArgs.ParseGenFuncArgs | cmd/vulcan/internal/ast/parser/dbparser/modelparser.go:413-482 | the method computes `GenFuncArgs`: where pairs, select columns and both flags, or the first error |
| GenArgs.ParseWhereArg | cmd/vulcan/internal/ast/parser/dbparser/modelparser.go:415-447 | the where half: nothing for an empty argument, else the groups' pairs or the first error (`WhereColumns`) |
| GenArgs.ParseWhereGroups | cmd/vulcan/internal/ast/parser/dbparser/modelparser.go:420-446 | the group loop keeps one running set and appends all of it after every group, stopping at an invalid group or token (`WhereFrom`) |
| GenArgs.ParseSelectArg | cmd/vulcan/internal/ast/parser/dbparser/modelparser.go:449-463 | the select half: nothing for an empty argument, an error unless it is bracketed, else the columns of the tokens (`SelectColumnsOf`) |
| GenArgs.WhereErrorStays | cmd/vulcan/internal/ast/parser/dbparser/modelparser.go:421-442 | the error of the first failing group is the error of the whole argument |
| GenArgs.WhereGrows | cmd/vulcan/internal/ast/parser/dbparser/modelparser.go:421-446 | the set of where pairs only grows from one group to the next |
| GenArgs.FirstGroupRepeats | cmd/vulcan/internal/ast/parser/dbparser/modelparser.go:443-445 | the whole set is appended after every group, so a pair of the first group appears once per group |
| GenArgs.NoArgs | cmd/vulcan/internal/ast/parser/dbparser/modelparser.go:413-482 | with no arguments the spec is empty |
| GenArgs.SelectNeedsBrackets | cmd/vulcan/internal/ast/parser/dbparser/modelparser.go:449-452 | a select argument without brackets is refused with its own text |
| ModelParser.DefaultNames | cmd/vulcan/internal/ast/parser/dbparser/modelparser.go:293-312 | eight defaults with a primary key, the first three without |
| ModelParser.ParseGenFuncDecl | cmd/vulcan/internal/ast/parser/dbparser/modelparser.go:327-394 | the method computes `DeclSpec`: a bare name checked against the known names and the key, or the arity check and the parsed arguments, each error wrapped with the function name |
| ModelParser.ParseArgsDecl | cmd/vulcan/internal/ast/parser/dbparser/modelparser.go:346-394 | the method computes `ArgsDecl`: the arity check per family, the key function name, the wrapped argument error |
| ModelParser.AddDefaults | cmd/vulcan/internal/ast/parser/dbparser/modelparser.go:397-408 | the loop sets every default name to its plain spec (`WithDefaults`) |
| ModelParser.ParseTablePropertyTag | cmd/vulcan/internal/ast/parser/dbparser/modelparser.go:299-411 | the method computes `PropertyTag`: no table name is an error; no gen tag gives the defaults; otherwise every declaration, first error wins, and then the defaults |
| ModelParser.GenFuncMapErrorStays | cmd/vulcan/internal/ast/parser/dbparser/modelparser.go:326-395 | the first failing declaration decides the error |
| ModelParser.WithDefaultsOf | cmd/vulcan/internal/ast/parser/dbparser/modelparser.go:403-408 | the defaults are added over the map: their names map to plain specs, every other key keeps its spec |
| ModelParser.DefaultsPresent | cmd/vulcan/internal/ast/parser/dbparser/modelparser.go:397-410 | the result holds every default name, with its plain spec |
| ModelParser.NoGenTag | cmd/vulcan/internal/ast/parser/dbparser/modelparser.go:306-322 | without a gen tag the functions are exactly the defaults |
| ModelParser.NoParen | cmd/vulcan/internal/ast/parser/dbparser/modelparser.go:328 | a declaration without `(` is a bare name |
| ModelParser.BareName | cmd/vulcan/internal/ast/parser/dbparser/modelparser.go:329-343 | a known plain name is accepted as is |
| ModelParser.IdFuncNeedsKey | cmd/vulcan/internal/ast/parser/dbparser/modelparser.go:332-335 | a by-id name is accepted exactly when the model has a primary key, and otherwise refused with the no-primary-key error |
| ModelParser.BareIdDecl | cmd/vulcan/internal/ast/parser/dbparser/modelparser.go:332-342 | the by-id branch of a bare declaration |
| ModelParser.IdNameShape | cmd/vulcan/internal/ast/parser/dbparser/modelparser.go:332 | the by-id names are none of the plain ones |
| ModelParser.UnknownBareName | cmd/vulcan/internal/ast/parser/dbparser/modelparser.go:336-337 | any other bare name is refused as unsupported without args |
| ModelParser.FamilyHoldsBy | cmd/vulcan/internal/ast/parser/dbparser/modelparser.go:374-381 | every select-family name holds `By` |
| ModelParser.SelectKeyOf | cmd/vulcan/internal/ast/parser/dbparser/modelparser.go:381-382 | the key name is the prefix of the name up to and including its first `By` |
| ModelParser.SelectDeclKey | cmd/vulcan/internal/ast/parser/dbparser/modelparser.go:374-383 | an accepted select-family declaration has three arguments and that key name |
| ModelParser.SelectNotOther | cmd/vulcan/internal/ast/parser/dbparser/modelparser.go:358-377 | a select-family name is none of the earlier cases |
| ModelParser.UpdateByKeyName | cmd/vulcan/internal/ast/parser/dbparser/modelparser.go:368-373 | an accepted `UpdateBy…` declaration other than `UpdateById` has four arguments and the key `UpdateBy` |
| ModelParser.ArgsNamed | cmd/vulcan/internal/ast/parser/dbparser/modelparser.go:392-393 | a spec from arguments carries the function name |
| ModelParser.DeclNamed | cmd/vulcan/internal/ast/parser/dbparser/modelparser.go:339-393 | every accepted declaration carries its own name |
| ModelParser.CutAtParen | cmd/vulcan/internal/ast/parser/dbparser/modelparser.go:328 | the cut splits at the first `(` |
| ModelParser.OpenDeclRejected | cmd/vulcan/internal/ast/parser/dbparser/modelparser.go:346-385 | a declaration `name(` whose name starts with none of `D`, `U`, `S` is refused as unsupported |
| ModelParser.GeneratedNameShape | cmd/vulcan/internal/ast/parser/dbparser/modelparser.go:384-385 | `Add,BatchAdd,SelectPage` holds no `(` and starts with `A` |
| ModelParser.ParenDecl | cmd/vulcan/internal/ast/parser/dbparser/modelparser.go:328 | a declaration with `(` is cut there |
| ModelParser.StartsOutside | cmd/vulcan/internal/ast/parser/dbparser/modelparser.go:368-377 | a name starting with none of `D`, `U`, `S` is in no family |
| ModelParser.UnknownArgsName | cmd/vulcan/internal/ast/parser/dbparser/modelparser.go:384-385 | a name in no family is refused |
| ModelParser.GeneratedTagRejected | cmd/vulcan/internal/ast/parser/dbparser/modelparser.go:324-385 | the gen tag the model generator writes, joined by `,`, is split at the `\|` inside `SelectPage(\|true)`, and its first declaration `Add,BatchAdd,SelectPage(` is refused as an unsupported function |
| ModelParser.JoinCons | cmd/vulcan/internal/ast/parser/dbparser/modelparser.go:324 | a join starting with a part is that part, the separator and the join of the rest |
| ModelParser.GeneratedJoin | cmd/vulcan/internal/ast/parser/dbparser/modelparser.go:324 | the generated list joined by `,` is `Add,BatchAdd,SelectPage(`, a `\|`, and the rest |
| ModelParser.TailJoin | cmd/vulcan/internal/ast/parser/dbparser/modelparser.go:324 | the join of the tail of a list |
| ModelParser.Assemble | cmd/vulcan/internal/ast/parser/dbparser/modelparser.go:324 | the generated tag reassembled around the `\|` inside `SelectPage(\|true)` |
| ModelParser.LiteralPieces | cmd/vulcan/internal/ast/parser/dbparser/modelparser.go:324 | the literal pieces of the generated tag |
| Nullable.B2s | db/nullable/string.go:76-81 | the bytes read as text, one character per byte, same length; only used for the `== "null"` test at `string.go:15`, where this agrees with rune decoding because `null` is ASCII |
| Nullable.NullCheck | db/nullable/int64.go:15 | the input reads as `null` exactly when it is the four bytes of `null` |
| Nullable.From | db/nullable/int64.go:71-78 | `Int64From` and its kin give a valid value holding the argument |
| Nullable.FromPtr | db/nullable/int64.go:81-90 | valid exactly for a non-nil pointer, and then holding the pointee |
| Nullable.Ptr | db/nullable/int64.go:46-52 | nil exactly when the value is null, else the held value |
| Nullable.GetOrElseByPtr | db/nullable/int64.go:54-60 | `GetOrElse` gives the held value when `Ptr` gives one, and the default exactly when it gives nil |
| Nullable.IsNull | db/nullable/int64.go:38-40 | null exactly when not valid; Ptr states it is nil exactly then |
| Nullable.IsZero | db/nullable/int64.go:42-44 | a zero record is null, and GetOrElse with the zero default gives the zero value |
| Nullable.GetOrElse | db/nullable/int64.go:54-60 | the held value when valid, the default otherwise; see GetOrElseByPtr |
| Nullable.PtrFromPtr | db/nullable/int64.go:46-90 | `Ptr(FromPtr(p))` is `p` |
| Nullable.FromPtrPtr | db/nullable/int64.go:46-90 | a valid value is `FromPtr` of its own `Ptr` |
| Nullable.ConstructedNullness | db/nullable/int64.go:38-90 | `From` is never null and never zero; `FromPtr(nil)` is null |
| Nullable.MarshalJSON | db/nullable/int64.go:31-36 | a null value marshals to `null`; a valid one to the encoding of its value |
| Nullable.UnmarshalNull | db/nullable/int64.go:15-18 | `null` makes the value null, keeps the held value and returns no error |
| Nullable.NullRoundTrip | db/nullable/int64.go:13-36 | marshalling a null value and unmarshalling the result gives a null value again |
| Nullable.ValidRoundTrip | db/nullable/int64.go:13-36 | a valid value whose encoding decodes back to it survives marshal then unmarshal |
| Nullable.NullableField.constructor | db/nullable/int64.go:9-11 | a field holds the given value and validity |
| Nullable.NullableField.UnmarshalJSON | db/nullable/int64.go:13-29 | `null` clears only the validity; a decoding error leaves the field untouched and is returned; a decoded value is stored as valid |
| Nullable.Unmarshalled | db/nullable/int64.go:13-29 | the new record and error of `UnmarshalJSON`; see UnmarshalNull, NullRoundTrip and ValidRoundTrip |
| Nullable.ItoaNotNil | db/nullable/int64.go:67 | a formatted integer never reads `<nil>` |
| Nullable.ItoaParses | db/nullable/int64.go:67 | a formatted 64-bit integer reads back as itself |
| Nullable.Int32StringSpec | db/nullable/int32.go:62-68 | `<nil>` exactly for a null value; otherwise the decimal text of the value |
| Nullable.Int16StringSpec | db/nullable/int16.go:62-68 | `<nil>` exactly for a null value; otherwise the decimal text of the value |
| Nullable.ByteStringSpec | db/nullable/byte.go:62-68 | `<nil>` exactly for a null value; otherwise the unsigned decimal text of the byte |
| Nullable.BoolStringSpec | db/nullable/bool.go:61-70 | `<nil>` exactly for a null value; otherwise `true` or `false`, which `ParseBool` reads back |
| Nullable.Int64StringSpec | db/nullable/int64.go:62-68 | the corrected `Int64.String`: `<nil>` exactly for a null value, otherwise the decimal text of the value |
| Nullable.Int64StringInverted | db/nullable/int64.go:62-68 | as written, `<nil>` exactly for a valid value, and always different from the corrected text |
| Nullable.Int32String | db/nullable/int32.go:62-68 | see Int32StringSpec |
| Nullable.Int16String | db/nullable/int16.go:62-68 | see Int16StringSpec |
| Nullable.ByteString | db/nullable/byte.go:62-68 | see ByteStringSpec |
| Nullable.BoolString | db/nullable/bool.go:61-70 | see BoolStringSpec |
| Nullable.Int64StringAsWritten | db/nullable/int64.go:62-68 | the as-written `Int64.String`; see Int64StringInverted and Int64StringWitness |
| Nullable.Int64String | db/nullable/int64.go:62-68 | the corrected `Int64.String`; see Int64StringSpec |
| Nullable.Int64StringWitness | db/nullable/int64.go:62-68 | as written, `Int64From(42)` prints `<nil>` and `Int64FromPtr(nil)` prints `0` |

## Left out

- The concurrent part of the cacheable handler (`cache.go:72-120`): the
  singleflight group, the goroutine and its channel, and the query timeout.
  The model runs the load once, in sequence, with its outcome as an input.
- Debug formatting: the `%T`/`%q` rendering of arguments and `time.Format`
  (`interceptor.go:119-135`) are a parameter `fmtArg`; the log sink is a
  returned list of lines.
- Clocks: the slow-query stage takes the elapsed milliseconds as an input.
- The count query of the pagination stage (`GetSelectCountSql`, `Execer.Exec`,
  the debug call on it, `interceptor.go:163-171`): the page number and the
  count are inputs, because the `Page` interface at `paging.go:29-38` declares
  neither `PageNum` nor `GetSelectCountSql`.
- Interceptors.PaginationInterceptor: the branch for a page that does not
  request a count is not modelled, because the only `Page` is `Paging`, whose
  `IsSelectCount` always returns true.
- The database: `Transactional` takes the outcomes of begin, the callback,
  commit and rollback as inputs; `OpenMysql`, `StartTransaction`, the
  `ExecOption` forwarding methods and `db/mapper/baseMapper.go` are not part of
  this model.
- Interceptors.Registry.Invoke: the type assertion `res.(T)` is not modelled;
  the result value passes through unchanged.
- Go's `context.Context` is reduced to the two values the pipeline looks up
  (the interceptor list and the cache stage).
- `encoding/json`: `json.Marshal` is a parameter `encode`, and the outcome of
  `json.Unmarshal` is an input `decoded`; only the `null` handling of each
  nullable type is modelled in full.
- Nullable.Ptr: the result is an `Option` holding a copy, so aliasing the
  wrapped field through a returned `*T` is not modelled.
- `db/nullable/float64.go`, `time.go` and `value.go` (float formatting, the
  time library and generic JSON) are not part of this model.
- `reflect.StructTag.Get`: `parseTablePropertyTag` takes the values of the
  `tableName` and `gen` tags as inputs.
- ModelParser.ParseTablePropertyTag: the function list is returned as a map
  from name to spec; the order of Go's `collection.Values` over a map is
  unspecified and not modelled.
- GenArgs.ParseGenFuncArgs: the where pairs are returned as a multiset and the
  select columns as a set, because the Go code appends them from an unordered
  set; their order is not modelled.
- GenArgs.ParseWhereArg and GenArgs.ParseWhereGroups: the where pairs are a
  multiset for the same reason.
- GenUtils.Keys and GenUtils.Values: the order of Go's map iteration is not
  modelled; `Values` states its result against some enumeration of the keys.
- `log.Fatal` paths: `IsTypeSupported` on a generic type without `[` is a
  precondition; `getStructField` on an unknown column and
  `getNullableTypeValueName` on a type without `sql.Null` give no value, and
  the calls that use them fail.
- `getStructFieldName` (`template.go:175-184`) is the same search as
  `getStructField` returning only the name, and has no member of its own.
- `ModelSpec.GetImports`, `GenerateTypeSpecs`, the struct source text written
  by `GenerateGoModelStruct` and `GenerateGoModelStructList` (set iteration,
  reflection kinds, files and `go fmt`): only the gen-function list of
  `GenerateGoModelStruct` is modelled.
- The AST-, template- and exec-driven parts of the generator (`parser.go`,
  `sqlparser.go`, `crudgenerator.go`, `parseColumns`, `fillMoreInfo`, the
  template strings) are not part of this model, and neither are the
  file-system helpers of `utils.go`.
- `internal/ast/parser/types/sql.go`, an older copy of the statement model, is
  not part of this model; the `cmd/vulcan` copy is.
- Regular expressions: the two placeholder patterns are modelled by a direct
  scanner of `#{...}` tokens, not by a regular-expression engine.
- Letter case: `Strs.ToUpper`, `Strs.EqualFold` and `StringUtils.Title`
  change ASCII letters only, while Go's `strings.ToUpper`,
  `strings.EqualFold` and `strings.Title` use Unicode case mapping. This
  affects the operator at `condparser.go:217`, the column matches at
  `condparser.go:242` and `:379`, the column type at `condparser.go:387`,
  the statement kind at `sql.go:84` and `strings.Title` in `ToPascalCase`.
  For instance Go upper-cases `ı` (U+0131) to `I`, so `1.ısnull` parses as
  an `ISNULL` test in Go and is refused by the model, and Go's
  `EqualFold("K", "k")` with the Kelvin sign U+212A holds while the model's
  does not.
- Strs.Quote: characters outside ASCII that Go's `unicode.IsPrint` rejects
  (U+00A0, U+2028 and the like) are written as themselves, where Go writes a
  `\u` escape; GenArgs.ParseBoolError and GenArgs.ValidateFlag carry this
  into the error text of a flag holding such a character.
- Builder.SqlBuilder.constructor: a negative capacity hint makes Go's `make` or
  `strings.Builder.Grow` panic (`sqlbuilder.go:12-18`); the model states this as a precondition
  instead of modelling the panic.
- Cache.Loaded: a loaded value that is neither `*T` nor `T` panics at the
  assertion `val.(T)` (`cache.go:102-105`); the datatype has no such value,
  so that panic is not modelled.
- Strings: Go strings are modelled as sequences of characters (runes), so
  `strings.TrimSpace` and `unicode.IsSpace` act on decoded code points such
  as U+0085 and U+00A0; byte strings that are not valid UTF-8 are not
  modelled.
- The corrected field type: ModelGenerator.FieldType, NewFieldSpec,
  ConvertColumns and ConvertToModelSpec use the lookup as written;
  the corrected lookup (`GoTypeIntended`, `FieldTypeIntended`) is tied to it
  by ModelGenerator.FieldTypeAgrees and is used only by the lemmas about it.
- Integer widths: `int` is unbounded except in the nullable wrappers, whose
  values are bounded by `newtype`s; `strconv.Atoi` overflow is modelled by its
  64-bit range check.

## Findings

| source | as written | input that shows it | evidently intended | confidence | as-written member | corrected member |
|---|---|---|---|---|---|---|
| db/sqlbuilder/selectbuilder.go:51-57 | the ascending loop has no `else`, so the last column is written as `c ASC` and again as `c ASC, ` | table `t`, ascending column `id`: `... ORDER BY id ASCid ASC, ` | `... ORDER BY id ASC`, every column but the last followed by `, ` | high, not executed | SelectBuilder.SelectAscCounterexample | SelectBuilder.SelectAscIntended |
| cache.go:95-111 | with `CacheNil` off, a nil result is sent on the channel and the goroutine goes on to store nil; the handler then asserts `v.(*T)` on a nil interface | empty cache, non-empty key, `CacheNil` false, loader returns nil | return nil without storing it, so the next call loads again | high, not executed | Cache.NilFallThrough | Cache.NilNotCached |
| interceptor.go:153-155 | the tail is `LIMIT size, (num-1)*size` with no space before `LIMIT`, after the order clauses | page 1 of size 10 ordered by `id` descending: ` ORDER BY id DESCLIMIT 10, 0` | ` ORDER BY id DESC LIMIT 0, 10`: a space before `LIMIT`, then the offset and the page size, as MySQL reads `LIMIT offset, count` | high, not executed | Interceptors.PageTailRunsIn | Interceptors.IntendedPageTailExample |
| cmd/vulcan/internal/ast/generator/dbgenerator/modelgenerator.go:141-143 | with the nullable table, `sql.` is put before every mapped name, the unsigned ones included | a nullable `bigint unsigned` column gives `sql.uint64` | `sql.` only before `Null…` names, so the column gets `uint64`, a supported type with no import | medium, not executed | ModelGenerator.UnsignedNullField | ModelGenerator.IntendedSupported |
| db/nullable/int64.go:62-68 | `String` returns `<nil>` when the value is valid and the number when it is null | `Int64From(42)` prints `<nil>`; `Int64FromPtr(nil)` prints `0` | `<nil>` exactly for a null value, as the other nullable types do | high, not executed | Nullable.Int64StringWitness | Nullable.Int64StringSpec |
| sqlbuilder.go:127-142 | the default branch is always written after `WHERE `, whatever the key word | `AppendSetStmtChoosed` with no true branch and default `a = ?` writes `WHERE a = ?` | `SET a = ?`: the key word introduces the default as it does a chosen branch | medium, not executed | Builder.SetDefaultWritesWhere | Builder.ChosenIntendedKeyWord |
