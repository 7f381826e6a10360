# mkdb SQL parser, modelled in Dafny

This project models the SQL parser of mkdb (`src/sql/parser.rs`). The parser
is a top-down operator-precedence, recursive-descent parser. It reads the
tokenizer's output one token at a time, skipping whitespace, and builds
statement trees for `SELECT`, `CREATE DATABASE`/`CREATE TABLE`, `UPDATE`,
`INSERT`, `DELETE` and `DROP`. It keeps the location of the last token it
consumed and attaches it to every error it reports.

The model has two layers:

- `grammar.dfy` (module `Grammar`) defines each parser routine as a function.
  Its inputs are the token stream and the parser's state, a `Cursor`. The
  cursor holds the index of the next unconsumed entry and the location of
  the last consumed token. Each function returns the routine's result and
  the new state.
- `parser.dfy` (class `Parser.Parser`) is the parser object itself. It has a
  `pos` and a `location` field, and each Rust method is a Dafny method that
  updates them step by step. Loops stay loops: whitespace skipping, the
  precedence-climbing loop, the comma-list loop and the statement loop of
  `try_parse`. Each method is proved to leave exactly the result and state
  that the `Grammar` function gives.

The properties are proved about the `Grammar` functions:

- **Round trip.** `printer.dfy` prints expression, column and statement trees
  as tokens. `spelling.dfy` says when a stream, with any whitespace and any
  locations, spells a token sequence. `roundtrip.dfy`, `lists.dfy` and
  `statements.dfy` prove that the parser reads every printed tree back. They
  also prove that every statement it returns can be printed, so parsing the
  printed form again gives the same statements.
- **Examples.** `examples.dfy` states the repository's unit tests as lemmas,
  each giving the exact tree for the test's SQL.
- **Comma counting.** `commas.dfy` proves that a comma-separated list holds
  exactly one item more than the commas it consumes.
- **Errors.** The token-level functions in `grammar.dfy` state their error
  kinds: expected token, expected one of several keywords, expected
  identifier, missing terminator. `errors.dfy` states the error kind and
  location for a bad statement start, a missing `;`, expressions, data types,
  VARCHAR lengths and `PRIMARY` without `KEY`. It also proves that a script
  stops at its first error. Every error is located where the parser stood
  when it was raised.
- **Visible behaviour.** `behaviour.dfy` proves left associativity. It also
  proves that a column list opening with `(` is taken to be parenthesised as
  a whole.

The input is the tokenizer's output: a sequence of entries, each a token with
its location or a lexical error with its location (`Tokens.Scanned`).
`Whitespace` and `Eof` tokens are part of it.

## Model

| member | source | states |
|---|---|---|
| Grammar.NextToken | src/sql/parser.rs:483-499 | Skips whitespace, then consumes one entry. On success it returns that token, records its location, and consumes nothing but whitespace before it. The result is an unexpected-EOF error at the current location when the stream is exhausted. |
| Grammar.NextTokenConsumesFirstEntry | src/sql/parser.rs:483-499 | `next_token` consumes the first entry that is not whitespace. A lexical error becomes a syntax error with the tokenizer's own location, as the conversion at lines 26-33 does, and the recorded location is unchanged. A token is returned with its location recorded. Only whitespace left means unexpected EOF. |
| Grammar.SkipWhiteSpaces | src/sql/parser.rs:468-478 | The position reached is the first entry at or after the start that is not whitespace. Everything skipped is whitespace. |
| Grammar.ConsumeOptionalToken | src/sql/parser.rs:438-448 | Returns true exactly when the next token is the one asked for, and then consumes it. Otherwise it consumes only the whitespace and keeps the location. |
| Grammar.ConsumeOneOf | src/sql/parser.rs:451-456 | When the peeked keyword is in the list, it is consumed and returned. Otherwise `Keyword::None` is returned and only whitespace is consumed. |
| Grammar.ExpectToken | src/sql/parser.rs:407-417 | Succeeds exactly when the next token is the expected one. Either way it consumes as `next_token` does. Another token gives an expected-token error naming both tokens, located at the token read. A failure of `next_token` is passed on. |
| Grammar.ExpectKeyword | src/sql/parser.rs:389-394 | Succeeds exactly when the next token is the expected keyword, and returns that keyword. Another token gives an expected-token error naming the keyword and the token found, located at that token. |
| Grammar.ExpectSemicolon | src/sql/parser.rs:396-405 | Succeeds exactly when the next token is `;`. Any failure becomes a missing-terminator error at the location reached. |
| Grammar.ExpectOneOf | src/sql/parser.rs:419-429 | A success is one of the listed keywords, the one peeked. A peeked listed keyword always succeeds. For a list without `Keyword::None`, as all the parser's lists are, any other token is consumed and reported as an expected-one-of error naming the list and the token, at its location. |
| Grammar.ParseIdentifier | src/sql/parser.rs:357-362 | Succeeds exactly when the next token is an identifier, and returns its name. Any other token gives an expected-identifier error naming it, at its location. |
| Grammar.ParseExpr | src/sql/parser.rs:188-198 | A successful parse consumes at least one token. It stops where the next token does not bind more tightly than the given precedence. |
| Grammar.ExprLoop | src/sql/parser.rs:192-195 | The loop ends only where the next precedence is at most the given one. Each iteration consumes an operator and its operand. |
| Grammar.ParsePrefix | src/sql/parser.rs:201-218 | A prefix term consumes at least one token. |
| Grammar.ParseInfix | src/sql/parser.rs:222-249 | An operator and its right operand consume at least one token, and stop where the next token binds no more tightly. |
| Grammar.ParseLength | src/sql/parser.rs:282-284 | A VARCHAR length that is accepted fits in an unsigned 64-bit integer. |
| Grammar.ParseVarcharLength | src/sql/parser.rs:278-291 | The parenthesised length is accepted only within the 64-bit bound. |
| Grammar.ParseDataType | src/sql/parser.rs:271-293 | A data type consumes tokens, and a VARCHAR length is within the bound. |
| Grammar.ParseConstraint | src/sql/parser.rs:295-306 | `PRIMARY KEY` gives the primary-key constraint and `UNIQUE` the unique constraint. With neither `PRIMARY` nor `UNIQUE` next, the constraint is absent and only whitespace is consumed. |
| Grammar.ParseColumn | src/sql/parser.rs:268-313 | A column definition consumes tokens, and its VARCHAR length is within the bound. |
| Grammar.CommaItems | src/sql/parser.rs:328-331 | The loop keeps the items so far in front and adds only items of the sub-parser's kind. It stops only where no comma follows. |
| Grammar.ParseListItems | src/sql/parser.rs:328-335 | At least one item, all of the sub-parser's kind. A list opened with `(` ends on `)`. |
| Grammar.ParseCommaSeparated | src/sql/parser.rs:317-338 | Returns at least one item. Fails when parentheses are required and no `(` is next. When a `(` is next, the list ends on `)`. |
| Grammar.ParseCommaSeparatedExpressions | src/sql/parser.rs:341-343 | At least one expression. |
| Grammar.ParseSchema | src/sql/parser.rs:346-348 | At least one column definition, each with a bounded VARCHAR length. |
| Grammar.ParseIdentifierList | src/sql/parser.rs:351-353 | At least one identifier. |
| Grammar.ParseOptionalWhere | src/sql/parser.rs:365-371 | The clause is absent exactly when the next token is not `WHERE`, and then only whitespace is consumed. |
| Grammar.ParseFromAndOptionalWhere | src/sql/parser.rs:381-386 | A table name and an optional condition, consuming at least one token. |
| Grammar.ParseSelect | src/sql/parser.rs:83-94 | A `SELECT` with at least one column. |
| Grammar.ParseCreate | src/sql/parser.rs:96-110 | A `CREATE`. A table has at least one column, each with a bounded VARCHAR length. |
| Grammar.ParseUpdate | src/sql/parser.rs:112-124 | An `UPDATE` with at least one assignment. |
| Grammar.ParseInsert | src/sql/parser.rs:126-139 | An `INSERT` with at least one column name and at least one value. |
| Grammar.ParseDelete | src/sql/parser.rs:141-146 | A `DELETE`. |
| Grammar.ParseDrop | src/sql/parser.rs:148-157 | A `DROP`. |
| Grammar.ParseStatementBody | src/sql/parser.rs:82-162 | Only the six statement keywords succeed. `Keyword::None` is a missing statement, and any other keyword is an unsupported statement keyword, both at the current location. |
| Grammar.ParseStatement | src/sql/parser.rs:75-169 | A statement succeeds only if it starts with a statement keyword, and it ends right after its `;`. |
| Grammar.ParseStatements | src/sql/parser.rs:62-71 | Parsing succeeds only where the next entry is `Eof` or the stream is exhausted. The cursor only moves forward. |
| Grammar.ExtendedPrefix | src/sql/parser.rs:328-331 | Pushing an item keeps the earlier items in front. |
| Parser.Parser.constructor | src/sql/parser.rs:53-58 | A fresh parser starts at the first entry with the default location. |
| Parser.Parser.SkipWhiteSpaces | src/sql/parser.rs:468-478 | The loop leaves the position where `Grammar.SkipWhiteSpaces` says. |
| Parser.Parser.PeekToken | src/sql/parser.rs:501-506 | Skips whitespace and returns the next entry without consuming it. |
| Parser.Parser.NextToken | src/sql/parser.rs:483-499 | Result and new state are those of `Grammar.NextToken`. |
| Parser.Parser.ExpectToken | src/sql/parser.rs:407-417 | Result and new state are those of `Grammar.ExpectToken`. |
| Parser.Parser.ExpectKeyword | src/sql/parser.rs:389-394 | Result and new state are those of `Grammar.ExpectKeyword`. |
| Parser.Parser.ExpectSemicolon | src/sql/parser.rs:396-405 | Result and new state are those of `Grammar.ExpectSemicolon`. |
| Parser.Parser.ExpectOneOf | src/sql/parser.rs:419-429 | Result and new state are those of `Grammar.ExpectOneOf`. |
| Parser.Parser.ConsumeOptionalKeyword | src/sql/parser.rs:431-433 | Same as consuming the keyword's token optionally. |
| Parser.Parser.ConsumeOptionalToken | src/sql/parser.rs:438-448 | Result and new state are those of `Grammar.ConsumeOptionalToken`. |
| Parser.Parser.ConsumeOneOf | src/sql/parser.rs:451-456 | The search loop, in list order, agrees with `Grammar.ConsumeOneOf`. |
| Parser.Parser.ParseIdentifier | src/sql/parser.rs:357-362 | Result and new state are those of `Grammar.ParseIdentifier`. |
| Parser.Parser.ParseExpression | src/sql/parser.rs:183-185 | An expression is parsed at precedence 0. |
| Parser.Parser.ParseExpr | src/sql/parser.rs:188-198 | The precedence-climbing loop agrees with `Grammar.ParseExpr`. |
| Parser.Parser.ParsePrefix | src/sql/parser.rs:201-218 | Result and new state are those of `Grammar.ParsePrefix`. |
| Parser.Parser.ParseInfix | src/sql/parser.rs:222-249 | Result and new state are those of `Grammar.ParseInfix`. |
| Parser.Parser.GetNextPrecedence | src/sql/parser.rs:252-265 | Returns the precedence of the peeked token, or 0 at a lexical error or the end, and skips whitespace. |
| Parser.Parser.ParseColumn | src/sql/parser.rs:268-313 | Result and new state are those of `Grammar.ParseColumn`. |
| Parser.Parser.ParseItem | src/sql/parser.rs:317-320 | The sub-parser, chosen by tag, agrees with `Grammar.ParseItem`. |
| Parser.Parser.ParseCommaSeparated | src/sql/parser.rs:317-338 | Result and new state are those of `Grammar.ParseCommaSeparated`. |
| Parser.Parser.ParseCommaItems | src/sql/parser.rs:328-331 | The push loop agrees with `Grammar.CommaItems` started from the first item. |
| Parser.Parser.ParseCommaSeparatedExpressions | src/sql/parser.rs:341-343 | Result and new state are those of `Grammar.ParseCommaSeparatedExpressions`. |
| Parser.Parser.ParseSchema | src/sql/parser.rs:346-348 | Result and new state are those of `Grammar.ParseSchema`. |
| Parser.Parser.ParseIdentifierList | src/sql/parser.rs:351-353 | Result and new state are those of `Grammar.ParseIdentifierList`. |
| Parser.Parser.ParseOptionalWhere | src/sql/parser.rs:365-371 | Result and new state are those of `Grammar.ParseOptionalWhere`. |
| Parser.Parser.ParseFromAndOptionalWhere | src/sql/parser.rs:381-386 | Result and new state are those of `Grammar.ParseFromAndOptionalWhere`. |
| Parser.Parser.ParseSelect | src/sql/parser.rs:83-94 | Result and new state are those of `Grammar.ParseSelect`. |
| Parser.Parser.ParseCreate | src/sql/parser.rs:96-110 | Result and new state are those of `Grammar.ParseCreate`. |
| Parser.Parser.ParseUpdate | src/sql/parser.rs:112-124 | Result and new state are those of `Grammar.ParseUpdate`. |
| Parser.Parser.ParseInsert | src/sql/parser.rs:126-139 | Result and new state are those of `Grammar.ParseInsert`. |
| Parser.Parser.ParseDelete | src/sql/parser.rs:141-146 | Result and new state are those of `Grammar.ParseDelete`. |
| Parser.Parser.ParseDrop | src/sql/parser.rs:148-157 | Result and new state are those of `Grammar.ParseDrop`. |
| Parser.Parser.ParseStatement | src/sql/parser.rs:75-169 | Result and new state are those of `Grammar.ParseStatement`. |
| Parser.Parser.TryParse | src/sql/parser.rs:62-71 | The statement loop collects, in order, what `Grammar.ParseStatements` gives, or returns its first error. |
| Printer.OperatorTokenAgrees | src/sql/parser.rs:252-265 | Each operator's token is read back as that operator, with the precedence table's value: OR 5, AND 10, comparisons 20, `+ -` 30, `* /` 40. |
| Printer.LengthRoundTrip | src/sql/parser.rs:282-284 | Every length within the bound is read back from its decimal numeral. |
| RoundTrip.ParseAtom | src/sql/parser.rs:203-206 | An identifier, `*` in prefix position, a number or a string is read as the identifier, the wildcard or the value. |
| RoundTrip.ParseGroup | src/sql/parser.rs:208-212 | A parenthesised expression is read as its inner tree, with no node for the parentheses. |
| RoundTrip.ParsePhrase | src/sql/parser.rs:188-249 | Any well-grouped expression, however it is spaced, is read back as its tree, up to a token that does not bind more tightly. |
| RoundTrip.ParseToLoop | src/sql/parser.rs:188-198 | Reading a phrase reaches the loop with the whole phrase as its left operand. |
| RoundTrip.ExtendLoop | src/sql/parser.rs:192-195 | One loop iteration absorbs an operator that binds more tightly, together with its right operand. |
| RoundTrip.ExpressionRoundTrip | src/sql/parser.rs:183-249 | Every expression tree is read back from its minimal printed form. |
| ListRoundTrip.ParseDataTypeSpelled | src/sql/parser.rs:271-293 | `INT` and `VARCHAR(n)` with `n` in bounds are read back. |
| ListRoundTrip.ParseLengthSpelled | src/sql/parser.rs:278-291 | `(n)` is read back as the length `n`. |
| ListRoundTrip.ParseConstraintSpelled | src/sql/parser.rs:295-306 | `PRIMARY KEY`, `UNIQUE` or nothing is read back as the constraint. |
| ListRoundTrip.ParseColumnSpelled | src/sql/parser.rs:268-313 | A column definition is read back. |
| ListRoundTrip.ParseCommaTail | src/sql/parser.rs:328-331 | Each `, item` pushes that item, in order. |
| ListRoundTrip.ParseListSpelled | src/sql/parser.rs:317-338 | A comma-separated list, with or without parentheses, is read back entry by entry. |
| StatementRoundTrip.ParseSentence | src/sql/parser.rs:75-169 | Every well-formed statement, however it is spaced, is read back, and the parser stops right after its `;`. |
| StatementRoundTrip.ParseSentences | src/sql/parser.rs:62-71 | Statements followed by `Eof` or the end are read back in order. |
| StatementRoundTrip.ScriptRoundTrip | src/sql/parser.rs:62-71 | A fresh parser reads a printed script back as its statements. |
| StatementRoundTrip.StatementRoundTrip | src/sql/parser.rs:75-169 | Every statement the parser can return is read back from its printed form. |
| StatementRoundTrip.ParsedPrintable | src/sql/parser.rs:75-169 | Every statement the parser returns can be printed: its lists are non-empty and its lengths in bounds. |
| StatementRoundTrip.ParsedScriptPrintable | src/sql/parser.rs:62-71 | Every statement of a successful parse can be printed. |
| StatementRoundTrip.ScriptOfStatementsRoundTrip | src/sql/parser.rs:62-71 | Any script of printable statements is read back from its printed form. |
| StatementRoundTrip.Reparse | src/sql/parser.rs:62-71 | Parsing, printing and parsing again gives the first parse back. |
| StatementRoundTrip.Dispatch | src/sql/parser.rs:82-162 | Each statement keyword leads to its own statement kind, and every result can be printed. |
| Examples.ParseSimpleSelect | src/sql/parser.rs:514-528 | `SELECT id, name FROM users;` gives the test's tree. |
| Examples.ParseSelectWildcard | src/sql/parser.rs:531-542 | `SELECT * FROM users;` gives the test's tree. |
| Examples.ParseSelectWhere | src/sql/parser.rs:545-564 | The test's `SELECT ... WHERE` gives its tree. |
| Examples.ParseSelectWithExpressions | src/sql/parser.rs:567-623 | The test's `SELECT` with arithmetic columns and condition gives its tree. |
| Examples.ParseCreateDatabase | src/sql/parser.rs:626-633 | `CREATE DATABASE test;` gives the test's tree. |
| Examples.ParseCreateTable | src/sql/parser.rs:636-668 | The test's `CREATE TABLE users (...)` gives its columns. |
| Examples.ParseSimpleUpdate | src/sql/parser.rs:671-686 | `UPDATE users SET is_admin = 1;` gives the test's tree. |
| Examples.ParseUpdateWhere | src/sql/parser.rs:689-728 | The test's `UPDATE ... WHERE` gives its tree. |
| Examples.ParseDeleteFrom | src/sql/parser.rs:731-741 | `DELETE FROM products;` gives the test's tree. |
| Examples.ParseDeleteFromWhere | src/sql/parser.rs:744-758 | `DELETE FROM products WHERE price > 5000;` gives the test's tree. |
| Examples.ParseInsertInto | src/sql/parser.rs:761-776 | The test's `INSERT INTO users (...) VALUES (...)` gives its tree. |
| Examples.ParseDropDatabase | src/sql/parser.rs:779-786 | `DROP DATABASE test;` gives the test's tree. |
| Examples.ParseDropTable | src/sql/parser.rs:789-796 | `DROP TABLE test;` gives the test's tree. |
| Examples.ParseMultipleStatements | src/sql/parser.rs:799-826 | Three statements then `Eof` give the three trees, in order. |
| Examples.ArithmeticOperatorPrecedence | src/sql/parser.rs:829-856 | `price * discount / 100 < 10 + 20 * 30` groups as `((price * discount) / 100) < (10 + (20 * 30))`. |
| Examples.NestedArithmeticPrecedence | src/sql/parser.rs:859-898 | The test's nested parenthesised expression gives its tree, with no node for the parentheses. |
| Examples.AndOrOperatorsPrecedence | src/sql/parser.rs:901-928 | `AND` binds more tightly than `OR`, giving the test's tree. |
| CommaCount.CommasSplit | src/sql/parser.rs:317-338 | Comma counts add up over adjacent stretches of the stream. |
| CommaCount.NextTokenCommas | src/sql/parser.rs:483-499 | `next_token` consumes a comma exactly when it returns one. |
| CommaCount.OptionalTokenCommas | src/sql/parser.rs:438-448 | An optional token consumes a comma only when it is a comma and is present. |
| CommaCount.ExprCommaFree | src/sql/parser.rs:188-249 | A successful expression consumes no comma. |
| CommaCount.ColumnCommaFree | src/sql/parser.rs:268-313 | A successful column definition consumes no comma. |
| CommaCount.ItemCommaFree | src/sql/parser.rs:317-320 | Any item sub-parser consumes no comma. |
| CommaCount.CommaItemsCount | src/sql/parser.rs:328-331 | The list loop adds exactly one item per comma consumed. |
| CommaCount.CommaSeparatedCount | src/sql/parser.rs:317-338 | A successful list holds exactly one more item than the commas it consumed. |
| Diagnostics.StatementStart | src/sql/parser.rs:75-79 | A lexical error or EOF at the start is passed on. A non-keyword is an unexpected initial token. `Keyword::None` is a missing statement, and another keyword is an unsupported statement keyword. Each is located at the token read. |
| Diagnostics.MissingSemicolon | src/sql/parser.rs:164-166 | A body not followed by `;` gives a missing terminator, located at what was read instead. |
| Diagnostics.StatementEndsAtSemicolon | src/sql/parser.rs:164-168 | A body followed by `;` is the statement, and the parser stops after the `;`. |
| Diagnostics.PrecedenceMeansOperator | src/sql/parser.rs:222-265 | The tokens with a non-zero precedence are exactly the infix operators. |
| Diagnostics.NoPrecedenceAtEnd | src/sql/parser.rs:252-255 | At a lexical error or the end of the stream the precedence is 0. |
| Diagnostics.BadPrefix | src/sql/parser.rs:214-216 | A token that cannot start an operand is reported where it was read. |
| Diagnostics.ExprErrors | src/sql/parser.rs:188-249 | An expression fails only with EOF, a lexical error, a bad operand or a missing `)`. The operator error of `parse_infix` is never reached through `parse_expr`. |
| Diagnostics.InfixErrors | src/sql/parser.rs:222-249 | At a token with a precedence, `parse_infix` fails only as its right operand does. |
| Diagnostics.VarcharLengthErrors | src/sql/parser.rs:278-291 | A non-number length and an unparsable number each give their own error, at the token read. |
| Diagnostics.DataTypeErrors | src/sql/parser.rs:271-293 | A non-keyword is not a data type. A keyword other than `INT` or `VARCHAR` is unexpected. `INT` is the integer type. |
| Diagnostics.PrimaryNeedsKey | src/sql/parser.rs:296-299 | `PRIMARY` must be followed by `KEY`. Otherwise the error names the token found. |
| Diagnostics.LengthSyntax | src/sql/parser.rs:282-284 | A length is an optional `+` and digits. Empty, signed `-`, fractional and doubled-sign numerals are rejected. |
| Diagnostics.PlusSign | src/sql/parser.rs:282-284 | A leading `+` is accepted and changes nothing. |
| Diagnostics.LeadingZero | src/sql/parser.rs:282-284 | Leading zeros are accepted and change nothing. |
| Diagnostics.LengthOverflow | src/sql/parser.rs:282-284 | A numeral is accepted exactly when its value fits in 64 bits. |
| Diagnostics.EmptyScript | src/sql/parser.rs:62-71 | A parse is empty exactly when nothing comes before `Eof` or the end. |
| Diagnostics.FirstErrorWins | src/sql/parser.rs:62-71 | The first failing statement's error is the whole result, and statements before it are dropped. Otherwise the statements come in source order. |
| Behaviour.LeftAssociative | src/sql/parser.rs:188-198 | `x op1 y op2 z` with equal precedences is read as `(x op1 y) op2 z`, never as `x op1 (y op2 z)`. |
| Behaviour.ParenthesisedFirstColumn | src/sql/parser.rs:83-86 | After `SELECT`, a `(` opens the column list. A parenthesised first column followed by anything but `FROM` fails with `FROM` expected at that token. |
| Behaviour.SumTimesColumn | src/sql/parser.rs:317-338 | `SELECT (a + b) * c FROM t;` fails with `FROM` expected where `*` is. |

## Left out

- The tokenizer (`tokenizer.rs`) and the token and keyword definitions (`token.rs`) are not part of this model. The input is the tokenizer's output: tokens with locations, `Whitespace`, `Eof` and lexical errors with locations.
- `statement.rs` is not part of this model. The tree types in `ast.dfy` follow how `parser.rs` and its tests build them. Their `Display` formatting is left out.
- Error messages are not modelled. An error is a kind plus a location. A lifted lexical error keeps the tokenizer's message and omits the `syntax error: ` prefix.
- `Location::default()` is a fixed constant, `DefaultLocation`. Its field values live in `tokenizer.rs`, and no property depends on them.
- The VARCHAR length type lives in `statement.rs`. It is taken to be `usize` on a 64-bit target, so lengths are bounded by 18446744073709551615.
- `Peekable`, borrowing and `Box` are left out. The stream is a sequence with an index, and trees are recursive datatypes.
- The closure passed to `parse_comma_separated` is replaced by a tag, `Subparser`, that names one of its three item parsers. Their results are one `Item` sum type.
- The `unreachable!()` branches of `CREATE`, `DROP` and the constraint match are not modelled as panics. `expect_one_of` and `consume_one_of` return only a listed keyword, so these branches cannot be reached.
- The examples are stated for any stream that spells the test's tokens, with any whitespace. The tokenizer's output for the test strings is not derived, because the tokenizer is not modelled.
- Precedences are `u8` in the source and `nat` here. All values are at most 40, so nothing wraps.
