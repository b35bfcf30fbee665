# gaia_tools_util query assembler, in Dafny

This project models the ADQL query assembler of `gaia_tools_util` and proves properties
of the model. The assembler builds the text of an ADQL query for the Gaia archive by
appending fragments:

- a SELECT part drawn from a registry of default column blocks, whose `{name}`
  placeholders are filled by alias suffixes such as ` AS id`;
- a FROM clause over `gaiadr2.gaia_source`, or over an inner query that is re-indented
  one unit per level of nesting;
- an optional PanSTARRS1 cross-match, WHERE and ORDER BY clauses;
- an optional final `str.format` pass with the caller's keyword table.

The model also covers three things built on top of it:

- the four-level stream-section query of `old/make_stream_query.py`;
- the nested dictionary lookup `safeget`;
- the column filter `drop_colnames` of `table_utils.py`.

Modules:

- `Outcome` (`outcome.dfy`): `Option`, `Result`, and the Python exceptions the source
  can raise, as `Error`.
- `Text` (`text.dfy`): the string operations the source uses. These are `"\n".join`,
  `split('\n')`, the `replace('\n', '\n' + tab)` re-indentation, `tab * n`, and
  `str(n)` of an integer. Joining and splitting are proved inverse to each other.
  Re-indentation and `str(n)` are proved undone by `StripIndent` and `ParseInt`.
  `tab * n` (`Repeat`) has lemmas for its length and for adding repetitions.
- `PyFormat` (`py_format.dfy`): a restricted `str.format(**kwargs)`. It fills `{name}`
  and `{name:+}` fields, handles the escapes `{{` and `}}`, and raises Python's errors
  in Python's left-to-right order.
- `GaiaQuery` (`gaia_query.dfy`): `make_gaia_query.py`.
  - The registry dictionary, which the SELECT builder overwrites in place, is the class
    `Defaults`.
  - The builders that grow the query string are methods. Each is proved equal to a
    pure function (`SelectText`, `Assembled`, `GaiaQueryText`), and the lemmas are
    stated about those functions.
- `StreamQuery` (`stream_query.dfy`): `make_streamsection_query` and its column and
  selection constants.
- `TableUtils` (`table_utils.dfy`): `drop_colnames`, `safeget` (a loop, proved against
  `SafeGetValue`) and the `_subkey` dispatch.

Behaviour of the source that is easy to miss:

- The SELECT builder replaces the alias table of a registry dictionary the caller
  passed in whenever `use_AS` is false (`make_gaia_query.py:179-180`). A later call
  with the same dictionary sees the blank aliases. `MakeQuerySelect`, `MakeGaiaQuery` and
  `ReuseAfterBlank` state this.
- With `random_index=None` the stream builder never binds `newl0sel`, so the call
  raises `UnboundLocalError` instead of omitting the cut (`NoRandomIndex`).
- A trailing comma is stripped only from the very end of the user's column text, once
  (`make_gaia_query.py:220-221`). `CustomColumns` models exactly that.

## Model

| member | source | states |
|---|---|---|
| GaiaQuery.Defaults.constructor | make_gaia_query.py:41-48 | the new registry dictionary holds exactly the given registry |
| GaiaQuery.Normalise | make_gaia_query.py:44-46 | loading keeps the alias table unchanged |
| GaiaQuery.NormaliseKeepsLines | make_gaia_query.py:44-46 | the lines of the file are recovered by splitting each joined block at its newlines |
| GaiaQuery.MakeQueryDefaults | make_gaia_query.py:14-48 | a dictionary comes back as the same object; otherwise a fresh registry holds the loaded file, its blocks joined |
| GaiaQuery.Blank | make_gaia_query.py:179-180 | the blank alias table has the same keys, and every value is empty |
| GaiaQuery.Lift | make_gaia_query.py:208 | the keyword table passed to format has the alias table's keys, each value given as a string |
| GaiaQuery.AfterSelect | make_gaia_query.py:179-180 | the column blocks and the alias keys are kept; with use_AS the registry is unchanged, without it every alias is empty |
| GaiaQuery.SelectAfterBlank | make_gaia_query.py:179-180 | once blanked, the registry is left as it is by any later SELECT call, with use_AS true or false |
| GaiaQuery.SelectText | make_gaia_query.py:51-226 | the SELECT builder as a function of the registry's value; MakeQuerySelect is proved equal to it, and SelectLayout, UserColumnsVerbatim, NonStringAfterFormat and SelectFormatsPrior state its shape |
| GaiaQuery.CustomColumns | make_gaia_query.py:217-222 | the appended user text starts on a new line, is the input with at most a newline added in front and one comma dropped at the end, and is one character shorter exactly when the input ended in a comma |
| GaiaQuery.AppendBlocks | make_gaia_query.py:183-202 | the query so far, then the header and the Gaia, magnitude, `*` and PanSTARRS blocks, each exactly when its flag is set |
| GaiaQuery.AppendUserColumns | make_gaia_query.py:210-222 | a newline for None or the empty string, a TypeError for a non-string, otherwise the custom header and the user's text |
| GaiaQuery.SelectRegistry | make_gaia_query.py:177-180 | the caller's dictionary is the one updated, and its new value is the registry with aliases blanked when use_AS is false |
| GaiaQuery.MakeQuerySelect | make_gaia_query.py:51-226 | the result is `SelectText` of the registry the call started from, and a dictionary the caller passed in is left with its aliases blanked when use_AS is false |
| GaiaQuery.SelectBodyAfter | make_gaia_query.py:179-202 | blanking the aliases does not change the text that gets formatted |
| GaiaQuery.SelectInputs | make_gaia_query.py:177-208 | the updated registry's blocks and alias table are those of the starting registry, blanked when use_AS is false |
| GaiaQuery.EmptyColumnsAsAbsent | make_gaia_query.py:210-215 | an empty user selection and None give the same SELECT text |
| GaiaQuery.NonStringAfterFormat | make_gaia_query.py:208-213 | a non-string selection raises TypeError exactly when formatting succeeds; otherwise the format error is raised |
| GaiaQuery.UserColumnsVerbatim | make_gaia_query.py:208-222 | the user's columns are appended after formatting, so their placeholders survive and the text before them is the same as with no selection |
| GaiaQuery.CustomColumnsAsWritten | make_gaia_query.py:218-221 | a selection that starts on a new line and does not end in a comma is appended as written |
| GaiaQuery.BlankAliasesIgnoreValues | make_gaia_query.py:179-180 | with use_AS false only the alias keys matter, not their values |
| GaiaQuery.ResolveBlocks | make_gaia_query.py:189-208 | formatting the header and blocks formats each block in place, leaving the headers unchanged |
| GaiaQuery.SelectLayout | make_gaia_query.py:189-222 | the SELECT text is the header, the Gaia columns and the flagged blocks in order, each formatted with the alias table, followed by the user part |
| GaiaQuery.SelectFormatsPrior | make_gaia_query.py:182-208 | a query passed in is formatted together with the blocks and comes first in the result |
| GaiaQuery.FromClause | make_gaia_query.py:229-266 | the clause starts with the FROM header and ends with ` AS gaia` |
| GaiaQuery.FromRoundTrip | make_gaia_query.py:229-266 | the FROM target can be read back from the clause, and an inner query is recovered from it by removing one indentation unit |
| GaiaQuery.QueryTabLevel | make_gaia_query.py:269-291 | `_query_tab_level`: the query indented by the unit repeated level times; TabLevelZero, TabLevelShape and TabLevelAdd state its properties |
| GaiaQuery.TabLevelZero | make_gaia_query.py:269-291 | a level of zero or less leaves the query unchanged |
| GaiaQuery.TabLevelShape | make_gaia_query.py:269-291 | the tab level keeps the number of lines, adds level × tab to each line, and can be undone |
| GaiaQuery.TabLevelAdd | make_gaia_query.py:269-291 | applying level m and then level n is the same as applying level m + n |
| GaiaQuery.FromIsTabLevelOne | make_gaia_query.py:250-253 | an inner FROM query is indented exactly as by tab level one |
| GaiaQuery.OwnLine | make_gaia_query.py:301-303 | the argument starts on a new line and is changed exactly when it did not already |
| GaiaQuery.OwnLineIdempotent | make_gaia_query.py:301-303 | putting the text on its own line twice is the same as once |
| GaiaQuery.Headed | make_gaia_query.py:294-315 | a clause starts with its header, ends with its argument unchanged, and is one newline longer than the two exactly when the argument does not start with a newline |
| GaiaQuery.WhereClause | make_gaia_query.py:294-305 | the WHERE clause starts with its header, ends with the condition as given, and adds a newline only when the condition does not start with one |
| GaiaQuery.OrderByClause | make_gaia_query.py:308-315 | the ORDER BY clause starts with its header, ends with the ordering as given, and adds a newline only when the ordering does not start with one |
| GaiaQuery.ClauseRoundTrip | make_gaia_query.py:294-315 | WHERE and ORDER BY give back their argument after the header, with at most one newline added in front |
| GaiaQuery.AppendClauses | make_gaia_query.py:458-476 | the query is followed by FROM, then the join, WHERE and ORDER BY, each when asked for |
| GaiaQuery.GaiaQueryText | make_gaia_query.py:318-489 | `make_gaia_query` as a function of the registry's value; MakeGaiaQuery is proved equal to it, and QueryLayout, NoFinalPass and FinalPassOnPlainText state its shape |
| GaiaQuery.MakeGaiaQuery | make_gaia_query.py:318-489 | the result is `GaiaQueryText` of the starting registry, and the caller's dictionary is updated as by the SELECT builder |
| GaiaQuery.AssembledOf | make_gaia_query.py:454-479 | SELECT followed by the clauses is the assembled query, and the final pass runs exactly when user_ASdict is given |
| GaiaQuery.SimpleArgs | make_gaia_query.py:503-507 | the simple entry point passes use_AS and inmostquery as true, with the default tab |
| GaiaQuery.MakeSimpleGaiaQuery | make_gaia_query.py:492-507 | the result is make_gaia_query with use_AS and inmostquery true, and the caller's registry is left as it was |
| GaiaQuery.ReuseAfterBlank | make_gaia_query.py:179-180 | a second call on the same dictionary sees the aliases that the first call, with use_AS false, blanked; afterwards the dictionary holds the blanked registry |
| GaiaQuery.NoFinalPass | make_gaia_query.py:478-479 | without user_ASdict the assembled text is the result |
| GaiaQuery.FinalPassOnPlainText | make_gaia_query.py:478-479 | the final pass leaves text with no braces unchanged |
| GaiaQuery.QueryLayout | make_gaia_query.py:454-476 | the query is exactly SELECT, then FROM, then the join, WHERE and ORDER BY, each present exactly when asked for, in that order and with nothing between them |
| PyFormat.Resolve | make_gaia_query.py:208 | `str.format(**kwargs)`, scanning and substituting left to right and raising the first error met; ResolveIsRender, ResolveOkIff, ResolveAppend, ResolveBraceFree and ResolveEscape state its properties |
| PyFormat.ResolveIsRender | make_gaia_query.py:208 | formatting a text that scans is rendering its tokens |
| PyFormat.ResolveOkIff | make_gaia_query.py:479 | a scanning text formats exactly when every field's name is supplied and a `+` field gets a number |
| PyFormat.ResolveAppend | make_gaia_query.py:208 | formatting a concatenation formats the parts in order, and the first error wins |
| PyFormat.TokenizeAppend | make_gaia_query.py:208 | scanning a concatenation appends the tokens of the parts |
| PyFormat.ResolveBraceFree | make_gaia_query.py:479 | text without braces formats to itself |
| PyFormat.ResolveEscape | make_gaia_query.py:208 | doubling the braces of a text is undone by formatting it |
| PyFormat.TokenizeIndent | make_gaia_query.py:252-253 | re-indenting a query keeps its replacement fields in order |
| PyFormat.RenderOk | make_gaia_query.py:479 | rendering succeeds exactly when every token is accepted |
| Text.JoinSplitLines | make_gaia_query.py:44-46 | joining the split lines gives the text back |
| Text.SplitLinesJoin | make_gaia_query.py:44-46 | splitting joined newline-free lines gives the lines back |
| Text.IndentLength | make_gaia_query.py:252-253 | re-indentation adds one tab per line |
| Text.IndentNewlineCount | make_gaia_query.py:252-253 | re-indentation keeps the number of newlines |
| Text.IndentTwice | make_gaia_query.py:252-253 | indenting by a and then by b is the same as indenting once by b + a |
| Text.StripIndentOfIndent | make_gaia_query.py:252-253 | removing the indentation undoes it |
| Text.StripIndentExact | make_gaia_query.py:252-253 | whatever the indentation remover returns indents back to its input |
| Text.ParseIntText | old/make_stream_query.py:72 | the decimal text of an integer reads back as the same integer |
| StreamQuery.L0ColsYields | old/make_stream_query.py:15-32 | `l0cols` holds fourteen placeholders in order: nine for the matrix and five in the pole terms, with `mrangp:+` twice |
| StreamQuery.L0ColsAsWritten | old/make_stream_query.py:15-32 | `l0cols` is appended unchanged by the SELECT builder |
| StreamQuery.L1ColsPlain | old/make_stream_query.py:34-39 | `l1cols` has no placeholders |
| StreamQuery.L2ColsPlain | old/make_stream_query.py:41-47 | `l2cols` has no placeholders |
| StreamQuery.L3ColsPlain | old/make_stream_query.py:49-51 | `l3cols` has no placeholders |
| StreamQuery.L3SelYields | old/make_stream_query.py:57-63 | `l3sel` holds the four signed box bounds, then the four proper-motion bounds |
| StreamQuery.RandomIndexWritten | old/make_stream_query.py:72 | the innermost WHERE is `l0sel` and the cut, followed by the index in decimal, which reads back |
| StreamQuery.StreamSectionText | old/make_stream_query.py:68-97 | the stream query as a function: the four nested make_gaia_query texts, innermost first; StreamStages, StreamFormatsIff and NoRandomIndex state its properties |
| StreamQuery.MakeStreamSectionQuery | old/make_stream_query.py:68-97 | the result is the four nested make_gaia_query calls, innermost first |
| StreamQuery.NoRandomIndex | old/make_stream_query.py:69-72 | with no random index the call raises UnboundLocalError |
| StreamQuery.LevelSelectYields | old/make_stream_query.py:75-93 | each level's SELECT text keeps the placeholders of its own columns, in order, when the registry is tame |
| StreamQuery.FromYields | make_gaia_query.py:229-266 | the FROM clause around an inner query keeps that query's placeholders |
| StreamQuery.Level0Yields | old/make_stream_query.py:88-93 | the innermost query formats nothing and keeps the placeholders of `l0cols` |
| StreamQuery.MiddleYields | old/make_stream_query.py:80-87 | the two middle levels format nothing and pass the inner placeholders on |
| StreamQuery.OuterYields | old/make_stream_query.py:75-95 | the outer query before its final pass holds the inner placeholders, then those of `l3sel` |
| StreamQuery.StreamStages | old/make_stream_query.py:68-97 | the stream query is the final pass with `l3userasdict` over a text holding exactly the stream placeholders |
| StreamQuery.PlaceholdersSurvive | old/make_stream_query.py:68-97 | without `l3userasdict` the result keeps every placeholder of every level |
| StreamQuery.StreamFormatsIff | old/make_stream_query.py:68-97 | with `l3userasdict` the call succeeds exactly when the table accepts every stream placeholder |
| StreamQuery.AcceptsStreamFields | old/make_stream_query.py:15-63 | accepting the stream placeholders means supplying all of them, with numbers for the signed ones |
| StreamQuery.StreamFormatsIffSupplies | old/make_stream_query.py:68-97 | the call succeeds exactly when `l3userasdict` supplies every stream placeholder, with numbers for the signed bounds |
| StreamQuery.AcceptsL0 | old/make_stream_query.py:15-32 | the names `l0cols` needs, with numbers for the two signed pole terms |
| StreamQuery.AcceptsL3 | old/make_stream_query.py:57-63 | the names `l3sel` needs, with numbers for the four box bounds |
| StreamQuery.InnermostThreeDeep | old/make_stream_query.py:75-93 | before the final pass, the innermost query occurs in the outer text indented by three units |
| StreamQuery.InnermostThreeDeepResult | old/make_stream_query.py:68-97 | without `l3userasdict` the returned text holds the innermost query, indented by three units |
| TableUtils.DropColnames | table_utils.py:284-286 | the result is no longer than the input |
| TableUtils.DropColnamesLength | table_utils.py:284-286 | the result's length is the number of entries not dropped |
| TableUtils.DropColnamesMembers | table_utils.py:284-286 | a name is in the result exactly when it is in colnames and not among the names to drop |
| TableUtils.DropColnamesMultiset | table_utils.py:284-286 | a kept name keeps all its copies, and a dropped name loses every one |
| TableUtils.DropColnamesSubsequence | table_utils.py:284-286 | the result is a subsequence of colnames: the order is kept |
| TableUtils.DropNothing | table_utils.py:284-286 | dropping no names gives the list back |
| TableUtils.DropTwice | table_utils.py:284-286 | dropping the same names again changes nothing |
| TableUtils.DropAppend | table_utils.py:284-286 | filtering a concatenation filters each part |
| TableUtils.SafeGet | table_utils.py:88-95 | the loop returns the value the keys lead to, None at the first missing key, or the TypeError of indexing a non-dictionary |
| TableUtils.LookupNoKeys | table_utils.py:88-95 | with no keys the input is returned |
| TableUtils.LookupOneKey | table_utils.py:88-95 | one key gives its entry, or None when it is missing |
| TableUtils.LookupAppend | table_utils.py:88-95 | walking keys a + b is walking a, then walking b from where a led |
| TableUtils.MissingKeyStops | table_utils.py:88-95 | after a missing key the remaining keys are never looked at and the result is None |
| TableUtils.SelectSubkey | table_utils.py:108-113 | None keeps the whole mapping, and a list of keys is a nested safeget |
| TableUtils.KeyAgainstKeys | table_utils.py:108-113 | a string key and a one-key list agree except on a missing key, where the string raises KeyError and the list gives None |
| TableUtils.DefaultUnits | table_utils.py:97-101 | the default subkey `['units']` gives the file's units entry, or None |

## Left out

- Printing (`pprint`) and reading the defaults file are left out. The file's content, or
  the packaged file's, is a parameter (`RawDefaults`), and the installation-path
  lookup is not modelled. A missing or malformed file, and a registry without one of
  its four keys, are not modelled.
- `str.format` is modelled only for `{name}`, `{name:+}`, `{{` and
  `}}`. Attribute and index access, conversions, nested fields and other format specs
  give `Unsupported`. Keyword values are a string or a number given by its `str()`
  text; every other Python type, and floating point as such, is left out.
- The flag tests `is True` and `is False` are modelled as tests of a `bool`. A non-bool
  flag, such as `1` where `is True` fails, is not modelled.
- The FROM, WHERE and ORDER BY arguments and the registry's entries are strings. The
  TypeError a non-string would cause in the source is not modelled. For `user_cols`,
  the non-string case is modelled.
- `random_index` is an integer or None. Python's text for other values (floats, numpy
  numbers) is not modelled.
- ADQL validity of the produced text is not modelled. The claims are about its layout
  and its placeholders.
- StreamQuery.StreamStages: the lemmas about the stream query assume the registry is
  `Tame`. That means each block formats without error under the alias table (blank or
  not) and leaves no braces behind. Nothing is claimed for a defaults file that fails
  this.
- StreamQuery.InnermostThreeDeep: the three-unit nesting is stated for the text before
  the final `format(**l3userasdict)` pass, and, through InnermostThreeDeepResult, for
  the result when no `l3userasdict` is given. With a keyword table the final pass
  rewrites the placeholders of the innermost query, so no occurrence is claimed for
  that result. Neither lemma counts the `SELECT` keywords of the final text.
- Integers are unbounded, as Python's are, so there is no width or wrap-around to
  model.
- In `table_utils.py`, loading the defaults file or JSON text (lines 98-107) is left
  out, and so is everything built on astropy and numpy: the unit strings, `eval`,
  floats, `neg_to_nan` and the colour columns.
- JSON values are modelled with integer numbers only.
- TableUtils.DropColnames: the numpy array `np.in1d` builds is modelled as a list of
  Python strings. Numpy's coercion of non-string names is not modelled.
