/**
 * The ADQL query assembler of `make_gaia_query.py`: the column registry and its loader,
 * the SELECT builder (the one step that updates the registry in place), the FROM, WHERE
 * and ORDER BY builders, the tab-level helper, and the two public entry points.
 *
 * A query is text built by appending fragments. Placeholders `{name}` in the registry's
 * column blocks are filled from its alias table (`asdict`) when the SELECT part is built;
 * placeholders anywhere else survive until the caller's final `format(**user_ASdict)`.
 */
module GaiaQuery {
  import opened Outcome
  import opened Text
  import opened PyFormat

  // ---------------------------------------------------------------------------
  // the registry of default columns

  /** The registry's value: the alias table and the three column blocks. */
  datatype Registry = Registry(
    asdict: map<string, string>,
    gaiaCols: string,
    gaiaMags: string,
    panstarrsCols: string)

  /** The registry as stored in the defaults file: each block a list of lines. */
  datatype RawDefaults = RawDefaults(
    asdict: map<string, string>,
    gaiaColsLines: seq<string>,
    gaiaMagsLines: seq<string>,
    panstarrsColsLines: seq<string>)

  /** The registry dictionary the SELECT builder updates in place. */
  class Defaults {
    var asdict: map<string, string>
    var gaiaCols: string
    var gaiaMags: string
    var panstarrsCols: string

    constructor(reg: Registry)
      ensures Value() == reg
    {
      asdict := reg.asdict;
      gaiaCols := reg.gaiaCols;
      gaiaMags := reg.gaiaMags;
      panstarrsCols := reg.panstarrsCols;
    }

    function Value(): Registry
      reads this
    {
      Registry(asdict, gaiaCols, gaiaMags, panstarrsCols)
    }
  }

  /**
   * The `defaults` argument: a registry dictionary of the caller's, returned as it is, or
   * the contents of a defaults file (the packaged one when no path is given).
   */
  datatype DefaultsArg = Given(dict: Defaults) | Loaded(raw: RawDefaults)

  /** Each block's lines joined with "\n"; the alias table is kept. */
  function Normalise(raw: RawDefaults): (reg: Registry)
    ensures reg.asdict == raw.asdict
  {
    Registry(raw.asdict,
      Join(raw.gaiaColsLines, "\n"),
      Join(raw.gaiaMagsLines, "\n"),
      Join(raw.panstarrsColsLines, "\n"))
  }

  predicate LinesOk(lines: seq<string>) {
    |lines| >= 1 && forall i :: 0 <= i < |lines| ==> NewlineFree(lines[i])
  }

  /** Joining loses nothing: the file's lines are the lines of the loaded blocks. */
  lemma NormaliseKeepsLines(raw: RawDefaults)
    requires LinesOk(raw.gaiaColsLines) && LinesOk(raw.gaiaMagsLines) && LinesOk(raw.panstarrsColsLines)
    ensures SplitLines(Normalise(raw).gaiaCols) == raw.gaiaColsLines
    ensures SplitLines(Normalise(raw).gaiaMags) == raw.gaiaMagsLines
    ensures SplitLines(Normalise(raw).panstarrsCols) == raw.panstarrsColsLines
  {
    SplitLinesJoin(raw.gaiaColsLines);
    SplitLinesJoin(raw.gaiaMagsLines);
    SplitLinesJoin(raw.panstarrsColsLines);
  }

  /** The registry a call starts from. */
  function Initial(d: DefaultsArg): Registry
    reads if d.Given? then {d.dict} else {}
  {
    match d
    case Given(dict) => dict.Value()
    case Loaded(raw) => Normalise(raw)
  }

  /** `_make_query_defaults`: a dictionary comes back as the same object; a file is loaded afresh. */
  method MakeQueryDefaults(d: DefaultsArg) returns (r: Defaults)
    ensures d.Given? ==> r == d.dict
    ensures d.Loaded? ==> fresh(r) && r.Value() == Normalise(d.raw)
  {
    match d
    case Given(dict) =>
      r := dict;
    case Loaded(raw) =>
      r := new Defaults(Normalise(raw));
  }

  /** `{k: '' for k in asdict}`: the same keys, every alias empty. */
  function Blank(asdict: map<string, string>): (b: map<string, string>)
    ensures b.Keys == asdict.Keys
    ensures forall k :: k in b ==> b[k] == ""
  {
    map k | k in asdict :: ""
  }

  /** The alias table as keyword arguments of `format`. */
  function Lift(asdict: map<string, string>): (kw: Kwargs)
    ensures kw.Keys == asdict.Keys
    ensures forall k :: k in kw ==> kw[k] == Str(asdict[k])
  {
    map k | k in asdict :: Str(asdict[k])
  }

  /** The registry after a SELECT call: with `use_AS` false its alias table is blanked. */
  function AfterSelect(reg: Registry, useAS: bool): (r: Registry)
    ensures r.gaiaCols == reg.gaiaCols && r.gaiaMags == reg.gaiaMags && r.panstarrsCols == reg.panstarrsCols
    ensures r.asdict.Keys == reg.asdict.Keys
    ensures useAS ==> r == reg
    ensures !useAS ==> forall k :: k in r.asdict ==> r.asdict[k] == ""
  {
    if useAS then reg else reg.(asdict := Blank(reg.asdict))
  }

  /**
   * Blanking is idempotent: once a SELECT call has blanked the registry, no later call,
   * with `use_AS` true or false, changes it again.
   */
  lemma SelectAfterBlank(reg: Registry, useAS: bool)
    ensures AfterSelect(AfterSelect(reg, false), useAS) == AfterSelect(reg, false)
  {
    var b := Blank(reg.asdict);
    assert Blank(b) == b;
  }

  // ---------------------------------------------------------------------------
  // SELECT

  const SelectHeader := "--Data Columns:\nSELECT\n--GaiaDR2 Columns:\n"
  const MagsHeader := ",\n--GaiaDR2 Magnitudes and Colors:\n"
  const AllColumns := ",\n--All Columns:\n*"
  const PanstarrsHeader := ",\n--Adding PanSTARRS Columns:\n"
  const CustomHeader := ",\n\n--Custom Selection & Assignement:"
  const NotAString := "user_sel is not a (str)"

  /** The `user_cols` argument: None, a string, or a value of some other type. */
  datatype ColumnsArg = Absent | Text(s: string) | NonString

  /** The header and the blocks the flags choose, in order. */
  function Blocks(reg: Registry, allColumns: bool, gaiaMags: bool, panstarrs1: bool): string {
    SelectHeader + reg.gaiaCols
    + (if gaiaMags then MagsHeader + reg.gaiaMags else "")
    + (if allColumns then AllColumns else "")
    + (if panstarrs1 then PanstarrsHeader + reg.panstarrsCols else "")
  }

  /** The text the SELECT builder formats: the prior text, then the header and blocks. */
  function SelectBody(prior: string, reg: Registry, allColumns: bool, gaiaMags: bool, panstarrs1: bool): string {
    prior + Blocks(reg, allColumns, gaiaMags, panstarrs1)
  }

  /** The alias table the SELECT builder formats with. */
  function Aliases(reg: Registry, useAS: bool): Kwargs {
    Lift(AfterSelect(reg, useAS).asdict)
  }

  /** Python's `u[:1] == '\n'`. */
  predicate StartsOnNewLine(u: string) {
    |u| > 0 && u[0] == '\n'
  }

  /**
   * A non-empty user selection as appended: a newline put in front when it does not
   * already start with one, and one trailing comma dropped.
   */
  function CustomColumns(u: string): (r: string)
    requires u != ""
    ensures |r| >= 1 && r[0] == '\n'
    ensures StartsOnNewLine(u) ==> u == r || u == r + ","
    ensures !StartsOnNewLine(u) ==> "\n" + u == r || "\n" + u == r + ","
    ensures u[|u| - 1] == ',' <==> |r| == |u| + (if StartsOnNewLine(u) then 0 else 1) - 1
  {
    var v := if !StartsOnNewLine(u) then "\n" + u else u;
    if v[|v| - 1] == ',' then v[..|v| - 1] else v
  }

  /** What follows the formatted part: a newline, or the custom header and the user's columns. */
  function UserPart(u: ColumnsArg): Result<string> {
    match u
    case Absent => Ok("\n")
    case NonString => Err(TypeError(NotAString))
    case Text(s) => if s == "" then Ok("\n") else Ok(CustomHeader + CustomColumns(s))
  }

  /** `_make_query_SELECT` on a registry value. */
  function SelectText(userCols: ColumnsArg, useAS: bool, allColumns: bool, gaiaMags: bool,
                      panstarrs1: bool, query: Option<string>, reg: Registry): Result<string>
  {
    var prior := if query.Some? then query.value else "";
    var formatted :- Resolve(SelectBody(prior, reg, allColumns, gaiaMags, panstarrs1), Aliases(reg, useAS));
    var tail :- UserPart(userCols);
    Ok(formatted + tail)
  }

  /** Lines 190-202 of the SELECT builder: the header and the chosen blocks after the prior text. */
  method AppendBlocks(prior: string, d: Defaults, allColumns: bool, gaiaMags: bool, panstarrs1: bool)
    returns (q: string)
    ensures q == SelectBody(prior, d.Value(), allColumns, gaiaMags, panstarrs1)
  {
    q := prior;
    q := q + SelectHeader;
    q := q + d.gaiaCols;
    ghost var blocks := SelectHeader + d.gaiaCols;
    AppendAssoc(prior, SelectHeader, d.gaiaCols);
    assert q == prior + blocks;
    ghost var mags := "";
    if gaiaMags {
      q := q + MagsHeader;
      q := q + d.gaiaMags;
      mags := MagsHeader + d.gaiaMags;
      AppendAssoc(prior + blocks, MagsHeader, d.gaiaMags);
    }
    assert q == prior + blocks + mags;
    AppendAssoc(prior, blocks, mags);
    blocks := blocks + mags;
    ghost var all := "";
    if allColumns {
      q := q + AllColumns;
      all := AllColumns;
    }
    assert q == prior + blocks + all;
    AppendAssoc(prior, blocks, all);
    blocks := blocks + all;
    ghost var pan := "";
    if panstarrs1 {
      q := q + PanstarrsHeader;
      q := q + d.panstarrsCols;
      pan := PanstarrsHeader + d.panstarrsCols;
      AppendAssoc(prior + blocks, PanstarrsHeader, d.panstarrsCols);
    }
    assert q == prior + blocks + pan;
    AppendAssoc(prior, blocks, pan);
    blocks := blocks + pan;
    assert q == prior + blocks;
    assert blocks == Blocks(d.Value(), allColumns, gaiaMags, panstarrs1);
  }

  /** Lines 210-222 of the SELECT builder: the user's columns after the formatted text. */
  method AppendUserColumns(formatted: string, userCols: ColumnsArg) returns (r: Result<string>)
    ensures UserPart(userCols).Err? ==> r == Err(UserPart(userCols).error)
    ensures UserPart(userCols).Ok? ==> r == Ok(formatted + UserPart(userCols).value)
  {
    var q := formatted;
    match userCols {
      case Absent =>
        q := q + "\n";
      case NonString =>
        return Err(TypeError(NotAString));
      case Text(u) =>
        if u == "" {
          q := q + "\n";
        } else {
          q := q + CustomHeader;
          var v := u;
          if !(|v| > 0 && v[0] == '\n') {
            v := "\n" + v;
          }
          if v[|v| - 1] == ',' {
            v := v[..|v| - 1];
          }
          assert v == CustomColumns(u);
          q := q + v;
          assert q == formatted + (CustomHeader + CustomColumns(u));
        }
    }
    r := Ok(q);
  }

  lemma SelectBodyAfter(prior: string, reg: Registry, useAS: bool, allColumns: bool, gaiaMags: bool, panstarrs1: bool)
    ensures SelectBody(prior, AfterSelect(reg, useAS), allColumns, gaiaMags, panstarrs1) == SelectBody(prior, reg, allColumns, gaiaMags, panstarrs1)
  {
  }

  /**
   * `_make_query_SELECT`: appends the header and the chosen blocks to the query so far,
   * formats the whole with the alias table, then appends the user's columns unformatted.
   * With `use_AS` false the registry's alias table is first replaced by a blank one; a
   * dictionary the caller passed in keeps that change.
   */
  method MakeQuerySelect(userCols: ColumnsArg, useAS: bool, allColumns: bool, gaiaMags: bool,
                         panstarrs1: bool, query: Option<string>, defaults: DefaultsArg)
    returns (r: Result<string>)
    modifies if defaults.Given? then {defaults.dict} else {}
    ensures r == SelectText(userCols, useAS, allColumns, gaiaMags, panstarrs1, query, old(Initial(defaults)))
    ensures defaults.Given? ==> defaults.dict.Value() == AfterSelect(old(Initial(defaults)), useAS)
  {
    ghost var reg := Initial(defaults);
    var d := SelectRegistry(defaults, useAS);
    var prior := if query.Some? then query.value else "";
    var q := AppendBlocks(prior, d, allColumns, gaiaMags, panstarrs1);
    var kw := Lift(d.asdict);
    SelectInputs(prior, reg, d.Value(), useAS, allColumns, gaiaMags, panstarrs1, q, kw);
    SelectTextSteps(userCols, query, reg, useAS, allColumns, gaiaMags, panstarrs1, q, kw);
    var formatted := Resolve(q, kw);
    if formatted.Err? {
      return Err(formatted.error);
    }
    r := AppendUserColumns(formatted.value, userCols);
  }

  /** Lines 180-186 of the SELECT builder: the registry, its alias table blanked when `use_AS` is false. */
  method SelectRegistry(defaults: DefaultsArg, useAS: bool) returns (d: Defaults)
    modifies if defaults.Given? then {defaults.dict} else {}
    ensures defaults.Given? ==> d == defaults.dict
    ensures d.Value() == AfterSelect(old(Initial(defaults)), useAS)
  {
    d := MakeQueryDefaults(defaults);
    if !useAS {
      d.asdict := Blank(d.asdict);
    }
  }

  /** The blocks of the updated registry and its aliases are those of the registry the call started from. */
  lemma SelectInputs(prior: string, reg: Registry, now: Registry, useAS: bool, allColumns: bool,
                     gaiaMags: bool, panstarrs1: bool, q: string, kw: Kwargs)
    requires now == AfterSelect(reg, useAS)
    requires q == SelectBody(prior, now, allColumns, gaiaMags, panstarrs1)
    requires kw == Lift(now.asdict)
    ensures q == SelectBody(prior, reg, allColumns, gaiaMags, panstarrs1)
    ensures kw == Aliases(reg, useAS)
  {
    SelectBodyAfter(prior, reg, useAS, allColumns, gaiaMags, panstarrs1);
  }

  /** What the SELECT text is, given the text it formats and the aliases it formats with. */
  lemma SelectTextSteps(userCols: ColumnsArg, query: Option<string>, reg: Registry, useAS: bool,
                        allColumns: bool, gaiaMags: bool, panstarrs1: bool, q: string, kw: Kwargs)
    requires q == SelectBody(if query.Some? then query.value else "", reg, allColumns, gaiaMags, panstarrs1)
    requires kw == Aliases(reg, useAS)
    ensures Resolve(q, kw).Err? ==>
      SelectText(userCols, useAS, allColumns, gaiaMags, panstarrs1, query, reg) == Err(Resolve(q, kw).error)
    ensures Resolve(q, kw).Ok? && UserPart(userCols).Err? ==>
      SelectText(userCols, useAS, allColumns, gaiaMags, panstarrs1, query, reg) == Err(UserPart(userCols).error)
    ensures Resolve(q, kw).Ok? && UserPart(userCols).Ok? ==>
      SelectText(userCols, useAS, allColumns, gaiaMags, panstarrs1, query, reg) ==
        Ok(Resolve(q, kw).value + UserPart(userCols).value)
  {
  }

  /** None and the empty string select the same thing. */
  lemma EmptyColumnsAsAbsent(useAS: bool, allColumns: bool, gaiaMags: bool, panstarrs1: bool,
                             query: Option<string>, reg: Registry)
    ensures SelectText(Text(""), useAS, allColumns, gaiaMags, panstarrs1, query, reg) ==
            SelectText(Absent, useAS, allColumns, gaiaMags, panstarrs1, query, reg)
  {
  }

  /**
   * The type check on `user_cols` comes after the format pass: a non-string is a
   * TypeError exactly when formatting succeeds, and otherwise the format error stands.
   */
  lemma NonStringAfterFormat(useAS: bool, allColumns: bool, gaiaMags: bool, panstarrs1: bool,
                             query: Option<string>, reg: Registry)
    ensures var body := SelectBody(if query.Some? then query.value else "", reg, allColumns, gaiaMags, panstarrs1);
            var f := Resolve(body, Aliases(reg, useAS));
            SelectText(NonString, useAS, allColumns, gaiaMags, panstarrs1, query, reg) ==
              if f.Ok? then Err(TypeError(NotAString)) else Err(f.error)
  {
  }

  /**
   * The user's columns are appended after formatting: whatever placeholders they hold
   * reach the result untouched, and they do not affect what comes before them.
   */
  lemma UserColumnsVerbatim(u: string, useAS: bool, allColumns: bool, gaiaMags: bool, panstarrs1: bool,
                            query: Option<string>, reg: Registry)
    requires u != ""
    requires SelectText(Absent, useAS, allColumns, gaiaMags, panstarrs1, query, reg).Ok?
    ensures var plain := SelectText(Absent, useAS, allColumns, gaiaMags, panstarrs1, query, reg).value;
            SelectText(Text(u), useAS, allColumns, gaiaMags, panstarrs1, query, reg) ==
              Ok(plain[..|plain| - 1] + CustomHeader + CustomColumns(u))
  {
    var plain := SelectText(Absent, useAS, allColumns, gaiaMags, panstarrs1, query, reg).value;
    var body := SelectBody(if query.Some? then query.value else "", reg, allColumns, gaiaMags, panstarrs1);
    var f := Resolve(body, Aliases(reg, useAS)).value;
    assert plain == f + "\n";
    assert plain[..|plain| - 1] == f;
    assert f + (CustomHeader + CustomColumns(u)) == f + CustomHeader + CustomColumns(u);
  }

  /** A user selection that starts on its own line and ends without a comma is appended as written. */
  lemma CustomColumnsAsWritten(u: string)
    requires u != "" && StartsOnNewLine(u) && u[|u| - 1] != ','
    ensures CustomColumns(u) == u
  {
  }

  /** With `use_AS` false the alias values are ignored: only the keys matter. */
  lemma BlankAliasesIgnoreValues(a: Registry, b: Registry)
    requires a.asdict.Keys == b.asdict.Keys
    ensures Aliases(a, false) == Aliases(b, false)
  {
  }

  predicate BlockFormats(block: string, kw: Kwargs) {
    Resolve(block, kw).Ok?
  }

  /** The blocks the flags select all format under the alias table. */
  predicate BlocksFormat(reg: Registry, kw: Kwargs, gaiaMags: bool, panstarrs1: bool) {
    BlockFormats(reg.gaiaCols, kw) &&
    (gaiaMags ==> BlockFormats(reg.gaiaMags, kw)) &&
    (panstarrs1 ==> BlockFormats(reg.panstarrsCols, kw))
  }

  /** The formatted text of a block that formats. */
  function Formatted(block: string, kw: Kwargs): string
    requires BlockFormats(block, kw)
  {
    Resolve(block, kw).value
  }

  lemma SelectHeaderPlain() ensures BraceFree(SelectHeader) {}
  lemma MagsHeaderPlain() ensures BraceFree(MagsHeader) {}
  lemma AllColumnsPlain() ensures BraceFree(AllColumns) {}
  lemma PanstarrsHeaderPlain() ensures BraceFree(PanstarrsHeader) {}
  lemma CustomHeaderPlain() ensures BraceFree(CustomHeader) {}

  lemma HeadersPlain()
    ensures BraceFree(SelectHeader) && BraceFree(MagsHeader) && BraceFree(AllColumns)
    ensures BraceFree(PanstarrsHeader) && BraceFree(CustomHeader)
  {
    SelectHeaderPlain();
    MagsHeaderPlain();
    AllColumnsPlain();
    PanstarrsHeaderPlain();
    CustomHeaderPlain();
  }

  lemma ResolveFive(a: string, b: string, c: string, d: string, e: string, kw: Kwargs)
    requires Resolve(a, kw).Ok? && Resolve(b, kw).Ok? && Resolve(c, kw).Ok?
    requires Resolve(d, kw).Ok? && Resolve(e, kw).Ok?
    ensures Resolve(a + b + c + d + e, kw) ==
      Ok(Resolve(a, kw).value + Resolve(b, kw).value + Resolve(c, kw).value + Resolve(d, kw).value + Resolve(e, kw).value)
  {
    ResolveConcat(a, b, kw);
    ResolveConcat(a + b, c, kw);
    ResolveConcat(a + b + c, d, kw);
    ResolveConcat(a + b + c + d, e, kw);
  }

  /** An optional block and its header, formatted. */
  lemma ResolveOptional(cond: bool, head: string, block: string, kw: Kwargs)
    requires BraceFree(head)
    requires cond ==> BlockFormats(block, kw)
    ensures Resolve(if cond then head + block else "", kw) ==
            Ok(if cond then head + Formatted(block, kw) else "")
  {
    if cond {
      ResolveBraceFree(head, kw);
      ResolveConcat(head, block, kw);
    }
  }

  /** The formatted SELECT text before the user's columns. */
  function FormattedBlocks(reg: Registry, kw: Kwargs, allColumns: bool, gaiaMags: bool, panstarrs1: bool): string
    requires BlocksFormat(reg, kw, gaiaMags, panstarrs1)
  {
    SelectHeader + Formatted(reg.gaiaCols, kw)
    + (if gaiaMags then MagsHeader + Formatted(reg.gaiaMags, kw) else "")
    + (if allColumns then AllColumns else "")
    + (if panstarrs1 then PanstarrsHeader + Formatted(reg.panstarrsCols, kw) else "")
  }

  /** Formatting the header and blocks is formatting each block in place. */
  lemma ResolveBlocks(reg: Registry, kw: Kwargs, allColumns: bool, gaiaMags: bool, panstarrs1: bool)
    requires BlocksFormat(reg, kw, gaiaMags, panstarrs1)
    ensures Resolve(Blocks(reg, allColumns, gaiaMags, panstarrs1), kw) ==
            Ok(FormattedBlocks(reg, kw, allColumns, gaiaMags, panstarrs1))
  {
    HeadersPlain();
    var mags := if gaiaMags then MagsHeader + reg.gaiaMags else "";
    var all := if allColumns then AllColumns else "";
    var pan := if panstarrs1 then PanstarrsHeader + reg.panstarrsCols else "";
    ResolveBraceFree(SelectHeader, kw);
    ResolveOptional(gaiaMags, MagsHeader, reg.gaiaMags, kw);
    ResolveBraceFree(all, kw);
    ResolveOptional(panstarrs1, PanstarrsHeader, reg.panstarrsCols, kw);
    ResolveFive(SelectHeader, reg.gaiaCols, mags, all, pan, kw);
  }

  /**
   * The SELECT layout: the header and the Gaia columns, then the magnitudes, the `*`
   * and the PanSTARRS columns each exactly when its flag is set, in that order, each
   * block formatted with the alias table; then the user's columns.
   */
  lemma SelectLayout(userCols: ColumnsArg, useAS: bool, allColumns: bool, gaiaMags: bool,
                     panstarrs1: bool, reg: Registry)
    requires BlocksFormat(reg, Aliases(reg, useAS), gaiaMags, panstarrs1)
    requires !userCols.NonString?
    ensures var kw := Aliases(reg, useAS);
            SelectText(userCols, useAS, allColumns, gaiaMags, panstarrs1, None, reg) ==
              Ok(SelectHeader + Formatted(reg.gaiaCols, kw)
                 + (if gaiaMags then MagsHeader + Formatted(reg.gaiaMags, kw) else "")
                 + (if allColumns then AllColumns else "")
                 + (if panstarrs1 then PanstarrsHeader + Formatted(reg.panstarrsCols, kw) else "")
                 + UserPart(userCols).value)
  {
    ResolveBlocks(reg, Aliases(reg, useAS), allColumns, gaiaMags, panstarrs1);
    assert SelectBody("", reg, allColumns, gaiaMags, panstarrs1) == Blocks(reg, allColumns, gaiaMags, panstarrs1);
  }

  /** Text passed in as the query so far is formatted together with the blocks. */
  lemma SelectFormatsPrior(prior: string, userCols: ColumnsArg, useAS: bool, allColumns: bool,
                           gaiaMags: bool, panstarrs1: bool, reg: Registry)
    requires Resolve(prior, Aliases(reg, useAS)).Ok?
    ensures var rest := SelectText(userCols, useAS, allColumns, gaiaMags, panstarrs1, None, reg);
            SelectText(userCols, useAS, allColumns, gaiaMags, panstarrs1, Some(prior), reg) ==
              if rest.Ok? then Ok(Resolve(prior, Aliases(reg, useAS)).value + rest.value) else rest
  {
    var kw := Aliases(reg, useAS);
    var body := Blocks(reg, allColumns, gaiaMags, panstarrs1);
    assert "" + body == body;
    assert SelectBody("", reg, allColumns, gaiaMags, panstarrs1) == body;
    assert SelectBody(prior, reg, allColumns, gaiaMags, panstarrs1) == prior + body;
    ResolveAppend(prior, body, kw);
    var f := Resolve(body, kw);
    var tail := UserPart(userCols);
    if f.Ok? && tail.Ok? {
      AppendAssoc(Resolve(prior, kw).value, f.value, tail.value);
    }
  }

  // ---------------------------------------------------------------------------
  // FROM, WHERE, ORDER BY and the tab level

  const FromHead := "\n\n--SOURCE:\nFROM "
  const GaiaSource := "gaiadr2.gaia_source"
  const FromTail := " AS gaia"
  const DefaultTab := "    "

  /** What follows FROM: the Gaia source table, or the given (inner) query indented by one unit. */
  function FromTarget(from: Option<string>, tab: string): string {
    if from.None? then GaiaSource else Indent(from.value, tab)
  }

  /** `_make_query_FROM`: the target, parenthesised on lines of its own unless it is the inmost query. */
  function FromClause(from: Option<string>, inmost: bool, tab: string): (r: string)
    ensures FromHead <= r
    ensures |r| >= |FromHead| + |FromTail| && r[|r| - |FromTail|..] == FromTail
  {
    var r := FromHead + (if inmost then "" else "(\n") + FromTarget(from, tab) + (if inmost then "" else "\n)") + FromTail;
    assert r[|r| - |FromTail|..] == FromTail;
    r
  }

  /** Reads the target back out of a FROM clause. */
  function ParseFrom(s: string, inmost: bool): Option<string> {
    var open := if inmost then "" else "(\n";
    var close := if inmost then "" else "\n)";
    var pre := FromHead + open;
    var post := close + FromTail;
    if |s| >= |pre| + |post| && s[..|pre|] == pre && s[|s| - |post|..] == post then
      Some(s[|pre|..|s| - |post|])
    else None
  }

  /**
   * Nothing is lost in a FROM clause: the target, and for an inner query the query
   * itself once its indentation is removed, can be read back.
   */
  lemma FromRoundTrip(from: Option<string>, inmost: bool, tab: string)
    requires NewlineFree(tab)
    ensures ParseFrom(FromClause(from, inmost, tab), inmost) == Some(FromTarget(from, tab))
    ensures from.Some? ==> StripIndent(FromTarget(from, tab), tab) == from
  {
    var open := if inmost then "" else "(\n";
    var close := if inmost then "" else "\n)";
    var t := FromTarget(from, tab);
    var s := FromClause(from, inmost, tab);
    AppendAssoc(FromHead + open + t, close, FromTail);
    assert s == (FromHead + open) + t + (close + FromTail);
    Framed(FromHead + open, t, close + FromTail);
    if from.Some? {
      StripIndentOfIndent(from.value, tab);
    }
  }

  /** `_query_tab_level`: the query indented by the unit repeated `level` times. */
  function QueryTabLevel(query: string, level: int, tab: string): string {
    Indent(query, Repeat(tab, level))
  }

  /** Level zero, or any level below it, changes nothing. */
  lemma TabLevelZero(query: string, level: int, tab: string)
    requires level <= 0
    ensures QueryTabLevel(query, level, tab) == query
  {
    IndentEmptyUnit(query);
  }

  /** The tab level keeps the lines, adds the unit times the level to each, and can be undone. */
  lemma TabLevelShape(query: string, level: nat, tab: string)
    requires NewlineFree(tab)
    ensures NewlineCount(QueryTabLevel(query, level, tab)) == NewlineCount(query)
    ensures |QueryTabLevel(query, level, tab)| == |query| + |tab| * level * (1 + NewlineCount(query))
    ensures StripIndent(QueryTabLevel(query, level, tab), Repeat(tab, level)) == Some(query)
  {
    var unit := Repeat(tab, level);
    RepeatNewlineFree(tab, level);
    RepeatLength(tab, level);
    IndentNewlineCount(query, unit);
    IndentLength(query, unit);
    StripIndentOfIndent(query, unit);
  }

  /** Tab levels add up. */
  lemma TabLevelAdd(query: string, m: nat, n: nat, tab: string)
    requires NewlineFree(tab)
    ensures QueryTabLevel(QueryTabLevel(query, m, tab), n, tab) == QueryTabLevel(query, m + n, tab)
  {
    RepeatNewlineFree(tab, m);
    RepeatNewlineFree(tab, n);
    IndentTwice(query, Repeat(tab, m), Repeat(tab, n));
    RepeatAdd(tab, n, m);
  }

  /** One FROM level indents an inner query by exactly one unit: tab level one. */
  lemma FromIsTabLevelOne(query: string, tab: string)
    ensures FromTarget(Some(query), tab) == QueryTabLevel(query, 1, tab)
  {
    assert Repeat(tab, 1) == tab + Repeat(tab, 0);
    assert tab + "" == tab;
  }

  const WhereHead := "\n\n--Selections:\nWHERE"
  const OrderByHead := "\n\n--Ordering:\nORDER BY"

  /** The argument put on a line of its own: a newline in front unless it starts with one. */
  function OwnLine(s: string): (r: string)
    ensures StartsOnNewLine(r)
    ensures r == s || r == "\n" + s
    ensures r == s <==> StartsOnNewLine(s)
  {
    if !StartsOnNewLine(s) then "\n" + s else s
  }

  lemma OwnLineIdempotent(s: string)
    ensures OwnLine(OwnLine(s)) == OwnLine(s)
  {
  }

  /** A header, then the text on a line of its own: the shape of the WHERE and ORDER BY clauses. */
  function Headed(head: string, s: string): (r: string)
    ensures head <= r && EndsWith(r, s)
    ensures |r| == |head| + |s| + (if StartsOnNewLine(s) then 0 else 1)
  {
    EndsWithAppend(head + (if StartsOnNewLine(s) then "" else "\n"), s);
    head + OwnLine(s)
  }

  /** `_make_query_WHERE`: the header, then the condition as given, on a line of its own. */
  function WhereClause(w: string): (r: string)
    ensures WhereHead <= r && EndsWith(r, w)
    ensures |r| == |WhereHead| + |w| + (if StartsOnNewLine(w) then 0 else 1)
  {
    Headed(WhereHead, w)
  }

  /** `_make_query_ORDERBY`: the header, then the ordering as given, on a line of its own. */
  function OrderByClause(o: string): (r: string)
    ensures OrderByHead <= r && EndsWith(r, o)
    ensures |r| == |OrderByHead| + |o| + (if StartsOnNewLine(o) then 0 else 1)
  {
    Headed(OrderByHead, o)
  }

  /** The WHERE and ORDER BY clauses give back their argument, less only the newline they added. */
  lemma ClauseRoundTrip(s: string)
    ensures WhereClause(s)[|WhereHead|..] == OwnLine(s)
    ensures OrderByClause(s)[|OrderByHead|..] == OwnLine(s)
    ensures StartsOnNewLine(s) ==> OwnLine(s) == s
    ensures !StartsOnNewLine(s) ==> OwnLine(s)[1..] == s
  {
  }

  const JoinComment := "\n\n--Comparing to PanSTARRS1\n"
  const JoinNeighbour := "INNER JOIN gaiadr2.panstarrs1_best_neighbour"
  const JoinNeighbourOn := " AS panstarrs1_match ON panstarrs1_match"
  const JoinNeighbourKey := ".source_id = gaia.source_id"
  const JoinOriginal := "INNER JOIN gaiadr2.panstarrs1_original_valid"
  const JoinOriginalOn := " AS panstarrs1 ON panstarrs1.obj_id = "
  const JoinOriginalKey := "panstarrs1_match.original_ext_source_id"

  /** The PanSTARRS1 cross-match: the best-neighbour table, then the original catalogue. */
  const JoinClause :=
    JoinComment + JoinNeighbour + JoinNeighbourOn + JoinNeighbourKey + "\n"
    + JoinOriginal + JoinOriginalOn + JoinOriginalKey

  lemma FromHeadPlain() ensures BraceFree(FromHead) {}
  lemma GaiaSourcePlain() ensures BraceFree(GaiaSource) {}
  lemma FromTailPlain() ensures BraceFree(FromTail) {}
  lemma WhereHeadPlain() ensures BraceFree(WhereHead) {}
  lemma OrderByHeadPlain() ensures BraceFree(OrderByHead) {}
  lemma JoinCommentPlain() ensures BraceFree(JoinComment) {}
  lemma JoinNeighbourPlain() ensures BraceFree(JoinNeighbour) {
    assert BraceFree("INNER JOIN gaiadr2.");
    assert BraceFree("panstarrs1_best_neighbour");
    BraceFreeAppend("INNER JOIN gaiadr2.", "panstarrs1_best_neighbour");
  }
  lemma JoinNeighbourOnPlain() ensures BraceFree(JoinNeighbourOn) {}
  lemma JoinNeighbourKeyPlain() ensures BraceFree(JoinNeighbourKey + "\n") {}
  lemma JoinOriginalPlain() ensures BraceFree(JoinOriginal) {}
  lemma JoinOriginalOnPlain() ensures BraceFree(JoinOriginalOn) {}
  lemma JoinOriginalKeyPlain() ensures BraceFree(JoinOriginalKey) {}

  lemma JoinClausePlain()
    ensures BraceFree(JoinClause)
  {
    JoinCommentPlain();
    JoinNeighbourPlain();
    JoinNeighbourOnPlain();
    JoinNeighbourKeyPlain();
    JoinOriginalPlain();
    JoinOriginalOnPlain();
    JoinOriginalKeyPlain();
    var a := JoinComment + JoinNeighbour;
    BraceFreeAppend(JoinComment, JoinNeighbour);
    BraceFreeAppend(a, JoinNeighbourOn);
    var b := a + JoinNeighbourOn;
    BraceFreeAppend(b, JoinNeighbourKey + "\n");
    var c := b + (JoinNeighbourKey + "\n");
    assert c == a + JoinNeighbourOn + JoinNeighbourKey + "\n";
    BraceFreeAppend(c, JoinOriginal);
    var d := c + JoinOriginal;
    BraceFreeAppend(d, JoinOriginalOn);
    var e := d + JoinOriginalOn;
    BraceFreeAppend(e, JoinOriginalKey);
    assert JoinClause == e + JoinOriginalKey;
  }

  lemma ClausesPlain()
    ensures BraceFree(FromHead) && BraceFree(GaiaSource) && BraceFree(FromTail)
    ensures BraceFree(WhereHead) && BraceFree(OrderByHead) && BraceFree(JoinClause)
  {
    FromHeadPlain();
    GaiaSourcePlain();
    FromTailPlain();
    WhereHeadPlain();
    OrderByHeadPlain();
    JoinClausePlain();
  }

  // ---------------------------------------------------------------------------
  // the whole query

  /** The arguments of `make_gaia_query` that shape the text (printing is left out). */
  datatype QueryArgs = QueryArgs(
    whereText: Option<string>,
    orderBy: Option<string>,
    userCols: ColumnsArg,
    fromQuery: Option<string>,
    useAS: bool,
    allColumns: bool,
    panstarrs1: bool,
    gaiaMags: bool,
    userASdict: Option<Kwargs>,
    inmost: bool,
    tab: string)

  /** The defaults of `make_gaia_query`. */
  const DefaultArgs := QueryArgs(None, None, Absent, None, false, false, false, false, None, false, DefaultTab)

  /** What follows the SELECT part: FROM, then the join, WHERE and ORDER BY when asked for. */
  function Clauses(args: QueryArgs): string {
    FromClause(args.fromQuery, args.inmost, args.tab)
    + (if args.panstarrs1 then JoinClause else "")
    + (if args.whereText.Some? then WhereClause(args.whereText.value) else "")
    + (if args.orderBy.Some? then OrderByClause(args.orderBy.value) else "")
  }

  /** The query before the final format pass. */
  function Assembled(args: QueryArgs, reg: Registry): Result<string> {
    var select :- SelectText(args.userCols, args.useAS, args.allColumns, args.gaiaMags, args.panstarrs1, None, reg);
    Ok(select + Clauses(args))
  }

  /** `make_gaia_query` on a registry value. */
  function GaiaQueryText(args: QueryArgs, reg: Registry): Result<string> {
    var q :- Assembled(args, reg);
    if args.userASdict.Some? then Resolve(q, args.userASdict.value) else Ok(q)
  }

  /** Lines 458-476 of `make_gaia_query`: FROM, then the join, WHERE and ORDER BY when asked for. */
  method AppendClauses(select: string, args: QueryArgs) returns (query: string)
    ensures query == select + Clauses(args)
  {
    query := select;
    query := query + FromClause(args.fromQuery, args.inmost, args.tab);
    ghost var tail := FromClause(args.fromQuery, args.inmost, args.tab);
    assert query == select + tail;
    ghost var join := "";
    if args.panstarrs1 {
      query := query + JoinClause;
      join := JoinClause;
    }
    assert query == select + tail + join;
    AppendAssoc(select, tail, join);
    tail := tail + join;
    ghost var wh := "";
    if args.whereText.Some? {
      query := query + WhereClause(args.whereText.value);
      wh := WhereClause(args.whereText.value);
    }
    assert query == select + tail + wh;
    AppendAssoc(select, tail, wh);
    tail := tail + wh;
    ghost var ob := "";
    if args.orderBy.Some? {
      query := query + OrderByClause(args.orderBy.value);
      ob := OrderByClause(args.orderBy.value);
    }
    assert query == select + tail + ob;
    AppendAssoc(select, tail, ob);
    tail := tail + ob;
    assert query == select + tail;
    assert tail == Clauses(args);
  }

  /**
   * `make_gaia_query`: SELECT, FROM, the PanSTARRS join when asked for, WHERE and
   * ORDER BY when given, then one format pass over the whole text with `user_ASdict`
   * when it is given.
   */
  method MakeGaiaQuery(args: QueryArgs, defaults: DefaultsArg) returns (r: Result<string>)
    modifies if defaults.Given? then {defaults.dict} else {}
    ensures r == GaiaQueryText(args, old(Initial(defaults)))
    ensures defaults.Given? ==> defaults.dict.Value() == AfterSelect(old(Initial(defaults)), args.useAS)
  {
    ghost var reg := Initial(defaults);
    var select := MakeQuerySelect(args.userCols, args.useAS, args.allColumns, args.gaiaMags,
                                  args.panstarrs1, None, defaults);
    assert select == SelectText(args.userCols, args.useAS, args.allColumns, args.gaiaMags, args.panstarrs1, None, reg);
    if select.Err? {
      return Err(select.error);
    }
    var query := AppendClauses(select.value, args);
    AssembledOf(args, reg, select.value, query);
    if args.userASdict.Some? {
      r := Resolve(query, args.userASdict.value);
    } else {
      r := Ok(query);
    }
  }

  lemma AssembledOf(args: QueryArgs, reg: Registry, select: string, query: string)
    requires SelectText(args.userCols, args.useAS, args.allColumns, args.gaiaMags, args.panstarrs1, None, reg) == Ok(select)
    requires query == select + Clauses(args)
    ensures Assembled(args, reg) == Ok(query)
    ensures GaiaQueryText(args, reg) == if args.userASdict.Some? then Resolve(query, args.userASdict.value) else Ok(query)
  {
  }

  /** The arguments `make_simple_gaia_query` passes on: aliases on, inmost query, default tab. */
  function SimpleArgs(whereText: Option<string>, orderBy: Option<string>, userCols: ColumnsArg,
                      fromQuery: Option<string>, allColumns: bool, panstarrs1: bool, gaiaMags: bool,
                      userASdict: Option<Kwargs>): (a: QueryArgs)
    ensures a.useAS && a.inmost && a.tab == DefaultTab
  {
    QueryArgs(whereText, orderBy, userCols, fromQuery, true, allColumns, panstarrs1, gaiaMags,
              userASdict, true, DefaultTab)
  }

  /** `make_simple_gaia_query`: a single-level query; the caller's registry is left as it was. */
  method MakeSimpleGaiaQuery(whereText: Option<string>, orderBy: Option<string>, userCols: ColumnsArg,
                             fromQuery: Option<string>, allColumns: bool, panstarrs1: bool, gaiaMags: bool,
                             userASdict: Option<Kwargs>, defaults: DefaultsArg)
    returns (r: Result<string>)
    modifies if defaults.Given? then {defaults.dict} else {}
    ensures r == GaiaQueryText(SimpleArgs(whereText, orderBy, userCols, fromQuery, allColumns, panstarrs1,
                                          gaiaMags, userASdict), old(Initial(defaults)))
    ensures defaults.Given? ==> defaults.dict.Value() == old(defaults.dict.Value())
  {
    r := MakeGaiaQuery(SimpleArgs(whereText, orderBy, userCols, fromQuery, allColumns, panstarrs1,
                                  gaiaMags, userASdict), defaults);
  }

  /**
   * Reusing a registry dictionary: after a call with `use_AS` false, a later call with
   * `use_AS` true sees the blanked aliases, exactly as if the blank table had been given.
   */
  method ReuseAfterBlank(first: QueryArgs, second: QueryArgs, dict: Defaults)
    returns (r1: Result<string>, r2: Result<string>)
    requires !first.useAS
    modifies dict
    ensures r1 == GaiaQueryText(first, old(dict.Value()))
    ensures r2 == GaiaQueryText(second, AfterSelect(old(dict.Value()), false))
    ensures dict.Value() == AfterSelect(old(dict.Value()), false)
  {
    r1 := MakeGaiaQuery(first, Given(dict));
    r2 := MakeGaiaQuery(second, Given(dict));
    SelectAfterBlank(old(dict.Value()), second.useAS);
  }

  /** Without `user_ASdict` there is no final pass: the assembled text is the result. */
  lemma NoFinalPass(args: QueryArgs, reg: Registry)
    requires args.userASdict.None?
    ensures GaiaQueryText(args, reg) == Assembled(args, reg)
  {
  }

  /** The result is the final pass over the assembled text, when `user_ASdict` is given. */
  lemma FinalPassOf(args: QueryArgs, reg: Registry, q: string)
    requires Assembled(args, reg) == Ok(q)
    ensures GaiaQueryText(args, reg) == if args.userASdict.Some? then Resolve(q, args.userASdict.value) else Ok(q)
  {
  }

  /** The final pass leaves a query without placeholders as it is. */
  lemma FinalPassOnPlainText(args: QueryArgs, reg: Registry)
    requires Assembled(args, reg).Ok? && BraceFree(Assembled(args, reg).value)
    ensures GaiaQueryText(args, reg) == Assembled(args, reg)
  {
    if args.userASdict.Some? {
      ResolveBraceFree(Assembled(args, reg).value, args.userASdict.value);
    }
  }

  /**
   * The assembled query's layout: the SELECT part, the FROM clause, then the join,
   * WHERE and ORDER BY exactly when asked for, in that order and with nothing else
   * between them.
   */
  lemma QueryLayout(args: QueryArgs, reg: Registry)
    requires SelectText(args.userCols, args.useAS, args.allColumns, args.gaiaMags, args.panstarrs1, None, reg).Ok?
    ensures Assembled(args, reg).Ok?
    ensures var sel := SelectText(args.userCols, args.useAS, args.allColumns, args.gaiaMags, args.panstarrs1, None, reg).value;
            var q := Assembled(args, reg).value;
            var head := sel + FromClause(args.fromQuery, args.inmost, args.tab);
            q == head + (if args.panstarrs1 then JoinClause else "")
                 + (if args.whereText.Some? then WhereClause(args.whereText.value) else "")
                 + (if args.orderBy.Some? then OrderByClause(args.orderBy.value) else "") &&
            head <= q &&
            (args.panstarrs1 ==> head + JoinClause <= q) &&
            (args.orderBy.Some? ==> EndsWith(q, OrderByClause(args.orderBy.value))) &&
            (args.orderBy.None? && args.whereText.Some? ==> EndsWith(q, WhereClause(args.whereText.value))) &&
            (args.orderBy.None? && args.whereText.None? && !args.panstarrs1 ==> q == head)
  {
    var sel := SelectText(args.userCols, args.useAS, args.allColumns, args.gaiaMags, args.panstarrs1, None, reg).value;
    assert Assembled(args, reg).value == sel + Clauses(args);
    ClausesLayout(sel, args);
  }

  /** The layout of the clauses after any SELECT text. */
  lemma ClausesLayout(sel: string, args: QueryArgs)
    ensures var q := sel + Clauses(args);
            var head := sel + FromClause(args.fromQuery, args.inmost, args.tab);
            q == head + (if args.panstarrs1 then JoinClause else "")
                 + (if args.whereText.Some? then WhereClause(args.whereText.value) else "")
                 + (if args.orderBy.Some? then OrderByClause(args.orderBy.value) else "") &&
            head <= q &&
            (args.panstarrs1 ==> head + JoinClause <= q) &&
            (args.orderBy.Some? ==> EndsWith(q, OrderByClause(args.orderBy.value))) &&
            (args.orderBy.None? && args.whereText.Some? ==> EndsWith(q, WhereClause(args.whereText.value))) &&
            (args.orderBy.None? && args.whereText.None? && !args.panstarrs1 ==> q == head)
  {
    var from := FromClause(args.fromQuery, args.inmost, args.tab);
    var join := if args.panstarrs1 then JoinClause else "";
    var wh := if args.whereText.Some? then WhereClause(args.whereText.value) else "";
    var ob := if args.orderBy.Some? then OrderByClause(args.orderBy.value) else "";
    assert Clauses(args) == from + join + wh + ob;
    PartsLayout(sel, from, join, wh, ob);
  }

  /** Five texts appended after one another: where each of them ends up. */
  lemma PartsLayout(sel: string, from: string, join: string, wh: string, ob: string)
    ensures var q := sel + (from + join + wh + ob);
            q == sel + from + join + wh + ob &&
            sel + from <= q && sel + from + join <= q && EndsWith(q, ob) &&
            (ob == "" ==> EndsWith(q, wh)) &&
            (ob == "" && wh == "" && join == "" ==> q == sel + from)
  {
    var q := sel + (from + join + wh + ob);
    AppendAssoc(sel, from + join + wh, ob);
    AppendAssoc(sel, from + join, wh);
    AppendAssoc(sel, from, join);
    assert q == sel + from + join + wh + ob;
    AppendAssoc(sel + from, join, wh);
    AppendAssoc(sel + from, join + wh, ob);
    assert q == (sel + from) + (join + wh + ob);
    AppendAssoc(sel + from + join, wh, ob);
    assert q == (sel + from + join) + (wh + ob);
    EndsWithAppend(sel + from + join + wh, ob);
    if ob == "" {
      assert q == (sel + from + join) + wh;
      EndsWithAppend(sel + from + join, wh);
    }
  }
}
