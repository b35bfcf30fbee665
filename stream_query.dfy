/**
 * The stream-section query of `old/make_stream_query.py`: four nested calls of
 * `make_gaia_query`. The innermost computes rotated sky coordinates with a matrix whose
 * entries are placeholders, the next two derive the stream angles and proper motions,
 * and the outermost cuts the section and sorts by parallax. Only the outermost call
 * formats, so every placeholder of the inner levels is filled by that single final
 * pass with the caller's `l3userasdict`.
 */
module StreamQuery {
  import opened Outcome
  import opened Text
  import opened PyFormat
  import opened GaiaQuery

  // ---------------------------------------------------------------------------
  // texts that scan into a known list of fields

  /** `s` is a format string whose replacement fields are exactly `fs`, in order. */
  predicate Yields(s: string, fs: seq<Token>) {
    Scans(s) && FieldsIn(s) == fs
  }

  lemma YieldsPlain(s: string)
    requires BraceFree(s)
    ensures Yields(s, [])
  {
    ScanPlain(s);
  }

  lemma YieldsConcat(a: string, fa: seq<Token>, b: string, fb: seq<Token>)
    requires Yields(a, fa) && Yields(b, fb)
    ensures Yields(a + b, fa + fb)
  {
    ScanConcat(a, b);
  }

  lemma YieldsFour(a: string, fa: seq<Token>, b: string, fb: seq<Token>,
                   c: string, fc: seq<Token>, d: string, fd: seq<Token>)
    requires Yields(a, fa) && Yields(b, fb) && Yields(c, fc) && Yields(d, fd)
    ensures Yields(a + b + c + d, fa + fb + fc + fd)
  {
    YieldsConcat(a, fa, b, fb);
    YieldsConcat(a + b, fa + fb, c, fc);
    YieldsConcat(a + b + c, fa + fb + fc, d, fd);
  }

  /** A literal followed by a plain placeholder. */
  lemma YieldsFill(text: string, name: string)
    requires BraceFree(text) && FieldName(name)
    ensures Yields(text + Placeholder(name), [Field(name, "")])
  {
    YieldsPlain(text);
    ScanPlaceholder(name);
    YieldsConcat(text, [], Placeholder(name), [Field(name, "")]);
    assert [] + [Field(name, "")] == [Field(name, "")];
  }

  /** A literal followed by a signed placeholder. */
  lemma YieldsSigned(text: string, name: string)
    requires BraceFree(text) && FieldName(name)
    ensures Yields(text + SignedPlaceholder(name), [Field(name, "+")])
  {
    YieldsPlain(text);
    ScanSignedPlaceholder(name);
    YieldsConcat(text, [], SignedPlaceholder(name), [Field(name, "+")]);
    assert [] + [Field(name, "+")] == [Field(name, "+")];
  }

  /** A placeholder followed by a literal. */
  lemma YieldsFillThen(name: string, text: string)
    requires BraceFree(text) && FieldName(name)
    ensures Yields(Placeholder(name) + text, [Field(name, "")])
  {
    YieldsPlain(text);
    ScanPlaceholder(name);
    YieldsConcat(Placeholder(name), [Field(name, "")], text, []);
    assert [Field(name, "")] + [] == [Field(name, "")];
  }

  /** A signed placeholder followed by a literal. */
  lemma YieldsSignedThen(name: string, text: string)
    requires BraceFree(text) && FieldName(name)
    ensures Yields(SignedPlaceholder(name) + text, [Field(name, "+")])
  {
    YieldsPlain(text);
    ScanSignedPlaceholder(name);
    YieldsConcat(SignedPlaceholder(name), [Field(name, "+")], text, []);
    assert [Field(name, "+")] + [] == [Field(name, "+")];
  }

  // ---------------------------------------------------------------------------
  // the column and selection texts of the four levels

  /** One product of the rotation matrix: an entry placeholder times a trigonometric factor. */
  function Term(entry: string, factor: string): string {
    Placeholder(entry) + factor
  }

  /** A term whose placeholder is written with its sign. */
  function SignedTerm(entry: string, factor: string): string {
    SignedPlaceholder(entry) + factor
  }

  const CosCos := "*cos(radians(dec))*cos(radians(ra))+\n"
  const CosSin := "*cos(radians(dec))*sin(radians(ra))+\n"
  const SinDec := "*sin(radians(dec))"

  /** ` AS <name>,` and a blank line. */
  function Alias(name: string): string {
    " AS " + name + ",\n\n"
  }

  /** One row of the rotation matrix applied to the unit vector of (ra, dec). */
  function MatrixRow(k0: string, k1: string, k2: string, name: string): string {
    Term(k0, CosCos) + Term(k1, CosSin) + Term(k2, SinDec) + Alias(name)
  }

  const RotationHead := "\n--Rotation Matrix\n"
  const CHead := "--c1, c2\n"
  const C1Line := Term("sindecngp", "*cos(radians(dec))")
    + SignedTerm("mcosdecngp", "*sin(radians(dec))*cos(radians(ra")
    + SignedTerm("mrangp", ")) as c1,\n")
  const C2Line := Term("cosdecngp", "*sin(radians(ra") + SignedTerm("mrangp", ")) as c2\n")

  /** `l0cols`: the rotated coordinates and the factors c1, c2 of the proper-motion rotation. */
  const L0Cols := RotationHead
    + MatrixRow("K00", "K01", "K02", "cosphi1cosphi2")
    + MatrixRow("K10", "K11", "K12", "sinphi1cosphi2")
    + MatrixRow("K20", "K21", "K22", "sinphi2")
    + CHead + C1Line + C2Line

  /** The plain fields of one matrix row. */
  function RowFields(k0: string, k1: string, k2: string): seq<Token> {
    [Field(k0, ""), Field(k1, ""), Field(k2, "")]
  }

  const C1Fields := [Field("sindecngp", ""), Field("mcosdecngp", "+"), Field("mrangp", "+")]
  const C2Fields := [Field("cosdecngp", ""), Field("mrangp", "+")]

  /** The replacement fields of `l0cols`, in order: the matrix, then those of c1 and c2. */
  const L0Fields := RowFields("K00", "K01", "K02") + RowFields("K10", "K11", "K12")
    + RowFields("K20", "K21", "K22") + C1Fields + C2Fields

  lemma CosCosPlain() ensures BraceFree(CosCos) {}
  lemma CosSinPlain() ensures BraceFree(CosSin) {}
  lemma SinDecPlain() ensures BraceFree(SinDec) {}
  lemma RotationHeadPlain() ensures BraceFree(RotationHead) {}
  lemma CHeadPlain() ensures BraceFree(CHead) {}

  lemma AliasPlain(name: string)
    requires BraceFree(name)
    ensures BraceFree(Alias(name))
  {
    BraceFreeAppend(" AS ", name);
    BraceFreeAppend(" AS " + name, ",\n\n");
  }

  lemma MatrixRowYields(k0: string, k1: string, k2: string, name: string)
    requires FieldName(k0) && FieldName(k1) && FieldName(k2) && BraceFree(name)
    ensures Yields(MatrixRow(k0, k1, k2, name), RowFields(k0, k1, k2))
  {
    CosCosPlain();
    CosSinPlain();
    SinDecPlain();
    AliasPlain(name);
    YieldsFillThen(k0, CosCos);
    YieldsFillThen(k1, CosSin);
    YieldsFillThen(k2, SinDec);
    YieldsPlain(Alias(name));
    var a := Term(k0, CosCos);
    var b := Term(k1, CosSin);
    var c := Term(k2, SinDec);
    YieldsConcat(a, [Field(k0, "")], b, [Field(k1, "")]);
    YieldsConcat(a + b, [Field(k0, ""), Field(k1, "")], c, [Field(k2, "")]);
    YieldsConcat(a + b + c, [Field(k0, ""), Field(k1, ""), Field(k2, "")], Alias(name), []);
  }

  /** A plain term followed by two signed ones. */
  lemma TermSignedSigned(a: string, fa: string, b: string, fb: string, c: string, fc: string)
    requires FieldName(a) && FieldName(b) && FieldName(c)
    requires BraceFree(fa) && BraceFree(fb) && BraceFree(fc)
    ensures Yields(Term(a, fa) + SignedTerm(b, fb) + SignedTerm(c, fc),
                   [Field(a, ""), Field(b, "+"), Field(c, "+")])
  {
    YieldsFillThen(a, fa);
    YieldsSignedThen(b, fb);
    YieldsSignedThen(c, fc);
    YieldsConcat(Term(a, fa), [Field(a, "")], SignedTerm(b, fb), [Field(b, "+")]);
    YieldsConcat(Term(a, fa) + SignedTerm(b, fb), [Field(a, ""), Field(b, "+")],
                 SignedTerm(c, fc), [Field(c, "+")]);
  }

  /** A plain term followed by a signed one. */
  lemma TermSigned(a: string, fa: string, b: string, fb: string)
    requires FieldName(a) && FieldName(b) && BraceFree(fa) && BraceFree(fb)
    ensures Yields(Term(a, fa) + SignedTerm(b, fb), [Field(a, ""), Field(b, "+")])
  {
    YieldsFillThen(a, fa);
    YieldsSignedThen(b, fb);
    YieldsConcat(Term(a, fa), [Field(a, "")], SignedTerm(b, fb), [Field(b, "+")]);
  }

  lemma C1FactorsPlain()
    ensures BraceFree("*cos(radians(dec))") && BraceFree("*sin(radians(dec))*cos(radians(ra")
    ensures BraceFree(")) as c1,\n")
  {
    CosDecPlain();
    SinDecCosRaPlain();
    C1AliasPlain();
  }

  lemma CosDecPlain() ensures BraceFree("*cos(radians(dec))") {}
  lemma SinDecCosRaPlain() ensures BraceFree("*sin(radians(dec))*cos(radians(ra") {}
  lemma C1AliasPlain() ensures BraceFree(")) as c1,\n") {}

  lemma C2FactorsPlain()
    ensures BraceFree("*sin(radians(ra") && BraceFree(")) as c2\n")
  {
  }

  lemma C1Names()
    ensures FieldName("sindecngp") && FieldName("mcosdecngp") && FieldName("mrangp")
  {
    FieldNameOf("sindecngp"); FieldNameOf("mcosdecngp"); FieldNameOf("mrangp");
  }

  lemma C2Names()
    ensures FieldName("cosdecngp") && FieldName("mrangp")
  {
    FieldNameOf("cosdecngp"); FieldNameOf("mrangp");
  }

  lemma C1LineYields()
    ensures Yields(C1Line, C1Fields)
  {
    C1Names();
    C1FactorsPlain();
    TermSignedSigned("sindecngp", "*cos(radians(dec))", "mcosdecngp", "*sin(radians(dec))*cos(radians(ra",
                     "mrangp", ")) as c1,\n");
  }

  lemma C2LineYields()
    ensures Yields(C2Line, C2Fields)
  {
    C2Names();
    C2FactorsPlain();
    TermSigned("cosdecngp", "*sin(radians(ra", "mrangp", ")) as c2\n");
  }

  lemma MatrixRowsYield()
    ensures Yields(MatrixRow("K00", "K01", "K02", "cosphi1cosphi2"), RowFields("K00", "K01", "K02"))
    ensures Yields(MatrixRow("K10", "K11", "K12", "sinphi1cosphi2"), RowFields("K10", "K11", "K12"))
    ensures Yields(MatrixRow("K20", "K21", "K22", "sinphi2"), RowFields("K20", "K21", "K22"))
  {
    FieldNameOf("K00"); FieldNameOf("K01"); FieldNameOf("K02");
    FieldNameOf("K10"); FieldNameOf("K11"); FieldNameOf("K12");
    FieldNameOf("K20"); FieldNameOf("K21"); FieldNameOf("K22");
    assert BraceFree("cosphi1cosphi2") && BraceFree("sinphi1cosphi2") && BraceFree("sinphi2");
    MatrixRowYields("K00", "K01", "K02", "cosphi1cosphi2");
    MatrixRowYields("K10", "K11", "K12", "sinphi1cosphi2");
    MatrixRowYields("K20", "K21", "K22", "sinphi2");
  }

  /** `l0cols` holds the fourteen placeholders of the rotation, in order. */
  lemma L0ColsYields()
    ensures Yields(L0Cols, L0Fields)
  {
    var r0 := MatrixRow("K00", "K01", "K02", "cosphi1cosphi2");
    var r1 := MatrixRow("K10", "K11", "K12", "sinphi1cosphi2");
    var r2 := MatrixRow("K20", "K21", "K22", "sinphi2");
    var f0 := RowFields("K00", "K01", "K02");
    var f1 := RowFields("K10", "K11", "K12");
    var f2 := RowFields("K20", "K21", "K22");
    var g1 := C1Fields;
    var g2 := C2Fields;
    MatrixRowsYield();
    C1LineYields();
    C2LineYields();
    RotationHeadPlain();
    CHeadPlain();
    YieldsPlain(RotationHead);
    YieldsPlain(CHead);
    YieldsConcat(RotationHead, [], r0, f0);
    assert [] + f0 == f0;
    YieldsConcat(RotationHead + r0, f0, r1, f1);
    YieldsConcat(RotationHead + r0 + r1, f0 + f1, r2, f2);
    YieldsConcat(RotationHead + r0 + r1 + r2, f0 + f1 + f2, CHead, []);
    assert f0 + f1 + f2 + [] == f0 + f1 + f2;
    YieldsConcat(RotationHead + r0 + r1 + r2 + CHead, f0 + f1 + f2, C1Line, g1);
    YieldsConcat(RotationHead + r0 + r1 + r2 + CHead + C1Line, f0 + f1 + f2 + g1, C2Line, g2);
    assert f0 + f1 + f2 + g1 + g2 == L0Fields;
  }

  const L1Line1 := "\ngaia.cosphi1cosphi2, "
  const L1Line1b := "gaia.sinphi1cosphi2, gaia.sinphi2,\n"
  const L1Line2 := "gaia.c1, gaia.c2,\n\n"
  const L1Line3 := "atan2(sinphi1cosphi2, cosphi1cosphi2)"
  const L1Line3b := " AS phi1,\n"
  const L1Line4 := "atan2(sinphi2, sinphi1cosphi2 / "
  const L1Line4b := "sin(atan2(sinphi1cosphi2, "
  const L1Line4c := "cosphi1cosphi2))) AS phi2"

  /** `l1cols`: the rotated coordinates passed up, and the stream angles phi1, phi2. */
  const L1Cols := L1Line1 + L1Line1b + L1Line2 + L1Line3 + L1Line3b + L1Line4 + L1Line4b + L1Line4c

  const L2Line1 := "\ngaia.sinphi1cosphi2, "
  const L2Line1b := "gaia.cosphi1cosphi2, gaia.sinphi2,\n"
  const L2Line2 := "gaia.phi1, gaia.phi2,\ngaia.c1, gaia.c2,\n\n"
  const L2Line3 := "( c1*pmra+c2*pmdec)/cos(phi2) AS pmphi1,\n"
  const L2Line4 := "(-c2*pmra+c1*pmdec)/cos(phi2) AS pmphi2"

  /** `l2cols`: the angles passed up, and the proper motions along and across the stream. */
  const L2Cols := L2Line1 + L2Line1b + L2Line2 + L2Line3 + L2Line4

  const L3Line1 := "\ngaia.phi1, gaia.phi2,\n"
  const L3Line2 := "gaia.pmphi1, gaia.pmphi2"

  /** `l3cols`: what the outermost query selects besides the default blocks. */
  const L3Cols := L3Line1 + L3Line2

  lemma L1Line1Plain() ensures BraceFree(L1Line1) {}
  lemma L1Line1bPlain() ensures BraceFree(L1Line1b) {}
  lemma L1Line2Plain() ensures BraceFree(L1Line2) {}
  lemma L1Line3Plain() ensures BraceFree(L1Line3) {}
  lemma L1Line3bPlain() ensures BraceFree(L1Line3b) {}
  lemma L1Line4Plain() ensures BraceFree(L1Line4) {}
  lemma L1Line4bPlain() ensures BraceFree(L1Line4b) {}
  lemma L1Line4cPlain() ensures BraceFree(L1Line4c) {}
  lemma L2Line1Plain() ensures BraceFree(L2Line1) {}
  lemma L2Line1bPlain() ensures BraceFree(L2Line1b) {}
  lemma L2Line2Plain() ensures BraceFree(L2Line2) {}
  lemma L2Line3Plain() ensures BraceFree(L2Line3) {}
  lemma L2Line4Plain() ensures BraceFree(L2Line4) {}
  lemma L3Line1Plain() ensures BraceFree(L3Line1) {}
  lemma L3Line2Plain() ensures BraceFree(L3Line2) {}

  /** The column texts of levels 1 to 3 hold no placeholder. */
  lemma L1ColsPlain()
    ensures BraceFree(L1Cols)
  {
    L1Line1Plain(); L1Line1bPlain(); L1Line2Plain(); L1Line3Plain();
    L1Line3bPlain(); L1Line4Plain(); L1Line4bPlain(); L1Line4cPlain();
  }

  lemma L2ColsPlain()
    ensures BraceFree(L2Cols)
  {
    L2Line1Plain(); L2Line1bPlain(); L2Line2Plain(); L2Line3Plain(); L2Line4Plain();
  }

  lemma L3ColsPlain()
    ensures BraceFree(L3Cols)
  {
    L3Line1Plain(); L3Line2Plain();
  }

  /** `l0sel`: only distant stars. */
  const L0Sel := "parallax < 1."
  const RandomIndexCut := " AND gaia.random_index < "

  /** The innermost WHERE text: `l0sel` and a cut on the random index, written in decimal. */
  function InnermostSelection(randomIndex: int): string {
    L0Sel + RandomIndexCut + IntText(randomIndex)
  }

  /** A comparison with a bound written with its sign. */
  function Bound(comparison: string, name: string): string {
    comparison + SignedPlaceholder(name)
  }

  /** A comparison with a bound written as given. */
  function Cut(comparison: string, name: string): string {
    comparison + Placeholder(name)
  }

  /** The box in stream angles, each bound written with its sign. */
  const BoxSel := Bound("\n    phi1 > ", "phi1min") + Bound("\nAND phi1 < ", "phi1max")
    + Bound("\nAND phi2 > ", "phi2min") + Bound("\nAND phi2 < ", "phi2max")

  /** The proper-motion cuts, commented out in ADQL. */
  const MotionSel := Cut("\n--AND pmphi1 > ", "pm_phi1min") + Cut(" AND pmphi1 < ", "pm_phi1max")
    + Cut("\n--AND pmphi2 > ", "pm_phi2min") + Cut(" AND pmphi2 < ", "pm_phi2max")

  /** `l3sel`: the stream section's box, then the proper-motion cuts. */
  const L3Sel := BoxSel + MotionSel

  /** The box bounds, written with their sign. */
  const BoxFields := [Field("phi1min", "+"), Field("phi1max", "+"), Field("phi2min", "+"), Field("phi2max", "+")]

  /** The proper-motion bounds: ADQL comments, yet placeholders all the same. */
  const MotionFields := [Field("pm_phi1min", ""), Field("pm_phi1max", ""), Field("pm_phi2min", ""), Field("pm_phi2max", "")]

  const L3Fields := BoxFields + MotionFields

  /** The eight placeholder names of `l3sel` are plain keyword names. */
  lemma L3Names()
    ensures FieldName("phi1min") && FieldName("phi1max") && FieldName("phi2min") && FieldName("phi2max")
    ensures FieldName("pm_phi1min") && FieldName("pm_phi1max") && FieldName("pm_phi2min") && FieldName("pm_phi2max")
  {
    FieldNameOf("phi1min"); FieldNameOf("phi1max"); FieldNameOf("phi2min"); FieldNameOf("phi2max");
    FieldNameOf("pm_phi1min"); FieldNameOf("pm_phi1max"); FieldNameOf("pm_phi2min"); FieldNameOf("pm_phi2max");
  }

  lemma YieldsBound(comparison: string, name: string)
    requires BraceFree(comparison) && FieldName(name)
    ensures Yields(Bound(comparison, name), [Field(name, "+")])
  {
    YieldsSigned(comparison, name);
  }

  lemma YieldsCut(comparison: string, name: string)
    requires BraceFree(comparison) && FieldName(name)
    ensures Yields(Cut(comparison, name), [Field(name, "")])
  {
    YieldsFill(comparison, name);
  }

  lemma BoxComparisonsPlain()
    ensures BraceFree("\n    phi1 > ") && BraceFree("\nAND phi1 < ")
    ensures BraceFree("\nAND phi2 > ") && BraceFree("\nAND phi2 < ")
  {
  }

  lemma MotionComparisonsPlain()
    ensures BraceFree("\n--AND pmphi1 > ") && BraceFree(" AND pmphi1 < ")
    ensures BraceFree("\n--AND pmphi2 > ") && BraceFree(" AND pmphi2 < ")
  {
  }

  lemma FourBounds(c1: string, n1: string, c2: string, n2: string,
                   c3: string, n3: string, c4: string, n4: string)
    requires BraceFree(c1) && BraceFree(c2) && BraceFree(c3) && BraceFree(c4)
    requires FieldName(n1) && FieldName(n2) && FieldName(n3) && FieldName(n4)
    ensures Yields(Bound(c1, n1) + Bound(c2, n2) + Bound(c3, n3) + Bound(c4, n4),
                   [Field(n1, "+"), Field(n2, "+"), Field(n3, "+"), Field(n4, "+")])
  {
    YieldsBound(c1, n1);
    YieldsBound(c2, n2);
    YieldsBound(c3, n3);
    YieldsBound(c4, n4);
    YieldsFour(Bound(c1, n1), [Field(n1, "+")], Bound(c2, n2), [Field(n2, "+")],
               Bound(c3, n3), [Field(n3, "+")], Bound(c4, n4), [Field(n4, "+")]);
    assert [Field(n1, "+")] + [Field(n2, "+")] + [Field(n3, "+")] + [Field(n4, "+")] ==
           [Field(n1, "+"), Field(n2, "+"), Field(n3, "+"), Field(n4, "+")];
  }

  lemma FourCuts(c1: string, n1: string, c2: string, n2: string,
                 c3: string, n3: string, c4: string, n4: string)
    requires BraceFree(c1) && BraceFree(c2) && BraceFree(c3) && BraceFree(c4)
    requires FieldName(n1) && FieldName(n2) && FieldName(n3) && FieldName(n4)
    ensures Yields(Cut(c1, n1) + Cut(c2, n2) + Cut(c3, n3) + Cut(c4, n4),
                   [Field(n1, ""), Field(n2, ""), Field(n3, ""), Field(n4, "")])
  {
    YieldsCut(c1, n1);
    YieldsCut(c2, n2);
    YieldsCut(c3, n3);
    YieldsCut(c4, n4);
    YieldsFour(Cut(c1, n1), [Field(n1, "")], Cut(c2, n2), [Field(n2, "")],
               Cut(c3, n3), [Field(n3, "")], Cut(c4, n4), [Field(n4, "")]);
    assert [Field(n1, "")] + [Field(n2, "")] + [Field(n3, "")] + [Field(n4, "")] ==
           [Field(n1, ""), Field(n2, ""), Field(n3, ""), Field(n4, "")];
  }

  lemma BoxSelYields()
    ensures Yields(BoxSel, BoxFields)
  {
    L3Names();
    BoxComparisonsPlain();
    FourBounds("\n    phi1 > ", "phi1min", "\nAND phi1 < ", "phi1max",
               "\nAND phi2 > ", "phi2min", "\nAND phi2 < ", "phi2max");
  }

  lemma MotionSelYields()
    ensures Yields(MotionSel, MotionFields)
  {
    L3Names();
    MotionComparisonsPlain();
    FourCuts("\n--AND pmphi1 > ", "pm_phi1min", " AND pmphi1 < ", "pm_phi1max",
             "\n--AND pmphi2 > ", "pm_phi2min", " AND pmphi2 < ", "pm_phi2max");
  }

  /** `l3sel` holds the four signed box bounds, then the four proper-motion bounds. */
  lemma L3SelYields()
    ensures Yields(L3Sel, L3Fields)
  {
    BoxSelYields();
    MotionSelYields();
    YieldsConcat(BoxSel, BoxFields, MotionSel, MotionFields);
  }

  /** The fields of the whole stream query: those of `l0cols`, then those of `l3sel`. */
  const StreamFields := L0Fields + L3Fields

  /** The random-index cut is written so that the index can be read back. */
  lemma RandomIndexWritten(randomIndex: int)
    ensures InnermostSelection(randomIndex)[..|L0Sel + RandomIndexCut|] == L0Sel + RandomIndexCut
    ensures ParseInt(InnermostSelection(randomIndex)[|L0Sel + RandomIndexCut|..]) == Some(randomIndex)
  {
    var head := L0Sel + RandomIndexCut;
    assert InnermostSelection(randomIndex) == head + IntText(randomIndex);
    assert InnermostSelection(randomIndex)[|head|..] == IntText(randomIndex);
    ParseIntText(randomIndex);
  }

  // ---------------------------------------------------------------------------
  // the four levels

  const OuterOrder := "gaia.parallax"

  /** The innermost call: magnitudes, `l0cols`, the selection, straight from the Gaia source. */
  function Level0(selection: string): QueryArgs {
    QueryArgs(Some(selection), None, Text(L0Cols), None, false, false, false, true, None, true, DefaultTab)
  }

  /** A middle call: magnitudes and its own columns, from the query one level in. */
  function Middle(cols: string, from: string): QueryArgs {
    QueryArgs(None, None, Text(cols), Some(from), false, false, false, true, None, false, DefaultTab)
  }

  /** The outermost call: aliases, magnitudes, PanSTARRS, `l3cols`, `l3sel`, sorted by parallax; the only format pass. */
  function Outer(from: string, l3userasdict: Option<Kwargs>): QueryArgs {
    QueryArgs(Some(L3Sel), Some(OuterOrder), Text(L3Cols), Some(from), true, false, true, true,
              l3userasdict, false, DefaultTab)
  }

  /**
   * `make_streamsection_query` on the contents of the defaults file, which every level
   * loads afresh. Without a random index the innermost selection is never bound, and
   * reading it is the first thing that fails.
   */
  function StreamSectionText(l3userasdict: Option<Kwargs>, randomIndex: Option<int>, raw: RawDefaults): Result<string> {
    if randomIndex.None? then Err(UnboundLocalError("newl0sel"))
    else
      var reg := Normalise(raw);
      var q0 :- GaiaQueryText(Level0(InnermostSelection(randomIndex.value)), reg);
      var q1 :- GaiaQueryText(Middle(L1Cols, q0), reg);
      var q2 :- GaiaQueryText(Middle(L2Cols, q1), reg);
      GaiaQueryText(Outer(q2, l3userasdict), reg)
  }

  /** `make_streamsection_query`: the four calls, innermost first, each loading the defaults file. */
  method MakeStreamSectionQuery(l3userasdict: Option<Kwargs>, randomIndex: Option<int>, raw: RawDefaults)
    returns (r: Result<string>)
    ensures r == StreamSectionText(l3userasdict, randomIndex, raw)
  {
    if randomIndex.None? {
      return Err(UnboundLocalError("newl0sel"));
    }
    var newl0sel := L0Sel + RandomIndexCut + IntText(randomIndex.value);
    var q0 := MakeGaiaQuery(Level0(newl0sel), Loaded(raw));
    if q0.Err? {
      return q0;
    }
    var q1 := MakeGaiaQuery(Middle(L1Cols, q0.value), Loaded(raw));
    if q1.Err? {
      return q1;
    }
    var q2 := MakeGaiaQuery(Middle(L2Cols, q1.value), Loaded(raw));
    if q2.Err? {
      return q2;
    }
    r := MakeGaiaQuery(Outer(q2.value, l3userasdict), Loaded(raw));
  }

  /** Without a random index nothing is built: the unbound selection is the error. */
  lemma NoRandomIndex(l3userasdict: Option<Kwargs>, raw: RawDefaults)
    ensures StreamSectionText(l3userasdict, None, raw) == Err(UnboundLocalError("newl0sel"))
  {
  }

  // ---------------------------------------------------------------------------
  // what the assembled levels hold

  /** A block that formats into text with no brace left. */
  predicate BlockTame(block: string, kw: Kwargs) {
    Resolve(block, kw).Ok? && BraceFree(Resolve(block, kw).value)
  }

  /**
   * A registry whose blocks format, with the blank alias table of the inner levels and
   * with the full one of the outermost level, into text without braces. The packaged
   * defaults file is expected to be of this kind; the properties below are stated for any
   * such registry.
   */
  predicate Tame(reg: Registry) {
    BlockTame(reg.gaiaCols, Aliases(reg, false)) && BlockTame(reg.gaiaMags, Aliases(reg, false)) &&
    BlockTame(reg.gaiaCols, Aliases(reg, true)) && BlockTame(reg.gaiaMags, Aliases(reg, true)) &&
    BlockTame(reg.panstarrsCols, Aliases(reg, true))
  }

  /** A user column text the SELECT builder appends unchanged. */
  predicate AsWritten(u: string) {
    u != "" && StartsOnNewLine(u) && u[|u| - 1] != ','
  }

  lemma LastOf(a: string, b: string)
    requires |b| > 0
    ensures (a + b)[|a + b| - 1] == b[|b| - 1]
  {
  }

  lemma L0ColsAsWritten()
    ensures AsWritten(L0Cols)
  {
    LastOf(Term("cosdecngp", "*sin(radians(ra")  + SignedPlaceholder("mrangp"), ")) as c2\n");
    LastOf(RotationHead + MatrixRow("K00", "K01", "K02", "cosphi1cosphi2")
           + MatrixRow("K10", "K11", "K12", "sinphi1cosphi2")
           + MatrixRow("K20", "K21", "K22", "sinphi2") + CHead + C1Line, C2Line);
  }

  lemma L1ColsAsWritten()
    ensures AsWritten(L1Cols)
  {
    LastOf(L1Line1 + L1Line1b + L1Line2 + L1Line3 + L1Line3b + L1Line4 + L1Line4b, L1Line4c);
  }

  lemma L2ColsAsWritten()
    ensures AsWritten(L2Cols)
  {
    LastOf(L2Line1 + L2Line1b + L2Line2 + L2Line3, L2Line4);
  }

  lemma L3ColsAsWritten()
    ensures AsWritten(L3Cols)
  {
    LastOf(L3Line1, L3Line2);
  }

  /** The SELECT part of a level: the formatted blocks, which hold no brace, then the columns as written. */
  lemma LevelSelect(u: string, useAS: bool, panstarrs1: bool, reg: Registry)
    requires Tame(reg) && AsWritten(u) && (panstarrs1 ==> useAS)
    ensures BlocksFormat(reg, Aliases(reg, useAS), true, panstarrs1)
    ensures BraceFree(FormattedBlocks(reg, Aliases(reg, useAS), false, true, panstarrs1))
    ensures SelectText(Text(u), useAS, false, true, panstarrs1, None, reg) ==
            Ok(FormattedBlocks(reg, Aliases(reg, useAS), false, true, panstarrs1) + CustomHeader + u)
  {
    var kw := Aliases(reg, useAS);
    HeadersPlain();
    SelectLayout(Text(u), useAS, false, true, panstarrs1, reg);
    CustomColumnsAsWritten(u);
    var f := FormattedBlocks(reg, kw, false, true, panstarrs1);
    assert f == SelectHeader + Formatted(reg.gaiaCols, kw)
      + (MagsHeader + Formatted(reg.gaiaMags, kw)) + ""
      + (if panstarrs1 then PanstarrsHeader + Formatted(reg.panstarrsCols, kw) else "");
    AppendAssoc(f, CustomHeader, u);
  }

  /** The SELECT part of a level holds the fields of its columns and no others. */
  lemma LevelSelectYields(u: string, fs: seq<Token>, useAS: bool, panstarrs1: bool, reg: Registry)
    requires Tame(reg) && AsWritten(u) && (panstarrs1 ==> useAS) && Yields(u, fs)
    ensures SelectText(Text(u), useAS, false, true, panstarrs1, None, reg).Ok?
    ensures Yields(SelectText(Text(u), useAS, false, true, panstarrs1, None, reg).value, fs)
  {
    LevelSelect(u, useAS, panstarrs1, reg);
    var f := FormattedBlocks(reg, Aliases(reg, useAS), false, true, panstarrs1);
    HeadersPlain();
    BraceFreeAppend(f, CustomHeader);
    YieldsPlain(f + CustomHeader);
    YieldsConcat(f + CustomHeader, [], u, fs);
    assert [] + fs == fs;
  }

  lemma DefaultTabPlain()
    ensures BraceFree(DefaultTab) && NewlineFree(DefaultTab)
  {
  }

  /** A text between two brace-free literals keeps its fields. */
  lemma YieldsFramed(pre: string, i: string, post: string, fs: seq<Token>)
    requires BraceFree(pre) && Yields(i, fs) && BraceFree(post)
    ensures Yields(pre + i + post, fs)
  {
    YieldsPlain(pre);
    YieldsPlain(post);
    YieldsConcat(pre, [], i, fs);
    assert [] + fs == fs;
    YieldsConcat(pre + i, fs, post, []);
    assert fs + [] == fs;
  }

  /** A FROM clause around an inner query: the indented query between two brace-free parts. */
  lemma FromFrame(q: string) returns (pre: string, post: string)
    ensures BraceFree(pre) && BraceFree(post)
    ensures FromClause(Some(q), false, DefaultTab) == pre + Indent(q, DefaultTab) + post
  {
    FromHeadPlain();
    FromTailPlain();
    assert BraceFree("(\n") && BraceFree("\n)");
    BraceFreeAppend(FromHead, "(\n");
    BraceFreeAppend("\n)", FromTail);
    pre, post := FromHead + "(\n", "\n)" + FromTail;
  }

  /** An inner query keeps its fields inside the FROM clause that indents it. */
  lemma FromYields(q: string, fs: seq<Token>)
    requires Yields(q, fs) && FieldsNewlineFree(fs)
    ensures Yields(FromClause(Some(q), false, DefaultTab), fs)
  {
    DefaultTabPlain();
    ScanIndent(q, DefaultTab);
    var pre, post := FromFrame(q);
    YieldsFramed(pre, Indent(q, DefaultTab), post, fs);
  }

  /** The inmost FROM clause names the Gaia source and holds no field. */
  lemma InmostFromPlain()
    ensures BraceFree(FromClause(None, true, DefaultTab))
  {
    FromHeadPlain();
    GaiaSourcePlain();
    FromTailPlain();
    assert FromClause(None, true, DefaultTab) == FromHead + GaiaSource + FromTail;
    BraceFreeAppend(FromHead, GaiaSource);
    BraceFreeAppend(FromHead + GaiaSource, FromTail);
  }

  /** A literal head followed by a text keeps the text's fields. */
  lemma YieldsAfterPlain(head: string, w: string, fs: seq<Token>)
    requires BraceFree(head) && Yields(w, fs)
    ensures Yields(head + w, fs)
  {
    YieldsPlain(head);
    YieldsConcat(head, [], w, fs);
    assert [] + fs == fs;
  }

  /** A WHERE clause holds the fields of its selection. */
  lemma WhereYields(w: string, fs: seq<Token>)
    requires Yields(w, fs)
    ensures Yields(WhereClause(w), fs)
  {
    WhereHeadPlain();
    BraceFreeAppend(WhereHead, "\n");
    var own := OwnLine(w);
    if own == w {
      YieldsAfterPlain(WhereHead, w, fs);
    } else {
      YieldsAfterPlain(WhereHead + "\n", w, fs);
      AppendAssoc(WhereHead, "\n", w);
    }
  }

  /** The innermost selection holds no placeholder: the index is written in digits. */
  lemma SelectionPlain(randomIndex: int)
    ensures BraceFree(InnermostSelection(randomIndex))
  {
    var t := IntText(randomIndex);
    assert forall i :: 0 <= i < |t| ==> t[i] != '{' && t[i] != '}' by {
      if randomIndex < 0 {
        assert t == "-" + NatText(-randomIndex);
        forall i | 0 <= i < |t| ensures t[i] != '{' && t[i] != '}' {
          if i > 0 {
            assert t[i] == NatText(-randomIndex)[i - 1];
          }
        }
      }
    }
    assert BraceFree(L0Sel) && BraceFree(RandomIndexCut);
    BraceFreeAppend(L0Sel, RandomIndexCut);
    BraceFreeAppend(L0Sel + RandomIndexCut, t);
  }

  lemma FieldsNewlineFreeAppend(a: seq<Token>, b: seq<Token>)
    requires FieldsNewlineFree(a) && FieldsNewlineFree(b)
    ensures FieldsNewlineFree(a + b)
  {
    forall i | 0 <= i < |a + b| && (a + b)[i].Field?
      ensures NewlineFree((a + b)[i].name) && NewlineFree((a + b)[i].spec)
    {
      if i >= |a| {
        assert (a + b)[i] == b[i - |a|];
      }
    }
  }

  lemma RowFieldsNewlineFree(k0: string, k1: string, k2: string)
    requires NewlineFree(k0) && NewlineFree(k1) && NewlineFree(k2)
    ensures FieldsNewlineFree(RowFields(k0, k1, k2))
  {
    assert NewlineFree("");
  }

  lemma MatrixNamesNewlineFree()
    ensures NewlineFree("K00") && NewlineFree("K01") && NewlineFree("K02")
    ensures NewlineFree("K10") && NewlineFree("K11") && NewlineFree("K12")
    ensures NewlineFree("K20") && NewlineFree("K21") && NewlineFree("K22")
  {
  }

  lemma CFieldsNewlineFree()
    ensures FieldsNewlineFree(C1Fields) && FieldsNewlineFree(C2Fields)
  {
  }

  lemma FiveNewlineFree(a: seq<Token>, b: seq<Token>, c: seq<Token>, d: seq<Token>, e: seq<Token>)
    requires FieldsNewlineFree(a) && FieldsNewlineFree(b) && FieldsNewlineFree(c)
    requires FieldsNewlineFree(d) && FieldsNewlineFree(e)
    ensures FieldsNewlineFree(a + b + c + d + e)
  {
    FieldsNewlineFreeAppend(a, b);
    FieldsNewlineFreeAppend(a + b, c);
    FieldsNewlineFreeAppend(a + b + c, d);
    FieldsNewlineFreeAppend(a + b + c + d, e);
  }

  /** No field name of `l0cols` spans a line, so indenting the query cannot split one. */
  lemma L0FieldsNewlineFree()
    ensures FieldsNewlineFree(L0Fields)
  {
    MatrixNamesNewlineFree();
    RowFieldsNewlineFree("K00", "K01", "K02");
    RowFieldsNewlineFree("K10", "K11", "K12");
    RowFieldsNewlineFree("K20", "K21", "K22");
    CFieldsNewlineFree();
    FiveNewlineFree(RowFields("K00", "K01", "K02"), RowFields("K10", "K11", "K12"),
                    RowFields("K20", "K21", "K22"), C1Fields, C2Fields);
  }

  /** The clauses of a call without the join or ORDER BY: FROM, then WHERE when given. */
  lemma InnerClauses(args: QueryArgs)
    requires !args.panstarrs1 && args.orderBy.None?
    ensures Clauses(args) == FromClause(args.fromQuery, args.inmost, args.tab)
                             + (if args.whereText.Some? then WhereClause(args.whereText.value) else "")
  {
    var f := FromClause(args.fromQuery, args.inmost, args.tab);
    var w := if args.whereText.Some? then WhereClause(args.whereText.value) else "";
    assert f + "" == f;
    assert f + w + "" == f + w;
  }

  /** A level whose columns and clauses hold known fields holds those of the columns, then those of the clauses. */
  lemma AssembledYields(args: QueryArgs, reg: Registry, u: string, fs: seq<Token>, cfs: seq<Token>)
    requires Tame(reg) && args.userCols == Text(u) && AsWritten(u) && Yields(u, fs)
    requires !args.allColumns && args.gaiaMags && (args.panstarrs1 ==> args.useAS)
    requires Yields(Clauses(args), cfs)
    ensures Assembled(args, reg).Ok?
    ensures Yields(Assembled(args, reg).value, fs + cfs)
    ensures args.userASdict.None? ==> GaiaQueryText(args, reg) == Assembled(args, reg)
  {
    LevelSelectYields(u, fs, args.useAS, args.panstarrs1, reg);
    var sel := SelectText(Text(u), args.useAS, false, true, args.panstarrs1, None, reg).value;
    YieldsConcat(sel, fs, Clauses(args), cfs);
  }

  lemma YieldsNothingMore(s: string, fs: seq<Token>)
    requires Yields(s, fs + [])
    ensures Yields(s, fs)
  {
    assert fs + [] == fs;
  }

  /** The clauses of level 0: the Gaia source and the selection, neither holding a field. */
  lemma Level0ClausesPlain(randomIndex: int)
    ensures Yields(Clauses(Level0(InnermostSelection(randomIndex))), [])
  {
    var args := Level0(InnermostSelection(randomIndex));
    InmostFromPlain();
    SelectionPlain(randomIndex);
    YieldsPlain(InnermostSelection(randomIndex));
    WhereYields(InnermostSelection(randomIndex), []);
    var from := FromClause(None, true, DefaultTab);
    var wh := WhereClause(InnermostSelection(randomIndex));
    YieldsPlain(from);
    YieldsConcat(from, [], wh, []);
    InnerClauses(args);
  }

  /** Level 0 with a selection that holds no field. */
  lemma Level0YieldsWith(selection: string, reg: Registry)
    requires Tame(reg) && Yields(Clauses(Level0(selection)), [])
    ensures GaiaQueryText(Level0(selection), reg).Ok?
    ensures Yields(GaiaQueryText(Level0(selection), reg).value, L0Fields)
  {
    L0ColsYields();
    L0ColsAsWritten();
    AssembledYields(Level0(selection), reg, L0Cols, L0Fields, []);
    YieldsNothingMore(GaiaQueryText(Level0(selection), reg).value, L0Fields);
  }

  /** Level 0: the fields of `l0cols` and no others; the selection and the source are plain. */
  lemma Level0Yields(randomIndex: int, reg: Registry)
    requires Tame(reg)
    ensures GaiaQueryText(Level0(InnermostSelection(randomIndex)), reg).Ok?
    ensures Yields(GaiaQueryText(Level0(InnermostSelection(randomIndex)), reg).value, L0Fields)
  {
    Level0ClausesPlain(randomIndex);
    Level0YieldsWith(InnermostSelection(randomIndex), reg);
  }

  /** The clauses of a middle level: the FROM clause around the query it wraps. */
  lemma MiddleClausesYield(cols: string, q: string)
    requires Yields(q, L0Fields)
    ensures Yields(Clauses(Middle(cols, q)), L0Fields)
  {
    L0FieldsNewlineFree();
    FromYields(q, L0Fields);
    InnerClauses(Middle(cols, q));
    var from := FromClause(Some(q), false, DefaultTab);
    assert from + "" == from;
  }

  /** A middle level: plain columns, so the fields are those of the query it wraps. */
  lemma MiddleYields(cols: string, q: string, reg: Registry)
    requires Tame(reg) && AsWritten(cols) && BraceFree(cols) && Yields(q, L0Fields)
    ensures GaiaQueryText(Middle(cols, q), reg).Ok?
    ensures Yields(GaiaQueryText(Middle(cols, q), reg).value, L0Fields)
  {
    YieldsPlain(cols);
    MiddleClausesYield(cols, q);
    AssembledYields(Middle(cols, q), reg, cols, [], L0Fields);
    assert [] + L0Fields == L0Fields;
  }

  lemma OuterOrderPlain()
    ensures BraceFree(OrderByClause(OuterOrder))
  {
    OrderByHeadPlain();
    assert BraceFree(OuterOrder) && BraceFree("\n");
    BraceFreeAppend("\n", OuterOrder);
    BraceFreeAppend(OrderByHead, "\n" + OuterOrder);
    assert OrderByClause(OuterOrder) == OrderByHead + ("\n" + OuterOrder);
  }

  /** Four texts, the second and fourth plain. */
  lemma YieldsPlainBetween(a: string, fa: seq<Token>, b: string, c: string, fc: seq<Token>, d: string)
    requires Yields(a, fa) && BraceFree(b) && Yields(c, fc) && BraceFree(d)
    ensures Yields(a + b + c + d, fa + fc)
  {
    YieldsPlain(b);
    YieldsPlain(d);
    YieldsFour(a, fa, b, [], c, fc, d, []);
    assert fa + [] + fc + [] == fa + fc;
  }

  /** The tail of the outermost level: its FROM clause, the join, the section's box and the sort. */
  lemma OuterClausesYield(q: string, l3userasdict: Option<Kwargs>)
    requires Yields(q, L0Fields)
    ensures Yields(Clauses(Outer(q, l3userasdict)), StreamFields)
  {
    L0FieldsNewlineFree();
    FromYields(q, L0Fields);
    JoinClausePlain();
    L3SelYields();
    WhereYields(L3Sel, L3Fields);
    OuterOrderPlain();
    YieldsPlainBetween(FromClause(Some(q), false, DefaultTab), L0Fields, JoinClause,
                       WhereClause(L3Sel), L3Fields, OrderByClause(OuterOrder));
  }

  /** The outermost level before its format pass holds the fields of `l0cols`, then those of `l3sel`. */
  lemma OuterYields(q: string, l3userasdict: Option<Kwargs>, reg: Registry)
    requires Tame(reg) && Yields(q, L0Fields)
    ensures Assembled(Outer(q, l3userasdict), reg).Ok?
    ensures Yields(Assembled(Outer(q, l3userasdict), reg).value, StreamFields)
  {
    L3ColsPlain();
    L3ColsAsWritten();
    YieldsPlain(L3Cols);
    OuterClausesYield(q, l3userasdict);
    AssembledYields(Outer(q, l3userasdict), reg, L3Cols, [], StreamFields);
    assert [] + StreamFields == StreamFields;
  }

  // ---------------------------------------------------------------------------
  // the stream query as a whole

  /** The three inner levels and the outermost one before its format pass, on a tame registry. */
  lemma StreamAssembledYields(l3userasdict: Option<Kwargs>, randomIndex: int, reg: Registry)
    returns (q0: string, q1: string, q2: string, q: string)
    requires Tame(reg)
    ensures GaiaQueryText(Level0(InnermostSelection(randomIndex)), reg) == Ok(q0)
    ensures GaiaQueryText(Middle(L1Cols, q0), reg) == Ok(q1)
    ensures GaiaQueryText(Middle(L2Cols, q1), reg) == Ok(q2)
    ensures Assembled(Outer(q2, l3userasdict), reg) == Ok(q)
    ensures Yields(q, StreamFields)
  {
    L1ColsPlain();
    L1ColsAsWritten();
    L2ColsPlain();
    L2ColsAsWritten();
    Level0Yields(randomIndex, reg);
    q0 := GaiaQueryText(Level0(InnermostSelection(randomIndex)), reg).value;
    MiddleYields(L1Cols, q0, reg);
    q1 := GaiaQueryText(Middle(L1Cols, q0), reg).value;
    MiddleYields(L2Cols, q1, reg);
    q2 := GaiaQueryText(Middle(L2Cols, q1), reg).value;
    OuterYields(q2, l3userasdict, reg);
    q := Assembled(Outer(q2, l3userasdict), reg).value;
  }

  /** The outermost query before its format pass, and what the whole call returns from it. */
  lemma StreamStages(l3userasdict: Option<Kwargs>, randomIndex: int, raw: RawDefaults) returns (q: string)
    requires Tame(Normalise(raw))
    ensures Yields(q, StreamFields)
    ensures StreamSectionText(l3userasdict, Some(randomIndex), raw) ==
            if l3userasdict.Some? then Resolve(q, l3userasdict.value) else Ok(q)
  {
    var q0, q1, q2;
    q0, q1, q2, q := StreamAssembledYields(l3userasdict, randomIndex, Normalise(raw));
    StreamSectionOf(l3userasdict, randomIndex, raw, q0, q1, q2);
    FinalPassOf(Outer(q2, l3userasdict), Normalise(raw), q);
  }

  /** The stream query is the outer call over the three inner texts. */
  lemma StreamSectionOf(l3userasdict: Option<Kwargs>, randomIndex: int, raw: RawDefaults,
                        q0: string, q1: string, q2: string)
    requires GaiaQueryText(Level0(InnermostSelection(randomIndex)), Normalise(raw)) == Ok(q0)
    requires GaiaQueryText(Middle(L1Cols, q0), Normalise(raw)) == Ok(q1)
    requires GaiaQueryText(Middle(L2Cols, q1), Normalise(raw)) == Ok(q2)
    ensures StreamSectionText(l3userasdict, Some(randomIndex), raw) == GaiaQueryText(Outer(q2, l3userasdict), Normalise(raw))
  {
  }

  /**
   * Without `l3userasdict` the query is built but never formatted: every placeholder of
   * `l0cols` and `l3sel` is still in it, in order.
   */
  lemma PlaceholdersSurvive(randomIndex: int, raw: RawDefaults)
    requires Tame(Normalise(raw))
    ensures StreamSectionText(None, Some(randomIndex), raw).Ok?
    ensures Yields(StreamSectionText(None, Some(randomIndex), raw).value, StreamFields)
  {
    var q := StreamStages(None, randomIndex, raw);
  }

  /** A text with known fields formats exactly when every one of them can be filled. */
  lemma YieldsFormatsIff(q: string, fs: seq<Token>, kw: Kwargs)
    requires Yields(q, fs)
    ensures Resolve(q, kw).Ok? <==> AcceptsAll(kw, fs)
  {
    ResolveOkIff(q, kw);
  }

  /**
   * With `l3userasdict` the single format pass succeeds exactly when the dictionary can
   * fill every field of `l0cols` and `l3sel`.
   */
  lemma StreamFormatsIff(kw: Kwargs, randomIndex: int, raw: RawDefaults)
    requires Tame(Normalise(raw))
    ensures StreamSectionText(Some(kw), Some(randomIndex), raw).Ok? <==> AcceptsAll(kw, StreamFields)
  {
    var q := StreamStages(Some(kw), randomIndex, raw);
    YieldsFormatsIff(q, StreamFields, kw);
  }

  /** The names the stream query needs as plain values: the matrix, two factors, the motion bounds. */
  const PlainNames: set<string> := {
    "K00", "K01", "K02", "K10", "K11", "K12", "K20", "K21", "K22",
    "sindecngp", "cosdecngp", "pm_phi1min", "pm_phi1max", "pm_phi2min", "pm_phi2max"}

  /** The names written with `:+`, which `format` accepts only for numbers. */
  const SignedNames: set<string> := {"mcosdecngp", "mrangp", "phi1min", "phi1max", "phi2min", "phi2max"}

  /** `kw` has every plain name, and a number for every signed one. */
  predicate Supplies(kw: Kwargs) {
    (forall k :: k in PlainNames ==> k in kw) &&
    (forall k :: k in SignedNames ==> k in kw && kw[k].Num?)
  }

  lemma AcceptsAllAppend(kw: Kwargs, a: seq<Token>, b: seq<Token>)
    ensures AcceptsAll(kw, a + b) <==> AcceptsAll(kw, a) && AcceptsAll(kw, b)
  {
    if AcceptsAll(kw, a) && AcceptsAll(kw, b) {
      forall i | 0 <= i < |a + b| ensures Accepts(kw, (a + b)[i]) {
        if i >= |a| {
          assert (a + b)[i] == b[i - |a|];
        }
      }
    }
    if AcceptsAll(kw, a + b) {
      forall i | 0 <= i < |a| ensures Accepts(kw, a[i]) {
        assert (a + b)[i] == a[i];
      }
      forall i | 0 <= i < |b| ensures Accepts(kw, b[i]) {
        assert (a + b)[|a| + i] == b[i];
      }
    }
  }

  /** What the fields of `l0cols` ask of the dictionary. */
  lemma AcceptsL0(kw: Kwargs)
    ensures AcceptsAll(kw, L0Fields) <==>
      "K00" in kw && "K01" in kw && "K02" in kw && "K10" in kw && "K11" in kw && "K12" in kw &&
      "K20" in kw && "K21" in kw && "K22" in kw && "sindecngp" in kw && "cosdecngp" in kw &&
      "mcosdecngp" in kw && kw["mcosdecngp"].Num? && "mrangp" in kw && kw["mrangp"].Num?
  {
    var r0 := RowFields("K00", "K01", "K02");
    var r1 := RowFields("K10", "K11", "K12");
    var r2 := RowFields("K20", "K21", "K22");
    AcceptsAllAppend(kw, r0, r1);
    AcceptsAllAppend(kw, r0 + r1, r2);
    AcceptsAllAppend(kw, r0 + r1 + r2, C1Fields);
    AcceptsAllAppend(kw, r0 + r1 + r2 + C1Fields, C2Fields);
    assert AcceptsAll(kw, r0) <==> Accepts(kw, r0[0]) && Accepts(kw, r0[1]) && Accepts(kw, r0[2]);
    assert AcceptsAll(kw, r1) <==> Accepts(kw, r1[0]) && Accepts(kw, r1[1]) && Accepts(kw, r1[2]);
    assert AcceptsAll(kw, r2) <==> Accepts(kw, r2[0]) && Accepts(kw, r2[1]) && Accepts(kw, r2[2]);
    assert AcceptsAll(kw, C1Fields) <==> Accepts(kw, C1Fields[0]) && Accepts(kw, C1Fields[1]) && Accepts(kw, C1Fields[2]);
    assert AcceptsAll(kw, C2Fields) <==> Accepts(kw, C2Fields[0]) && Accepts(kw, C2Fields[1]);
  }

  /** What the fields of `l3sel` ask of the dictionary, the commented-out bounds included. */
  lemma AcceptsL3(kw: Kwargs)
    ensures AcceptsAll(kw, L3Fields) <==>
      "phi1min" in kw && kw["phi1min"].Num? && "phi1max" in kw && kw["phi1max"].Num? &&
      "phi2min" in kw && kw["phi2min"].Num? && "phi2max" in kw && kw["phi2max"].Num? &&
      "pm_phi1min" in kw && "pm_phi1max" in kw && "pm_phi2min" in kw && "pm_phi2max" in kw
  {
    AcceptsAllAppend(kw, BoxFields, MotionFields);
    assert AcceptsAll(kw, BoxFields) <==>
      Accepts(kw, BoxFields[0]) && Accepts(kw, BoxFields[1]) && Accepts(kw, BoxFields[2]) && Accepts(kw, BoxFields[3]);
    assert AcceptsAll(kw, MotionFields) <==>
      Accepts(kw, MotionFields[0]) && Accepts(kw, MotionFields[1]) && Accepts(kw, MotionFields[2]) && Accepts(kw, MotionFields[3]);
  }

  /** The fields of the stream query can all be filled exactly when the dictionary supplies its names. */
  lemma AcceptsStreamFields(kw: Kwargs)
    ensures AcceptsAll(kw, StreamFields) <==> Supplies(kw)
  {
    AcceptsAllAppend(kw, L0Fields, L3Fields);
    AcceptsL0(kw);
    AcceptsL3(kw);
  }

  /**
   * The stream query formats exactly when `l3userasdict` has every plain name, and a
   * number (not a string) for every name written with a sign.
   */
  lemma StreamFormatsIffSupplies(kw: Kwargs, randomIndex: int, raw: RawDefaults)
    requires Tame(Normalise(raw))
    ensures StreamSectionText(Some(kw), Some(randomIndex), raw).Ok? <==> Supplies(kw)
  {
    StreamFormatsIff(kw, randomIndex, raw);
    AcceptsStreamFields(kw);
  }

  // ---------------------------------------------------------------------------
  // nesting

  /** `t` occurs in `s` as a contiguous piece. */
  predicate Occurs(t: string, s: string) {
    exists i, j :: 0 <= i <= j <= |s| && s[i..j] == t
  }

  lemma OccursBetween(p: string, t: string, s: string)
    ensures Occurs(t, p + t + s)
  {
    assert (p + t + s)[|p|..|p| + |t|] == t;
  }

  /** Indenting a text whose middle lines are an indented query indents that query once more. */
  lemma Deeper(p: string, inner: string, s: string, u: string, t: string)
    requires NewlineFree(t) && NewlineFree(u)
    ensures Indent(p + "\n" + Indent(inner, u) + "\n" + s, t) ==
            Indent(p, t) + "\n" + Indent(inner, t + u) + "\n" + Indent(s, t)
  {
    var m := Indent(inner, u);
    IndentAroundNewline(p + "\n" + m, s, t);
    IndentAroundNewline(p, m, t);
    IndentTwice(inner, u, t);
  }

  /** A FROM clause around an inner query puts that query, indented, on lines of its own. */
  lemma FromFramed(sel: string, q: string, rest: string) returns (p: string, s: string)
    ensures sel + FromClause(Some(q), false, DefaultTab) + rest == p + "\n" + Indent(q, DefaultTab) + "\n" + s
  {
    var i := Indent(q, DefaultTab);
    p := sel + FromHead + "(";
    s := ")" + FromTail + rest;
    assert FromClause(Some(q), false, DefaultTab) == FromHead + "(\n" + i + "\n)" + FromTail;
    assert "(\n" == "(" + "\n" && "\n)" == "\n" + ")";
    calc {
      sel + FromClause(Some(q), false, DefaultTab) + rest;
      sel + (FromHead + ("(" + "\n") + i + ("\n" + ")") + FromTail) + rest;
      (sel + FromHead + "(") + "\n" + i + "\n" + (")" + FromTail + rest);
    }
  }

  /** A middle level's query holds the query it wraps on lines of its own, indented once. */
  lemma MiddleFramed(cols: string, q: string, reg: Registry) returns (p: string, s: string)
    requires GaiaQueryText(Middle(cols, q), reg).Ok?
    ensures GaiaQueryText(Middle(cols, q), reg).value == p + "\n" + Indent(q, DefaultTab) + "\n" + s
  {
    var sel := SelectText(Text(cols), false, false, true, false, None, reg).value;
    InnerClauses(Middle(cols, q));
    var from := FromClause(Some(q), false, DefaultTab);
    assert from + "" == from;
    assert GaiaQueryText(Middle(cols, q), reg).value == sel + from + "";
    p, s := FromFramed(sel, q, "");
  }

  /** The outermost level holds the query it wraps on lines of its own, indented once. */
  lemma OuterFramed(q: string, l3userasdict: Option<Kwargs>, reg: Registry) returns (p: string, s: string)
    requires Assembled(Outer(q, l3userasdict), reg).Ok?
    ensures Assembled(Outer(q, l3userasdict), reg).value == p + "\n" + Indent(q, DefaultTab) + "\n" + s
  {
    var sel := SelectText(Text(L3Cols), true, false, true, true, None, reg).value;
    var from := FromClause(Some(q), false, DefaultTab);
    var rest := JoinClause + WhereClause(L3Sel) + OrderByClause(OuterOrder);
    var j, w, o := JoinClause, WhereClause(L3Sel), OrderByClause(OuterOrder);
    assert Clauses(Outer(q, l3userasdict)) == from + j + w + o;
    AppendAssoc(from, j, w);
    AppendAssoc(from, j + w, o);
    AppendAssoc(sel, from, j + w + o);
    p, s := FromFramed(sel, q, rest);
  }

  lemma Regroup(a: string, x: string, m: string, y: string, b: string)
    ensures a + "\n" + (x + "\n" + m + "\n" + y) + "\n" + b == (a + "\n" + x) + "\n" + m + "\n" + (y + "\n" + b)
  {
  }

  /** One more level of nesting around a query framed in the middle text. */
  lemma NestStep(outer: string, a: string, b: string, mid: string, p: string, s: string,
                 inner: string, u: string, t: string)
    requires NewlineFree(t) && NewlineFree(u)
    requires outer == a + "\n" + Indent(mid, t) + "\n" + b
    requires mid == p + "\n" + Indent(inner, u) + "\n" + s
    ensures outer == (a + "\n" + Indent(p, t)) + "\n" + Indent(inner, t + u) + "\n" + (Indent(s, t) + "\n" + b)
  {
    Deeper(p, inner, s, u, t);
    Regroup(a, Indent(p, t), Indent(inner, t + u), Indent(s, t), b);
  }

  lemma RepeatThree(tab: string)
    ensures Repeat(tab, 3) == tab + (tab + tab)
  {
    assert Repeat(tab, 1) == tab + "";
    assert tab + "" == tab;
  }

  /** Three framings, one inside the other, put the innermost text three units deep. */
  lemma ThreeFramings(q0: string, q1: string, q2: string, q3: string, p1: string, s1: string,
                      p2: string, s2: string, p3: string, s3: string, t: string)
    requires NewlineFree(t)
    requires q1 == p1 + "\n" + Indent(q0, t) + "\n" + s1
    requires q2 == p2 + "\n" + Indent(q1, t) + "\n" + s2
    requires q3 == p3 + "\n" + Indent(q2, t) + "\n" + s3
    ensures Occurs(Indent(q0, Repeat(t, 3)), q3)
  {
    NestStep(q2, p2, s2, q1, p1, s1, q0, t, t);
    var a2 := p2 + "\n" + Indent(p1, t);
    var b2 := Indent(s1, t) + "\n" + s2;
    assert forall c :: c in t + t ==> c in t;
    NestStep(q3, p3, s3, q2, a2, b2, q0, t + t, t);
    var a3 := p3 + "\n" + Indent(a2, t);
    var b3 := Indent(b2, t) + "\n" + s3;
    RepeatThree(t);
    OccursBetween(a3 + "\n", Indent(q0, Repeat(t, 3)), "\n" + b3);
    assert a3 + "\n" + Indent(q0, Repeat(t, 3)) + ("\n" + b3) == q3;
  }

  /**
   * Nesting accumulates indentation: the innermost query sits in the outermost one at
   * tab level three, on lines of its own.
   */
  lemma InnermostThreeDeep(l3userasdict: Option<Kwargs>, randomIndex: int, reg: Registry)
    requires Tame(reg)
    ensures var q0 := GaiaQueryText(Level0(InnermostSelection(randomIndex)), reg);
            q0.Ok? &&
            var q1 := GaiaQueryText(Middle(L1Cols, q0.value), reg);
            q1.Ok? &&
            var q2 := GaiaQueryText(Middle(L2Cols, q1.value), reg);
            q2.Ok? &&
            Assembled(Outer(q2.value, l3userasdict), reg).Ok? &&
            Occurs(QueryTabLevel(q0.value, 3, DefaultTab), Assembled(Outer(q2.value, l3userasdict), reg).value)
  {
    var q0, q1, q2, q3 := StreamAssembledYields(l3userasdict, randomIndex, reg);
    DefaultTabPlain();
    var p1, s1 := MiddleFramed(L1Cols, q0, reg);
    var p2, s2 := MiddleFramed(L2Cols, q1, reg);
    var p3, s3 := OuterFramed(q2, l3userasdict, reg);
    ThreeFramings(q0, q1, q2, q3, p1, s1, p2, s2, p3, s3, DefaultTab);
  }

  /**
   * Without `l3userasdict` there is no final pass, so the innermost query sits three
   * units deep in the text `make_streamsection_query` returns.
   */
  lemma InnermostThreeDeepResult(randomIndex: int, raw: RawDefaults)
    requires Tame(Normalise(raw))
    ensures var q0 := GaiaQueryText(Level0(InnermostSelection(randomIndex)), Normalise(raw));
            var r := StreamSectionText(None, Some(randomIndex), raw);
            q0.Ok? && r.Ok? && Occurs(QueryTabLevel(q0.value, 3, DefaultTab), r.value)
  {
    var reg := Normalise(raw);
    var q0, q1, q2, q := StreamAssembledYields(None, randomIndex, reg);
    DefaultTabPlain();
    var p1, s1 := MiddleFramed(L1Cols, q0, reg);
    var p2, s2 := MiddleFramed(L2Cols, q1, reg);
    var p3, s3 := OuterFramed(q2, None, reg);
    ThreeFramings(q0, q1, q2, q, p1, s1, p2, s2, p3, s3, DefaultTab);
    StreamSectionOf(None, randomIndex, raw, q0, q1, q2);
    FinalPassOf(Outer(q2, None), reg, q);
  }
}
