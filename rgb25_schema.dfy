/** The RGB25 interface (a collectible fungible asset) as a schema value. */
module Rgb25Schema {
  import opened Wrappers
  import opened Multiplicity
  import opened Schema

  const LibNameRgb25 := "RGB25"

  const SupplyMismatch: ErrorCode := 1
  const NonEqualAmounts: ErrorCode := 2
  const InvalidProof: ErrorCode := 3
  const InsufficientReserves: ErrorCode := 4
  const InsufficientCoverage: ErrorCode := 5

  // Descriptions of the error variants; no property depends on their text.
  const SupplyMismatchText: string := "supply specified as a global parameter doesn't match the issued supply allocated to the asset owners"
  const NonEqualAmountsText: string := "the sum of spent assets doesn't equal to the sum of assets in outputs"
  const InvalidProofText: string := "the provided proof is invalid"
  const InsufficientReservesText: string := "reserve is insufficient to cover the issued assets"
  const InsufficientCoverageText: string := "the claimed amount of burned assets is not covered by the assets in the operation inputs"

  /** The global-state fields with their types and requirements. */
  function GlobalState(): map<FieldName, GlobalIface> {
    map[
      "name" := GlobalIface("RGBContract.Name", Req.Required),
      "details" := GlobalIface("RGBContract.Details", Req.Optional),
      "precision" := GlobalIface("RGBContract.Precision", Req.Required),
      "terms" := GlobalIface("RGBContract.AssetTerms", Req.Required),
      "issuedSupply" := GlobalIface("RGBContract.Amount", Req.Required),
      "burnedSupply" := GlobalIface("RGBContract.Amount", Req.NoneOrMore)]
  }

  /** The assignment fields: the owned amount and the burn right. */
  function Assignments(): map<FieldName, AssignIface> {
    map[
      "assetOwner" := AssignIface(Private, OwnedIface.Amount, Req.OneOrMore),
      "burnRight" := AssignIface(Public, Rights, Req.NoneOrMore)]
  }

  /** Issuance: the globals and assignments it sets and the codes it may raise. */
  function Genesis(): GenesisIface {
    GenesisIface(
      metadata := Some("RGBContract.IssueMeta"),
      globals := map[
        "name" := Once,
        "details" := NoneOrOnce,
        "precision" := Once,
        "terms" := Once,
        "issuedSupply" := Once],
      assignments := map["assetOwner" := OnceOrMore],
      valencies := {},
      errors := {SupplyMismatch, InvalidProof, InsufficientReserves})
  }

  /** The mandatory transfer of owned amounts. */
  function Transfer(): TransitionIface {
    TransitionIface(
      optional := false,
      metadata := None,
      globals := map[],
      inputs := map["assetOwner" := OnceOrMore],
      assignments := map["assetOwner" := OnceOrMore],
      valencies := {},
      errors := {NonEqualAmounts},
      defaultAssignment := Some("assetOwner"))
  }

  /** The optional burn, recording the burned supply. */
  function Burn(): TransitionIface {
    TransitionIface(
      optional := true,
      metadata := Some("RGBContract.BurnMeta"),
      globals := map["burnedSupply" := Once],
      inputs := map["burnRight" := Once],
      assignments := map["burnRight" := NoneOrOnce],
      valencies := {},
      errors := {SupplyMismatch, InvalidProof, InsufficientCoverage},
      defaultAssignment := None)
  }

  /** The error variants with their descriptions. */
  function Errors(): map<Variant, string> {
    map[
      Variant(SupplyMismatch, "supplyMismatch") := SupplyMismatchText,
      Variant(NonEqualAmounts, "nonEqualAmounts") := NonEqualAmountsText,
      Variant(InvalidProof, "invalidProof") := InvalidProofText,
      Variant(InsufficientReserves, "insufficientReserves") := InsufficientReservesText,
      Variant(InsufficientCoverage, "insufficientCoverage") := InsufficientCoverageText]
  }

  /** The RGB25 interface. */
  function Rgb25(): Iface {
    Iface(
      version := V1,
      name := LibNameRgb25,
      globalState := GlobalState(),
      assignments := Assignments(),
      valencies := {},
      genesis := Genesis(),
      transitions := map["transfer" := Transfer(), "burn" := Burn()],
      extensions := {},
      errors := Errors(),
      defaultOperation := Some("transfer"))
  }

  /** The keys of the RGB25 field maps, spelled out. */
  lemma FieldKeys()
    ensures Rgb25().globalState.Keys == {"name", "details", "precision", "terms", "issuedSupply", "burnedSupply"}
    ensures Rgb25().assignments.Keys == {"assetOwner", "burnRight"}
    ensures Rgb25().genesis.globals.Keys == {"name", "details", "precision", "terms", "issuedSupply"}
    ensures Rgb25().genesis.assignments.Keys == {"assetOwner"}
    ensures Rgb25().transitions.Keys == {"transfer", "burn"}
  {
  }

  /** The keys of the RGB25 error map, spelled out. */
  lemma ErrorKeys()
    ensures Rgb25().errors.Keys == {
      Variant(SupplyMismatch, "supplyMismatch"), Variant(NonEqualAmounts, "nonEqualAmounts"),
      Variant(InvalidProof, "invalidProof"), Variant(InsufficientReserves, "insufficientReserves"),
      Variant(InsufficientCoverage, "insufficientCoverage")}
  {
  }

  /** The error map declares exactly the codes 1 to 5. */
  lemma Rgb25ErrorCodes()
    ensures Codes(Rgb25().errors) == {1, 2, 3, 4, 5}
  {
    ErrorKeys();
    var codes := Codes(Rgb25().errors);
    assert {1, 2, 3, 4, 5} <= codes;
    forall c | c in codes ensures 1 <= c <= 5 {
      var v :| v in Rgb25().errors && v.code == c;
    }
  }

  /** The codes genesis and the two transitions may raise. */
  lemma Rgb25OperationErrors()
    ensures Rgb25().genesis.errors == {SupplyMismatch, InvalidProof, InsufficientReserves}
    ensures Rgb25().transitions["transfer"].errors == {NonEqualAmounts}
    ensures Rgb25().transitions["burn"].errors == {SupplyMismatch, InvalidProof, InsufficientCoverage}
  {
  }

  /** Error closure: every code genesis or a transition may raise is declared. */
  lemma Rgb25ErrorsClosed()
    ensures ErrorsClosed(Rgb25())
  {
    Rgb25ErrorCodes();
    Rgb25OperationErrors();
    FieldKeys();
  }

  /** Field closure: every field genesis and the transitions name is declared,
      and the default assignment of `transfer` is one it produces. */
  lemma Rgb25FieldsClosed()
    ensures FieldsClosed(Rgb25())
  {
  }

  /** No two error variants share a code or a name. */
  lemma Rgb25VariantsUnique()
    ensures VariantsUnique(Rgb25())
  {
    var e := Rgb25().errors;
    ErrorKeys();
    assert "insufficientReserves"[12] != "insufficientCoverage"[12];
    forall v, w | v in e && w in e && v.code == w.code ensures v == w { }
    forall v, w | v in e && w in e && v.name == w.name ensures v == w { }
  }

  /** The default operation is `transfer`, the one transition every
      implementation must support; `burn` is optional. */
  lemma Rgb25DefaultOperation()
    ensures DefaultOperationResolves(Rgb25())
    ensures Rgb25().defaultOperation == Some("transfer")
    ensures !Rgb25().transitions["transfer"].optional
    ensures Rgb25().transitions["burn"].optional
    ensures Rgb25().transitions["transfer"].defaultAssignment == Some("assetOwner")
    ensures "assetOwner" in Rgb25().assignments
  {
  }

  /** Genesis issues each global as its requirement says: a required global
      exactly once, the optional one at most once, and the none-or-many
      global not at all. */
  lemma Rgb25GenesisMultiplicities()
    ensures forall f :: f in Rgb25().globalState && Rgb25().globalState[f].req == Req.Required ==>
      f in Rgb25().genesis.globals && Rgb25().genesis.globals[f] == Once
    ensures forall f :: f in Rgb25().globalState && Rgb25().globalState[f].req == Req.Optional ==>
      f in Rgb25().genesis.globals && Rgb25().genesis.globals[f] == NoneOrOnce
    ensures forall f :: f in Rgb25().globalState && Rgb25().globalState[f].req == Req.NoneOrMore ==>
      f !in Rgb25().genesis.globals
    ensures Rgb25().genesis.globals["details"] == NoneOrOnce
    ensures "burnedSupply" !in Rgb25().genesis.globals
  {
  }

  /** Genesis agrees with the requirements of the globals and assignments. */
  lemma Rgb25GenesisAgrees()
    ensures GenesisAgrees(Rgb25())
  {
    var i := Rgb25();
    FieldKeys();
    forall f | f in i.genesis.globals
      ensures f in i.globalState && i.genesis.globals[f].Bounds().Within(i.globalState[f].req.Bounds())
    { }
    forall f | f in i.genesis.assignments
      ensures f in i.assignments && i.genesis.assignments[f].Bounds().Within(i.assignments[f].req.Bounds())
    { }
    forall f | f in i.globalState && i.globalState[f].req.IsRequired() ensures f in i.genesis.globals { }
    forall f | f in i.assignments && i.assignments[f].req.IsRequired() ensures f in i.genesis.assignments { }
  }

  /** The RGB25 interface keeps every structural invariant of a schema. */
  lemma Rgb25WellFormed()
    ensures WellFormed(Rgb25())
  {
    Rgb25ErrorsClosed();
    Rgb25FieldsClosed();
    Rgb25VariantsUnique();
    Rgb25DefaultOperation();
    Rgb25GenesisAgrees();
  }
}
