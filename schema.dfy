/**
  The interface meta-model: an asset standard declared as one immutable
  value, with the structural invariants every such schema must keep.
 */
module Schema {
  import opened Wrappers
  import opened Multiplicity

  /** Field, operation and valency names. */
  type FieldName = string

  /** A reference to a semantic type of the type registry, kept as its name. */
  type TypeName = string

  /** Error codes are `u8` values. */
  newtype ErrorCode = x: int | 0 <= x < 0x100

  datatype VerNo = V1

  /** Visibility of an assignment; an opaque tag in this model. */
  datatype Visibility = Public | Private

  /** Kinds of owned state used by the interfaces modelled here. */
  datatype OwnedIface = Amount | Rights

  /** A global-state field: its declared type and how many values it holds. */
  datatype GlobalIface = GlobalIface(semType: TypeName, req: Req)

  /** An assignment field: visibility, kind of owned state and multiplicity. */
  datatype AssignIface = AssignIface(visibility: Visibility, ownedState: OwnedIface, req: Req)

  /** A named error variant: its numeric tag and its symbolic name. */
  datatype Variant = Variant(code: ErrorCode, name: string)

  datatype GenesisIface = GenesisIface(
    metadata: Option<TypeName>,
    globals: map<FieldName, Occurrences>,
    assignments: map<FieldName, Occurrences>,
    valencies: set<FieldName>,
    errors: set<ErrorCode>)

  datatype TransitionIface = TransitionIface(
    optional: bool,
    metadata: Option<TypeName>,
    globals: map<FieldName, Occurrences>,
    inputs: map<FieldName, Occurrences>,
    assignments: map<FieldName, Occurrences>,
    valencies: set<FieldName>,
    errors: set<ErrorCode>,
    defaultAssignment: Option<FieldName>)

  /** An interface. Extension operations are kept by name only. */
  datatype Iface = Iface(
    version: VerNo,
    name: string,
    globalState: map<FieldName, GlobalIface>,
    assignments: map<FieldName, AssignIface>,
    valencies: set<FieldName>,
    genesis: GenesisIface,
    transitions: map<FieldName, TransitionIface>,
    extensions: set<FieldName>,
    errors: map<Variant, string>,
    defaultOperation: Option<FieldName>)

  /** The codes of the variants of an error map. */
  function Codes(errors: map<Variant, string>): set<ErrorCode> {
    set v | v in errors :: v.code
  }

  /** Every error code that genesis or a transition may raise is declared. */
  predicate ErrorsClosed(i: Iface) {
    && i.genesis.errors <= Codes(i.errors)
    && forall t :: t in i.transitions ==> i.transitions[t].errors <= Codes(i.errors)
  }

  /** Every field a transition names is declared by the interface, and its
      default assignment is one it produces. */
  predicate TransitionClosed(i: Iface, t: TransitionIface) {
    && t.globals.Keys <= i.globalState.Keys
    && t.inputs.Keys <= i.assignments.Keys
    && t.assignments.Keys <= i.assignments.Keys
    && t.valencies <= i.valencies
    && (t.defaultAssignment.Some? ==> t.defaultAssignment.value in t.assignments)
  }

  /** Every field genesis or a transition names is declared by the interface. */
  predicate FieldsClosed(i: Iface) {
    && i.genesis.globals.Keys <= i.globalState.Keys
    && i.genesis.assignments.Keys <= i.assignments.Keys
    && i.genesis.valencies <= i.valencies
    && forall t :: t in i.transitions ==> TransitionClosed(i, i.transitions[t])
  }

  /** No two error variants share a code, and no two share a name. */
  predicate VariantsUnique(i: Iface) {
    && (forall v, w :: v in i.errors && w in i.errors && v.code == w.code ==> v == w)
    && (forall v, w :: v in i.errors && w in i.errors && v.name == w.name ==> v == w)
  }

  /** The default operation, when there is one, is a declared transition. */
  predicate DefaultOperationResolves(i: Iface) {
    i.defaultOperation.Some? ==> i.defaultOperation.value in i.transitions
  }

  /** Genesis issues every required global and assignment, and never more or
      fewer values of a field than the interface admits. */
  predicate GenesisAgrees(i: Iface) {
    && (forall f :: f in i.genesis.globals ==>
          f in i.globalState && i.genesis.globals[f].Bounds().Within(i.globalState[f].req.Bounds()))
    && (forall f :: f in i.genesis.assignments ==>
          f in i.assignments && i.genesis.assignments[f].Bounds().Within(i.assignments[f].req.Bounds()))
    && (forall f :: f in i.globalState && i.globalState[f].req.IsRequired() ==> f in i.genesis.globals)
    && (forall f :: f in i.assignments && i.assignments[f].req.IsRequired() ==> f in i.genesis.assignments)
  }

  /** The structural invariants of a schema. */
  predicate WellFormed(i: Iface) {
    && ErrorsClosed(i)
    && FieldsClosed(i)
    && VariantsUnique(i)
    && DefaultOperationResolves(i)
    && GenesisAgrees(i)
  }
}
