/**
  The typed RGB25 wrapper over a contract's global state.

  The contract state is a map from global field names to the ordered lists
  of values bound to them. A name the contract's interface does not declare
  has no entry. Decoding a raw value into a domain type is a parameter of
  each accessor. Where the wrapped code panics, the model returns `Failure`
  with the reason.
 */
module Rgb25Wrapper {
  import opened Wrappers
  import opened Multiplicity
  import opened Schema
  import opened Supply
  import Rgb25Schema

  /** An interface id: 32 bytes. */
  type IfaceId = b: seq<bv8> | |b| == 32 witness seq(32, _ => 0)

  /** The pinned id of the RGB25 interface. */
  const Rgb25IfaceId: IfaceId := [
    0x5d, 0x36, 0x8e, 0x75, 0xa8, 0x2e, 0x15, 0x81, 0x3c, 0x12, 0x39, 0x6b, 0x0e, 0x2b, 0xc0,
    0x8b, 0xe9, 0x66, 0x82, 0x3f, 0x9e, 0x10, 0x18, 0x8d, 0xf1, 0xd6, 0xfb, 0x24, 0x9b, 0x28,
    0x28, 0xa5]

  const Rgb25IfaceName := Rgb25Schema.LibNameRgb25

  /** A contract seen through an interface: the id it carries and its global state. */
  datatype ContractIface<V> = ContractIface(ifaceId: IfaceId, globals: map<FieldName, seq<V>>)

  /** Why an operation of the wrapper fails (a panic in the wrapped code). */
  datatype Fault =
    | BindingMismatch               // the contract is not bound to the RGB25 interface
    | GlobalUnknown(field: FieldName) // the interface declares no such global
    | EmptyGlobal(field: FieldName)   // the global has no value to read

  /** The RGB25 wrapper around a contract. */
  datatype Rgb25<V> = Rgb25(contract: ContractIface<V>)

  /** Binds a contract to the wrapper; succeeds iff the contract carries the RGB25 id. */
  function From<V>(c: ContractIface<V>): (r: Result<Rgb25<V>, Fault>)
    ensures r.Success? <==> c.ifaceId == Rgb25IfaceId
    ensures r.Success? ==> r.value.contract == c
    ensures r.Failure? ==> r.error == BindingMismatch
  {
    if c.ifaceId != Rgb25IfaceId then Failure(BindingMismatch) else Success(Rgb25(c))
  }

  /** The first value of a global, as `global(field).expect(..)[0]` reads it. */
  function First<V>(c: ContractIface<V>, field: FieldName): Result<V, Fault> {
    if field !in c.globals then Failure(GlobalUnknown(field))
    else if |c.globals[field]| == 0 then Failure(EmptyGlobal(field))
    else Success(c.globals[field][0])
  }

  /** A required singleton global: succeeds iff the global is declared and
      holds a value, and then yields its first value decoded. */
  function Singleton<V, T>(w: Rgb25<V>, field: FieldName, decode: V -> T): (r: Result<T, Fault>)
    ensures r.Success? <==> field in w.contract.globals && |w.contract.globals[field]| > 0
    ensures r.Success? ==> r.value == decode(w.contract.globals[field][0])
    ensures field !in w.contract.globals ==> r == Failure(GlobalUnknown(field))
    ensures field in w.contract.globals && |w.contract.globals[field]| == 0 ==> r == Failure(EmptyGlobal(field))
  {
    match First(w.contract, field)
    case Success(v) => Success(decode(v))
    case Failure(e) => Failure(e)
  }

  /** The contract name. */
  function Name<V, N>(w: Rgb25<V>, decode: V -> N): Result<N, Fault> {
    Singleton(w, "name", decode)
  }

  /** The contract details: absent when `details` has no value, else its first value. */
  function Details<V, D>(w: Rgb25<V>, decode: V -> D): (r: Result<Option<D>, Fault>)
    ensures r.Success? <==> "details" in w.contract.globals
    ensures r.Success? ==> (r.value.None? <==> |w.contract.globals["details"]| == 0)
    ensures r.Success? && r.value.Some? ==> r.value.value == decode(w.contract.globals["details"][0])
    ensures r.Failure? ==> r.error == GlobalUnknown("details")
  {
    if "details" !in w.contract.globals then Failure(GlobalUnknown("details"))
    else
      var values := w.contract.globals["details"];
      if |values| == 0 then Success(None) else Success(Some(decode(values[0])))
  }

  /** The precision. */
  function Precision<V, P>(w: Rgb25<V>, decode: V -> P): Result<P, Fault> {
    Singleton(w, "precision", decode)
  }

  /** The total issued supply: the sum over `issuedSupply`, which must be declared. */
  function TotalIssuedSupply<V>(w: Rgb25<V>, amount: V -> nat): (r: Result<nat, Fault>)
    ensures r.Success? <==> "issuedSupply" in w.contract.globals
    ensures r.Success? ==> r.value == Sum(w.contract.globals["issuedSupply"], amount)
    ensures r.Failure? ==> r.error == GlobalUnknown("issuedSupply")
  {
    if "issuedSupply" !in w.contract.globals then Failure(GlobalUnknown("issuedSupply"))
    else Success(Sum(w.contract.globals["issuedSupply"], amount))
  }

  /** The values of a global, or none when the global is not declared. */
  function GlobalOrEmpty<V>(c: ContractIface<V>, field: FieldName): seq<V> {
    if field in c.globals then c.globals[field] else []
  }

  /** The total burned supply: the sum over `burnedSupply`; never fails. */
  function TotalBurnedSupply<V>(w: Rgb25<V>, amount: V -> nat): (r: nat)
    ensures "burnedSupply" !in w.contract.globals ==> r == 0
    ensures "burnedSupply" in w.contract.globals ==> r == Sum(w.contract.globals["burnedSupply"], amount)
  {
    Sum(GlobalOrEmpty(w.contract, "burnedSupply"), amount)
  }

  /** The contract terms as the wrapper reads them: from a global named `data`. */
  function ContractData<V, T>(w: Rgb25<V>, decode: V -> T): Result<T, Fault> {
    Singleton(w, "data", decode)
  }

  /** The contract terms read from the `terms` global the interface declares. */
  function ContractTerms<V, T>(w: Rgb25<V>, decode: V -> T): Result<T, Fault> {
    Singleton(w, "terms", decode)
  }

  /** A contract validated against an interface: it has an entry exactly for
      each declared global, and each entry holds as many values as the
      global's requirement admits. */
  predicate Conforms<V>(c: ContractIface<V>, i: Iface) {
    && c.globals.Keys == i.globalState.Keys
    && forall f :: f in c.globals && f in i.globalState ==>
         i.globalState[f].req.Bounds().Contains(|c.globals[f]|)
  }

  /** On a contract that conforms to RGB25, `name` and `precision` hold one
      value each, and the two accessors return it decoded. */
  lemma RequiredSingletonsResolve<V, N, P>(w: Rgb25<V>, decodeName: V -> N, decodePrecision: V -> P)
    requires Conforms(w.contract, Rgb25Schema.Rgb25())
    ensures "name" in w.contract.globals && |w.contract.globals["name"]| == 1
    ensures Name(w, decodeName) == Success(decodeName(w.contract.globals["name"][0]))
    ensures "precision" in w.contract.globals && |w.contract.globals["precision"]| == 1
    ensures Precision(w, decodePrecision) == Success(decodePrecision(w.contract.globals["precision"][0]))
  {
  }

  /** On a contract that conforms to RGB25, `details` never fails, holds at
      most one value, and is absent exactly when it holds none. */
  lemma DetailsResolve<V, D>(w: Rgb25<V>, decode: V -> D)
    requires Conforms(w.contract, Rgb25Schema.Rgb25())
    ensures "details" in w.contract.globals && |w.contract.globals["details"]| <= 1
    ensures Details(w, decode).Success?
    ensures Details(w, decode).value.None? <==> w.contract.globals["details"] == []
  {
  }

  /** On a contract that conforms to RGB25, the issued supply is the amount
      of its single `issuedSupply` value. */
  lemma IssuedSupplyResolves<V>(w: Rgb25<V>, amount: V -> nat)
    requires Conforms(w.contract, Rgb25Schema.Rgb25())
    ensures "issuedSupply" in w.contract.globals && |w.contract.globals["issuedSupply"]| == 1
    ensures TotalIssuedSupply(w, amount) == Success(amount(w.contract.globals["issuedSupply"][0]))
  {
    var i := Rgb25Schema.Rgb25();
    assert "issuedSupply" in i.globalState && i.globalState["issuedSupply"].req == Req.Required;
    var values := w.contract.globals["issuedSupply"];
    assert values == [values[0]];
    SumSingleton(values[0], amount);
  }

  /** A contract without burned values, whether `burnedSupply` is missing or
      empty, has burned nothing. */
  lemma BurnedSupplyOfNothing<V>(w: Rgb25<V>, amount: V -> nat)
    requires "burnedSupply" !in w.contract.globals || w.contract.globals["burnedSupply"] == []
    ensures TotalBurnedSupply(w, amount) == 0
  {
  }

  /** Burning once more adds the burned amount to the total, whether or not
      `burnedSupply` had an entry before. */
  lemma BurnedSupplyGrows<V>(w: Rgb25<V>, x: V, amount: V -> nat)
    ensures var values := GlobalOrEmpty(w.contract, "burnedSupply");
      var burnt := Rgb25(w.contract.(globals := w.contract.globals["burnedSupply" := values + [x]]));
      TotalBurnedSupply(burnt, amount) == TotalBurnedSupply(w, amount) + amount(x)
  {
  }

  /** The burned supply does not depend on the order of the burned values. */
  lemma BurnedSupplyOrderFree<V>(w: Rgb25<V>, values: seq<V>, amount: V -> nat)
    requires "burnedSupply" in w.contract.globals
    requires multiset(values) == multiset(w.contract.globals["burnedSupply"])
    ensures var reordered := Rgb25(w.contract.(globals := w.contract.globals["burnedSupply" := values]));
      TotalBurnedSupply(reordered, amount) == TotalBurnedSupply(w, amount)
  {
    SumPermutation(values, w.contract.globals["burnedSupply"], amount);
  }

  /** Burned amounts 3 and 5 total 8. */
  lemma BurnedSupplySample(id: IfaceId)
    ensures var values: seq<nat> := [3, 5];
      TotalBurnedSupply(Rgb25(ContractIface(id, map["burnedSupply" := values])), (n: nat) => n) == 8
  {
    var values: seq<nat> := [3, 5];
    assert values[..1] == [3];
    SumSingleton<nat>(3, (n: nat) => n);
  }

  /** The wrapper reads `contract_data` from a global the RGB25 interface does
      not declare: on any contract whose globals are those RGB25 declares, it
      fails. */
  lemma ContractDataNeverResolves<V, T>(w: Rgb25<V>, decode: V -> T)
    requires w.contract.globals.Keys == Rgb25Schema.Rgb25().globalState.Keys
    ensures ContractData(w, decode) == Failure(GlobalUnknown("data"))
  {
  }

  /** Reading the declared `terms` global instead, a conforming contract
      yields its single terms value. */
  lemma ContractTermsResolve<V, T>(w: Rgb25<V>, decode: V -> T)
    requires Conforms(w.contract, Rgb25Schema.Rgb25())
    ensures "terms" in w.contract.globals && |w.contract.globals["terms"]| == 1
    ensures ContractTerms(w, decode) == Success(decode(w.contract.globals["terms"][0]))
  {
  }
}
