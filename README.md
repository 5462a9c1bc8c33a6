# RGB25 interface and typed wrapper

This project models the RGB25 interface of the RGB standard library. RGB25 is
a standard for collectible fungible assets. It has two parts.

- **The schema.** `rgb25()` builds a single immutable `Iface` value. It holds
  the global-state fields (`name`, `details`, `precision`, `terms`,
  `issuedSupply`, `burnedSupply`), each with a requirement. It holds the
  assignment fields (`assetOwner`, `burnRight`), each with a visibility tag,
  an owned-state kind and a requirement. It also holds the genesis operation,
  the mandatory `transfer` and optional `burn` transitions, the closed error
  map with codes 1 to 5, and the default operation `transfer`.
- **The `Rgb25` wrapper.** It is a typed, read-only view over a contract's
  global state. A state maps each declared global field to its ordered list
  of values.

Files:

- `multiplicity.dfy` (module `Multiplicity`): `Occurrences`, the per-operation
  count of a field, and `Req`, the per-interface requirement of a field. Each
  denotes an inclusive count range.
- `schema.dfy` (module `Schema`): the meta-model datatypes `GlobalIface`,
  `AssignIface`, `Variant`, `GenesisIface`, `TransitionIface` and `Iface`.
  It also defines the structural invariants of a schema: closure of error
  codes and of fields, unique codes and names, a default operation that
  resolves, and genesis multiplicities that agree with the requirements.
- `rgb25_schema.dfy` (module `Rgb25Schema`): the error-code constants and the
  RGB25 schema `Rgb25()`. The schema is written as a few part functions. The
  lemmas here prove each invariant of that schema.
- `supply.dfy` (module `Supply`): the left-to-right sum of decoded amounts,
  with lemmas that it splits over concatenation, bounds every term and
  ignores order.
- `rgb25_wrapper.dfy` (module `Rgb25Wrapper`): the pinned interface id
  `Rgb25IfaceId` (the 32 bytes of `IFACE_ID`), the binding check `From`, and
  the accessors. It includes lemmas that tie each accessor to a state that
  conforms to the RGB25 schema.
- `wrappers.dfy` (module `Wrappers`): `Option` and `Result`.

Each panic written in `rgb25.rs` (`expect`, `[0]`, `panic!`) becomes a
`Failure` that carries a `Fault`. An `.expect` on an unknown global becomes `GlobalUnknown`. Indexing
`[0]` into an empty list becomes `EmptyGlobal`. The panic on a foreign
interface id becomes `BindingMismatch`. `ContractIface::global(name)` fails
exactly when the interface declares no global of that name. In the model,
that is a state map with no entry for `name`.

The required-singleton accessors `Name` (`name`), `Precision` (`precision`)
and `ContractData` (`contract_data`, which reads `data`) are instances of one
read, `Singleton`, over their field names. `ContractTerms` is the corrected
instance that reads `terms`.

Each accessor takes its value decoder (`from_strict_val_unchecked` of its
domain type) as a function parameter. Type references are kept as their
registry names, such as `"RGBContract.Amount"`.

## Model

| member | source | states |
|---|---|---|
| `Multiplicity.OccurrenceLaw` | src/interface/rgb25.rs:65-74 | the count check of each `Occurrences` kind accepts a count iff it lies in the kind's `[min, max]` range |
| `Multiplicity.OccurrenceLawSamples` | src/interface/rgb25.rs:65-74 | on counts 0, 1 and 2: `Once` accepts only 1, `NoneOrOnce` 0 and 1, `OnceOrMore` 1 and 2, `NoneOrMore` all three |
| `Multiplicity.ReqFlags` | src/interface/rgb25.rs:59-60 | a `Req` is required iff it demands at least one value, and multiple iff it admits two |
| `Multiplicity.WithinKeepsCounts` | src/interface/rgb25.rs:63-81 | an operation whose occurrence range lies within a field's requirement never carries a count the requirement rejects |
| `Rgb25Schema.FieldKeys` | src/interface/rgb25.rs:50-119 | the key sets of all the field maps of the RGB25 schema: global state, assignments, genesis globals and assignments, and transitions |
| `Rgb25Schema.ErrorKeys` | src/interface/rgb25.rs:121-136 | the error map has exactly the five named variants `supplyMismatch` … `insufficientCoverage` with codes 1 … 5 |
| `Rgb25Schema.Rgb25ErrorCodes` | src/interface/rgb25.rs:38-42 | the error map declares exactly the codes {1, 2, 3, 4, 5} |
| `Rgb25Schema.Rgb25OperationErrors` | src/interface/rgb25.rs:76-116 | genesis may raise {1, 3, 4}, `transfer` {2}, `burn` {1, 3, 5} |
| `Rgb25Schema.Rgb25ErrorsClosed` | src/interface/rgb25.rs:76-136 | every code that genesis or a transition may raise is the code of a variant in the error map |
| `Rgb25Schema.Rgb25FieldsClosed` | src/interface/rgb25.rs:63-119 | the globals of genesis and of each transition are declared globals; genesis assignments and each transition's inputs and assignments are declared assignments; the default assignment of `transfer` is one that `transfer` produces |
| `Rgb25Schema.Rgb25VariantsUnique` | src/interface/rgb25.rs:121-136 | no two error variants share a code, and no two share a name |
| `Rgb25Schema.Rgb25DefaultOperation` | src/interface/rgb25.rs:82-137 | the default operation is `transfer`, which is a declared transition and not optional; `burn` is optional; the default assignment `assetOwner` is a declared assignment |
| `Rgb25Schema.Rgb25GenesisMultiplicities` | src/interface/rgb25.rs:50-71 | genesis issues every required global exactly `Once`, the optional `details` with `NoneOrOnce`, and never the none-or-many `burnedSupply` |
| `Rgb25Schema.Rgb25GenesisAgrees` | src/interface/rgb25.rs:50-74 | every occurrence range in genesis lies within the field's requirement, and every required global and assignment is issued by genesis |
| `Rgb25Schema.Rgb25WellFormed` | src/interface/rgb25.rs:44-140 | the RGB25 schema keeps all the structural invariants of a schema together |
| `Rgb25Wrapper.From` | src/interface/rgb25.rs:147-154 | binding succeeds iff the contract carries `IFACE_ID`, and then wraps exactly that contract; otherwise it fails with `BindingMismatch` |
| `Rgb25Wrapper.Singleton` | src/interface/rgb25.rs:166-172 | the required-singleton read (`global(field).expect(..)[0]`): succeeds iff the field is declared and non-empty, returning its first value decoded; an undeclared field fails as unknown, an empty one as empty |
| `Rgb25Wrapper.Details` | src/interface/rgb25.rs:174-184 | fails iff `details` is undeclared; otherwise returns none iff the list is empty, else the first value decoded |
| `Rgb25Wrapper.TotalIssuedSupply` | src/interface/rgb25.rs:194-201 | succeeds iff `issuedSupply` is declared, returning the sum of all its decoded amounts |
| `Rgb25Wrapper.TotalBurnedSupply` | src/interface/rgb25.rs:203-210 | never fails: 0 when `burnedSupply` is undeclared, otherwise the sum of all its decoded amounts |
| `Supply.SumAppend` | src/interface/rgb25.rs:194-210 | the sum over two lists laid end to end is the sum of their sums |
| `Supply.SumSingleton` | src/interface/rgb25.rs:194-201 | one value sums to its own amount |
| `Supply.SumBoundsEach` | src/interface/rgb25.rs:203-210 | no single amount exceeds the sum |
| `Supply.SumPermutation` | src/interface/rgb25.rs:203-210 | lists with the same values in any order have the same sum |
| `Rgb25Wrapper.RequiredSingletonsResolve` | src/interface/rgb25.rs:165-192 | on a contract conforming to RGB25, `name` and `precision` each hold exactly one value, and the accessors return it decoded |
| `Rgb25Wrapper.DetailsResolve` | src/interface/rgb25.rs:174-184 | on a conforming contract, `details` never fails, holds at most one value, and is none iff it holds no value |
| `Rgb25Wrapper.IssuedSupplyResolves` | src/interface/rgb25.rs:194-201 | on a conforming contract, the issued supply is the amount of the single `issuedSupply` value |
| `Rgb25Wrapper.BurnedSupplyOfNothing` | src/interface/rgb25.rs:203-210 | a missing `burnedSupply` and an empty one both give 0 |
| `Rgb25Wrapper.BurnedSupplyGrows` | src/interface/rgb25.rs:203-210 | appending one burned value raises the total by its amount, also when the global was missing |
| `Rgb25Wrapper.BurnedSupplyOrderFree` | src/interface/rgb25.rs:203-210 | reordering the burned values leaves the total unchanged |
| `Rgb25Wrapper.BurnedSupplySample` | src/interface/rgb25.rs:203-210 | burned amounts 3 and 5 total 8 |
| `Rgb25Wrapper.ContractDataNeverResolves` | src/interface/rgb25.rs:212-218 | on any contract whose globals are exactly those RGB25 declares, `contract_data` fails because `data` is unknown |
| `Rgb25Wrapper.ContractTermsResolve` | src/interface/rgb25.rs:212-218 | on a conforming contract, the corrected read returns the single `terms` value decoded |

"Conforming" (`Rgb25Wrapper.Conforms`) means two things. The state has an
entry for exactly the declared globals. Each entry holds a number of values
in the range of the global's requirement. This is what a validated contract
guarantees.

## Left out

- The computation of the interface id (`rgb25().iface_id()`: strict encoding and a hash), and the test that pins it. `Rgb25IfaceId` is kept as an opaque 32-byte constant.
- ASCII-armored export of the schema and its comparison with the stored `.rgba` fixture. These are serialisation, and the encoder is not part of this model.
- The standard type registry (`StandardTypes::new()`, `types.get(..)`, `types.type_system()`). Type references are their names, and the schema's type system is not modelled.
- Decoding strict values into `Name`, `Details`, `Precision`, `Amount` and `AssetTerms`. Each accessor takes its decoder as a parameter.
- `Rgb25Wrapper.TotalIssuedSupply`: does not model the overflow policy of `Amount`'s sum; amounts are unbounded naturals.
- `Rgb25Wrapper.TotalBurnedSupply`: does not model the overflow policy of `Amount`'s sum; amounts are unbounded naturals.
- The meaning of `public` and `private` assignment visibility. It is an opaque tag.
- The `Deref`/`DerefMut` wrapper derives. Nothing in the file mutates through them, and the model's wrapper is immutable.
- The definitions of `Iface`, `GlobalIface`, `AssignIface`, `Req`, `Occurrences`, `ContractIface` and `ContractIface::global` are not part of this model; other files define them. Their shapes follow their use in `rgb25.rs`:
  - `GlobalIface::required`, `optional` and `none_or_many` become the requirements `Required`, `Optional` and `NoneOrMore`.
  - `Occurrences` has only the four kinds used here; the bounded "up to n" kinds are not modelled. No code in `rgb25.rs` defines the count check; `Occurrences.Check` follows the inclusive `[min, max]` law for the four kinds.
  - `OwnedIface` has only `Amount` and `Rights`.
  - Extension operations are kept by name only, and RGB25 has none.
- A failure of `global(..)` other than an undeclared name (a state value that does not fit its type) is not modelled.

## Findings

| source | as written | input that shows it | evidently intended | confidence | as-written member | corrected member |
|---|---|---|---|---|---|---|
| src/interface/rgb25.rs:215 | `contract_data` reads the global `"data"`, which the RGB25 interface does not declare (its terms global is `"terms"`, line 54), so every call on an RGB25 contract panics | any contract conforming to RGB25, e.g. one whose globals are exactly `name`, `details`, `precision`, `terms`, `issuedSupply`, `burnedSupply` | read the declared `"terms"` global and return its single value | high (not executed) | `Rgb25Wrapper.ContractDataNeverResolves` | `Rgb25Wrapper.ContractTermsResolve` |
