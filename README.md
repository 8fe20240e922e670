# Thin trait object representation generator, in Dafny

This project models the back end of the `thin_trait_object` procedural
macro: the part that, given the methods of a trait (in declaration order)
and a small configuration, generates the *representation struct*. That
struct puts a vtable and the payload value in one heap block, so that a
single pointer (the "thin pointer") is enough to dispatch dynamically.

For a trait with methods `m_1 .. m_n`, the generator emits:

- a `#[repr(C)]` struct `Repr<G: Trait>` with exactly two fields, the
  vtable first and the payload `G` second. The vtable field holds either a
  copy of the vtable (inline mode) or a `&'static` reference to it (shared
  mode);
- a vtable constant. Its initializer assigns each method's field to that
  method's thunk, in input order, and ends with one `drop` entry;
- a constructor that boxes `Self { vtable, value }` once and returns
  the raw pointer;
- an `unsafe` destructor with a configurable ABI that reclaims the box;
- one thunk per method. A thunk casts its type-erased receiver
  (`__thintraitobjectmacro_arg0`) back to the struct and calls the method
  on the payload. It forwards every other parameter, in order. A parameter
  that has a binding keeps it. One without a binding is named
  `__thintraitobjectmacro_arg<k>` by its position k = 1, 2, ...

Generated code is modelled as datatypes (module `Syntax`), not as token
streams. Identifiers are strings.

Modules:

- `Naming` covers the identifier prefixing (`nth_arg`,
  `repr_name_from_trait_name`, thunk names) and decimal rendering. Each
  naming has an inverse (strip the prefix, parse the number), which makes it
  injective.
- `Syntax` holds the datatypes of the generated items and expressions, and
  the method descriptors `VtableItem` and `VtableFnArg`.
- `ThunkGen` models `to_nth_thunk_arg` and the loop of
  `generate_vtable_and_thunks`. The imperative methods
  `GenerateVtableAndThunks` and `ThunkCallArgs` are proved equal to the
  specification functions `MethodSlots`, `Thunks` and `CallArgs`. Lemmas
  then prove ordering, counts and naming for those functions.
- `Repr` models `generate_repr` as a function of the stage state, the
  storage-mode switch, the box path and the destructor ABI, with lemmas
  about the vtable initializer, layout, storage modes, constructor and
  destructor.

A parameter with a binding keeps it (src/repr.rs:154); only unbound ones
get `nth_arg(k)`.

## Model

| member | source | states |
|---|---|---|
| `Naming.NthArg` | src/repr.rs:148-150 | `nth_arg(n)` is the argument prefix `__thintraitobjectmacro_arg` followed by exactly the decimal digits of n (stripping the prefix leaves `Decimal(n)`) |
| `Naming.Decimal` | src/repr.rs:148-150 | the `{}` rendering of an index is a non-empty string of decimal digits with no leading zero (except for 0 itself) |
| `Naming.DecimalRoundTrip` | src/repr.rs:148-150 | parsing the decimal rendering of n gives back n |
| `Naming.NthArgRoundTrip` | src/repr.rs:148-150 | `nth_arg(n)` is `__thintraitobjectmacro_arg` followed by digits that parse back to n |
| `Naming.NthArgInjective` | src/repr.rs:148-150 | `nth_arg(m) == nth_arg(n)` exactly when m == n |
| `Naming.ReceiverNameIsNotForwardedName` | src/repr.rs:106-110 | the receiver's name `nth_arg(0)` differs from every positional name `nth_arg(k)`, k >= 1, given to a forwarded argument |
| `Naming.ReceiverNameLiteral` | src/repr.rs:137 | `nth_arg(0)` is exactly the literal `__thintraitobjectmacro_arg0` that the generated bodies use for the receiver |
| `Naming.ReprNameFromTraitName` | src/repr.rs:90-93 | `repr_name_from_trait_name(t)` is `__ThinTraitObjectMacro_ReprFor` followed by the trait name: stripping that prefix gives the trait name back |
| `Naming.ReprNameInjective` | src/repr.rs:90-93 | two traits get the same repr name exactly when their names are equal |
| `Naming.ThunkName` | src/repr.rs:116 | a thunk's name is `__thintraitobjectmacro_thunk_` followed by the method name: stripping the prefix gives the method name back |
| `Naming.ThunkNameInjective` | src/repr.rs:116 | two methods get the same thunk name exactly when their names are equal |
| `Naming.GeneratedNamespacesDisjoint` | src/repr.rs:116 | over the thunk names (line 116), the `nth_arg` names (lines 148-150), the repr names (lines 90-93) and the fixed member names (lines 35-36, 58-59, 69, 76): a thunk name is never an argument name, a repr name, or the name of the constructor, destructor or a field; an argument name is never a repr name or one of those member names |
| `ThunkGen.ToNthThunkArg` | src/repr.rs:151-156 | the converted argument always has a name: its own binding if it had one, otherwise `nth_arg(n)`; its type is the bare-argument conversion of the original |
| `ThunkGen.CallArgs` | src/repr.rs:107 | the forwarded arguments number one fewer than the inputs (none for no inputs): the receiver is skipped |
| `ThunkGen.CallArgsSpec` | src/repr.rs:106-111 | forwarded argument j is input j + 1 converted with index j + 1: original order, numbered 1..k, receiver excluded |
| `ThunkGen.ForwardedArgNames` | src/repr.rs:152-155 | forwarded argument j is named by input j + 1's binding if it has one, and otherwise by `nth_arg(j + 1)` |
| `ThunkGen.ForwardedNamesAreFresh` | src/repr.rs:106-111 | unless a parameter is bound to a positional name `nth_arg(k)`, no forwarded argument is named like the receiver, two unnamed parameters never get the same name, and no parameter's own binding equals the name generated for another, unnamed one |
| `ThunkGen.Prepare` | src/repr.rs:101-103 | each entry is made raw and unsafe before use, keeping its name, the number of its inputs and every input after the receiver |
| `ThunkGen.SlotFor` | src/repr.rs:123-128 | the initializer entry of one method: its field is the method's name and its target is the thunk of that field (stripping the thunk prefix from the target gives the field) |
| `ThunkGen.ThunkFor` | src/repr.rs:114-143 | the thunk of one prepared method (`ThunkBody` is its body): it is named after the method, calls that method, and forwards one argument fewer than the method has inputs, none for no inputs |
| `ThunkGen.MethodSlots` | src/repr.rs:99-128 | the initializer entries accumulated for a list of methods, one per method in input order; entry i is given by `MethodSlotsAt` |
| `ThunkGen.Thunks` | src/repr.rs:99-143 | the thunks accumulated for a list of methods, one per method in input order; thunk i is given by `ThunksAt` and `ThunkOfMethod` |
| `ThunkGen.MethodSlotsAt` | src/repr.rs:123-128 | initializer entry i is `name_i: Self::thunk_name_i`, in input order |
| `ThunkGen.ThunksAt` | src/repr.rs:130-143 | thunk i is the thunk generated for method i after `make_raw`/`make_unsafe`, in input order |
| `ThunkGen.ThunkOfMethod` | src/repr.rs:114-143 | thunk i is named after method i, is unsafe with a raw receiver, and its body calls method i on the payload field of the receiver cast to the repr struct, with the forwarded arguments |
| `ThunkGen.ThunkNamesDistinct` | src/repr.rs:116-121 | two thunks have the same name exactly when their methods do |
| `ThunkGen.ThunkCallArgs` | src/repr.rs:106-111 | the counter loop skipping the receiver computes exactly the forwarded argument list |
| `ThunkGen.GenerateVtableAndThunks` | src/repr.rs:95-146 | the single loop over the entries accumulates exactly the initializer entries and the thunks, one of each per entry, in input order |
| `Repr.GenerateRepr` | src/repr.rs:11-88 | the emitted unit: the `#[repr(C)]` struct with its two fields, vtable then value, the vtable constant with one entry per method followed by the last entry `drop`, the constructor, the destructor and one thunk per method, each per storage mode and ABI as at the cited lines; its properties are the other `Repr.*` rows |
| `Repr.VtableInitializer` | src/repr.rs:64-67 | the vtable constant has the vtable's type and n + 1 entries: entry i assigns method i's thunk to field `name_i`, and the last one, after all of them, assigns the destructor to `drop` |
| `Repr.SlotsTargetDefinedThunks` | src/repr.rs:123-143 | there is one thunk per method; vtable entry i names thunk i, which calls method i; no thunk has the destructor's name |
| `Repr.VtableFieldsDistinct` | src/repr.rs:64-67 | the initializer names each vtable field once exactly when the method names are distinct and none is `drop` |
| `Repr.ReprLayout` | src/repr.rs:55-73 | the struct is `#[repr(C)]`, generic over the payload bounded by the trait, with exactly two fields, vtable then value; the constructor takes the payload type, returns a pointer to the vtable type, and its literal initialises the same two fields in the same order, the value from its parameter |
| `Repr.StorageModes` | src/repr.rs:27-53 | inline mode gives the vtable field the vtable type and copies the constant; shared mode gives it `&'static` of the vtable and borrows the constant; every other part of the output is identical in the two modes |
| `Repr.CreateAndDrop` | src/repr.rs:69-83 | the constructor calls `path_to_box::new` exactly once and `into_raw` exactly once, on that box, and never `from_raw`; the destructor calls `from_raw` exactly once, on its argument, the type-erased `*mut c_void` handle, cast to the repr struct, and never `new` |
| `Repr.DropAbiIndependent` | src/repr.rs:74-83 | the destructor is `unsafe` and has exactly the supplied ABI; changing the ABI changes nothing else in the output |

## Left out

- The token-level mechanics of `proc_macro2`, `quote` and `syn` (`TokenStream`, `to_tokens`, `format_ident!`). The output is modelled as structure. The forwarded call arguments at src/repr.rs:140 are modelled as their ordered list of `BareFnArg`s, not as their token spelling, which has no separator between them.
- `make_raw`, `make_unsafe`, `into_signature` and `into_bare_arg_with_ptr_receiver` are defined with the vtable type, which is not part of this model. The first two are modelled as flags recording that they were applied; of `make_raw` the model promises only that it keeps the name, the number of inputs and every input after the receiver, since the receiver is what it rewrites. `into_signature` is modelled as a `Signature` that records the item it was derived from and carries the replaced identifier. `into_bare_arg_with_ptr_receiver` is modelled as a conversion that keeps the parameter's binding and wraps its type.
- `ThunkGen.ToNthThunkArg`: the index is a `nat`, not a `u32`. The source's counter would overflow only for a method with more than 2^32 - 2 parameters.
- The other fields of the stage state are not modelled. `generate_repr` only reads the four it destructures.
- How `repr_name` is chosen (the caller of `repr_name_from_trait_name`) is not part of this model.
- Runtime behaviour of the generated code is left out: the `Box` allocation and reclamation, raw-pointer casts, `repr(C)` layout aliasing, the unsafe dereference in thunk bodies, and the constructed/destroyed discipline of a handle. These are properties of the compiled output, not of the generator.
- Identifiers are modelled by their name without a raw marker: `format_ident!` drops a leading `r#`, so a method `r#match` gives the thunk `__thintraitobjectmacro_thunk_match`. The model does not represent the `r#` form.
- Macro hygiene is recorded only as fixed names. This covers the generic parameter `__ThinTraitObjectMacro_ReprGeneric0` and its trait bound.
- The in-place `make_raw`/`make_unsafe` on the loop's `entry` is modelled by rebinding a local value. There is no aliasing to model.
