/**
 * The generated code, as structure rather than tokens. Each datatype stands
 * for one kind of item or expression the representation generator emits;
 * identifiers are strings.
 *
 * The method descriptors (VtableItem, VtableFnArg) and the operations on
 * them that are defined alongside the vtable type itself are kept abstract:
 * a type is an opaque string of tokens, and an operation whose definition
 * is not part of this model is represented by a constructor that records
 * what it was applied to.
 */
module Syntax {
  import opened Naming

  /** The tokens of a Rust type, taken verbatim from the trait. */
  type TypeTokens = string

  /** An `extern "..."` calling convention. */
  datatype Abi = Abi(convention: string)

  /** A module path such as `::alloc::boxed::Box`. */
  type Path = seq<string>

  /** One parameter of a trait method; `name` is its binding, if it has one. */
  datatype VtableFnArg = VtableFnArg(name: Option<string>, ty: TypeTokens)

  /**
   * The type a VtableFnArg takes in a bare function signature once a
   * receiver has been turned into a raw pointer. Its computation belongs to
   * the vtable module, which is not part of this model.
   */
  datatype BareType = WithPtrReceiver(source: TypeTokens)

  /** A parameter of a bare function signature. */
  datatype BareFnArg = BareFnArg(name: Option<string>, ty: BareType)

  /**
   * One method of the trait, in declaration order; `inputs[0]` is the
   * receiver. `raw` and `unsafety` record whether `make_raw` and
   * `make_unsafe` have been applied.
   */
  datatype VtableItem = VtableItem(
    name: string,
    inputs: seq<VtableFnArg>,
    output: TypeTokens,
    abi: Option<Abi>,
    raw: bool,
    unsafety: bool)

  /**
   * `entry.make_raw()`: the receiver becomes a raw pointer. Only what the
   * generator relies on is promised: the name, the number of inputs and
   * every input after the receiver are kept.
   */
  function MakeRaw(item: VtableItem): (r: VtableItem)
    ensures r.raw && r.name == item.name
    ensures |r.inputs| == |item.inputs|
    ensures item.inputs != [] ==> r.inputs[1..] == item.inputs[1..]
  {
    item.(raw := true)
  }

  /** `entry.make_unsafe()`: the function becomes `unsafe`. */
  function MakeUnsafe(item: VtableItem): (r: VtableItem)
    ensures r.unsafety && r.raw == item.raw
    ensures r.name == item.name && r.inputs == item.inputs
  {
    item.(unsafety := true)
  }

  /** `arg.into_bare_arg_with_ptr_receiver()`: keeps the binding. */
  function IntoBareArg(arg: VtableFnArg): (r: BareFnArg)
    ensures r.name == arg.name
  {
    BareFnArg(arg.name, WithPtrReceiver(arg.ty))
  }

  /**
   * `entry.into_signature(nth_arg)` with its identifier replaced by `ident`.
   * How that signature is derived is defined with the vtable type, which is
   * not part of this model; it is recorded by the item it came from.
   */
  datatype Signature = Signature(ident: string, item: VtableItem)

  /** Expressions and the one statement the generated bodies use. */
  datatype Expr =
    | Local(name: string)                           // a parameter binding
    | SelfConst(constName: string)                  // Self::NAME
    | AddrOf(inner: Expr)                           // &inner
    | SelfStruct(inits: seq<FieldInit>)             // Self { f: e, ... }
    | BoxCall(box: Path, func: string, arg: Expr)   // path_to_box::func(arg)
    | CastToInferredPtr(inner: Expr)                // inner as *mut _
    | CastToReprPtr(inner: Expr, repr: string)      // inner as *mut Repr<Generic0>
    | Deref(inner: Expr)                            // *inner
    | FieldOf(inner: Expr, field: string)           // inner.field
    | MethodCall(receiver: Expr, callee: string, args: seq<BareFnArg>)
    | Discard(inner: Expr)                          // let _ = inner;

  datatype FieldInit = FieldInit(field: string, value: Expr)

  /** One entry `field: Self::target,` of the vtable initializer. */
  datatype VtableSlot = VtableSlot(field: string, target: string)

  /** A generated forwarding function of the `impl` block. */
  datatype Thunk = Thunk(signature: Signature, body: Expr)

  /** A type the generated struct and functions declare their fields and parameters with. */
  datatype FieldType =
    | VtableByValue(vtable: string)      // the vtable struct itself
    | VtableStaticRef(vtable: string)    // &'static vtable struct
    | Generic(param: string)             // the payload's type parameter
    | ErasedPtr                          // *mut ::core::ffi::c_void

  datatype StructField = StructField(name: string, ty: FieldType)

  /** `const NAME: Vtable = Vtable { slots };` */
  datatype VtableConst = VtableConst(name: string, ty: string, initType: string, slots: seq<VtableSlot>)

  /** `fn create(param: Generic0) -> *mut Vtable { body }` */
  datatype CreateFn = CreateFn(name: string, param: string, paramTy: FieldType, returnsPtrTo: string, body: Expr)

  /** `unsafe <abi> fn drop(param: paramTy) { body }` */
  datatype DropFn = DropFn(name: string, isUnsafe: bool, abi: Option<Abi>, param: string, paramTy: FieldType, body: Expr)

  /** A type parameter with its one trait bound. */
  datatype GenericParam = GenericParam(name: string, bound: string)

  /**
   * The whole emitted unit: `#[repr(C)] struct Repr<G: Trait> { fields }`
   * followed by `impl<G: Trait> Repr<G> { vtable const, create, drop, thunks }`.
   */
  datatype ReprDef = ReprDef(
    reprC: bool,
    name: string,
    generic: GenericParam,
    fields: seq<StructField>,
    vtable: VtableConst,
    create: CreateFn,
    drop: DropFn,
    thunks: seq<Thunk>)

  /** The number of calls `box::func(..)` in an expression. */
  function BoxCalls(e: Expr, box: Path, func: string): nat
    decreases e, 1
  {
    match e
    case Local(_) => 0
    case SelfConst(_) => 0
    case AddrOf(inner) => BoxCalls(inner, box, func)
    case SelfStruct(inits) => InitBoxCalls(inits, box, func)
    case BoxCall(b, f, arg) => (if b == box && f == func then 1 else 0) + BoxCalls(arg, box, func)
    case CastToInferredPtr(inner) => BoxCalls(inner, box, func)
    case CastToReprPtr(inner, _) => BoxCalls(inner, box, func)
    case Deref(inner) => BoxCalls(inner, box, func)
    case FieldOf(inner, _) => BoxCalls(inner, box, func)
    case MethodCall(receiver, _, _) => BoxCalls(receiver, box, func)
    case Discard(inner) => BoxCalls(inner, box, func)
  }

  function InitBoxCalls(inits: seq<FieldInit>, box: Path, func: string): nat
    decreases inits, 0
  {
    if inits == [] then 0
    else BoxCalls(inits[0].value, box, func) + InitBoxCalls(inits[1..], box, func)
  }
}
