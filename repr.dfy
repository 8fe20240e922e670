/**
 * `generate_repr`: the representation struct for one trait, holding a
 * vtable (copied in, or a `&'static` reference to a shared one) followed by
 * the payload, together with its `impl` block (the vtable constant, the
 * constructor, the destructor and one thunk per trait method).
 */
module Repr {
  import opened Naming
  import opened Syntax
  import opened ThunkGen

  /** The parts of the macro's stage state that generation reads. */
  datatype StageStash = StageStash(
    reprName: string,
    vtableName: string,
    traitName: string,
    vtableItems: seq<VtableItem>)

  /** The last vtable entry: `drop: Self::__thintraitobjectmacro_repr_drop,`. */
  const DropSlot: VtableSlot := VtableSlot(DropSlotName, DropFnName)

  /** The constructor's `Self { vtable: <vtableInit>, value: arg0 }`. */
  function CtorVal(vtableInit: Expr): Expr {
    SelfStruct([FieldInit(VtableFieldName, vtableInit), FieldInit(ValueFieldName, Local(NthArg(0)))])
  }

  /** `path_to_box::into_raw(path_to_box::new(ctor_val)) as *mut _`. */
  function CreateBody(pathToBox: Path, ctorVal: Expr): Expr {
    CastToInferredPtr(BoxCall(pathToBox, "into_raw", BoxCall(pathToBox, "new", ctorVal)))
  }

  /** `let _ = path_to_box::from_raw(arg0 as *mut Repr<Generic0>);` */
  function DropBody(pathToBox: Path, reprName: string): Expr {
    Discard(BoxCall(pathToBox, "from_raw", CastToReprPtr(Local(NthArg(0)), reprName)))
  }

  /**
   * `generate_repr(stash, inline_vtable, path_to_box, drop_abi)`. The two
   * accumulators of `generate_vtable_and_thunks` are given by their
   * specification (see ThunkGen.GenerateVtableAndThunks, proved equal to it).
   */
  function GenerateRepr(stash: StageStash, inlineVtable: bool, pathToBox: Path, dropAbi: Option<Abi>): (r: ReprDef)
    ensures |r.thunks| == |stash.vtableItems|
    ensures |r.vtable.slots| == |stash.vtableItems| + 1
    ensures r.vtable.slots[|stash.vtableItems|] == VtableSlot(DropSlotName, r.drop.name)
    ensures |r.fields| == 2 && r.fields[0].name == VtableFieldName && r.fields[1].name == ValueFieldName
  {
    var vtableContents := MethodSlots(stash.vtableItems);
    var thunkMethods := Thunks(stash.reprName, stash.vtableItems);
    var vtableFieldType :=
      if inlineVtable then VtableByValue(stash.vtableName) else VtableStaticRef(stash.vtableName);
    var ctorVal :=
      if inlineVtable then CtorVal(SelfConst(VtableConstName)) else CtorVal(AddrOf(SelfConst(VtableConstName)));
    ReprDef(
      reprC := true,
      name := stash.reprName,
      generic := GenericParam(ReprGenericName, stash.traitName),
      fields := [StructField(VtableFieldName, vtableFieldType), StructField(ValueFieldName, Generic(ReprGenericName))],
      vtable := VtableConst(VtableConstName, stash.vtableName, stash.vtableName, vtableContents + [DropSlot]),
      create := CreateFn(CreateFnName, NthArg(0), Generic(ReprGenericName), stash.vtableName,
                         CreateBody(pathToBox, ctorVal)),
      drop := DropFn(DropFnName, true, dropAbi, NthArg(0), ErasedPtr, DropBody(pathToBox, stash.reprName)),
      thunks := thunkMethods)
  }

  /**
   * The vtable constant has the vtable's type and n + 1 entries for n
   * methods: entry i assigns method i's thunk to method i's field, and the
   * last entry, the only one after them, assigns the destructor to `drop`.
   */
  lemma VtableInitializer(stash: StageStash, inlineVtable: bool, pathToBox: Path, dropAbi: Option<Abi>)
    ensures var r := GenerateRepr(stash, inlineVtable, pathToBox, dropAbi);
            var items := stash.vtableItems;
            && r.vtable.name == VtableConstName
            && r.vtable.ty == r.vtable.initType == stash.vtableName
            && |r.vtable.slots| == |items| + 1
            && (forall i :: 0 <= i < |items| ==>
                  r.vtable.slots[i] == VtableSlot(items[i].name, ThunkName(items[i].name)))
            && r.vtable.slots[|items|] == VtableSlot(DropSlotName, r.drop.name)
  {
    var items := stash.vtableItems;
    forall i | 0 <= i < |items|
      ensures MethodSlots(items)[i] == VtableSlot(items[i].name, ThunkName(items[i].name))
    {
      MethodSlotsAt(items, i);
    }
  }

  /**
   * Every vtable entry points at a function the `impl` block defines: entry
   * i at thunk i, which forwards to method i, and the last at the
   * destructor, whose name no thunk can take.
   */
  lemma SlotsTargetDefinedThunks(stash: StageStash, inlineVtable: bool, pathToBox: Path, dropAbi: Option<Abi>)
    ensures var r := GenerateRepr(stash, inlineVtable, pathToBox, dropAbi);
            var items := stash.vtableItems;
            && |r.thunks| == |items|
            && (forall i :: 0 <= i < |items| ==>
                  && r.thunks[i].signature.ident == r.vtable.slots[i].target
                  && r.thunks[i].body == ThunkBody(stash.reprName, items[i].name, CallArgs(items[i].inputs)))
            && (forall i :: 0 <= i < |items| ==> r.thunks[i].signature.ident != r.drop.name)
  {
    var r := GenerateRepr(stash, inlineVtable, pathToBox, dropAbi);
    var items := stash.vtableItems;
    VtableInitializer(stash, inlineVtable, pathToBox, dropAbi);
    forall i | 0 <= i < |items|
      ensures r.thunks[i].signature.ident == r.vtable.slots[i].target
      ensures r.thunks[i].body == ThunkBody(stash.reprName, items[i].name, CallArgs(items[i].inputs))
      ensures r.thunks[i].signature.ident != r.drop.name
    {
      ThunkOfMethod(stash.reprName, items, i);
      GeneratedNamespacesDisjoint(items[i].name, 0, "");
    }
  }

  /**
   * The vtable initializer names each field once exactly when the methods
   * have distinct names and none of them is called `drop`.
   */
  lemma VtableFieldsDistinct(stash: StageStash, inlineVtable: bool, pathToBox: Path, dropAbi: Option<Abi>)
    ensures var slots := GenerateRepr(stash, inlineVtable, pathToBox, dropAbi).vtable.slots;
            var items := stash.vtableItems;
            (forall i, j :: 0 <= i < j < |slots| ==> slots[i].field != slots[j].field) <==>
            (&& (forall i, j :: 0 <= i < j < |items| ==> items[i].name != items[j].name)
             && (forall i :: 0 <= i < |items| ==> items[i].name != DropSlotName))
  {
    var slots := GenerateRepr(stash, inlineVtable, pathToBox, dropAbi).vtable.slots;
    var items := stash.vtableItems;
    VtableInitializer(stash, inlineVtable, pathToBox, dropAbi);
    assert forall i :: 0 <= i < |items| ==> slots[i].field == items[i].name;
    assert slots[|items|].field == DropSlotName;
  }

  /**
   * The struct is `#[repr(C)]`, generic over the payload type bounded by the
   * trait, and has exactly two fields, the vtable first and the payload
   * second; the constructor initialises exactly these fields, in this order,
   * the payload with its own parameter.
   */
  lemma ReprLayout(stash: StageStash, inlineVtable: bool, pathToBox: Path, dropAbi: Option<Abi>)
    ensures var r := GenerateRepr(stash, inlineVtable, pathToBox, dropAbi);
            && r.reprC
            && r.name == stash.reprName
            && r.generic == GenericParam(ReprGenericName, stash.traitName)
            && |r.fields| == 2
            && r.fields[0].name == VtableFieldName
            && r.fields[1] == StructField(ValueFieldName, Generic(r.generic.name))
            && r.create.paramTy == Generic(r.generic.name)
            && r.create.returnsPtrTo == stash.vtableName
            && r.create.body.inner.arg.arg.SelfStruct?
            && var inits := r.create.body.inner.arg.arg.inits;
               && |inits| == 2
               && inits[0].field == r.fields[0].name
               && inits[1] == FieldInit(r.fields[1].name, Local(r.create.param))
  {
  }

  /**
   * The two storage modes differ only in the vtable field's type (the
   * vtable itself, or a `&'static` reference to it) and in how the
   * constructor fills that field (a copy of the constant, or a borrow of
   * it); the payload field, the vtable constant, the destructor and the
   * thunks are the same.
   */
  lemma StorageModes(stash: StageStash, pathToBox: Path, dropAbi: Option<Abi>)
    ensures var inline := GenerateRepr(stash, true, pathToBox, dropAbi);
            var shared := GenerateRepr(stash, false, pathToBox, dropAbi);
            && inline.fields[0].ty == VtableByValue(stash.vtableName)
            && shared.fields[0].ty == VtableStaticRef(stash.vtableName)
            && inline.create.body == CreateBody(pathToBox, CtorVal(SelfConst(VtableConstName)))
            && shared.create.body == CreateBody(pathToBox, CtorVal(AddrOf(SelfConst(VtableConstName))))
            && inline.fields[1] == shared.fields[1]
            && inline == shared.(fields := inline.fields, create := inline.create)
            && inline.create == shared.create.(body := inline.create.body)
  {
  }

  /** The constructor's struct literal itself calls into the box module only where its vtable initializer does. */
  lemma CtorValBoxCalls(vtableInit: Expr, pathToBox: Path, func: string)
    ensures BoxCalls(CtorVal(vtableInit), pathToBox, func) == BoxCalls(vtableInit, pathToBox, func)
  {
    var inits := CtorVal(vtableInit).inits;
    assert InitBoxCalls(inits[1..][1..], pathToBox, func) == 0;
    assert InitBoxCalls(inits[1..], pathToBox, func) == 0;
  }

  /**
   * The constructor allocates once: it calls `path_to_box::new` exactly once
   * and hands that box to `path_to_box::into_raw`, exactly once. The
   * destructor takes the type-erased handle `*mut c_void` and calls
   * `path_to_box::from_raw` exactly once, on that argument cast back to the
   * representation struct, and allocates nothing.
   */
  lemma CreateAndDrop(stash: StageStash, inlineVtable: bool, pathToBox: Path, dropAbi: Option<Abi>)
    ensures var r := GenerateRepr(stash, inlineVtable, pathToBox, dropAbi);
            && BoxCalls(r.create.body, pathToBox, "new") == 1
            && BoxCalls(r.create.body, pathToBox, "into_raw") == 1
            && BoxCalls(r.create.body, pathToBox, "from_raw") == 0
            && r.create.body.inner == BoxCall(pathToBox, "into_raw", r.create.body.inner.arg)
            && r.create.body.inner.arg.BoxCall? && r.create.body.inner.arg.func == "new"
            && r.drop.paramTy == ErasedPtr
            && BoxCalls(r.drop.body, pathToBox, "from_raw") == 1
            && BoxCalls(r.drop.body, pathToBox, "new") == 0
            && r.drop.body == Discard(BoxCall(pathToBox, "from_raw", CastToReprPtr(Local(r.drop.param), r.name)))
  {
    var vtableInit := if inlineVtable then SelfConst(VtableConstName) else AddrOf(SelfConst(VtableConstName));
    CreateBodyBoxCalls(pathToBox, vtableInit);
    DropBodyBoxCalls(pathToBox, stash.reprName);
    var r := GenerateRepr(stash, inlineVtable, pathToBox, dropAbi);
    assert r.create.body == CreateBody(pathToBox, CtorVal(vtableInit));
    assert r.drop.body == DropBody(pathToBox, stash.reprName);
  }

  /** The constructor's body boxes once and converts that box once. */
  lemma CreateBodyBoxCalls(pathToBox: Path, vtableInit: Expr)
    requires vtableInit == SelfConst(VtableConstName) || vtableInit == AddrOf(SelfConst(VtableConstName))
    ensures BoxCalls(CreateBody(pathToBox, CtorVal(vtableInit)), pathToBox, "new") == 1
    ensures BoxCalls(CreateBody(pathToBox, CtorVal(vtableInit)), pathToBox, "into_raw") == 1
    ensures BoxCalls(CreateBody(pathToBox, CtorVal(vtableInit)), pathToBox, "from_raw") == 0
  {
    var ctorVal := CtorVal(vtableInit);
    assert "new" != "into_raw" && "new" != "from_raw" && "into_raw" != "from_raw";
    CtorValBoxCalls(vtableInit, pathToBox, "new");
    CtorValBoxCalls(vtableInit, pathToBox, "into_raw");
    CtorValBoxCalls(vtableInit, pathToBox, "from_raw");
    assert BoxCalls(BoxCall(pathToBox, "new", ctorVal), pathToBox, "new") == 1;
    assert BoxCalls(BoxCall(pathToBox, "new", ctorVal), pathToBox, "into_raw") == 0;
    assert BoxCalls(BoxCall(pathToBox, "new", ctorVal), pathToBox, "from_raw") == 0;
  }

  /** The destructor's body reclaims the box once and allocates nothing. */
  lemma DropBodyBoxCalls(pathToBox: Path, reprName: string)
    ensures BoxCalls(DropBody(pathToBox, reprName), pathToBox, "from_raw") == 1
    ensures BoxCalls(DropBody(pathToBox, reprName), pathToBox, "new") == 0
  {
    assert "new" != "from_raw";
    var cast := CastToReprPtr(Local(NthArg(0)), reprName);
    assert BoxCalls(cast, pathToBox, "from_raw") == 0 && BoxCalls(cast, pathToBox, "new") == 0;
    assert BoxCalls(BoxCall(pathToBox, "from_raw", cast), pathToBox, "from_raw") == 1;
    assert BoxCalls(BoxCall(pathToBox, "from_raw", cast), pathToBox, "new") == 0;
  }

  /**
   * The destructor is `unsafe` and has exactly the supplied ABI, and that ABI
   * affects nothing else: the thunks, the constructor and the vtable are the
   * same whatever it is.
   */
  lemma DropAbiIndependent(stash: StageStash, inlineVtable: bool, pathToBox: Path, abi1: Option<Abi>, abi2: Option<Abi>)
    ensures var r1 := GenerateRepr(stash, inlineVtable, pathToBox, abi1);
            var r2 := GenerateRepr(stash, inlineVtable, pathToBox, abi2);
            && r1.drop.isUnsafe && r1.drop.abi == abi1
            && r1 == r2.(drop := r2.drop.(abi := abi1))
  {
  }
}
