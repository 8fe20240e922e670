/**
 * The single pass over the trait's methods that produces the vtable
 * initializer entries and the forwarding thunks (`generate_vtable_and_thunks`
 * and `to_nth_thunk_arg`).
 *
 * The functions below are the specification: what the entries and thunks
 * for a list of methods are. The method GenerateVtableAndThunks is the
 * loop that builds them, proved equal to the specification.
 */
module ThunkGen {
  import opened Naming
  import opened Syntax

  /**
   * `to_nth_thunk_arg(arg, n)`: the parameter as it is forwarded by a thunk.
   * A parameter that already has a binding keeps it; one without gets the
   * positional name `nth_arg(n)`.
   */
  function ToNthThunkArg(arg: VtableFnArg, n: nat): (r: BareFnArg)
    ensures r.name.Some?
    ensures arg.name.Some? ==> r.name == arg.name
    ensures arg.name.None? ==> r.name == Some(NthArg(n))
    ensures r.ty == IntoBareArg(arg).ty
  {
    var bare := IntoBareArg(arg);
    bare.(name := Some(if bare.name.Some? then bare.name.value else NthArg(n)))
  }

  /** The parameters `args`, numbered consecutively from `first`. */
  function NumberFrom(args: seq<VtableFnArg>, first: nat): (r: seq<BareFnArg>)
    ensures |r| == |args|
    decreases |args|
  {
    if args == [] then [] else [ToNthThunkArg(args[0], first)] + NumberFrom(args[1..], first + 1)
  }

  /** The arguments a thunk forwards: every input but the receiver, numbered from 1. */
  function CallArgs(inputs: seq<VtableFnArg>): (r: seq<BareFnArg>)
    ensures |r| == if inputs == [] then 0 else |inputs| - 1
  {
    if inputs == [] then [] else NumberFrom(inputs[1..], 1)
  }

  lemma {:induction false} NumberFromAt(args: seq<VtableFnArg>, first: nat, j: nat)
    requires j < |args|
    ensures NumberFrom(args, first)[j] == ToNthThunkArg(args[j], first + j)
    decreases |args|
  {
    var tail := NumberFrom(args[1..], first + 1);
    assert NumberFrom(args, first) == [ToNthThunkArg(args[0], first)] + tail;
    if j > 0 {
      NumberFromAt(args[1..], first + 1, j - 1);
      assert args[1..][j - 1] == args[j] && first + 1 + (j - 1) == first + j;
      assert NumberFrom(args, first)[j] == tail[j - 1];
    }
  }

  /**
   * The receiver is not forwarded; the other k inputs are, in their original
   * order, the j-th of them (counting from 1) converted with index j.
   */
  lemma CallArgsSpec(inputs: seq<VtableFnArg>)
    ensures forall j :: 0 <= j < |CallArgs(inputs)| ==>
              CallArgs(inputs)[j] == ToNthThunkArg(inputs[j + 1], j + 1)
  {
    if inputs != [] {
      forall j | 0 <= j < |CallArgs(inputs)|
        ensures CallArgs(inputs)[j] == ToNthThunkArg(inputs[j + 1], j + 1)
      {
        NumberFromAt(inputs[1..], 1, j);
      }
    }
  }

  /**
   * Naming of the forwarded arguments: each keeps the binding it had, and an
   * argument without one is named by its position 1..k.
   */
  lemma ForwardedArgNames(inputs: seq<VtableFnArg>, j: nat)
    requires j + 1 < |inputs|
    ensures j < |CallArgs(inputs)|
    ensures CallArgs(inputs)[j].name ==
            if inputs[j + 1].name.Some? then inputs[j + 1].name else Some(NthArg(j + 1))
  {
    CallArgsSpec(inputs);
  }

  /**
   * As long as no parameter is bound to a generated name `nth_arg(k)`, the
   * forwarded names never include the receiver's name `nth_arg(0)`, two
   * unnamed parameters never receive the same name, and the name generated
   * for an unnamed parameter is never the binding of another parameter.
   */
  lemma ForwardedNamesAreFresh(inputs: seq<VtableFnArg>)
    requires forall j, k: nat :: 1 <= j < |inputs| && inputs[j].name.Some? ==>
               inputs[j].name.value != NthArg(k)
    ensures forall j :: 0 <= j < |CallArgs(inputs)| ==> CallArgs(inputs)[j].name != Some(NthArg(0))
    ensures forall i, j :: 0 <= i < j < |CallArgs(inputs)| && inputs[i + 1].name.None? && inputs[j + 1].name.None? ==>
              CallArgs(inputs)[i].name != CallArgs(inputs)[j].name
    ensures forall i, j :: 0 <= i < |CallArgs(inputs)| && 0 <= j < |CallArgs(inputs)| && i != j &&
                           inputs[i + 1].name.Some? && inputs[j + 1].name.None? ==>
              CallArgs(inputs)[i].name != CallArgs(inputs)[j].name
  {
    CallArgsSpec(inputs);
    forall j | 0 <= j < |CallArgs(inputs)|
      ensures CallArgs(inputs)[j].name != Some(NthArg(0))
    {
      ReceiverNameIsNotForwardedName(j + 1);
    }
    forall i, j | 0 <= i < j < |CallArgs(inputs)| && inputs[i + 1].name.None? && inputs[j + 1].name.None?
      ensures CallArgs(inputs)[i].name != CallArgs(inputs)[j].name
    {
      NthArgInjective(i + 1, j + 1);
    }
    forall i, j | 0 <= i < |CallArgs(inputs)| && 0 <= j < |CallArgs(inputs)| && i != j &&
                  inputs[i + 1].name.Some? && inputs[j + 1].name.None?
      ensures CallArgs(inputs)[i].name != CallArgs(inputs)[j].name
    {
      assert inputs[i + 1].name.value != NthArg(j + 1);
    }
  }

  /** The forwarded arguments never depend on the receiver. */
  lemma CallArgsIgnoreReceiver(a: seq<VtableFnArg>, b: seq<VtableFnArg>)
    requires |a| == |b|
    requires a != [] ==> a[1..] == b[1..]
    ensures CallArgs(a) == CallArgs(b)
  {
  }

  /** `make_raw` then `make_unsafe`, as every entry receives before use. */
  function Prepare(item: VtableItem): (r: VtableItem)
    ensures r.raw && r.unsafety && r.name == item.name
    ensures |r.inputs| == |item.inputs|
    ensures item.inputs != [] ==> r.inputs[1..] == item.inputs[1..]
  {
    MakeUnsafe(MakeRaw(item))
  }

  /**
   * The vtable initializer entry `name: Self::thunk_name,` of one method:
   * the field is the method's, and the target is the thunk of that field.
   */
  function SlotFor(item: VtableItem): (r: VtableSlot)
    ensures r.field == item.name
    ensures StripPrefix(ThunkPrefix, r.target) == Some(r.field)
  {
    VtableSlot(item.name, ThunkName(item.name))
  }

  /**
   * The body of a thunk: the receiver pointer `nth_arg(0)` is cast to the
   * representation struct, dereferenced, and the method is called on the
   * payload field with the forwarded arguments.
   */
  function ThunkBody(reprName: string, callee: string, args: seq<BareFnArg>): Expr {
    MethodCall(FieldOf(Deref(CastToReprPtr(Local(NthArg(0)), reprName)), ValueFieldName), callee, args)
  }

  /**
   * The thunk generated for one (prepared) method: it is named after the
   * method, calls it, and forwards every input but the receiver.
   */
  function ThunkFor(reprName: string, item: VtableItem): (r: Thunk)
    ensures StripPrefix(ThunkPrefix, r.signature.ident) == Some(item.name)
    ensures r.body.MethodCall? && r.body.callee == item.name
    ensures |r.body.args| == if item.inputs == [] then 0 else |item.inputs| - 1
  {
    Thunk(Signature(ThunkName(item.name), item), ThunkBody(reprName, item.name, CallArgs(item.inputs)))
  }

  /** The vtable initializer entries for `items`, accumulated in order. */
  function MethodSlots(items: seq<VtableItem>): (r: seq<VtableSlot>)
    ensures |r| == |items|
    decreases |items|
  {
    if items == [] then []
    else MethodSlots(items[..|items| - 1]) + [SlotFor(Prepare(items[|items| - 1]))]
  }

  /** The thunks for `items`, accumulated in order. */
  function Thunks(reprName: string, items: seq<VtableItem>): (r: seq<Thunk>)
    ensures |r| == |items|
    decreases |items|
  {
    if items == [] then []
    else Thunks(reprName, items[..|items| - 1]) + [ThunkFor(reprName, Prepare(items[|items| - 1]))]
  }

  /** One slot per method, in input order, naming that method's thunk. */
  lemma {:induction false} MethodSlotsAt(items: seq<VtableItem>, i: nat)
    requires i < |items|
    ensures MethodSlots(items)[i] == VtableSlot(items[i].name, ThunkName(items[i].name))
    decreases |items|
  {
    var n := |items| - 1;
    if i < n {
      MethodSlotsAt(items[..n], i);
    }
  }

  /** One thunk per method, in input order: thunk i is the thunk of method i. */
  lemma {:induction false} ThunksAt(reprName: string, items: seq<VtableItem>, i: nat)
    requires i < |items|
    ensures Thunks(reprName, items)[i] == ThunkFor(reprName, Prepare(items[i]))
    decreases |items|
  {
    var n := |items| - 1;
    if i < n {
      assert Thunks(reprName, items) == Thunks(reprName, items[..n]) + [ThunkFor(reprName, Prepare(items[n]))];
      ThunksAt(reprName, items[..n], i);
      assert items[..n][i] == items[i];
    }
  }

  /**
   * Thunk i is named after method i, is unsafe with a raw receiver, and
   * calls method i on the payload with its arguments other than the receiver.
   */
  lemma ThunkOfMethod(reprName: string, items: seq<VtableItem>, i: nat)
    requires i < |items|
    ensures Thunks(reprName, items)[i].signature.ident == ThunkName(items[i].name)
    ensures Thunks(reprName, items)[i].signature.item.raw
    ensures Thunks(reprName, items)[i].signature.item.unsafety
    ensures Thunks(reprName, items)[i].body == ThunkBody(reprName, items[i].name, CallArgs(items[i].inputs))
  {
    ThunksAt(reprName, items, i);
    CallArgsIgnoreReceiver(Prepare(items[i]).inputs, items[i].inputs);
  }

  lemma MethodSlotsSnoc(items: seq<VtableItem>, x: VtableItem)
    ensures MethodSlots(items + [x]) == MethodSlots(items) + [SlotFor(Prepare(x))]
  {
    assert (items + [x])[..|items|] == items;
  }

  lemma ThunksSnoc(reprName: string, items: seq<VtableItem>, x: VtableItem)
    ensures Thunks(reprName, items + [x]) == Thunks(reprName, items) + [ThunkFor(reprName, Prepare(x))]
  {
    assert (items + [x])[..|items|] == items;
  }

  /** Extending the processed prefix by one entry appends its slot and its thunk. */
  lemma GenerateStep(reprName: string, items: seq<VtableItem>, e: nat)
    requires e < |items|
    ensures MethodSlots(items[..e + 1]) == MethodSlots(items[..e]) + [SlotFor(Prepare(items[e]))]
    ensures Thunks(reprName, items[..e + 1]) == Thunks(reprName, items[..e]) + [ThunkFor(reprName, Prepare(items[e]))]
  {
    assert items[..e + 1] == items[..e] + [items[e]];
    MethodSlotsSnoc(items[..e], items[e]);
    ThunksSnoc(reprName, items[..e], items[e]);
  }

  /** Two thunks have the same name exactly when their methods do. */
  lemma ThunkNamesDistinct(reprName: string, items: seq<VtableItem>)
    ensures forall i, j :: 0 <= i < |items| && 0 <= j < |items| ==>
              (Thunks(reprName, items)[i].signature.ident == Thunks(reprName, items)[j].signature.ident
               <==> items[i].name == items[j].name)
  {
    forall i, j | 0 <= i < |items| && 0 <= j < |items|
      ensures Thunks(reprName, items)[i].signature.ident == Thunks(reprName, items)[j].signature.ident
              <==> items[i].name == items[j].name
    {
      ThunkOfMethod(reprName, items, i);
      ThunkOfMethod(reprName, items, j);
      ThunkNameInjective(items[i].name, items[j].name);
    }
  }

  /**
   * The mapping of `entry.inputs` in `generate_vtable_and_thunks`: skips the
   * receiver and converts the other inputs in order, numbering them with
   * `argument_counter`, which starts at 1 and is incremented after each one.
   */
  method ThunkCallArgs(inputs: seq<VtableFnArg>) returns (thunkCallArgs: seq<BareFnArg>)
    ensures thunkCallArgs == CallArgs(inputs)
  {
    var rest := if inputs == [] then [] else inputs[1..];
    var argumentCounter := 1;
    thunkCallArgs := [];
    var a := 0;
    while a < |rest|
      invariant 0 <= a <= |rest|
      invariant argumentCounter == a + 1
      invariant |thunkCallArgs| == a
      invariant forall j :: 0 <= j < a ==> thunkCallArgs[j] == ToNthThunkArg(rest[j], j + 1)
    {
      var arg := ToNthThunkArg(rest[a], argumentCounter);
      argumentCounter := argumentCounter + 1;
      ghost var before := thunkCallArgs;
      thunkCallArgs := thunkCallArgs + [arg];
      assert forall j :: 0 <= j < a ==> thunkCallArgs[j] == before[j];
      assert thunkCallArgs[a] == ToNthThunkArg(rest[a], a + 1);
      a := a + 1;
    }
    CallArgsSpec(inputs);
  }

  /**
   * `generate_vtable_and_thunks`: walks the methods once, appending one
   * initializer entry and one thunk per method to two accumulators.
   */
  method GenerateVtableAndThunks(reprName: string, vtableEntries: seq<VtableItem>)
    returns (vtableContents: seq<VtableSlot>, thunkMethods: seq<Thunk>)
    ensures vtableContents == MethodSlots(vtableEntries)
    ensures thunkMethods == Thunks(reprName, vtableEntries)
  {
    vtableContents, thunkMethods := [], [];
    var e := 0;
    while e < |vtableEntries|
      invariant 0 <= e <= |vtableEntries|
      invariant vtableContents == MethodSlots(vtableEntries[..e])
      invariant thunkMethods == Thunks(reprName, vtableEntries[..e])
    {
      var entry := vtableEntries[e];
      entry := MakeRaw(entry);
      entry := MakeUnsafe(entry);

      var thunkCallArgs := ThunkCallArgs(entry.inputs);

      var name := entry.name;
      var thunkName := ThunkName(entry.name);
      var thunkSignature := Signature(thunkName, entry);

      vtableContents := vtableContents + [VtableSlot(name, thunkName)];
      thunkMethods := thunkMethods + [Thunk(thunkSignature, ThunkBody(reprName, name, thunkCallArgs))];

      assert entry == Prepare(vtableEntries[e]);
      assert VtableSlot(name, thunkName) == SlotFor(entry);
      assert Thunk(thunkSignature, ThunkBody(reprName, name, thunkCallArgs)) == ThunkFor(reprName, entry);
      GenerateStep(reprName, vtableEntries, e);
      e := e + 1;
    }
    assert vtableEntries[..e] == vtableEntries;
  }
}
