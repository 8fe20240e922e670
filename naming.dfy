/**
 * Deterministic naming of the identifiers the representation generator
 * emits. Every generated identifier is a fixed namespace prefix followed by
 * a user-supplied name or a decimal position, so each of these namings can
 * be undone (the prefix stripped, the number parsed back) and is therefore
 * injective.
 */
module Naming {

  /** An optional value: a binding a parameter may lack, a prefix that may be absent. */
  datatype Option<+T> = None | Some(value: T)

  /** Prefix of positional thunk arguments (`nth_arg`). */
  const ArgPrefix: string := "__thintraitobjectmacro_arg"
  /** Prefix of the representation struct named after a trait. */
  const ReprPrefix: string := "__ThinTraitObjectMacro_ReprFor"
  /** Prefix of a per-method forwarding thunk. */
  const ThunkPrefix: string := "__thintraitobjectmacro_thunk_"

  /** Fixed names of the members the generated `impl` block declares. */
  const VtableConstName: string := "__THINTRAITOBJECTMACRO_VTABLE"
  const VtableFieldName: string := "__thintraitobjectmacro_repr_vtable"
  const ValueFieldName: string := "__thintraitobjectmacro_repr_value"
  const CreateFnName: string := "__thintraitobjectmacro_repr_create"
  const DropFnName: string := "__thintraitobjectmacro_repr_drop"
  const ReprGenericName: string := "__ThinTraitObjectMacro_ReprGeneric0"
  /** Field of the vtable struct that holds the destructor. */
  const DropSlotName: string := "drop"

  // ---------------------------------------------------------------------
  // Decimal rendering of an index, as `{}` formats an unsigned integer.
  // ---------------------------------------------------------------------

  predicate IsDigit(c: char) {
    '0' <= c <= '9'
  }

  function DigitChar(d: nat): (c: char)
    requires d < 10
    ensures IsDigit(c)
  {
    ('0' as int + d) as char
  }

  function DigitValue(c: char): nat {
    if IsDigit(c) then c as int - '0' as int else 0
  }

  /** Decimal digits of n, most significant first, without leading zeros. */
  function Decimal(n: nat): (s: string)
    ensures 1 <= |s|
    ensures forall i :: 0 <= i < |s| ==> IsDigit(s[i])
    ensures s[0] == '0' ==> n == 0 && s == "0"
    decreases n
  {
    if n < 10 then [DigitChar(n)] else Decimal(n / 10) + [DigitChar(n % 10)]
  }

  /** Value of a string of decimal digits (the inverse of Decimal). */
  function ParseDecimal(s: string): nat
    decreases |s|
  {
    if s == [] then 0 else ParseDecimal(s[..|s| - 1]) * 10 + DigitValue(s[|s| - 1])
  }

  lemma {:induction false} DecimalRoundTrip(n: nat)
    ensures ParseDecimal(Decimal(n)) == n
    decreases n
  {
    if n >= 10 {
      DecimalRoundTrip(n / 10);
      var s := Decimal(n);
      assert s[..|s| - 1] == Decimal(n / 10);
      assert DigitValue(s[|s| - 1]) == n % 10;
    }
  }

  // ---------------------------------------------------------------------
  // Prefixing: the shape `format_ident!("<prefix>{}", x)` shares.
  // ---------------------------------------------------------------------

  /** The suffix left after `prefix`, if `s` starts with it. */
  function StripPrefix(prefix: string, s: string): (r: Option<string>)
    ensures r.Some? <==> |prefix| <= |s| && s[..|prefix|] == prefix
    ensures r.Some? ==> s == prefix + r.value
  {
    if |prefix| <= |s| && s[..|prefix|] == prefix then Some(s[|prefix|..]) else None
  }

  lemma PrefixRoundTrip(prefix: string, x: string)
    ensures StripPrefix(prefix, prefix + x) == Some(x)
  {
    assert (prefix + x)[..|prefix|] == prefix;
    assert (prefix + x)[|prefix|..] == x;
  }

  /**
   * `nth_arg(n)`: the name of the n-th thunk argument; n = 0 is the receiver.
   * It is the argument prefix followed by exactly the decimal digits of n.
   */
  function NthArg(n: nat): (r: string)
    ensures StripPrefix(ArgPrefix, r) == Some(Decimal(n))
  {
    PrefixRoundTrip(ArgPrefix, Decimal(n));
    ArgPrefix + Decimal(n)
  }

  /** The index a positional argument name was made from (the inverse of NthArg). */
  function ArgIndex(ident: string): Option<nat> {
    match StripPrefix(ArgPrefix, ident)
    case Some(digits) => Some(ParseDecimal(digits))
    case None => None
  }

  /**
   * `repr_name_from_trait_name(t)`: the repr prefix followed by the trait's
   * name, which stripping the prefix gives back.
   */
  function ReprNameFromTraitName(traitName: string): (r: string)
    ensures StripPrefix(ReprPrefix, r) == Some(traitName)
  {
    PrefixRoundTrip(ReprPrefix, traitName);
    ReprPrefix + traitName
  }

  /**
   * The name of the thunk that forwards to the method called `methodName`:
   * the thunk prefix followed by the method's name, which stripping the
   * prefix gives back.
   */
  function ThunkName(methodName: string): (r: string)
    ensures StripPrefix(ThunkPrefix, r) == Some(methodName)
  {
    PrefixRoundTrip(ThunkPrefix, methodName);
    ThunkPrefix + methodName
  }

  lemma NthArgRoundTrip(n: nat)
    ensures ArgIndex(NthArg(n)) == Some(n)
  {
    DecimalRoundTrip(n);
  }

  lemma NthArgInjective(m: nat, n: nat)
    ensures NthArg(m) == NthArg(n) <==> m == n
  {
    NthArgRoundTrip(m);
    NthArgRoundTrip(n);
  }

  lemma ReprNameInjective(s: string, t: string)
    ensures ReprNameFromTraitName(s) == ReprNameFromTraitName(t) <==> s == t
  {
  }

  lemma ThunkNameInjective(m: string, n: string)
    ensures ThunkName(m) == ThunkName(n) <==> m == n
  {
  }

  /**
   * The receiver's name `nth_arg(0)` differs from every name a forwarded
   * argument is numbered with (1, 2, ...).
   */
  lemma ReceiverNameIsNotForwardedName(n: nat)
    requires 1 <= n
    ensures NthArg(0) != NthArg(n)
  {
    NthArgInjective(0, n);
  }

  /** The receiver's name is exactly the literal the generated bodies spell out. */
  lemma ReceiverNameLiteral()
    ensures NthArg(0) == "__thintraitobjectmacro_arg0"
  {
  }

  /**
   * The three generated namespaces are disjoint from each other and from the
   * fixed member names of the generated `impl` block, so a thunk can never
   * shadow an argument, the constructor, the destructor or a field.
   */
  lemma {:induction false} GeneratedNamespacesDisjoint(m: string, n: nat, t: string)
    ensures ThunkName(m) != NthArg(n)
    ensures ThunkName(m) != ReprNameFromTraitName(t)
    ensures NthArg(n) != ReprNameFromTraitName(t)
    ensures ThunkName(m) !in {DropFnName, CreateFnName, VtableFieldName, ValueFieldName}
    ensures NthArg(n) !in {DropFnName, CreateFnName, VtableFieldName, ValueFieldName}
  {
    var th, ar, re := ThunkName(m), NthArg(n), ReprNameFromTraitName(t);
    assert th[..|ThunkPrefix|] == ThunkPrefix;
    assert ar[..|ArgPrefix|] == ArgPrefix;
    assert re[..|ReprPrefix|] == ReprPrefix;
    // "__thintraitobjectmacro_" is 23 characters long; the next character
    // tells thunks ('t'), arguments ('a') and struct members ('r') apart,
    // and the third character tells the upper-case repr name apart.
    assert th[23] == 't' && ar[23] == 'a' && re[2] == 'T' && th[2] == 't' && ar[2] == 't';
    assert DropFnName[23] == 'r' && CreateFnName[23] == 'r';
    assert VtableFieldName[23] == 'r' && ValueFieldName[23] == 'r';
  }

}
