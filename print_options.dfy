/**
  The option tables of a printing configuration, as a value: one table of
  formatter chains keyed by declared type and one keyed by member. Registering
  an option appends it to one chain; printing a member applies that member's
  own chain to its text and then the chain of its declared type.
 */
module PrintOptions {
  import opened Optional
  import opened Formatters

  /** A declared type, known by its name. */
  type TypeKey = string

  /** A member (property) of a type: the type that owns it and its name. */
  datatype MemberKey = MemberKey(owner: TypeKey, name: string)

  datatype PrintOptions = PrintOptions(
    typeOptions: map<TypeKey, seq<Formatter>>,
    propertyOptions: map<MemberKey, seq<Formatter>>)
  {
    /** The chain registered for type `t`; empty when none is. */
    function TypeChain(t: TypeKey): seq<Formatter> {
      if t in typeOptions then typeOptions[t] else []
    }

    /** The chain registered for member `m`; empty when none is. */
    function MemberChain(m: MemberKey): seq<Formatter> {
      if m in propertyOptions then propertyOptions[m] else []
    }

    /** Appends `f` to the chain of type `t`; every member chain and every
        other type chain is left as it was. */
    function WithTypeOption(t: TypeKey, f: Formatter): (r: PrintOptions)
      ensures r.propertyOptions == propertyOptions
      ensures r.TypeChain(t) == TypeChain(t) + [f]
      ensures forall u :: u != t ==> r.TypeChain(u) == TypeChain(u)
      ensures r.typeOptions.Keys == typeOptions.Keys + {t}
    {
      this.(typeOptions := typeOptions[t := TypeChain(t) + [f]])
    }

    /** Appends `f` to the chain of member `m`; every type chain and every
        other member chain is left as it was. */
    function WithPropertyOption(m: MemberKey, f: Formatter): (r: PrintOptions)
      ensures r.typeOptions == typeOptions
      ensures r.MemberChain(m) == MemberChain(m) + [f]
      ensures forall k :: k != m ==> r.MemberChain(k) == MemberChain(k)
      ensures r.propertyOptions.Keys == propertyOptions.Keys + {m}
    {
      this.(propertyOptions := propertyOptions[m := MemberChain(m) + [f]])
    }

    /** The scope decision of a formatter builder bound to the declared type
        `propType` and, when present, to one member `propertyInfo`. */
    function Register(propType: TypeKey, propertyInfo: Option<MemberKey>, f: Formatter): (r: PrintOptions)
      ensures propertyInfo.Some? ==>
        && r.typeOptions == typeOptions
        && r.MemberChain(propertyInfo.value) == MemberChain(propertyInfo.value) + [f]
        && (forall k :: k != propertyInfo.value ==> r.MemberChain(k) == MemberChain(k))
      ensures propertyInfo.None? ==>
        && r.propertyOptions == propertyOptions
        && r.TypeChain(propType) == TypeChain(propType) + [f]
        && (forall u :: u != propType ==> r.TypeChain(u) == TypeChain(u))
    {
      match propertyInfo
      case Some(m) => WithPropertyOption(m, f)
      case None => WithTypeOption(propType, f)
    }

    /** The text printed for member `m` of declared type `t` whose default text
        is `raw`: the member's chain first, then the type's chain. The two
        stages together run as one chain, the member's links followed by the
        type's. */
    function Resolve(m: MemberKey, t: TypeKey, raw: string, conv: CultureConversion): (r: string)
      ensures r == ApplyChain(MemberChain(m) + TypeChain(t), raw, conv)
    {
      ApplyChainConcat(MemberChain(m), TypeChain(t), raw, conv);
      ApplyChain(TypeChain(t), ApplyChain(MemberChain(m), raw, conv), conv)
    }
  }

  /** The tables of a fresh configuration: no option registered anywhere. */
  const EMPTY: PrintOptions := PrintOptions(map[], map[])

  /** With nothing registered a member prints as its default text. */
  lemma ResolveEmpty(m: MemberKey, t: TypeKey, raw: string, conv: CultureConversion)
    ensures EMPTY.Resolve(m, t, raw, conv) == raw
  {
  }

  /** A type option is applied after everything already printed for members of
      that type. */
  lemma TypeOptionAppliesLast(opts: PrintOptions, t: TypeKey, f: Formatter, m: MemberKey, raw: string, conv: CultureConversion)
    ensures opts.WithTypeOption(t, f).Resolve(m, t, raw, conv) == Apply(f, opts.Resolve(m, t, raw, conv), conv)
  {
    ApplyChainSnoc(opts.TypeChain(t), f, ApplyChain(opts.MemberChain(m), raw, conv), conv);
  }

  /** A type option changes nothing for members of any other type. */
  lemma TypeOptionLeavesOtherTypes(opts: PrintOptions, t: TypeKey, f: Formatter, m: MemberKey, u: TypeKey, raw: string, conv: CultureConversion)
    requires u != t
    ensures opts.WithTypeOption(t, f).Resolve(m, u, raw, conv) == opts.Resolve(m, u, raw, conv)
  {
  }

  /** A member option is applied after the member's earlier links and before
      its type's chain. */
  lemma PropertyOptionAppliesInMemberStage(opts: PrintOptions, m: MemberKey, f: Formatter, t: TypeKey, raw: string, conv: CultureConversion)
    ensures opts.WithPropertyOption(m, f).Resolve(m, t, raw, conv)
         == ApplyChain(opts.TypeChain(t), Apply(f, ApplyChain(opts.MemberChain(m), raw, conv), conv), conv)
  {
    ApplyChainSnoc(opts.MemberChain(m), f, raw, conv);
  }

  /** A member option does not leak to any other member, even one of the same
      type. */
  lemma PropertyOptionLeavesOtherMembers(opts: PrintOptions, m: MemberKey, f: Formatter, k: MemberKey, t: TypeKey, raw: string, conv: CultureConversion)
    requires k != m
    ensures opts.WithPropertyOption(m, f).Resolve(k, t, raw, conv) == opts.Resolve(k, t, raw, conv)
  {
  }

  /** Two registrations in the same scope compose: that scope's chain grows
      by both, in registration order, and neither replaces the other. */
  lemma RegistrationsCompose(opts: PrintOptions, propType: TypeKey, propertyInfo: Option<MemberKey>, f: Formatter, g: Formatter)
    ensures propertyInfo.Some? ==>
      opts.Register(propType, propertyInfo, f).Register(propType, propertyInfo, g).MemberChain(propertyInfo.value)
        == opts.MemberChain(propertyInfo.value) + [f, g]
    ensures propertyInfo.None? ==>
      opts.Register(propType, propertyInfo, f).Register(propType, propertyInfo, g).TypeChain(propType)
        == opts.TypeChain(propType) + [f, g]
  {
  }

  /** Registrations in the two scopes commute: what is printed does not depend
      on whether the member option or the type option was registered first. */
  lemma ScopesCommute(opts: PrintOptions, m: MemberKey, t: TypeKey, f: Formatter, g: Formatter)
    ensures opts.Register(t, Some(m), f).Register(t, None, g) == opts.Register(t, None, g).Register(t, Some(m), f)
  {
  }
}
