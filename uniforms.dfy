/** Uniform reconciliation: when a shader program is relinked, the object
    that owns the uniform values compares the old and the new uniform
    declarations and updates its store of custom (dynamic) properties.
    Built-in properties, those declared on the class itself, are never
    written. */
module UniformSync {

  type Name = string

  /** A GL uniform type (a `GLenum`). */
  type GLType = int

  /** The declared uniforms of a program, one declared type per name. */
  type UniformCollection = map<Name, GLType>

  /** The metatype of an invalid `QVariant`. */
  const UnknownType: int := 0

  /** The payload of a `QVariant`; its bits are not interpreted. */
  datatype Value = DefaultValue | Data(contents: seq<int>)

  /** A `QVariant`: a metatype and a payload. */
  datatype Variant = Variant(userType: int, value: Value)

  predicate IsValid(v: Variant) {
    v.userType != UnknownType
  }

  /** `QVariant()`. */
  function Invalid(): Variant {
    Variant(UnknownType, DefaultValue)
  }

  /** `QVariant(type, nullptr)`: a default-constructed value of `type`. */
  function DefaultOf(t: int): Variant {
    Variant(t, DefaultValue)
  }

  /** The library facts the handlers use: the metatype of each GL uniform
      type (`info[type].qMetaType`), and `QVariant::canConvert` and the
      payload `QVariant::convert` produces. */
  datatype Conversions = Conversions(
    metaType: GLType -> int,
    canConvert: (Variant, int) -> bool,
    convertValue: (Variant, int) -> Value)

  /** Every GL uniform type has a known metatype, so the values the
      handlers construct are valid. */
  ghost predicate KnownTypes(conv: Conversions) {
    forall t :: conv.metaType(t) != UnknownType
  }

  lemma KnownTypeAt(conv: Conversions, t: GLType)
    requires KnownTypes(conv)
    ensures conv.metaType(t) != UnknownType
  {
  }

  // ------------------------------------------------ the three collections

  /** `set_difference(a, b)`: the declarations of `a` whose name `b` does
      not declare. */
  function Difference(a: UniformCollection, b: UniformCollection): (d: UniformCollection)
    ensures d.Keys == a.Keys - b.Keys
    ensures forall n :: n in d ==> d[n] == a[n]
  {
    map n | n in a.Keys - b.Keys :: a[n]
  }

  /** `set_intersection(a, b)`: the declarations of `a` whose name `b`
      declares too; the entries are copied from `a`. */
  function Intersection(a: UniformCollection, b: UniformCollection): (k: UniformCollection)
    ensures k.Keys == a.Keys * b.Keys
    ensures forall n :: n in k ==> k[n] == a[n]
  {
    map n | n in a.Keys * b.Keys :: a[n]
  }

  /** Discarded, added and kept uniforms are pairwise disjoint; discarded
      and kept make up the old declarations, added and kept the new ones,
      and kept uniforms carry their new declaration. */
  lemma Partition(old_: UniformCollection, new_: UniformCollection)
    ensures var discarded, added, kept := Difference(old_, new_), Difference(new_, old_), Intersection(new_, old_);
      discarded.Keys !! added.Keys && discarded.Keys !! kept.Keys && added.Keys !! kept.Keys &&
      discarded.Keys + kept.Keys == old_.Keys && added.Keys + kept.Keys == new_.Keys &&
      forall n :: n in kept ==> kept[n] == new_[n]
  {
  }

  // ------------------------------------------- what the handlers compute

  /** `property(name)`: the stored dynamic property, or an invalid value. */
  function Property(props: map<Name, Variant>, n: Name): Variant {
    if n in props then props[n] else Invalid()
  }

  /** `setProperty(name, v)` on a dynamic property: an invalid value
      removes the property. */
  function SetProperty(props: map<Name, Variant>, n: Name, v: Variant): (r: map<Name, Variant>)
    ensures IsValid(v) ==> n in r && r[n] == v
    ensures !IsValid(v) ==> n !in r
    ensures forall m :: m != n ==> (m in r <==> m in props) && Property(r, m) == Property(props, m)
  {
    if IsValid(v) then props[n := v] else props - {n}
  }

  /** The value a kept custom uniform ends with when the store held `p`
      and the new declaration has metatype `t`: `p` itself when its type is
      already `t`, else `p` converted to `t` when Qt can convert it, else a
      default value of `t`. */
  function KeptValue(p: Variant, t: int, conv: Conversions): Variant {
    if p.userType == t then p
    else if conv.canConvert(p, t) then Variant(t, conv.convertValue(p, t))
    else DefaultOf(t)
  }

  /** `_handleDiscardedUniforms` over the names `done`: every custom one
      is cleared. */
  function AfterDiscard(props: map<Name, Variant>, done: set<Name>, builtins: set<Name>): map<Name, Variant> {
    props - (done - builtins)
  }

  /** `_handleNewUniforms` over the names `done` of `added`: every custom
      one gets a default value of its declared type. */
  function AfterNew(props: map<Name, Variant>, added: UniformCollection, done: set<Name>,
                    builtins: set<Name>, conv: Conversions): map<Name, Variant>
  {
    props + map n | n in (done * added.Keys) - builtins :: DefaultOf(conv.metaType(added[n]))
  }

  /** `_handleKeptUniforms` over the names `done` of `kept`. */
  function AfterKept(props: map<Name, Variant>, kept: UniformCollection, done: set<Name>,
                     builtins: set<Name>, conv: Conversions): map<Name, Variant>
  {
    props + KeptValues(props, kept, done, builtins, conv)
  }

  /** The values the custom uniforms among `done` are given. */
  function KeptValues(props: map<Name, Variant>, kept: UniformCollection, done: set<Name>,
                      builtins: set<Name>, conv: Conversions): map<Name, Variant>
  {
    map n | n in (done * kept.Keys) - builtins :: KeptValue(Property(props, n), conv.metaType(kept[n]), conv)
  }

  /** One more name handled by `_handleNewUniforms`. */
  lemma AfterNewStep(props: map<Name, Variant>, added: UniformCollection, done: set<Name>,
                     builtins: set<Name>, conv: Conversions, n: Name)
    requires n in added && n !in done && conv.metaType(added[n]) != UnknownType
    ensures var before := AfterNew(props, added, done, builtins, conv);
      AfterNew(props, added, done + {n}, builtins, conv) ==
        if n in builtins then before else SetProperty(before, n, DefaultOf(conv.metaType(added[n])))
  {
  }

  /** One more name handled by `_handleKeptUniforms`; the value it reads
      is still the one `props` held. */
  lemma AfterKeptStep(props: map<Name, Variant>, kept: UniformCollection, done: set<Name>,
                      builtins: set<Name>, conv: Conversions, n: Name)
    requires n in kept && n !in done && conv.metaType(kept[n]) != UnknownType
    ensures var before, t := AfterKept(props, kept, done, builtins, conv), conv.metaType(kept[n]);
      Property(before, n) == Property(props, n) &&
      AfterKept(props, kept, done + {n}, builtins, conv) ==
        if n in builtins || Property(props, n).userType == t then before
        else SetProperty(before, n, KeptValue(Property(props, n), t, conv))
  {
    var before, t := AfterKept(props, kept, done, builtins, conv), conv.metaType(kept[n]);
    var values := KeptValues(props, kept, done, builtins, conv);
    if n !in builtins {
      var v := KeptValue(Property(props, n), t, conv);
      assert KeptValues(props, kept, done + {n}, builtins, conv) == values[n := v];
      UnionUpdate(props, values, n, v);
      if Property(props, n).userType == t {
        assert n in props && v == props[n] == before[n];
        UpdateSame(before, n);
      }
    } else {
      assert KeptValues(props, kept, done + {n}, builtins, conv) == values;
    }
  }

  lemma UnionUpdate<K, V>(a: map<K, V>, b: map<K, V>, k: K, v: V)
    ensures a + b[k := v] == (a + b)[k := v]
  {
  }

  /** Before the first name, the handlers have changed nothing. */
  lemma NothingDoneYet(props: map<Name, Variant>, temp: UniformCollection, builtins: set<Name>, conv: Conversions)
    ensures AfterNew(props, temp, {}, builtins, conv) == props
    ensures AfterKept(props, temp, {}, builtins, conv) == props
  {
    assert KeptValues(props, temp, {}, builtins, conv) == map[];
  }

  lemma UpdateSame<K, V>(m: map<K, V>, k: K)
    requires k in m
    ensures m[k := m[k]] == m
  {
  }

  /** The new property store: the three handlers, in order. */
  function Reconciled(props: map<Name, Variant>, old_: UniformCollection, new_: UniformCollection,
                      builtins: set<Name>, conv: Conversions): map<Name, Variant>
  {
    var discarded, added, kept := Difference(old_, new_), Difference(new_, old_), Intersection(new_, old_);
    var p1 := AfterDiscard(props, discarded.Keys, builtins);
    var p2 := AfterNew(p1, added, added.Keys, builtins, conv);
    AfterKept(p2, kept, kept.Keys, builtins, conv)
  }

  /** The reconciled store, name by name: built-in names and names declared
      by neither collection are left alone; a discarded custom uniform is
      cleared; a new one holds a default value of its type; a kept one holds
      `KeptValue` of what it held. */
  lemma ReconciledAt(props: map<Name, Variant>, old_: UniformCollection, new_: UniformCollection,
                     builtins: set<Name>, conv: Conversions, n: Name)
    ensures var r := Reconciled(props, old_, new_, builtins, conv);
      (n in builtins || (n !in old_ && n !in new_) ==> (n in r <==> n in props) && Property(r, n) == Property(props, n)) &&
      (n !in builtins && n in old_ && n !in new_ ==> n !in r) &&
      (n !in builtins && n !in old_ && n in new_ ==> n in r && r[n] == DefaultOf(conv.metaType(new_[n]))) &&
      (n !in builtins && n in old_ && n in new_ ==>
         n in r && r[n] == KeptValue(Property(props, n), conv.metaType(new_[n]), conv))
  {
    var discarded, added, kept := Difference(old_, new_), Difference(new_, old_), Intersection(new_, old_);
    var p1 := AfterDiscard(props, discarded.Keys, builtins);
    var p2 := AfterNew(p1, added, added.Keys, builtins, conv);
    if n !in builtins && n in old_ && n in new_ {
      assert n !in added && n !in discarded;
      assert Property(p2, n) == Property(props, n);
    }
  }

  /** The class invariant: the dynamic properties are exactly the custom
      uniforms, each holding a value of its declared type. */
  predicate Consistent(props: map<Name, Variant>, list: UniformCollection, builtins: set<Name>, conv: Conversions) {
    props.Keys == list.Keys - builtins &&
    forall n :: n in props ==> n in list && props[n].userType == conv.metaType(list[n])
  }

  /** Reconciling keeps the invariant: afterwards the custom uniforms of
      the new declarations are exactly the dynamic properties, each with
      its new type. */
  lemma ReconciledConsistent(props: map<Name, Variant>, old_: UniformCollection, new_: UniformCollection,
                             builtins: set<Name>, conv: Conversions)
    requires Consistent(props, old_, builtins, conv)
    ensures Consistent(Reconciled(props, old_, new_, builtins, conv), new_, builtins, conv)
  {
    var r := Reconciled(props, old_, new_, builtins, conv);
    forall n ensures n in r <==> n in new_ && n !in builtins {
      ReconciledAt(props, old_, new_, builtins, conv, n);
    }
    forall n | n in r ensures n in new_ && r[n].userType == conv.metaType(new_[n]) {
      ReconciledAt(props, old_, new_, builtins, conv, n);
      if n in old_ {
        assert Property(props, n).userType == conv.metaType(old_[n]);
      }
    }
  }

  /** While the store is consistent, a kept custom uniform whose GL type
      did not change keeps its value. */
  lemma KeptSameTypeUnchanged(props: map<Name, Variant>, old_: UniformCollection, new_: UniformCollection,
                              builtins: set<Name>, conv: Conversions, n: Name)
    requires Consistent(props, old_, builtins, conv)
    requires n in old_ && n in new_ && n !in builtins && old_[n] == new_[n]
    ensures var r := Reconciled(props, old_, new_, builtins, conv);
            n in r && r[n] == props[n]
  {
    ReconciledAt(props, old_, new_, builtins, conv, n);
  }

  /** The handlers' own assertions hold while the store is consistent and
      every GL type has a metatype: a discarded custom uniform held a valid
      value and holds none afterwards; a new one held none and holds a
      valid value afterwards; a kept one holds a valid value afterwards. */
  lemma HandlerAssertions(props: map<Name, Variant>, old_: UniformCollection, new_: UniformCollection,
                          builtins: set<Name>, conv: Conversions, n: Name)
    requires Consistent(props, old_, builtins, conv) && KnownTypes(conv) && n !in builtins
    ensures var r := Reconciled(props, old_, new_, builtins, conv);
      (n in old_ && n !in new_ ==> IsValid(Property(props, n)) && !IsValid(Property(r, n))) &&
      (n !in old_ && n in new_ ==> !IsValid(Property(props, n)) && IsValid(Property(r, n))) &&
      (n in new_ ==> IsValid(Property(r, n)))
  {
    ReconciledAt(props, old_, new_, builtins, conv, n);
    if n in old_ {
      KnownTypeAt(conv, old_[n]);
    }
    if n in new_ {
      KnownTypeAt(conv, new_[n]);
      ReconciledConsistent(props, old_, new_, builtins, conv);
    }
  }

  // ------------------------------------------------------------ the class

  /** The part of `Uniforms` the reconciliation touches: the declared
      uniforms and the dynamic property store. `builtins` are the names
      `indexOfProperty` finds on the class. */
  class Uniforms {
    var uniformList: UniformCollection
    var properties: map<Name, Variant>
    const builtins: set<Name>
    const conv: Conversions

    constructor (builtins: set<Name>, conv: Conversions)
      ensures uniformList == map[] && properties == map[]
      ensures this.builtins == builtins && this.conv == conv
    {
      uniformList := map[];
      properties := map[];
      this.builtins := builtins;
      this.conv := conv;
    }

    predicate Valid()
      reads this
    {
      Consistent(properties, uniformList, builtins, conv)
    }

    /** `receiveUniforms`. */
    method ReceiveUniforms(uniforms: UniformCollection)
      requires KnownTypes(conv)
      modifies this
      ensures uniformList == uniforms
      ensures properties == Reconciled(old(properties), old(uniformList), uniforms, builtins, conv)
      ensures old(Valid()) ==> Valid()
    {
      ghost var props0, list0 := properties, uniformList;
      var temp := Difference(uniformList, uniforms);
      HandleDiscarded(temp);
      temp := Difference(uniforms, uniformList);
      HandleNew(temp);
      temp := Intersection(uniforms, uniformList);
      HandleKept(temp);
      if Consistent(props0, list0, builtins, conv) {
        ReconciledConsistent(props0, list0, uniforms, builtins, conv);
      }
      uniformList := uniforms;
    }

    /** `_handleDiscardedUniforms`: clears every custom uniform of `temp`. */
    method HandleDiscarded(temp: UniformCollection)
      modifies this
      ensures properties == AfterDiscard(old(properties), temp.Keys, builtins)
      ensures uniformList == old(uniformList)
    {
      var rest, done := temp.Keys, {};
      while rest != {}
        invariant rest == temp.Keys - done && done <= temp.Keys
        invariant properties == AfterDiscard(old(properties), done, builtins)
        invariant uniformList == old(uniformList)
        decreases rest
      {
        var n :| n in rest;
        if n !in builtins {
          properties := SetProperty(properties, n, Invalid());
        }
        rest, done := rest - {n}, done + {n};
      }
    }

    /** `_handleNewUniforms`: every custom uniform of `temp` gets a default
      value of its declared type. */
    method HandleNew(temp: UniformCollection)
      requires KnownTypes(conv)
      modifies this
      ensures properties == AfterNew(old(properties), temp, temp.Keys, builtins, conv)
      ensures uniformList == old(uniformList)
    {
      ghost var props0 := properties;
      NothingDoneYet(props0, temp, builtins, conv);
      var rest, done := temp.Keys, {};
      while rest != {}
        invariant rest == temp.Keys - done && done <= temp.Keys
        invariant properties == AfterNew(props0, temp, done, builtins, conv)
        invariant uniformList == old(uniformList)
        decreases rest
      {
        var n :| n in rest;
        NewUniform(props0, temp, done, n);
        rest, done := rest - {n}, done + {n};
      }
    }

    /** One pass of the `_handleNewUniforms` loop, for the uniform `n`. */
    method NewUniform(ghost props0: map<Name, Variant>, temp: UniformCollection, ghost done: set<Name>, n: Name)
      requires KnownTypes(conv) && n in temp && n !in done
      requires properties == AfterNew(props0, temp, done, builtins, conv)
      modifies this
      ensures properties == AfterNew(props0, temp, done + {n}, builtins, conv)
      ensures uniformList == old(uniformList)
    {
      var qtype := conv.metaType(temp[n]);
      KnownTypeAt(conv, temp[n]);
      AfterNewStep(props0, temp, done, builtins, conv, n);
      if n !in builtins {
        properties := SetProperty(properties, n, DefaultOf(qtype));
      }
    }

    /** `_handleKeptUniforms`: every custom uniform of `temp` whose stored
      type differs from its declared type is converted, or replaced by a
      default value when no conversion exists. */
    method HandleKept(temp: UniformCollection)
      requires KnownTypes(conv)
      modifies this
      ensures properties == AfterKept(old(properties), temp, temp.Keys, builtins, conv)
      ensures uniformList == old(uniformList)
    {
      ghost var props0 := properties;
      NothingDoneYet(props0, temp, builtins, conv);
      var rest, done := temp.Keys, {};
      while rest != {}
        invariant rest == temp.Keys - done && done <= temp.Keys
        invariant properties == AfterKept(props0, temp, done, builtins, conv)
        invariant uniformList == old(uniformList)
        decreases rest
      {
        var n :| n in rest;
        KeptUniform(props0, temp, done, n);
        rest, done := rest - {n}, done + {n};
      }
    }

    /** One pass of the `_handleKeptUniforms` loop, for the uniform `n`. */
    method KeptUniform(ghost props0: map<Name, Variant>, temp: UniformCollection, ghost done: set<Name>, n: Name)
      requires KnownTypes(conv) && n in temp && n !in done
      requires properties == AfterKept(props0, temp, done, builtins, conv)
      modifies this
      ensures properties == AfterKept(props0, temp, done + {n}, builtins, conv)
      ensures uniformList == old(uniformList)
    {
      var t := conv.metaType(temp[n]);
      KnownTypeAt(conv, temp[n]);
      AfterKeptStep(props0, temp, done, builtins, conv, n);
      var prop := Property(properties, n);
      if n !in builtins {
        if prop.userType != t {
          if conv.canConvert(prop, t) {
            prop := Variant(t, conv.convertValue(prop, t));
          } else {
            prop := DefaultOf(t);
          }
          properties := SetProperty(properties, n, prop);
        }
      }
    }
  }
}
