/**
 * Attribute lookup with a default (AttributeHelpers): project the member's attribute of the
 * requested kind through a selector, or fall back to the caller's default when there is none.
 */
module AttributeHelpers {
  import opened Wrappers

  /**
   * A member as reflection sees it: its name and its custom attributes, those declared on it
   * followed by those it inherits. `A` is the universe of attribute records.
   */
  datatype MemberInfo<A> = MemberInfo(name: string, attributes: seq<A>)

  /** The wrapper the public overloads return (its own members are not part of this model). */
  datatype AttributeValue<V> = AttributeValue(value: V)

  /**
   * GetCustomAttribute<TAttribute>(inherit: true): the first attribute that is a TAttribute;
   * `ofKind` is the type test `attribute is TAttribute`.
   */
  function FindAttribute<A>(attributes: seq<A>, ofKind: A -> bool): (r: Option<A>)
    ensures r.None? <==> forall i | 0 <= i < |attributes| :: !ofKind(attributes[i])
    ensures r.Some? ==> ofKind(r.value) && exists i | 0 <= i < |attributes| ::
      attributes[i] == r.value && forall j | 0 <= j < i :: !ofKind(attributes[j])
  {
    if |attributes| == 0 then None
    else if ofKind(attributes[0]) then Some(attributes[0])
    else
      var r := FindAttribute(attributes[1..], ofKind);
      assert forall i | 1 <= i < |attributes| :: attributes[i] == attributes[1..][i - 1];
      r
  }

  /**
   * GetAttributeValueOrDefaultInternal: rejects a null member, then a null selector; otherwise
   * (false, default) when the attribute is absent and (true, selector(attribute)) when present.
   * `zero` stands for default(TValue).
   */
  function GetAttributeValueOrDefaultInternal<A, V>(
    info: Option<MemberInfo<A>>, ofKind: A -> bool, valueSelector: Option<A -> V>, zero: V)
    : (r: Result<(bool, V), ArgumentError>)
    ensures info.None? ==> r == Failure(ArgumentNull("info"))
    ensures info.Some? && valueSelector.None? ==> r == Failure(ArgumentNull("valueSelector"))
    ensures info.Some? && valueSelector.Some? ==>
      r.Success? &&
      match FindAttribute(info.value.attributes, ofKind)
      case None => r.value == (false, zero)
      case Some(a) => r.value == (true, valueSelector.value(a))
  {
    if info.None? then Failure(ArgumentNull("info"))
    else if valueSelector.None? then Failure(ArgumentNull("valueSelector"))
    else match FindAttribute(info.value.attributes, ofKind)
      case None => Success((false, zero))
      case Some(a) => Success((true, valueSelector.value(a)))
  }

  /** GetAttributeValueOrDefault(info, valueSelector, defaultValue). */
  function GetAttributeValueOrDefault<A, V>(
    info: Option<MemberInfo<A>>, ofKind: A -> bool, valueSelector: Option<A -> V>,
    defaultValue: V, zero: V)
    : (r: Result<AttributeValue<V>, ArgumentError>)
    ensures info.None? ==> r == Failure(ArgumentNull("info"))
    ensures info.Some? && valueSelector.None? ==> r == Failure(ArgumentNull("valueSelector"))
    ensures info.Some? && valueSelector.Some? ==>
      r.Success? &&
      match FindAttribute(info.value.attributes, ofKind)
      case None => r.value.value == defaultValue
      case Some(a) => r.value.value == valueSelector.value(a)
  {
    match GetAttributeValueOrDefaultInternal(info, ofKind, valueSelector, zero)
    case Failure(e) => Failure(e)
    case Success(found) =>
      var (hasAttribute, value) := found;
      Success(AttributeValue(if hasAttribute then value else defaultValue))
  }

  /** GetAttributeValueOrDefault(info, valueSelector): the default is default(TValue). */
  function GetAttributeValueOrTypeDefault<A, V>(
    info: Option<MemberInfo<A>>, ofKind: A -> bool, valueSelector: Option<A -> V>, zero: V)
    : (r: Result<AttributeValue<V>, ArgumentError>)
    ensures r == GetAttributeValueOrDefault(info, ofKind, valueSelector, zero, zero)
    ensures (info.Some? && valueSelector.Some? && FindAttribute(info.value.attributes, ofKind).None?)
      ==> r == Success(AttributeValue(zero))
  {
    GetAttributeValueOrDefault(info, ofKind, valueSelector, zero, zero)
  }

  /**
   * A present attribute yields the selector's value, even when that value is the default;
   * an absent one yields the default and is not an error.
   */
  lemma {:induction false} PresentOrDefault<A, V>(
    m: MemberInfo<A>, ofKind: A -> bool, sel: A -> V, defaultValue: V, zero: V, k: nat)
    requires k < |m.attributes| && ofKind(m.attributes[k])
    requires forall j | 0 <= j < k :: !ofKind(m.attributes[j])
    ensures GetAttributeValueOrDefault(Some(m), ofKind, Some(sel), defaultValue, zero)
      == Success(AttributeValue(sel(m.attributes[k])))
  {
    FirstMatchIsFound(m.attributes, ofKind, k);
  }

  /** The lookup returns exactly the first attribute of the requested kind. */
  lemma {:induction false} FirstMatchIsFound<A>(attributes: seq<A>, ofKind: A -> bool, k: nat)
    requires k < |attributes| && ofKind(attributes[k])
    requires forall j | 0 <= j < k :: !ofKind(attributes[j])
    ensures FindAttribute(attributes, ofKind) == Some(attributes[k])
  {
    if k > 0 {
      FirstMatchIsFound(attributes[1..], ofKind, k - 1);
    }
  }

  /** Absence gives the caller's default, whatever the selector is: the selector is not consulted. */
  lemma AbsentIgnoresSelector<A, V>(
    m: MemberInfo<A>, ofKind: A -> bool, sel1: A -> V, sel2: A -> V, defaultValue: V, zero: V)
    requires forall i | 0 <= i < |m.attributes| :: !ofKind(m.attributes[i])
    ensures GetAttributeValueOrDefault(Some(m), ofKind, Some(sel1), defaultValue, zero)
      == GetAttributeValueOrDefault(Some(m), ofKind, Some(sel2), defaultValue, zero)
      == Success(AttributeValue(defaultValue))
  {
  }

  /**
   * Attributes declared on the member take precedence over inherited ones: the lookup over
   * `declared + inherited` is the lookup over `declared`, falling back to `inherited`.
   */
  lemma {:induction false} DeclaredBeforeInherited<A>(declared: seq<A>, inherited: seq<A>, ofKind: A -> bool)
    ensures FindAttribute(declared + inherited, ofKind)
      == match FindAttribute(declared, ofKind)
         case Some(a) => Some(a)
         case None => FindAttribute(inherited, ofKind)
  {
    if declared != [] {
      assert (declared + inherited)[0] == declared[0];
      assert (declared + inherited)[1..] == declared[1..] + inherited;
      DeclaredBeforeInherited(declared[1..], inherited, ofKind);
    } else {
      assert declared + inherited == inherited;
    }
  }
}
