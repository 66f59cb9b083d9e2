/**
 * The form-field controller FormEditorBase<T>: one tracked value `_value`, committed through an
 * equality check that suppresses redundant ValueChanged notifications, raw input converted to T
 * by an ordered four-case dispatch, and a clear-yield-restore revert when conversion fails.
 * Awaits are sequential steps; Task.Delay is a no-op step.
 */
module FormEditor {
  import opened Wrappers
  import TypeHelpers

  /** The payload of a change event (ChangeEventArgs.Value): null, a string, or another object. */
  datatype RawInput = Null | Text(s: string) | Boxed(repr: string)

  /** A conversion of raw input to T; `None` means the conversion threw. */
  type Conversion<T> = RawInput -> Option<T>

  /** The CustomValidator callback: an error message, or none. */
  type CustomRule<!T> = T -> Option<string>

  /** What MemberMetadataProvider.Create derives from the bound member. */
  datatype Metadata = Metadata(
    labelText: Option<string>,
    note: Option<string>,
    title: Option<string>,
    placeholder: Option<string>,
    hasRequiredAttribute: bool)

  /** One call made on MemberValidatorBuilder, in the order it was made. */
  datatype ValidationSource<!T> =
    | AttributeValidation(provider: Metadata, labelText: Option<string>)
    | CustomValidation(rule: Option<CustomRule<T>>)

  /** `_memberValidator`: the no-op validator, or what the builder was given before Build(). */
  datatype MemberValidator<!T> = NonValidator | Built(sources: seq<ValidationSource<T>>)

  /** A value in a ParameterView, tagged with the type of the parameter it is meant for. */
  datatype ParameterValue<!T> =
    | TextValue(text: Option<string>)
    | FlagValue(flag: bool)
    | FieldValue(value: T)
    | MemberValue(metadata: Metadata)
    | ComparerValue(comparer: (T, T) -> bool)
    | ConverterValue(converter: Option<Conversion<T>>)
    | ValidatorValue(validator: Option<CustomRule<T>>)

  /**
   * The names a ParameterView may carry: the component's own parameters (their `nameof`), or a
   * name that belongs to the base component.
   */
  datatype ParameterName =
    | ValueName | ValueExpressionName | EqualityComparerName | TypeConverterName
    | CustomValidatorName | LabelName | NoteName | TitleName | PlaceholderName | IdName
    | IsRequiredName | OtherName(name: string)

  /** ParameterView: parameter name to value. */
  type ParameterView<!T> = map<ParameterName, ParameterValue<T>>

  /** Every recognised parameter carries a value of its declared type, as the framework ensures. */
  ghost predicate WellTyped<T>(p: ParameterView<T>) {
    && (LabelName in p ==> p[LabelName].TextValue?)
    && (NoteName in p ==> p[NoteName].TextValue?)
    && (TitleName in p ==> p[TitleName].TextValue?)
    && (PlaceholderName in p ==> p[PlaceholderName].TextValue?)
    && (IdName in p ==> p[IdName].TextValue?)
    && (IsRequiredName in p ==> p[IsRequiredName].FlagValue?)
    && (ValueName in p ==> p[ValueName].FieldValue?)
    && (ValueExpressionName in p ==> p[ValueExpressionName].MemberValue?)
    && (EqualityComparerName in p ==> p[EqualityComparerName].ComparerValue?)
    && (TypeConverterName in p ==> p[TypeConverterName].ConverterValue?)
    && (CustomValidatorName in p ==> p[CustomValidatorName].ValidatorValue?)
  }

  /** The component's [Parameter] properties. */
  datatype Properties<!T> = Properties(
    value: T,
    valueExpression: Option<Metadata>,
    equalityComparer: (T, T) -> bool,
    typeConverter: Option<Conversion<T>>,
    customValidator: Option<CustomRule<T>>,
    labelText: Option<string>,
    note: Option<string>,
    title: Option<string>,
    placeholder: Option<string>,
    id: Option<string>,
    isRequired: bool)

  /** The framework's assignment of the parameters present in `p` to their properties. */
  function Assigned<T>(p: ParameterView<T>, props: Properties<T>): Properties<T>
    requires WellTyped(p)
  {
    Properties(
      if ValueName in p then p[ValueName].value else props.value,
      if ValueExpressionName in p then Some(p[ValueExpressionName].metadata) else props.valueExpression,
      if EqualityComparerName in p then p[EqualityComparerName].comparer else props.equalityComparer,
      if TypeConverterName in p then p[TypeConverterName].converter else props.typeConverter,
      if CustomValidatorName in p then p[CustomValidatorName].validator else props.customValidator,
      TextOr(p, LabelName, props.labelText),
      TextOr(p, NoteName, props.note),
      TextOr(p, TitleName, props.title),
      TextOr(p, PlaceholderName, props.placeholder),
      TextOr(p, IdName, props.id),
      if IsRequiredName in p then p[IsRequiredName].flag else props.isRequired)
  }

  /** The text a string parameter is given by `p`, or `current` when `p` does not mention it. */
  function TextOr<T>(p: ParameterView<T>, name: ParameterName, current: Option<string>): Option<string>
    requires name in p ==> p[name].TextValue?
  {
    if name in p then p[name].text else current
  }

  /** The id OnInitialized makes up when no Id is given: "_" followed by a new GUID's text. */
  function GeneratedId(guid: string): string {
    "_" + guid
  }

  /** C#'s `a ?? b` on strings. */
  function Coalesce(a: Option<string>, b: Option<string>): Option<string> {
    if a.Some? then a else b
  }

  /** The five display fields `_label`, `_note`, `_title`, `_placeholder`, `_id`. */
  datatype Display = Display(
    labelText: Option<string>,
    note: Option<string>,
    title: Option<string>,
    placeholder: Option<string>,
    id: Option<string>)

  /** The five TrySetParameterField calls of SetParametersAsync. */
  function Overridden<T>(p: ParameterView<T>, d: Display): Display
    requires WellTyped(p)
  {
    Display(TextOr(p, LabelName, d.labelText), TextOr(p, NoteName, d.note), TextOr(p, TitleName, d.title),
            TextOr(p, PlaceholderName, d.placeholder), TextOr(p, IdName, d.id))
  }

  /** OnInitialized on the display fields: `??=` from the metadata, and the id from Id or a new one. */
  function Initialized(d: Display, provider: Metadata, idParameter: Option<string>, guid: string): Display {
    Display(Coalesce(d.labelText, provider.labelText), Coalesce(d.note, provider.note),
            Coalesce(d.title, provider.title), Coalesce(d.placeholder, provider.placeholder),
            Coalesce(idParameter, Some(GeneratedId(guid))))
  }

  /**
   * The display fields after the first parameter push, starting from all-null fields: an
   * explicit non-null parameter wins, else the member's metadata, else null; the id is the Id
   * parameter when non-null, else a generated one.
   */
  lemma {:induction false} FirstPushPrecedence<T>(p: ParameterView<T>, provider: Metadata, idParameter: Option<string>, guid: string)
    requires WellTyped(p)
    requires IdName in p ==> idParameter == p[IdName].text
    ensures var d := Initialized(Overridden(p, Display(None, None, None, None, None)), provider, idParameter, guid);
      && d.labelText == (if LabelName in p && p[LabelName].text.Some? then p[LabelName].text else provider.labelText)
      && d.note == (if NoteName in p && p[NoteName].text.Some? then p[NoteName].text else provider.note)
      && d.title == (if TitleName in p && p[TitleName].text.Some? then p[TitleName].text else provider.title)
      && d.placeholder == (if PlaceholderName in p && p[PlaceholderName].text.Some? then p[PlaceholderName].text else provider.placeholder)
      && d.id == (if idParameter.Some? then idParameter else Some(GeneratedId(guid)))
  {
  }

  /**
   * Metadata fills the display fields at initialisation only. A Label parameter that is present
   * but null lets the metadata label through on the first push, and clears it on any later push.
   */
  lemma NullLabelOnLaterPushDropsMetadata<T>(p: ParameterView<T>, provider: Metadata, idParameter: Option<string>, guid: string)
    requires WellTyped(p) && LabelName in p && p[LabelName].text.None? && provider.labelText.Some?
    ensures var first := Initialized(Overridden(p, Display(None, None, None, None, None)), provider, idParameter, guid);
      first.labelText == provider.labelText && Overridden(p, first).labelText.None?
  {
  }

  // ---------------------------------------------------------------------------------------------
  // Conversion of raw input (TryGetValue)
  // ---------------------------------------------------------------------------------------------

  /** Char.IsWhiteSpace: the Unicode space, line and paragraph separators, U+0009-U+000D, U+0085. */
  predicate IsWhiteSpace(c: char): (r: bool)
    ensures c == ' ' || c == '\t' || c == '\n' || c == '\r' ==> r
    ensures r ==> !('0' <= c <= '9') && !('A' <= c <= 'Z') && !('a' <= c <= 'z')
  {
    || ('\t' <= c <= '\r')
    || c == ' ' || c == '\U{0085}' || c == '\U{00A0}' || c == '\U{1680}'
    || ('\U{2000}' <= c <= '\U{200A}')
    || c == '\U{2028}' || c == '\U{2029}' || c == '\U{202F}' || c == '\U{205F}' || c == '\U{3000}'
  }

  /** string.IsNullOrWhiteSpace on a non-null string: empty, or white space throughout. */
  predicate IsBlank(s: string): (r: bool)
    ensures s == [] ==> r
    ensures r <==> forall c | c in s :: IsWhiteSpace(c)
  {
    forall i | 0 <= i < |s| :: IsWhiteSpace(s[i])
  }

  /**
   * TryGetValue: null gives default; a blank string gives default unless T is string; otherwise
   * the caller's TypeConverter when there is one, else the default conversion. A conversion
   * that throws gives (false, default). `zero` is default(T).
   */
  function TryGetValue<T>(
    input: RawInput, isStringValue: bool, typeConverter: Option<Conversion<T>>,
    convertFrom: Conversion<T>, zero: T)
    : (r: (bool, T))
    ensures !r.0 ==> r.1 == zero
    ensures input.Null? ==> r == (true, zero)
    ensures input.Text? && !isStringValue && IsBlank(input.s) ==> r == (true, zero)
  {
    if input.Null? then (true, zero)
    else if input.Text? && !isStringValue && IsBlank(input.s) then (true, zero)
    else
      var converted := if typeConverter.Some? then typeConverter.value(input) else convertFrom(input);
      match converted
      case Some(v) => (true, v)
      case None => (false, zero)
  }

  /** Whether `input` gets past the first two cases and reaches a converter. */
  predicate ReachesConverter(input: RawInput, isStringValue: bool) {
    !input.Null? && !(input.Text? && !isStringValue && IsBlank(input.s))
  }

  /**
   * A supplied TypeConverter takes precedence: once input reaches the converters, the outcome
   * is the TypeConverter's, and the default conversion is never consulted.
   */
  lemma TypeConverterPrecedence<T>(
    input: RawInput, isStringValue: bool, converter: Conversion<T>,
    convertFrom1: Conversion<T>, convertFrom2: Conversion<T>, zero: T)
    requires ReachesConverter(input, isStringValue)
    ensures TryGetValue(input, isStringValue, Some(converter), convertFrom1, zero)
      == TryGetValue(input, isStringValue, Some(converter), convertFrom2, zero)
    ensures TryGetValue(input, isStringValue, Some(converter), convertFrom1, zero).0
      <==> converter(input).Some?
    ensures converter(input).Some? ==>
      TryGetValue(input, isStringValue, Some(converter), convertFrom1, zero).1 == converter(input).value
  {
  }

  /** Without a TypeConverter the default conversion decides, and its failure is reported. */
  lemma DefaultConversionLast<T>(
    input: RawInput, isStringValue: bool, convertFrom: Conversion<T>, zero: T)
    requires ReachesConverter(input, isStringValue)
    ensures TryGetValue(input, isStringValue, None, convertFrom, zero)
      == if convertFrom(input).Some? then (true, convertFrom(input).value) else (false, zero)
  {
  }

  /** For a string field even blank text goes to the converters; for null nothing does. */
  lemma StringFieldKeepsBlankText(s: string)
    ensures ReachesConverter(Text(s), true)
    ensures !ReachesConverter(Null, true) && !ReachesConverter(Null, false)
    ensures IsBlank(s) ==> !ReachesConverter(Text(s), false)
  {
  }

  // ---------------------------------------------------------------------------------------------
  // The commit path, as functions on (value, notifications emitted)
  // ---------------------------------------------------------------------------------------------

  /** The tracked value after a step, and the ValueChanged notifications the step emitted. */
  datatype Step<T> = Step(value: T, emitted: seq<T>)

  ghost predicate Reflexive<T(!new)>(eq: (T, T) -> bool) {
    forall x :: eq(x, x)
  }

  ghost predicate Symmetric<T(!new)>(eq: (T, T) -> bool) {
    forall x, y :: eq(x, y) ==> eq(y, x)
  }

  /** What IEqualityComparer<T> implementations promise (transitivity is not needed here). */
  ghost predicate Equivalence<T(!new)>(eq: (T, T) -> bool) {
    Reflexive(eq) && Symmetric(eq)
  }

  /** SetValueAsync on the value `current`. */
  function Commit<T>(eq: (T, T) -> bool, current: T, v: T): (r: Step<T>)
    ensures r.emitted == [] <==> eq(current, v)
    ensures r.emitted == [] ==> r.value == current
    ensures r.emitted != [] ==> r.emitted == [v] && r.value == v
  {
    if eq(current, v) then Step(current, []) else Step(v, [v])
  }

  /** ResetToCurrentValueAsync on the value `current`: commit default, yield, commit `current`. */
  function Revert<T>(eq: (T, T) -> bool, current: T, zero: T): (r: Step<T>)
    ensures r.value == current || r.value == zero
    ensures |r.emitted| <= 2
    ensures r.emitted != [] ==> r.emitted[|r.emitted| - 1] == r.value
  {
    var cleared := Commit(eq, current, zero);
    var restored := Commit(eq, cleared.value, current);
    Step(restored.value, cleared.emitted + restored.emitted)
  }

  /** EditorChangedAsync given the outcome of TryGetValue. */
  function EditorChanged<T>(eq: (T, T) -> bool, current: T, zero: T, converted: (bool, T)): (r: Step<T>)
    ensures converted.0 ==> |r.emitted| <= 1 && (r.value == current || r.value == converted.1)
    ensures !converted.0 ==> r.value == current || r.value == zero
    ensures r.emitted != [] ==> r.emitted[|r.emitted| - 1] == r.value
  {
    if converted.0 then Commit(eq, current, converted.1) else Revert(eq, current, zero)
  }

  /** A commit the comparer calls equal is suppressed; any other stores the value and notifies once. */
  lemma {:induction false} CommitSuppressesEqual<T>(eq: (T, T) -> bool, current: T, v: T)
    ensures eq(current, v) <==> Commit(eq, current, v) == Step(current, [])
    ensures !eq(current, v) <==> Commit(eq, current, v) == Step(v, [v])
    ensures |Commit(eq, current, v).emitted| <= 1
  {
    if eq(current, v) {
      assert Commit(eq, current, v).emitted == [];
      assert Commit(eq, current, v) != Step(v, [v]);
    } else {
      assert Commit(eq, current, v).emitted == [v];
      assert Commit(eq, current, v) != Step(current, []);
    }
  }

  /** Committing the same value twice in a row notifies at most once: the second is suppressed. */
  lemma CommitTwiceNotifiesOnce<T(!new)>(eq: (T, T) -> bool, current: T, v: T)
    requires Reflexive(eq)
    ensures Commit(eq, Commit(eq, current, v).value, v).emitted == []
    ensures |Commit(eq, current, v).emitted + Commit(eq, Commit(eq, current, v).value, v).emitted| <= 1
  {
  }

  /**
   * The revert restores the value it started from. It notifies [default, value] when the value
   * differs from default, and nothing at all when the comparer finds it equal to default.
   */
  lemma RevertRestores<T(!new)>(eq: (T, T) -> bool, current: T, zero: T)
    requires Equivalence(eq)
    ensures Revert(eq, current, zero).value == current
    ensures !eq(current, zero) ==> Revert(eq, current, zero).emitted == [zero, current]
    ensures eq(current, zero) ==> Revert(eq, current, zero).emitted == []
  {
  }

  /** A comparer that is reflexive but also calls default equal to everything. */
  function DefaultAbsorbing(x: int, y: int): bool {
    x == y || x == 0
  }

  /**
   * Symmetry is needed: a comparer that is reflexive but not symmetric can strand the field on
   * default, because the restore is compared from default's side.
   */
  lemma RevertNeedsSymmetry()
    ensures Reflexive(DefaultAbsorbing) && !Symmetric(DefaultAbsorbing)
    ensures Revert(DefaultAbsorbing, 5, 0).value == 0
    ensures Revert(DefaultAbsorbing, 5, 0).emitted == [0]
  {
    assert DefaultAbsorbing(0, 5) && !DefaultAbsorbing(5, 0);
  }

  /** Input that cannot be converted leaves the value where it was. */
  lemma FailedEditKeepsValue<T(!new)>(
    eq: (T, T) -> bool, current: T, zero: T, input: RawInput, isStringValue: bool,
    typeConverter: Option<Conversion<T>>, convertFrom: Conversion<T>)
    requires Equivalence(eq)
    requires !TryGetValue(input, isStringValue, typeConverter, convertFrom, zero).0
    ensures EditorChanged(eq, current, zero, TryGetValue(input, isStringValue, typeConverter, convertFrom, zero))
      == Revert(eq, current, zero)
    ensures EditorChanged(eq, current, zero, TryGetValue(input, isStringValue, typeConverter, convertFrom, zero)).value
      == current
  {
    RevertRestores(eq, current, zero);
  }

  /** Blank text in a non-string field commits default, which is silent when default is current. */
  lemma BlankEditCommitsDefault<T(!new)>(
    eq: (T, T) -> bool, current: T, zero: T, s: string,
    typeConverter: Option<Conversion<T>>, convertFrom: Conversion<T>)
    requires IsBlank(s)
    ensures EditorChanged(eq, current, zero, TryGetValue(Text(s), false, typeConverter, convertFrom, zero))
      == Commit(eq, current, zero)
    ensures eq(current, zero) ==>
      EditorChanged(eq, current, zero, TryGetValue(Text(s), false, typeConverter, convertFrom, zero)).emitted == []
  {
  }

  /** `s` followed by a step taken from its value: the step's notifications are appended. */
  function Then<T>(s: Step<T>, next: Step<T>): Step<T> {
    Step(next.value, s.emitted + next.emitted)
  }

  /** SetValueAsync applied to each of `vs` in turn, starting from `s`. */
  function CommitAll<T>(eq: (T, T) -> bool, s: Step<T>, vs: seq<T>): Step<T>
    decreases |vs|
  {
    if vs == [] then s else CommitAll(eq, Then(s, Commit(eq, s.value, vs[0])), vs[1..])
  }

  /**
   * What a component observing ValueChanged sees: the last notification carries the current
   * value, and no notification is followed by one the comparer calls equal to it.
   */
  ghost predicate Consistent<T>(eq: (T, T) -> bool, s: Step<T>) {
    (s.emitted != [] ==> s.emitted[|s.emitted| - 1] == s.value) &&
    forall i | 0 <= i < |s.emitted| - 1 :: !eq(s.emitted[i], s.emitted[i + 1])
  }

  /** One commit keeps the notification history consistent. */
  lemma {:induction false} CommitKeepsConsistent<T>(eq: (T, T) -> bool, s: Step<T>, v: T)
    requires Consistent(eq, s)
    ensures Consistent(eq, Then(s, Commit(eq, s.value, v)))
  {
    var t := Then(s, Commit(eq, s.value, v));
    if !eq(s.value, v) {
      assert t.emitted == s.emitted + [v];
      forall i | 0 <= i < |t.emitted| - 1
        ensures !eq(t.emitted[i], t.emitted[i + 1])
      {
        if i == |s.emitted| - 1 {
          assert t.emitted[i] == s.value && t.emitted[i + 1] == v;
        } else {
          assert t.emitted[i] == s.emitted[i] && t.emitted[i + 1] == s.emitted[i + 1];
        }
      }
    } else {
      assert t.emitted == s.emitted;
    }
  }

  /**
   * Any run of SetValueAsync calls keeps the notification history consistent, and emits at most
   * one notification per call.
   */
  lemma {:induction false} CommitsKeepConsistent<T>(eq: (T, T) -> bool, s: Step<T>, vs: seq<T>)
    requires Consistent(eq, s)
    ensures Consistent(eq, CommitAll(eq, s, vs))
    ensures |s.emitted| <= |CommitAll(eq, s, vs).emitted| <= |s.emitted| + |vs|
    decreases |vs|
  {
    if vs != [] {
      CommitKeepsConsistent(eq, s, vs[0]);
      CommitsKeepConsistent(eq, Then(s, Commit(eq, s.value, vs[0])), vs[1..]);
    }
  }

  /**
   * A change event, including the clear-and-restore revert, also keeps the history consistent:
   * the revert is two commits.
   */
  lemma {:induction false} EditKeepsConsistent<T>(eq: (T, T) -> bool, s: Step<T>, zero: T, converted: (bool, T))
    requires Consistent(eq, s)
    ensures Consistent(eq, Then(s, EditorChanged(eq, s.value, zero, converted)))
  {
    if converted.0 {
      CommitKeepsConsistent(eq, s, converted.1);
    } else {
      var cleared := Then(s, Commit(eq, s.value, zero));
      CommitKeepsConsistent(eq, s, zero);
      CommitKeepsConsistent(eq, cleared, s.value);
      assert Then(s, Revert(eq, s.value, zero)) == Then(cleared, Commit(eq, cleared.value, s.value));
    }
  }

  // ---------------------------------------------------------------------------------------------
  // The component
  // ---------------------------------------------------------------------------------------------

  class FormEditorBase<T(!new)> {
    /** typeof(T). */
    const valueType: TypeHelpers.TypeDesc
    /** default(T). */
    const zero: T
    /** EditorHelpers.ConvertFrom<T>. */
    const convertFrom: Conversion<T>
    /** `_isStringValue`: typeof(T).Is<string>(). */
    const isStringValue: bool

    /** The [Parameter] properties. */
    var properties: Properties<T>

    /** `_value`. */
    var value: T
    /** `_label`, `_note`, `_title`, `_placeholder`, `_id`. */
    var labelText: Option<string>
    var note: Option<string>
    var title: Option<string>
    var placeholder: Option<string>
    var id: Option<string>
    /** `_hasRequiredAttribute`. */
    var hasRequiredAttribute: bool
    /** `_memberValidator`. */
    var memberValidator: MemberValidator<T>
    /** Whether the framework has run the initialisation step (ComponentBase's flag). */
    var initialized: bool
    /** Every ValueChanged invocation, in order. */
    ghost var notifications: seq<T>

    /** A fresh component: every field at its C# default. */
    constructor (valueType: TypeHelpers.TypeDesc, zero: T, defaultComparer: (T, T) -> bool,
                 convertFrom: Conversion<T>)
      ensures this.valueType == valueType && this.zero == zero && this.convertFrom == convertFrom
      ensures isStringValue <==> TypeHelpers.Is(TypeHelpers.StringType, Some(valueType)) == Success(true)
      ensures isStringValue <==> valueType == TypeHelpers.StringType
      ensures properties == Properties(zero, None, defaultComparer, None, None, None, None, None, None, None, false)
      ensures value == zero && DisplayState() == Display(None, None, None, None, None)
      ensures !hasRequiredAttribute && memberValidator.NonValidator? && !initialized
      ensures notifications == []
    {
      this.valueType := valueType;
      this.zero := zero;
      this.convertFrom := convertFrom;
      isStringValue := TypeHelpers.Is(TypeHelpers.StringType, Some(valueType)) == Success(true);
      properties := Properties(zero, None, defaultComparer, None, None, None, None, None, None, None, false);
      value := zero;
      labelText, note, title, placeholder, id := None, None, None, None, None;
      hasRequiredAttribute, memberValidator, initialized := false, NonValidator, false;
      notifications := [];
    }

    /** The display fields, as one value. */
    function DisplayState(): Display
      reads this
    {
      Display(labelText, note, title, placeholder, id)
    }

    /** `_isRequired`: the annotation alone makes the field required; without it, IsRequired decides. */
    predicate Required(): (r: bool)
      reads this
      ensures hasRequiredAttribute ==> r
      ensures !hasRequiredAttribute ==> r == properties.isRequired
    {
      hasRequiredAttribute || properties.isRequired
    }

    /** TrySetParameterField: the field takes the parameter's value only when the parameter is present. */
    static method TrySetParameterField(parameters: ParameterView<T>, parameterName: ParameterName, field: Option<string>)
      returns (updated: Option<string>)
      requires parameterName in parameters ==> parameters[parameterName].TextValue?
      ensures parameterName in parameters ==> updated == parameters[parameterName].text
      ensures parameterName !in parameters ==> updated == field
    {
      updated := field;
      if parameterName in parameters {
        updated := parameters[parameterName].text;
      }
    }

    /**
     * SetParametersAsync: copy the present display parameters into their fields, then the base
     * lifecycle: assign the properties, initialise on the first call, and refresh the value.
     * `guid` stands for Guid.NewGuid().
     */
    method SetParametersAsync(parameters: ParameterView<T>, guid: string)
      requires WellTyped(parameters)
      requires !initialized ==> ValueExpressionName in parameters || properties.valueExpression.Some?
      modifies this
      ensures initialized && notifications == old(notifications)
      ensures properties == Assigned(parameters, old(properties))
      ensures value == properties.value
      ensures old(initialized) ==>
        && DisplayState() == Overridden(parameters, old(DisplayState()))
        && hasRequiredAttribute == old(hasRequiredAttribute)
        && (Required() <==> old(hasRequiredAttribute) || properties.isRequired)
        && memberValidator == old(memberValidator)
      ensures !old(initialized) ==>
        && properties.valueExpression.Some?
        && DisplayState() == Initialized(Overridden(parameters, old(DisplayState())),
                                         properties.valueExpression.value, properties.id, guid)
        && hasRequiredAttribute == properties.valueExpression.value.hasRequiredAttribute
        && (Required() <==> properties.valueExpression.value.hasRequiredAttribute || properties.isRequired)
        && memberValidator == Built([AttributeValidation(properties.valueExpression.value, labelText),
                                     CustomValidation(properties.customValidator)])
    {
      SetParameterFields(parameters);
      // base.SetParametersAsync
      properties := Assigned(parameters, properties);
      if !initialized {
        initialized := true;
        OnInitialized(guid);
      }
      OnParametersSet();
    }

    /** The five TrySetParameterField calls: each display parameter present overwrites its field. */
    method SetParameterFields(parameters: ParameterView<T>)
      requires WellTyped(parameters)
      modifies this`labelText, this`note, this`title, this`placeholder, this`id
      ensures DisplayState() == Overridden(parameters, old(DisplayState()))
    {
      labelText := TrySetParameterField(parameters, LabelName, labelText);
      note := TrySetParameterField(parameters, NoteName, note);
      title := TrySetParameterField(parameters, TitleName, title);
      placeholder := TrySetParameterField(parameters, PlaceholderName, placeholder);
      id := TrySetParameterField(parameters, IdName, id);
    }

    /** OnParametersSet: `_value` takes `Value` unconditionally, with no comparison and no notification. */
    method OnParametersSet()
      modifies this`value
      ensures value == properties.value
    {
      value := properties.value;
    }

    /**
     * OnInitialized: the required flag and the display fields still null come from the member's
     * metadata; the id is the Id parameter or a generated one; the validator is built from the
     * attribute rules and then the custom rule.
     */
    method OnInitialized(guid: string)
      requires properties.valueExpression.Some?
      modifies this`hasRequiredAttribute, this`labelText, this`note, this`title, this`placeholder,
        this`id, this`memberValidator
      ensures hasRequiredAttribute == properties.valueExpression.value.hasRequiredAttribute
      ensures Required() <==> properties.valueExpression.value.hasRequiredAttribute || properties.isRequired
      ensures DisplayState() == Initialized(old(DisplayState()), properties.valueExpression.value, properties.id, guid)
      ensures old(labelText).Some? ==> labelText == old(labelText)
      ensures memberValidator == Built([AttributeValidation(properties.valueExpression.value, labelText),
                                        CustomValidation(properties.customValidator)])
    {
      var provider := properties.valueExpression.value;
      hasRequiredAttribute := provider.hasRequiredAttribute;
      labelText := Coalesce(labelText, provider.labelText);
      note := Coalesce(note, provider.note);
      title := Coalesce(title, provider.title);
      placeholder := Coalesce(placeholder, provider.placeholder);
      id := Coalesce(properties.id, Some(GeneratedId(guid)));
      memberValidator := Built([AttributeValidation(provider, labelText), CustomValidation(properties.customValidator)]);
    }

    /**
     * SetValueAsync: a value the comparer calls equal to the current one is dropped; any other
     * becomes the current value and is announced through ValueChanged exactly once.
     */
    method SetValueAsync(v: T)
      modifies this`value, this`notifications
      ensures properties.equalityComparer(old(value), v) ==> value == old(value) && notifications == old(notifications)
      ensures !properties.equalityComparer(old(value), v) ==> value == v && notifications == old(notifications) + [v]
      ensures value == Commit(properties.equalityComparer, old(value), v).value
      ensures notifications == old(notifications) + Commit(properties.equalityComparer, old(value), v).emitted
    {
      if properties.equalityComparer(value, v) {
        return;
      }
      value := v;
      notifications := notifications + [v];
    }

    /**
     * ResetToCurrentValueAsync: commit default, yield, commit the saved value. Under an
     * equivalence comparer the value ends where it started.
     */
    method ResetToCurrentValueAsync()
      modifies this`value, this`notifications
      ensures value == Revert(properties.equalityComparer, old(value), zero).value
      ensures notifications == old(notifications) + Revert(properties.equalityComparer, old(value), zero).emitted
      ensures Equivalence(properties.equalityComparer) ==> value == old(value)
      ensures Equivalence(properties.equalityComparer) && !properties.equalityComparer(old(value), zero)
        ==> notifications == old(notifications) + [zero, old(value)]
      ensures Equivalence(properties.equalityComparer) && properties.equalityComparer(old(value), zero)
        ==> notifications == old(notifications)
    {
      var saved := value;
      SetValueAsync(zero);
      // Task.Delay(1): a yield to the renderer, nothing in this model.
      SetValueAsync(saved);
      if Equivalence(properties.equalityComparer) {
        RevertRestores(properties.equalityComparer, saved, zero);
      }
    }

    /** EditorChangedAsync: commit the converted input, or revert when it does not convert. */
    method EditorChangedAsync(input: RawInput)
      modifies this`value, this`notifications
      ensures var converted := TryGetValue(input, isStringValue, properties.typeConverter, convertFrom, zero);
        && value == EditorChanged(properties.equalityComparer, old(value), zero, converted).value
        && notifications == old(notifications) + EditorChanged(properties.equalityComparer, old(value), zero, converted).emitted
      ensures Equivalence(properties.equalityComparer) && !TryGetValue(input, isStringValue, properties.typeConverter, convertFrom, zero).0
        ==> value == old(value)
    {
      var converted := TryGetValue(input, isStringValue, properties.typeConverter, convertFrom, zero);
      if converted.0 {
        SetValueAsync(converted.1);
      } else {
        ResetToCurrentValueAsync();
      }
    }

    /**
     * GetValidationErrorAsync: the built validator applied to the current value; `validate` stands
     * for MemberValidator.ValidateAsync. Nothing changes.
     */
    method GetValidationErrorAsync(validate: (MemberValidator<T>, T) -> Option<string>)
      returns (error: Option<string>)
      ensures error == validate(memberValidator, value)
    {
      error := validate(memberValidator, value);
    }
  }
}
