# BlazorDemo form-field controller, in Dafny

This project models the logic core of the BlazorDemo repository:

- **`FormEditorBase<T>`**: the generic Blazor form-field component (`form_editor.dfy`, module
  `FormEditor`). It tracks one value `_value` of type `T`. A commit is dropped when the
  component's `IEqualityComparer<T>` reports the new value equal to the current one; any other
  commit stores the value and invokes `ValueChanged` once. Raw input from a change event becomes
  a `T` through an ordered four-case dispatch:
  1. null gives `default(T)`;
  2. a blank string gives `default(T)` unless `T` is `string`;
  3. otherwise the caller's `TypeConverter` converts it, when there is one;
  4. otherwise the default conversion does.

  When the conversion throws, the component commits `default(T)`, yields, and commits the saved
  value again. This "clear, yield, restore" sequence makes the element redraw. Parameter pushes
  copy explicit display parameters into their fields. The first push also fills the fields that
  are still null from the bound member's metadata, fixes the id and builds the validator.
- **Attribute lookup with a default** (`attribute_helpers.dfy`, module `AttributeHelpers`).
  When the member carries an attribute of the requested kind, the result is the selector applied
  to it. When it does not, the result is the caller's default. A null member or selector is an
  argument error.
- **Type normalisation** (`type_helpers.dfy`, module `TypeHelpers`). It strips a `Nullable<>`
  wrapper and tests membership in the closed sets of numeric and date types.

`wrappers.dfy` holds `Option`, `Result` and the `ArgumentNullException` value shared by the three.

How the model represents the source:
- The component is a Dafny class. Its `[Parameter]` properties form one `Properties` record,
  which the framework's parameter assignment replaces. Its private fields are class fields.
  A ghost sequence `notifications` records every `ValueChanged` invocation.
- Awaits are sequential steps. `Task.Delay(1)` is a step that does nothing.
- The commit path is also stated as pure functions (`Commit`, `Revert`, `EditorChanged` on a
  `Step` of value and emitted notifications). The methods are proved against these functions,
  and the lemmas about the functions carry the properties.
- Type descriptors are a datatype. `NullableOf` wraps only a non-nullable struct kind, as
  `Nullable<T>` does.
- A member's custom attributes are a sequence: those declared on it, then those it inherits.
  "Attribute of kind `TAttribute`" is a predicate `ofKind` supplied by the caller.

Consequences of the source that the model makes explicit:
- When the current value already equals `default(T)` under the comparer, the revert emits no
  notification at all (`RevertRestores`). The element then has nothing that forces a redraw.
- Metadata is applied at initialisation only. A `Label` parameter that is present but null gives
  the metadata label on the first push, and clears the label on every later push
  (`NullLabelOnLaterPushDropsMetadata`).
- The revert can fail to restore the value when the comparer is reflexive but not symmetric.
  `RevertNeedsSymmetry` shows such a comparer that leaves the field on `default(T)`.

## Model

| member | source | states |
|---|---|---|
| TypeHelpers.Unwrap | BlazorDemo/Shared/Utility/TypeHelpers.cs:42 | a nullable type gives its underlying type; any other type is returned unchanged; the result is never nullable |
| TypeHelpers.GetType | BlazorDemo/Shared/Utility/TypeHelpers.cs:38-43 | a null type is rejected with ArgumentNull("type"); otherwise the result is the unwrapped type |
| TypeHelpers.GetTypeOf | BlazorDemo/Shared/Utility/TypeHelpers.cs:36 | GetType<T>() never fails and agrees with GetType(typeof(T)) |
| TypeHelpers.Is | BlazorDemo/Shared/Utility/TypeHelpers.cs:30 | Is<T>(type) compares typeof(T) with the unwrapped type; a null type is rejected |
| TypeHelpers.IsNumeric | BlazorDemo/Shared/Utility/TypeHelpers.cs:32 | rejects a null type and otherwise always answers |
| TypeHelpers.IsDate | BlazorDemo/Shared/Utility/TypeHelpers.cs:34 | rejects a null type and otherwise always answers |
| TypeHelpers.GetTypeIdempotent | BlazorDemo/Shared/Utility/TypeHelpers.cs:38-43 | normalising an already normalised type is the identity |
| TypeHelpers.IsNumericExactly | BlazorDemo/Shared/Utility/TypeHelpers.cs:8-32 | IsNumeric holds exactly for the eleven numeric kinds and their nullable forms |
| TypeHelpers.IsDateExactly | BlazorDemo/Shared/Utility/TypeHelpers.cs:23-34 | IsDate holds exactly for DateTime, DateTimeOffset, DateOnly and their nullable forms |
| TypeHelpers.NumericAndDateDisjoint | BlazorDemo/Shared/Utility/TypeHelpers.cs:8-28 | no type is both numeric and a date |
| TypeHelpers.IsComparesUnwrapped | BlazorDemo/Shared/Utility/TypeHelpers.cs:30 | Is<V> accepts both V and V?; Is<V?> holds of no type |
| AttributeHelpers.FindAttribute | BlazorDemo/Shared/Utility/AttributeHelpers.cs:30 | the lookup finds nothing exactly when no attribute is of the kind; otherwise it returns the first attribute of that kind |
| AttributeHelpers.FirstMatchIsFound | BlazorDemo/Shared/Utility/AttributeHelpers.cs:30 | the attribute returned is the first one of the requested kind |
| AttributeHelpers.DeclaredBeforeInherited | BlazorDemo/Shared/Utility/AttributeHelpers.cs:30 | with inherit: true, an attribute declared on the member wins over an inherited one; inherited attributes are searched only when no declared one matches |
| AttributeHelpers.GetAttributeValueOrDefaultInternal | BlazorDemo/Shared/Utility/AttributeHelpers.cs:21-37 | a null info is rejected first, then a null selector; then (false, default) when the attribute is absent, (true, selector(attribute)) when present |
| AttributeHelpers.GetAttributeValueOrDefault | BlazorDemo/Shared/Utility/AttributeHelpers.cs:12-19 | same argument errors; the wrapped value is selector(attribute) when present and defaultValue when absent, with no error for absence |
| AttributeHelpers.GetAttributeValueOrTypeDefault | BlazorDemo/Shared/Utility/AttributeHelpers.cs:8-10 | the one-argument overload is the two-argument one with default(TValue), so absence gives default(TValue) |
| AttributeHelpers.PresentOrDefault | BlazorDemo/Shared/Utility/AttributeHelpers.cs:12-36 | a present attribute yields the selector's value, even when that value equals the default |
| AttributeHelpers.AbsentIgnoresSelector | BlazorDemo/Shared/Utility/AttributeHelpers.cs:30-36 | when the attribute is absent the result is the default whatever the selector, so the selector is not consulted |
| FormEditor.IsWhiteSpace | BlazorDemo/Client/Components/FormEditorBase.cs:146 | char.IsWhiteSpace: space, tab, line feed and carriage return are white space; no ASCII letter or digit is |
| FormEditor.IsBlank | BlazorDemo/Client/Components/FormEditorBase.cs:146 | string.IsNullOrWhiteSpace on a non-null string: true for the empty string, and exactly when every character is white space |
| FormEditor.TryGetValue | BlazorDemo/Client/Components/FormEditorBase.cs:140-157 | null input gives (true, default); blank text for a non-string T gives (true, default); any failure gives result default |
| FormEditor.TypeConverterPrecedence | BlazorDemo/Client/Components/FormEditorBase.cs:143-149 | once input reaches the converters, a supplied TypeConverter alone decides success and result; the default conversion is irrelevant |
| FormEditor.DefaultConversionLast | BlazorDemo/Client/Components/FormEditorBase.cs:147-156 | without a TypeConverter the default conversion decides; its failure gives (false, default) |
| FormEditor.StringFieldKeepsBlankText | BlazorDemo/Client/Components/FormEditorBase.cs:145-146 | for a string field, blank text still reaches the converters; null never does; blank text for a non-string field never does |
| FormEditor.Commit | BlazorDemo/Client/Components/FormEditorBase.cs:108-116 | nothing is emitted exactly when the comparer reports equality, and then the value is kept; otherwise the one notification carries the new value, which is stored |
| FormEditor.Revert | BlazorDemo/Client/Components/FormEditorBase.cs:127-134 | the revert ends on the prior value or on default, emits at most two notifications, and the last one carries the final value |
| FormEditor.EditorChanged | BlazorDemo/Client/Components/FormEditorBase.cs:118-125 | a converted input emits at most one notification and ends on the prior or the converted value; an unconvertible one ends on the prior value or default; the last notification carries the final value |
| FormEditor.CommitSuppressesEqual | BlazorDemo/Client/Components/FormEditorBase.cs:108-116 | a commit is a no-op exactly when the comparer reports equality; otherwise it stores the value and emits exactly that one notification |
| FormEditor.CommitTwiceNotifiesOnce | BlazorDemo/Client/Components/FormEditorBase.cs:108-116 | with a reflexive comparer, two commits of the same value emit at most one notification, and the second emits none |
| FormEditor.RevertRestores | BlazorDemo/Client/Components/FormEditorBase.cs:127-134 | with an equivalence comparer the revert ends on the prior value; it emits [default, prior] when prior differs from default, and nothing otherwise |
| FormEditor.RevertNeedsSymmetry | BlazorDemo/Client/Components/FormEditorBase.cs:127-134 | the revert can fail to restore when the comparer is reflexive but not symmetric: such a comparer leaves the field on default after emitting only [default] |
| FormEditor.FailedEditKeepsValue | BlazorDemo/Client/Components/FormEditorBase.cs:118-125 | input that fails conversion reverts instead of committing and leaves the value where it was |
| FormEditor.BlankEditCommitsDefault | BlazorDemo/Client/Components/FormEditorBase.cs:118-146 | blank text in a non-string field commits default, which emits nothing when the value already equals default |
| FormEditor.CommitKeepsConsistent | BlazorDemo/Client/Components/FormEditorBase.cs:108-116 | after a commit the last ValueChanged notification still carries the current value, and no notification is followed by one the comparer calls equal to it |
| FormEditor.CommitsKeepConsistent | BlazorDemo/Client/Components/FormEditorBase.cs:108-116 | any run of SetValueAsync calls keeps that history consistent and emits at most one notification per call |
| FormEditor.EditKeepsConsistent | BlazorDemo/Client/Components/FormEditorBase.cs:118-134 | a change event keeps the history consistent, whether it commits or runs the clear-and-restore revert |
| FormEditor.FirstPushPrecedence | BlazorDemo/Client/Components/FormEditorBase.cs:67-98 | on the first push a non-null explicit display parameter wins, else the metadata; the id is Id when non-null, else "_" + a new GUID |
| FormEditor.NullLabelOnLaterPushDropsMetadata | BlazorDemo/Client/Components/FormEditorBase.cs:69-93 | a Label present but null gives the metadata label on the first push and clears it on a later push |
| FormEditor.FormEditorBase.constructor | BlazorDemo/Client/Components/FormEditorBase.cs:12-65 | every field starts at its C# default; `_isStringValue` is typeof(T).Is<string>(), true exactly for string |
| FormEditor.FormEditorBase.Required | BlazorDemo/Client/Components/FormEditorBase.cs:57 | `_isRequired`: the annotation flag alone makes the field required; without it, IsRequired decides |
| FormEditor.FormEditorBase.TrySetParameterField | BlazorDemo/Client/Components/FormEditorBase.cs:78-83 | the field takes the parameter's value exactly when the parameter is present, even a null value, and is otherwise untouched |
| FormEditor.FormEditorBase.SetParameterFields | BlazorDemo/Client/Components/FormEditorBase.cs:69-73 | the five display fields are each overwritten by their parameter when it is present |
| FormEditor.FormEditorBase.SetParametersAsync | BlazorDemo/Client/Components/FormEditorBase.cs:67-76 | fields are overridden, properties assigned, initialisation runs on the first push only, and `_value` is refreshed; no notification is emitted; the annotation flag is set on the first push and kept afterwards, so `_isRequired` stays true on later pushes whenever the annotation is present |
| FormEditor.FormEditorBase.OnParametersSet | BlazorDemo/Client/Components/FormEditorBase.cs:85 | `_value` takes Value unconditionally, with no comparison and no notification |
| FormEditor.FormEditorBase.OnInitialized | BlazorDemo/Client/Components/FormEditorBase.cs:87-106 | `_isRequired` is the annotation flag OR IsRequired; metadata fills only the null display fields; id is Id or a generated one; the builder gets attribute validation, then custom validation |
| FormEditor.FormEditorBase.SetValueAsync | BlazorDemo/Client/Components/FormEditorBase.cs:108-116 | if the comparer reports equality, value and notifications are unchanged; otherwise the value is stored and one notification carrying it is appended |
| FormEditor.FormEditorBase.ResetToCurrentValueAsync | BlazorDemo/Client/Components/FormEditorBase.cs:127-134 | with an equivalence comparer the value is unchanged; the notifications appended are [default, prior], or none when prior equals default |
| FormEditor.FormEditorBase.EditorChangedAsync | BlazorDemo/Client/Components/FormEditorBase.cs:118-125 | a converted input is committed; an unconvertible one is reverted, which under an equivalence comparer keeps the value |
| FormEditor.FormEditorBase.GetValidationErrorAsync | BlazorDemo/Client/Components/FormEditorBase.cs:136 | the result is the built validator applied to the current `_value`; nothing changes |

## Left out

- Collaborators whose code is not part of this model are parameters or opaque values:
  - `MemberMetadataProvider` is the `Metadata` record carried by the `ValueExpression` parameter.
  - `EditorHelpers.ConvertFrom<T>` and `TypeConverter.ConvertFrom` are partial functions, where `None` stands for any exception, including the `(T?)` cast.
  - `MemberValidatorBuilder`, `MemberValidator` and `ValidatableComponent` are not part of this model.
  - `AttributeValue<T>` is a plain wrapper.
- Validator composition is not modelled. `_memberValidator` records only the builder calls, in order. Evaluation order and short-circuiting are not claimed. `GetValidationErrorAsync` takes `ValidateAsync` as a function parameter.
- The base component's lifecycle is modelled as Blazor's `ComponentBase` runs it: assign the present parameters, run `OnInitialized` on the first push, then run `OnParametersSet`. `OnInitializedAsync`, `OnParametersSetAsync`, rendering and the base `OnInitialized` call are left out.
- FormEditor.FormEditorBase.SetParametersAsync: requires that the first push carries `ValueExpression`. In the source, a missing member reference makes `MemberMetadataProvider.Create` throw, which is a programmer error.
- FormEditor.FormEditorBase.SetParametersAsync: requires a well-typed `ParameterView`, as the framework delivers. A value of the wrong type would make `ParameterView.TryGetValue` throw an invalid-cast error. Parameter names that belong to the base component are ignored.
- `ValueChanged` is not a property. Every invocation is recorded in `notifications`, whatever the callback's target is. A callback that throws is not modelled.
- `FocusAsync` and `ElementReference` are left out, because they are DOM focus with no logic to state.
- `Guid.NewGuid()` is nondeterministic, so its text is a `guid` argument.
- Async scheduling is left out: re-entrant parameter pushes during an awaited callback, the render cycle, and the timing of `Task.Delay(1)`.
- Reflection internals are left out: expression trees, `Nullable.GetUnderlyingType`, and attribute-type inheritance. `GetCustomAttribute` returns the first attribute of the requested kind. Its `AmbiguousMatchException` for several matches is not modelled.
- AttributeHelpers.AbsentIgnoresSelector: states that the selector is not consulted when the attribute is absent. "Invoked at most once" concerns call counts, which pure functions do not have.
- The text of an `ArgumentNullException` is its parameter name (`info`, `valueSelector`, `type`) as the caller-argument expression gives it from these call sites. No other message text is modelled.
- `IsNullOrWhiteSpace` uses `char.IsWhiteSpace`, modelled with its fixed character list. No other Unicode behaviour is modelled.
- Non-string change-event payloads are opaque (`Boxed`). Numeric and date parsing is left out.
- `TodoController` is HTTP plumbing over a service whose code is not part of this model.
