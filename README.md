# SchoStack.AspNetCore, modelled in Dafny

SchoStack.AspNetCore is a set of ASP.NET Core helpers. They cover typed URL generation, binding helpers, HTML conventions for form fields, and fluent builders that turn a request into an action result. This project models the deterministic rules at the centre of those helpers and proves properties of them:

- **Route-value flattening** (`RouteValues`). An object tree becomes one flat, case-insensitively keyed dictionary. Keys look like `a.b` and `a[i].b`.
- **Conversion and binding helpers** (`ModelBinding`):
  - array/scalar reshaping;
  - property-name extraction from include expressions and the resulting property filter;
  - clearing validation state in a model-state dictionary.
- **Field naming** (`RequestNaming`): a field's `Name` and `Id`, including FromQuery aliases and memoisation.
- **HTML conventions**: the default conventions (`DefaultConventions`), the select list (`SelectList`), data-annotation rules (`DataAnnotationConventions`) and FluentValidation rules (`FluentValidatorFinder`, `FluentValidationConventions`).
- **Result-dispatch builders** (`HandleActionBuilders`, `MediatrResultBuilder`, `AsyncHandleActionBuilder`, over `Mediation`). Fluent setters, then a short decision chain around one invoker or mediator call.
- **Typed routing and URL generation** (`TypedRouting`, `UrlExtensions`).
- **Per-request item-slot bookkeeping** (`HtmlProfiles`): profile contexts form a stack, and a form sets and clears its input-type slot.

The source's own form is kept:

- Objects whose fields the source overwrites become classes with `modifies` clauses. These are the builders, the route dictionary, the HTML tag, the request data with its memo fields, the item bag and the attribute route models.
- Loops become methods with invariants.
- Each such method is proved against a pure specification function.
- The properties the source promises are lemmas about those functions.

Framework objects are replaced by small abstract values.

- **Types:** a CLR type is a datatype (built-in primitive, enum, nullable, array, class, list).
- **Values:** a value is null or an object with a runtime type, a payload, properties and elements.
- **Opaque code:** delegates, type converters, formatters, the mediator's reply and the invoker's reply are function parameters.
- **Observed calls:** the invoker and the mediator record every call in a trace, so "not called" and "called once" can be stated.

Modules: `Wrappers` (Option, Result and the exception kinds), `Text` (the .NET string operations used), `Clr` (types and values), `Linq` (first match), `HtmlTags` (the tag object), and one module per core source file.

## Model

| member | source | states |
|---|---|---|
| RouteValues.RouteValueDictionary.constructor | src/SchoStack.AspNetCore.ModelUrls/RouteValueDictionaryGenerator.cs:39 | a new dictionary is empty and has distinct keys |
| RouteValues.RouteValueDictionary.ContainsKey | src/SchoStack.AspNetCore.ModelUrls/UrlExtensions.cs:46 | true exactly when some entry's key equals the given key ignoring ASCII case |
| RouteValues.RouteValueDictionary.Add | src/SchoStack.AspNetCore.ModelUrls/RouteValueDictionaryGenerator.cs:66 | adding a present key fails and leaves the entries unchanged; otherwise the entry is appended; keys stay distinct |
| RouteValues.AddAll | src/SchoStack.AspNetCore.ModelUrls/RouteValueDictionaryGenerator.cs:66-84 | adding a sequence stops at the first duplicate key; without a duplicate the result is the old entries followed by all new ones; a reported duplicate is a key of the added sequence; existing entries are kept |
| RouteValues.AddAllAppend | src/SchoStack.AspNetCore.ModelUrls/RouteValueDictionaryGenerator.cs:41-96 | adding `a + b` is adding `a`, then adding `b` unless `a` already failed |
| RouteValues.FailureSticks | src/SchoStack.AspNetCore.ModelUrls/RouteValueDictionaryGenerator.cs:66-84 | once a prefix of the additions has hit a duplicate, later additions change nothing |
| RouteValues.IsEnum | src/SchoStack.AspNetCore.ModelUrls/RouteValueDictionaryGenerator.cs:102-108 | a type is an enum when it is one or is a Nullable of one |
| RouteValues.IsConvertible | src/SchoStack.AspNetCore.ModelUrls/RouteValueDictionaryGenerator.cs:137-140 | a type is convertible when one of the 18 listed types accepts it, directly or as its Nullable underlying type |
| RouteValues.In | src/SchoStack.AspNetCore.ModelUrls/RouteValueDictionaryGenerator.cs:123-131 | the linear search answers true exactly when some listed type accepts the type or its nullable's underlying type |
| RouteValues.ConvertibleIff | src/SchoStack.AspNetCore.ModelUrls/RouteValueDictionaryGenerator.cs:110-140 | a type is convertible exactly when it, or the type under its Nullable, is one of the listed primitives |
| RouteValues.Classify | src/SchoStack.AspNetCore.ModelUrls/RouteValueDictionaryGenerator.cs:48 | first match of: enum or convertible (also under Nullable) gives Simple; else enumerable gives Enumerable; else a simple public getter gives Complex; else Unknown (each as an if-and-only-if) |
| RouteValues.SimpleGetter | src/SchoStack.AspNetCore.ModelUrls/RouteValueDictionaryGenerator.cs:154-158 | the property has a public getter with no parameters and no generic arguments |
| RouteValues.GetDefault | src/SchoStack.AspNetCore.ModelUrls/RouteValueDictionaryGenerator.cs:160-180 | the default is null exactly for reference types and Nullable types; otherwise the zero instance of the type |
| Clr.DefaultInstance | src/SchoStack.AspNetCore.ModelUrls/RouteValueDictionaryGenerator.cs:170-180 | the default instance is an object exactly for non-Nullable value types, of that type with the zero payload; otherwise null |
| RouteValues.ElementPrefix | src/SchoStack.AspNetCore.ModelUrls/RouteValueDictionaryGenerator.cs:88 | the element prefix extends the name and ends with '.' |
| RouteValues.NonNulls | src/SchoStack.AspNetCore.ModelUrls/RouteValueDictionaryGenerator.cs:73-74 | dropping null elements keeps only objects and never lengthens the sequence |
| RouteValues.Skipped | src/SchoStack.AspNetCore.ModelUrls/RouteValueDictionaryGenerator.cs:60-61 | a Simple property is skipped when its value is null, or equals its type's default and the property has no `[FromRoute]` |
| RouteValues.Emitted | src/SchoStack.AspNetCore.ModelUrls/RouteValueDictionaryGenerator.cs:32-99 | the entries one walk adds, in order: none for a null object, else those of its properties in declaration order under the given prefix |
| RouteValues.PropEmitted | src/SchoStack.AspNetCore.ModelUrls/RouteValueDictionaryGenerator.cs:57-71 | an Unknown property adds nothing; a Simple one adds nothing if skipped (null, or default without FromRoute) and otherwise exactly `prefix+name ↦ typeFormatter(declared type, value)`; a null enumerable adds nothing |
| RouteValues.PropertyContributions | src/SchoStack.AspNetCore.ModelUrls/RouteValueDictionaryGenerator.cs:70-95 | a Complex property adds exactly its value's entries under `prefix+name+"."`; an Enumerable adds its non-null elements' entries, element i under `prefix+name+"["+i+"]."` |
| RouteValues.Generate | src/SchoStack.AspNetCore.ModelUrls/RouteValueDictionaryGenerator.cs:32-99 | a null object returns the given dictionary untouched; otherwise it returns the given dictionary (or a fresh one), whose entries are the old entries plus the emitted entries, stopping at the first duplicate key |
| RouteValues.AddProperties | src/SchoStack.AspNetCore.ModelUrls/RouteValueDictionaryGenerator.cs:41-96 | the property loop adds exactly the object's emitted entries to the dictionary, stopping at the first duplicate |
| RouteValues.AddProperty | src/SchoStack.AspNetCore.ModelUrls/RouteValueDictionaryGenerator.cs:53-95 | one property adds exactly its emitted entries |
| RouteValues.AddElements | src/SchoStack.AspNetCore.ModelUrls/RouteValueDictionaryGenerator.cs:70-90 | the element loop skips null elements without consuming an index and adds each other element's entries under its index |
| RouteValues.ElementsStep | src/SchoStack.AspNetCore.ModelUrls/RouteValueDictionaryGenerator.cs:71-89 | one loop step adds nothing for a null element, else the element's entries under the next index; the index counts non-null elements |
| RouteValues.PropsExtend | src/SchoStack.AspNetCore.ModelUrls/RouteValueDictionaryGenerator.cs:41-96 | the entries from the first k properties are a prefix of those from the first m ≥ k |
| RouteValues.ElementsExtend | src/SchoStack.AspNetCore.ModelUrls/RouteValueDictionaryGenerator.cs:71-90 | the entries from the first j elements are a prefix of those from the first m ≥ j |
| RouteValues.UnderAppend | src/SchoStack.AspNetCore.ModelUrls/RouteValueDictionaryGenerator.cs:66-94 | concatenating two entry lists under a prefix stays under it |
| RouteValues.UnderWeaken | src/SchoStack.AspNetCore.ModelUrls/RouteValueDictionaryGenerator.cs:88-94 | entries under a longer prefix are under any prefix of it |
| RouteValues.EmittedUnder | src/SchoStack.AspNetCore.ModelUrls/RouteValueDictionaryGenerator.cs:66-94 | every key a call emits begins with that call's prefix |
| RouteValues.PropsUnder | src/SchoStack.AspNetCore.ModelUrls/RouteValueDictionaryGenerator.cs:41-96 | every key from the property loop begins with the prefix |
| RouteValues.PropUnder | src/SchoStack.AspNetCore.ModelUrls/RouteValueDictionaryGenerator.cs:66-94 | every key from one property begins with the prefix |
| RouteValues.ElementsUnder | src/SchoStack.AspNetCore.ModelUrls/RouteValueDictionaryGenerator.cs:88 | every key from the element loop begins with the property's name |
| RouteValues.Prepend | src/SchoStack.AspNetCore.ModelUrls/RouteValueDictionaryGenerator.cs:66-94 | prepending a string to every key keeps the values and the length |
| RouteValues.PrependAppend | src/SchoStack.AspNetCore.ModelUrls/RouteValueDictionaryGenerator.cs:66-94 | prepending distributes over concatenation |
| RouteValues.EmittedShift | src/SchoStack.AspNetCore.ModelUrls/RouteValueDictionaryGenerator.cs:66-94 | generating under `p+q` is generating under `q` with `p` prepended once to every key, so the top-level prefix occurs exactly once at the head of each key |
| RouteValues.PropsShift | src/SchoStack.AspNetCore.ModelUrls/RouteValueDictionaryGenerator.cs:41-96 | the same shift for the property loop |
| RouteValues.PropShift | src/SchoStack.AspNetCore.ModelUrls/RouteValueDictionaryGenerator.cs:57-95 | the same shift for one property |
| RouteValues.ElementsShift | src/SchoStack.AspNetCore.ModelUrls/RouteValueDictionaryGenerator.cs:71-90 | the same shift for the element loop |
| RouteValues.IndexedSnoc | src/SchoStack.AspNetCore.ModelUrls/RouteValueDictionaryGenerator.cs:88 | appending one element to the indexed reading adds its entries under the next index |
| RouteValues.NonNullsSnoc | src/SchoStack.AspNetCore.ModelUrls/RouteValueDictionaryGenerator.cs:73-74 | a null element is dropped, an object element is kept at the end |
| RouteValues.ElementsIndexed | src/SchoStack.AspNetCore.ModelUrls/RouteValueDictionaryGenerator.cs:70-90 | the element loop equals the reference reading: the non-null elements, in order, numbered 0,1,2,… |
| ModelBinding.Stored | src/SchoStack.AspNetCore.ModelUrls/ModelBindingHelper.cs:697-699 | storing null into a typed array slot gives the element type's default; an object is stored as is |
| ModelBinding.ConvertSimpleType | src/SchoStack.AspNetCore.ModelUrls/ModelBindingHelper.cs:732-746 | null stays null; an assignable value is returned unchanged; a whitespace-only string gives null; anything else goes to the abstract converter with the Nullable unwrapped |
| ModelBinding.ConvertAll | src/SchoStack.AspNetCore.ModelUrls/ModelBindingHelper.cs:690-701 | converting all elements succeeds iff each element converts; the result has the same length and element i is the stored conversion of element i; on failure the error is the first failing element's |
| ModelBinding.Reshape | src/SchoStack.AspNetCore.ModelUrls/ModelBindingHelper.cs:686-730 | array to array: same length, element-wise conversion; scalar to array: a one-element array; array to scalar: null for an empty array, else element 0 converted; scalar to scalar: plain conversion |
| ModelBinding.UnwrapPossibleArrayType | src/SchoStack.AspNetCore.ModelUrls/ModelBindingHelper.cs:686-730 | the index-filling loops compute exactly the reshaping above |
| ModelBinding.ConvertTo | src/SchoStack.AspNetCore.ModelUrls/ModelBindingHelper.cs:664-684 | a null type throws ArgumentNull("type"); a null value gives the type's default (null exactly for reference and Nullable types); an assignable value is returned unchanged; otherwise the value is reshaped |
| ModelBinding.ConvertToGeneric | src/SchoStack.AspNetCore.ModelUrls/ModelBindingHelper.cs:649-653 | errors propagate; a null result becomes the type's default; an object result is returned if assignable, else the cast throws |
| ModelBinding.CastOrDefault | src/SchoStack.AspNetCore.ModelUrls/ModelBindingHelper.cs:496-499 | an instance of the type is returned unchanged, everything else gives the type's default |
| ModelBinding.GetPropertyName | src/SchoStack.AspNetCore.ModelUrls/ModelBindingHelper.cs:322-355 | succeeds exactly for a property access on the lambda parameter, possibly under one Convert/ConvertChecked, returning the property's name; a static property throws NullReference, other shapes throw InvalidOperation naming the node type |
| ModelBinding.Accepts | src/SchoStack.AspNetCore.ModelUrls/ModelBindingHelper.cs:375-390 | the filter tree evaluated on a metadata's property name: ordinal equality per name, joined by `OrElse` |
| ModelBinding.GetPropertyFilterExpression | src/SchoStack.AspNetCore.ModelUrls/ModelBindingHelper.cs:363-391 | no expressions accept everything; otherwise the filter exists iff every expression names a property, and then it accepts exactly the metadata whose name equals one of the names; a failure is the first failing expression's error |
| ModelBinding.Reset | src/SchoStack.AspNetCore.ModelUrls/ModelBindingHelper.cs:462-483 | clearing an entry empties its errors and marks it Unvalidated, keeping the attempted value |
| ModelBinding.ResetWhere | src/SchoStack.AspNetCore.ModelUrls/ModelBindingHelper.cs:457-465 | resetting selected entries keeps the key set; selected entries are reset and all others untouched |
| ModelBinding.ModelStateDictionary.constructor | src/SchoStack.AspNetCore.ModelUrls/ModelBindingHelper.cs:432 | the dictionary holds the given entries |
| ModelBinding.ModelStateDictionary.ResetEntries | src/SchoStack.AspNetCore.ModelUrls/ModelBindingHelper.cs:457-465 | the loop resets exactly the selected entries |
| ModelBinding.ModelStateDictionary.ClearValidationState | src/SchoStack.AspNetCore.ModelUrls/ModelBindingHelper.cs:472-492 | resets exactly the entries whose key is the prefix, or continues it with '.' or '['; the empty prefix resets all |
| ModelBinding.ClearInTurn | src/SchoStack.AspNetCore.ModelUrls/ModelBindingHelper.cs:469-473 | clearing the property prefixes one after another resets exactly the keys under any of them |
| ModelBinding.BindingKeys | src/SchoStack.AspNetCore.ModelUrls/ModelBindingHelper.cs:471-472 | each property's key is its binder model name, else its property name |
| ModelBinding.ClearValidationStateForModel | src/SchoStack.AspNetCore.ModelUrls/ModelBindingHelper.cs:430-494 | null metadata or a null dictionary throws ArgumentNull and changes nothing; otherwise exactly the selected entries are reset: with an empty key, those starting with '[' (enumerable), those under a property key (complex) or the empty key (simple); with a key, those under that prefix |
| RequestNaming.FromQueryOf | src/SchoStack.AspNetCore.HtmlConventions/Core/RequestData.cs:69-81 | finds a FromQuery attribute among the property's attributes, and finds none exactly when there is none |
| RequestNaming.AliasOr | src/SchoStack.AspNetCore.HtmlConventions/Core/RequestData.cs:70-82 | a FromQuery alias replaces the name; without the attribute the name is kept |
| RequestNaming.DefaultNames | src/SchoStack.AspNetCore.HtmlConventions/Core/RequestData.cs:76-85 | one name per segment |
| RequestNaming.MatchedNames | src/SchoStack.AspNetCore.HtmlConventions/Core/RequestData.cs:55-73 | one name per segment on the matching path |
| RequestNaming.ExhaustedPassesThrough | src/SchoStack.AspNetCore.HtmlConventions/Core/RequestData.cs:61-62 | once the matched property list is exhausted, every segment keeps its own name |
| RequestNaming.MatchedStep | src/SchoStack.AspNetCore.HtmlConventions/Core/RequestData.cs:61-72 | a property segment whose name equals the current property uses its alias and advances the cursor; any other segment keeps its name and does not advance |
| RequestNaming.PathProperties | src/SchoStack.AspNetCore.HtmlConventions/Core/RequestData.cs:64-66 | the properties named by the property segments, at most one per segment |
| RequestNaming.MatchingOwnPropertiesAgrees | src/SchoStack.AspNetCore.HtmlConventions/Core/RequestData.cs:55-85 | matching against the path's own properties gives the same names as the default path |
| RequestNaming.MatchingAgrees | src/SchoStack.AspNetCore.HtmlConventions/Core/RequestData.cs:55-85 | the same from any cursor position over an already-consumed prefix |
| RequestNaming.PathPropertiesCons | src/SchoStack.AspNetCore.HtmlConventions/Core/RequestData.cs:64-66 | unfolding the path's properties by one segment |
| RequestNaming.DefaultNamesPointwise | src/SchoStack.AspNetCore.HtmlConventions/Core/RequestData.cs:76-85 | segment k's default name is its alias if a property with FromQuery, else its name |
| RequestNaming.DefaultNamesCons | src/SchoStack.AspNetCore.HtmlConventions/Core/RequestData.cs:76-85 | unfolding the default names by one segment |
| RequestNaming.IdOf | src/SchoStack.AspNetCore.HtmlConventions/Core/RequestData.cs:17-30 | the id has the name's length, contains no '.', '[' or ']', keeps every other character and puts '_' where those were |
| RequestNaming.IdOfIdempotent | src/SchoStack.AspNetCore.HtmlConventions/Core/RequestData.cs:17-30 | deriving the id of an id changes nothing |
| RequestNaming.JoinName | src/SchoStack.AspNetCore.HtmlConventions/Core/RequestData.cs:46 | the names joined with "." (a null name as ""), then every ".[" replaced by "[" |
| RequestNaming.RequestData.ExpectedName | src/SchoStack.AspNetCore.HtmlConventions/Core/RequestData.cs:36-49 | the name is null exactly when there is no accessor; otherwise the joined names with ".[" replaced by "[" |
| RequestNaming.RequestData.ExpectedId | src/SchoStack.AspNetCore.HtmlConventions/Core/RequestData.cs:23-33 | the id is null exactly when the name is, and otherwise is the name's id of the same length |
| RequestNaming.RequestData.constructor | src/SchoStack.AspNetCore.HtmlConventions/Core/RequestData.cs:157-176 | a request records accessor and input type, with empty memo fields |
| RequestNaming.RequestData.GetPropertyNames | src/SchoStack.AspNetCore.HtmlConventions/Core/RequestData.cs:51-86 | the counter-driven name list equals the matched names with an input type and the default names without one |
| RequestNaming.RequestData.Name | src/SchoStack.AspNetCore.HtmlConventions/Core/RequestData.cs:36-49 | returns the expected name, memoises it, and a memoised name is returned unchanged |
| RequestNaming.RequestData.Id | src/SchoStack.AspNetCore.HtmlConventions/Core/RequestData.cs:23-33 | returns the expected id, memoises it, and a memoised id is returned unchanged |
| RequestNaming.GetName | src/SchoStack.AspNetCore.HtmlConventions/Core/RequestData.cs:151-155 | a request with only an accessor takes the default path: the joined default names |
| RequestNaming.MatchPropertyNames | src/SchoStack.AspNetCore.HtmlConventions/Core/RequestData.cs:58-73 | the loop with its mutable cursor computes the matched names |
| RequestNaming.PlainPropertyNames | src/SchoStack.AspNetCore.HtmlConventions/Core/RequestData.cs:76-85 | the loop computes the default names |
| DefaultConventions.InsertSpaces | src/SchoStack.AspNetCore.HtmlConventions/DefaultHtmlConventions.cs:80-84 | one regex pass never shortens the string and keeps its first character |
| DefaultConventions.UnderscoresToSpaces | src/SchoStack.AspNetCore.HtmlConventions/DefaultHtmlConventions.cs:85 | same length, with every '_' replaced by ' ' and the rest kept |
| DefaultConventions.InsertSpacesClears | src/SchoStack.AspNetCore.HtmlConventions/DefaultHtmlConventions.cs:80-84 | after a pass, no adjacent pair matches that pass's pattern |
| DefaultConventions.InsertSpacesKeeps | src/SchoStack.AspNetCore.HtmlConventions/DefaultHtmlConventions.cs:84 | a later pass does not reintroduce a match of an earlier pattern |
| DefaultConventions.UnderscoresKeep | src/SchoStack.AspNetCore.HtmlConventions/DefaultHtmlConventions.cs:85 | the underscore replacement does not reintroduce a match |
| DefaultConventions.SpacesInsertedLength | src/SchoStack.AspNetCore.HtmlConventions/DefaultHtmlConventions.cs:84 | a string with spaces inserted is never shorter |
| DefaultConventions.SpacesInsertedTrans | src/SchoStack.AspNetCore.HtmlConventions/DefaultHtmlConventions.cs:84 | inserting spaces twice is inserting spaces |
| DefaultConventions.SpacesInsertedRefl | src/SchoStack.AspNetCore.HtmlConventions/DefaultHtmlConventions.cs:84 | inserting no spaces is inserting spaces |
| DefaultConventions.InsertSpacesOnlyInserts | src/SchoStack.AspNetCore.HtmlConventions/DefaultHtmlConventions.cs:80-84 | a pass only inserts spaces, with characters kept in order |
| DefaultConventions.UnderscoresCommute | src/SchoStack.AspNetCore.HtmlConventions/DefaultHtmlConventions.cs:84-85 | replacing underscores commutes with inserting spaces |
| DefaultConventions.BreakUpCamelCase | src/SchoStack.AspNetCore.HtmlConventions/DefaultHtmlConventions.cs:76-86 | the three regex passes in the listed order, then every '_' replaced by a space |
| DefaultConventions.BreakUpCamelCaseSpec | src/SchoStack.AspNetCore.HtmlConventions/DefaultHtmlConventions.cs:76-86 | the output has no '_'; no lower-upper, digit-letter or letter-digit neighbours; it is the input with '_' mapped to ' ' and spaces inserted; it is never shorter |
| DefaultConventions.IsChecked | src/SchoStack.AspNetCore.HtmlConventions/DefaultHtmlConventions.cs:27 | with an attempted value, the text before its first ',' equals "True"; without one, the bound value |
| DefaultConventions.IsCheckedFirstPiece | src/SchoStack.AspNetCore.HtmlConventions/DefaultHtmlConventions.cs:26-27 | with an attempted value, the box is checked iff the text before its first ',' is "True" |
| DefaultConventions.BeforeFirstAppend | src/SchoStack.AspNetCore.HtmlConventions/DefaultHtmlConventions.cs:27 | the text before the first ',' is the first piece |
| DefaultConventions.BuildCheckbox | src/SchoStack.AspNetCore.HtmlConventions/DefaultHtmlConventions.cs:24-31 | a checkbox with value "True" (`bool.ToString()`), checked exactly under the checked rule, followed by a hidden input with value "False" carrying the request name when there is one |
| DefaultConventions.BuildLabel | src/SchoStack.AspNetCore.HtmlConventions/DefaultHtmlConventions.cs:18 | a label whose text is the broken-up property name and whose `for` is the request id when present |
| DefaultConventions.ValuedInput | src/SchoStack.AspNetCore.HtmlConventions/DefaultHtmlConventions.cs:19-22 | an input of the given type (text here, hidden for the DataAnnotations hidden input) whose value is the attempted value, else the bound value, and absent when neither exists |
| DefaultConventions.BuildDisplay | src/SchoStack.AspNetCore.HtmlConventions/DefaultHtmlConventions.cs:17 | a span whose text is the bound value, or empty |
| DefaultConventions.HasValue | src/SchoStack.AspNetCore.HtmlConventions/DefaultHtmlConventions.cs:71-74 | a string has a value when it is neither null nor empty |
| DefaultConventions.ChooseId | src/SchoStack.AspNetCore.HtmlConventions/DefaultHtmlConventions.cs:38 | the request id if non-empty, else the existing id if non-empty, else none |
| DefaultConventions.ChooseName | src/SchoStack.AspNetCore.HtmlConventions/DefaultHtmlConventions.cs:41 | the request name if present, else the existing name if non-empty, else none |
| DefaultConventions.ChooseIdempotent | src/SchoStack.AspNetCore.HtmlConventions/DefaultHtmlConventions.cs:36-43 | running the id/name rule twice gives the same id and name as once |
| DefaultConventions.ModifyIdAndName | src/SchoStack.AspNetCore.HtmlConventions/DefaultHtmlConventions.cs:36-43 | the tag's id follows the id rule, the name follows the name rule only on input elements, and every other attribute and part of the tag is unchanged |
| DefaultConventions.SuffixedId | src/SchoStack.AspNetCore.HtmlConventions/DefaultHtmlConventions.cs:45-46 | the label or display id is the request id (empty when null), an underscore, then the suffix |
| DefaultConventions.DerivedIdsDetermineId | src/SchoStack.AspNetCore.HtmlConventions/DefaultHtmlConventions.cs:45-46 | equal label ids (or display ids) come from equal request ids, and a label id never equals a display id |
| DefaultConventions.ModifySuffixedId | src/SchoStack.AspNetCore.HtmlConventions/DefaultHtmlConventions.cs:45-46 | the label's or display's id becomes the derived id; nothing else changes |
| DefaultConventions.HasErrors | src/SchoStack.AspNetCore.HtmlConventions/DefaultHtmlConventions.cs:52 | the name has a model-state entry and that entry has at least one error |
| DefaultConventions.ModifyValidationClass | src/SchoStack.AspNetCore.HtmlConventions/DefaultHtmlConventions.cs:48-56 | a null name throws ArgumentNull("key"); a name with a model-state entry holding errors adds the validation class; otherwise the tag is unchanged |
| SelectList.NonEmptyTrimmed | src/SchoStack.AspNetCore.HtmlConventions/DefaultSelectListBuilder.cs:24 | dropping empty pieces never lengthens the list |
| SelectList.NonEmptyTrimmedMembers | src/SchoStack.AspNetCore.HtmlConventions/DefaultSelectListBuilder.cs:23-24 | a string is among the attempted pieces iff it is the trim of some non-empty piece |
| SelectList.Key | src/SchoStack.AspNetCore.HtmlConventions/DefaultSelectListBuilder.cs:33 | an item is compared by its Value, or by its Text when Value is null |
| SelectList.IsSelected | src/SchoStack.AspNetCore.HtmlConventions/DefaultSelectListBuilder.cs:33 | with an attempted value, the item's key (Value, else Text) is among the attempted pieces; without one, the item's own flag |
| SelectList.IsSelectedSpec | src/SchoStack.AspNetCore.HtmlConventions/DefaultSelectListBuilder.cs:23-33 | without an attempted value an item is selected iff its flag is set; with one, iff its key is among the trimmed non-empty pieces |
| SelectList.OptionTag | src/SchoStack.AspNetCore.HtmlConventions/DefaultSelectListBuilder.cs:45-49 | an option with value = item Value when present, text = item Text, and `selected="selected"` exactly when selected; no other attributes |
| SelectList.Options | src/SchoStack.AspNetCore.HtmlConventions/DefaultSelectListBuilder.cs:31-36 | one option per item |
| SelectList.OptionsStep | src/SchoStack.AspNetCore.HtmlConventions/DefaultSelectListBuilder.cs:31-36 | one loop step appends the next item's option |
| SelectList.OptionsPointwise | src/SchoStack.AspNetCore.HtmlConventions/DefaultSelectListBuilder.cs:31-36 | option i is item i's option, in list order |
| SelectList.Built | src/SchoStack.AspNetCore.HtmlConventions/DefaultSelectListBuilder.cs:17-38 | a null list gives no tag; a multi-select list with null items throws NullReference; otherwise a select (with `multiple="multiple"` for a multi-select list) whose children are the options of the iterated items |
| SelectList.Build | src/SchoStack.AspNetCore.HtmlConventions/DefaultSelectListBuilder.cs:17-38 | the tag the loop fills equals the specified select, and the error cases agree |
| HandleActionBuilders.Invoker.constructor | src/SchoStack.AspNetCore.Invoker/HandleActionBuilder.cs:12 | an invoker starts with an empty trace |
| HandleActionBuilders.Invoker.Execute | src/SchoStack.AspNetCore.Invoker/HandleActionBuilder.cs:125 | a call is appended to the trace |
| HandleActionBuilders.Invoker.ExecuteTyped | src/SchoStack.AspNetCore.Invoker/HandleActionBuilder.cs:224 | a call is appended to the trace and the reply returned |
| HandleActionBuilders.InputRun | src/SchoStack.AspNetCore.Invoker/HandleActionBuilder.cs:118-128 | an invalid model with an error handler returns that handler's result with no invoker call; otherwise one `Execute(input)` call, then the success result, or null without a success handler |
| HandleActionBuilders.InputBuilder.constructor | src/SchoStack.AspNetCore.Invoker/HandleActionBuilder.cs:58-62 | records input and invoker; no handlers |
| HandleActionBuilders.InputBuilder.OnSuccess | src/SchoStack.AspNetCore.Invoker/HandleActionBuilder.cs:75-79 | replaces the success handler, keeps the error handler |
| HandleActionBuilders.InputBuilder.OnSuccessThunk | src/SchoStack.AspNetCore.Invoker/HandleActionBuilder.cs:69-73 | replaces the success handler with one ignoring the context |
| HandleActionBuilders.InputBuilder.OnModelError | src/SchoStack.AspNetCore.Invoker/HandleActionBuilder.cs:87-91 | replaces the error handler, keeps the success handler |
| HandleActionBuilders.InputBuilder.OnModelErrorThunk | src/SchoStack.AspNetCore.Invoker/HandleActionBuilder.cs:81-85 | replaces the error handler with one ignoring the context |
| HandleActionBuilders.InputBuilder.Returning | src/SchoStack.AspNetCore.Invoker/HandleActionBuilder.cs:64-67 | a fresh typed builder carrying input, invoker and both handlers, with no conditions; the success handler goes through the corrected `Lift` of the Findings row, not line 144 as written |
| HandleActionBuilders.InputBuilder.ExecuteResult | src/SchoStack.AspNetCore.Invoker/HandleActionBuilder.cs:118-128 | the result and the invoker's new trace are those of the specified run |
| HandleActionBuilders.UntypedBuilder.constructor | src/SchoStack.AspNetCore.Invoker/HandleActionBuilder.cs:16-19 | records the invoker; no handlers |
| HandleActionBuilders.UntypedBuilder.OnSuccess | src/SchoStack.AspNetCore.Invoker/HandleActionBuilder.cs:27-31 | replaces the success handler |
| HandleActionBuilders.UntypedBuilder.OnSuccessThunk | src/SchoStack.AspNetCore.Invoker/HandleActionBuilder.cs:21-25 | replaces the success handler with one ignoring the context |
| HandleActionBuilders.UntypedBuilder.OnModelError | src/SchoStack.AspNetCore.Invoker/HandleActionBuilder.cs:39-43 | replaces the error handler |
| HandleActionBuilders.UntypedBuilder.OnModelErrorThunk | src/SchoStack.AspNetCore.Invoker/HandleActionBuilder.cs:33-37 | replaces the error handler with one ignoring the context |
| HandleActionBuilders.UntypedBuilder.Returning | src/SchoStack.AspNetCore.Invoker/HandleActionBuilder.cs:45-48 | a fresh typed builder with no input, the same invoker and both handlers; the success handler goes through the corrected `Lift` of the Findings row, not line 144 as written |
| HandleActionBuilders.Invoke | src/SchoStack.AspNetCore.Invoker/HandleActionBuilder.cs:230 | no success handler gives null; a null delegate inside the handler throws NullReference; otherwise the handler's result |
| HandleActionBuilders.LiftAsWritten | src/SchoStack.AspNetCore.Invoker/HandleActionBuilder.cs:144 | the constructor as written wraps even a missing success handler into a non-null delegate over null |
| HandleActionBuilders.Lift | src/SchoStack.AspNetCore.Invoker/HandleActionBuilder.cs:144 | the corrected constructor keeps a missing success handler missing, and wraps a present one to ignore the response |
| HandleActionBuilders.Dispatch | src/SchoStack.AspNetCore.Invoker/HandleActionBuilder.cs:225-230 | the first condition that holds decides the result; with none holding, the success handler decides |
| HandleActionBuilders.DispatchIgnoresLater | src/SchoStack.AspNetCore.Invoker/HandleActionBuilder.cs:225 | once an earlier condition holds, later conditions are never consulted |
| Linq.FirstMatch | src/SchoStack.AspNetCore.Invoker/HandleActionBuilder.cs:225 | the index of the first element satisfying the predicate, none exactly when no element does |
| Linq.First | src/SchoStack.AspNetCore.Invoker/HandleActionBuilder.cs:225 | `FirstOrDefault`: the first element satisfying the predicate (no earlier element satisfies it), found exactly when one exists |
| Linq.FirstMatchAppend | src/SchoStack.AspNetCore.Invoker/HandleActionBuilder.cs:225 | appending an element changes the first match only when there was none |
| HandleActionBuilders.TypedCall | src/SchoStack.AspNetCore.Invoker/HandleActionBuilder.cs:224 | a null input calls `Execute<TRet>()`, otherwise `Execute<TRet>(input)` |
| HandleActionBuilders.TypedRun | src/SchoStack.AspNetCore.Invoker/HandleActionBuilder.cs:217-231 | an invalid model with an error handler returns its result and calls nothing; otherwise exactly one invoker call, then dispatch on the reply |
| HandleActionBuilders.ReturningWithoutSuccessThrows | src/SchoStack.AspNetCore.Invoker/HandleActionBuilder.cs:140-146 | as written, a typed builder with no success handler and no conditions throws on a valid model; corrected, it returns null |
| HandleActionBuilders.ReturningCarriesSuccess | src/SchoStack.AspNetCore.Invoker/HandleActionBuilder.cs:140-146 | the handler carried by `Returning` answers with its own result, or null without one |
| HandleActionBuilders.TypedBuilder.constructor | src/SchoStack.AspNetCore.Invoker/HandleActionBuilder.cs:140-146 | records input and invoker, no conditions, the success handler lifted by the corrected `Lift` of the Findings row (not line 144 as written) and the error handler |
| HandleActionBuilders.TypedBuilder.On | src/SchoStack.AspNetCore.Invoker/HandleActionBuilder.cs:148-156 | appends one condition ignoring the context; earlier conditions and handlers are kept |
| HandleActionBuilders.TypedBuilder.OnWithContext | src/SchoStack.AspNetCore.Invoker/HandleActionBuilder.cs:158-166 | appends the condition as given |
| HandleActionBuilders.TypedBuilder.OnSuccess | src/SchoStack.AspNetCore.Invoker/HandleActionBuilder.cs:168-172 | replaces the success handler with one ignoring the context |
| HandleActionBuilders.TypedBuilder.OnSuccessWithContext | src/SchoStack.AspNetCore.Invoker/HandleActionBuilder.cs:174-178 | replaces the success handler |
| HandleActionBuilders.TypedBuilder.OnModelError | src/SchoStack.AspNetCore.Invoker/HandleActionBuilder.cs:186-190 | replaces the error handler |
| HandleActionBuilders.TypedBuilder.OnModelErrorThunk | src/SchoStack.AspNetCore.Invoker/HandleActionBuilder.cs:180-184 | replaces the error handler with one ignoring the context |
| HandleActionBuilders.TypedBuilder.ExecuteResult | src/SchoStack.AspNetCore.Invoker/HandleActionBuilder.cs:217-231 | the result and the invoker's new trace are those of the specified typed run |
| Mediation.Mediator.constructor | src/SchoStack.AspNetCore.MediatR/MediatrResultBuilder.cs:61 | a mediator starts with nothing sent |
| Mediation.Mediator.Send | src/SchoStack.AspNetCore.MediatR/MediatrResultBuilder.cs:117 | a request is appended to the sent list and answered by the reply |
| Mediation.FirstOrSuccess | src/SchoStack.AspNetCore.MediatR/MediatrResultBuilder.cs:119-123 | the first condition that holds decides; with none, the success result, or null without a success handler |
| Mediation.FirstOrSuccessIgnoresLater | src/SchoStack.AspNetCore.MediatR/MediatrResultBuilder.cs:119 | later conditions are not consulted once one holds |
| Mediation.SelectResult | src/SchoStack.AspNetCore.MediatR/AsyncHandleActionBuilder.cs:86-90 | the search computes the first-or-success result |
| MediatrResultBuilder.CheckThenSend | src/SchoStack.AspNetCore.MediatR/MediatrResultBuilder.cs:112-124 | an invalid model with an error handler returns the error result and sends nothing; otherwise the request is sent exactly once and the result is first-or-success |
| MediatrResultBuilder.BuilderActions.constructor | src/SchoStack.AspNetCore.MediatR/MediatrResultBuilder.cs:69-74 | records request and mediator; no conditions or handlers |
| MediatrResultBuilder.BuilderActions.On | src/SchoStack.AspNetCore.MediatR/MediatrResultBuilder.cs:76-86 | appends a condition in order |
| MediatrResultBuilder.BuilderActions.Error | src/SchoStack.AspNetCore.MediatR/MediatrResultBuilder.cs:88-98 | replaces the error handler |
| MediatrResultBuilder.BuilderActions.Success | src/SchoStack.AspNetCore.MediatR/MediatrResultBuilder.cs:100-110 | replaces the success handler |
| MediatrResultBuilder.BuilderActions.Send | src/SchoStack.AspNetCore.MediatR/MediatrResultBuilder.cs:112-124 | the result and the mediator's sent list follow check-then-send |
| AsyncHandleActionBuilder.SendThenCheck | src/SchoStack.AspNetCore.MediatR/AsyncHandleActionBuilder.cs:79-91 | the request is always sent once; then an invalid model with an error handler returns the error result; otherwise first-or-success |
| AsyncHandleActionBuilder.SameResultDifferentSends | src/SchoStack.AspNetCore.MediatR/AsyncHandleActionBuilder.cs:81-84 | both builders return the same result; their sent lists differ exactly when the model is invalid and an error handler is set |
| AsyncHandleActionBuilder.Actions.constructor | src/SchoStack.AspNetCore.MediatR/AsyncHandleActionBuilder.cs:51-59 | records request and mediator; no conditions or handlers |
| AsyncHandleActionBuilder.Actions.On | src/SchoStack.AspNetCore.MediatR/AsyncHandleActionBuilder.cs:61-65 | appends a condition in order |
| AsyncHandleActionBuilder.Actions.Error | src/SchoStack.AspNetCore.MediatR/AsyncHandleActionBuilder.cs:67-71 | replaces the error handler |
| AsyncHandleActionBuilder.Actions.Success | src/SchoStack.AspNetCore.MediatR/AsyncHandleActionBuilder.cs:73-77 | replaces the success handler |
| AsyncHandleActionBuilder.Actions.Send | src/SchoStack.AspNetCore.MediatR/AsyncHandleActionBuilder.cs:79-91 | the result and the mediator's sent list follow send-then-check |
| FluentValidatorFinder.ValidatorsFor | src/SchoStack.AspNetCore.FluentValidation/FluentValidatorFinder.cs:52 | a described member's validators, or none |
| FluentValidatorFinder.DisplayName | src/SchoStack.AspNetCore.FluentValidation/FluentValidatorFinder.cs:53 | the member's display name when the descriptor has one |
| FluentValidatorFinder.ChildOf | src/SchoStack.AspNetCore.FluentValidation/FluentValidatorFinder.cs:74-84 | a child adaptor resolves its validator type, a child-collection adaptor its child validator type, a delegating validator follows its inner validator, anything else gives none |
| FluentValidatorFinder.ChildOfOnlyThroughAdaptors | src/SchoStack.AspNetCore.FluentValidation/FluentValidatorFinder.cs:62-84 | a nested descriptor is found only through an adaptor, possibly behind delegating validators |
| FluentValidatorFinder.LastMemberResults | src/SchoStack.AspNetCore.FluentValidation/FluentValidatorFinder.cs:57-60 | at the last path index, the result is every validator of that member once, in order, with the member's display name |
| FluentValidatorFinder.NoDescentNoResults | src/SchoStack.AspNetCore.FluentValidation/FluentValidatorFinder.cs:59-67 | before the last index, a member none of whose validators descends contributes nothing |
| FluentValidatorFinder.GetNestedPropertyValidators | src/SchoStack.AspNetCore.FluentValidation/FluentValidatorFinder.cs:47-72 | the loop with Add/AddRange computes the nested results: per validator its own entry (at the last index) before its nested results, copied unchanged; the end of the path gives none |
| FluentValidatorFinder.FindValidators | src/SchoStack.AspNetCore.FluentValidation/FluentValidatorFinder.cs:26-38 | no input type or no resolved validator gives none; otherwise the nested search from index 0 |
| FluentValidationConventions.EqualToOther | src/SchoStack.AspNetCore.FluentValidation/FluentValidationHtmlConventions.cs:58-61 | multi-segment accessor: the id with every `"_"+name` removed, then `"_"+member`; single segment: `"*."+member` |
| FluentValidationConventions.LengthEffect | src/SchoStack.AspNetCore.FluentValidation/FluentValidationHtmlConventions.cs:77-84 | the first length validator sets `maxlength` to its maximum; with none the tag is unchanged; other attributes are kept |
| FluentValidationConventions.RequiredEffect | src/SchoStack.AspNetCore.FluentValidation/FluentValidationHtmlConventions.cs:66-75 | the first not-empty or not-null validator sets `data-val=true` and `data-val-required` to its message or ""; with none the tag is unchanged |
| FluentValidationConventions.EqualMember | src/SchoStack.AspNetCore.FluentValidation/FluentValidationHtmlConventions.cs:43-48 | the compared member of the first equal validator, when it has one |
| FluentValidationConventions.EqualToEffect | src/SchoStack.AspNetCore.FluentValidation/FluentValidationHtmlConventions.cs:41-64 | only when the first equal validator has a member to compare: `data-val=true`, `data-val-equalto` set to that validator's message (absent when the message is null) and `data-val-equalto-other` as above; else the tag is unchanged |
| FluentValidationConventions.RegexEffect | src/SchoStack.AspNetCore.FluentValidation/FluentValidationHtmlConventions.cs:98-108 | the first regex validator sets `data-val`, `data-val-regex` (message or the fixed fallback) and `data-val-regex-pattern` to the expression; else unchanged |
| FluentValidationConventions.EmailEffect | src/SchoStack.AspNetCore.FluentValidation/FluentValidationHtmlConventions.cs:110-118 | the first email validator sets `data-val` and `data-val-email` (message or the fixed fallback); else unchanged |
| FluentValidationConventions.Effect | src/SchoStack.AspNetCore.FluentValidation/FluentValidationHtmlConventions.cs:41-118 | each provider touches only its own keys; the credit-card provider touches none |
| FluentValidationConventions.Applied | src/SchoStack.AspNetCore.FluentValidation/FluentValidationHtmlConventions.cs:24-31 | running the providers changes attributes only |
| FluentValidationConventions.LengthOutcome | src/SchoStack.AspNetCore.FluentValidation/FluentValidationHtmlConventions.cs:77-84 | after all providers `maxlength` is the first length validator's maximum, or as before |
| FluentValidationConventions.RequiredOutcome | src/SchoStack.AspNetCore.FluentValidation/FluentValidationHtmlConventions.cs:66-75 | after all providers `data-val-required` is the required message, or as before |
| FluentValidationConventions.EqualToOutcome | src/SchoStack.AspNetCore.FluentValidation/FluentValidationHtmlConventions.cs:41-64 | after all providers `data-val-equalto` is the first equal validator's message and `data-val-equalto-other` the computed target, or both equal-to keys are as before |
| FluentValidationConventions.RegexPatternOutcome | src/SchoStack.AspNetCore.FluentValidation/FluentValidationHtmlConventions.cs:98-108 | after all providers `data-val-regex-pattern` is the first regex's expression, or as before |
| FluentValidationConventions.RegexMessageOutcome | src/SchoStack.AspNetCore.FluentValidation/FluentValidationHtmlConventions.cs:98-108 | after all providers `data-val-regex` is the regex message, or as before |
| FluentValidationConventions.EmailOutcome | src/SchoStack.AspNetCore.FluentValidation/FluentValidationHtmlConventions.cs:110-118 | after all providers `data-val-email` is the email message, or as before |
| FluentValidationConventions.DataValOutcome | src/SchoStack.AspNetCore.FluentValidation/FluentValidationHtmlConventions.cs:41-118 | `data-val` is "true" exactly when some provider fires, else as before |
| FluentValidationConventions.OtherAttributesKept | src/SchoStack.AspNetCore.FluentValidation/FluentValidationHtmlConventions.cs:17-31 | attributes no provider names are untouched |
| FluentValidationConventions.AppliedSix | src/SchoStack.AspNetCore.FluentValidation/FluentValidationHtmlConventions.cs:17-22 | the fixed order is length, required, (credit card: nothing), equal-to, regex, email |
| FluentValidationConventions.ApplyProvider | src/SchoStack.AspNetCore.FluentValidation/FluentValidationHtmlConventions.cs:29 | one provider changes the tag by its effect |
| FluentValidationConventions.Modify | src/SchoStack.AspNetCore.FluentValidation/FluentValidationHtmlConventions.cs:24-31 | the provider loop changes the tag by the composed effects, in list order |
| DataAnnotationConventions.NumberClass | src/SchoStack.AspNetCore.HtmlConventions/DataAnnotationHtmlConventions.cs:45-62 | the only classes added are "digits" and "number" |
| DataAnnotationConventions.NumberClassSpec | src/SchoStack.AspNetCore.HtmlConventions/DataAnnotationHtmlConventions.cs:45-62 | "digits" exactly for int, uint, long, ulong, short, ushort and their nullables; "number" exactly for double, decimal, float and their nullables; never both; byte and sbyte get neither |
| DataAnnotationConventions.AddNumberClasses | src/SchoStack.AspNetCore.HtmlConventions/DataAnnotationHtmlConventions.cs:45-62 | the tag gains exactly the number class, or is unchanged |
| DataAnnotationConventions.DataTypeBuilder | src/SchoStack.AspNetCore.HtmlConventions/DataAnnotationHtmlConventions.cs:15-21 | DataType.Text builds a textarea with the attempted value, else the bound value; any other data type builds nothing |
| DataAnnotationConventions.PasswordModifier | src/SchoStack.AspNetCore.HtmlConventions/DataAnnotationHtmlConventions.cs:23-27 | Password sets type, removes value and sets autocomplete, in that order; other data types leave the tag unchanged |
| DataAnnotationConventions.PasswordEffect | src/SchoStack.AspNetCore.HtmlConventions/DataAnnotationHtmlConventions.cs:26 | the result has type=password, no value and autocomplete=off |
| DataAnnotationConventions.StringLengthModifier | src/SchoStack.AspNetCore.HtmlConventions/DataAnnotationHtmlConventions.cs:35-40 | maxlength is always the maximum; minlength is set only for a positive minimum; everything else is unchanged |
| DataAnnotationConventions.DisplayNameModifier | src/SchoStack.AspNetCore.HtmlConventions/DataAnnotationHtmlConventions.cs:13 | the label text becomes the display name; nothing else changes |
| TypedRouting.AttributeRouteModel.constructor | src/SchoStack.AspNetCore.ModelUrls/TypedRoutingApplicationModelConvention.cs:15 | a route model holds its name |
| TypedRouting.FirstRoute | src/SchoStack.AspNetCore.ModelUrls/TypedRoutingApplicationModelConvention.cs:15 | null exactly when no selector has a route; otherwise the route of the first selector that has one |
| TypedRouting.Target | src/SchoStack.AspNetCore.ModelUrls/TypedRoutingApplicationModelConvention.cs:15-19 | no route, no parameter, or a first parameter that is not a class or is string: no assignment; otherwise the first route gets the first parameter type's name |
| TypedRouting.Flatten | src/SchoStack.AspNetCore.ModelUrls/TypedRoutingApplicationModelConvention.cs:11-13 | every action of every controller, in loop order |
| TypedRouting.NameAfter | src/SchoStack.AspNetCore.ModelUrls/TypedRoutingApplicationModelConvention.cs:11-21 | a route no action names keeps its name; a changed name is one some naming action assigned |
| TypedRouting.NameAfterForgetsPrior | src/SchoStack.AspNetCore.ModelUrls/TypedRoutingApplicationModelConvention.cs:19 | once some action names a route, its former name is irrelevant |
| TypedRouting.ApplyIdempotent | src/SchoStack.AspNetCore.ModelUrls/TypedRoutingApplicationModelConvention.cs:19 | applying the convention twice gives the same names as once |
| TypedRouting.NameAfterAppend | src/SchoStack.AspNetCore.ModelUrls/TypedRoutingApplicationModelConvention.cs:11-21 | running over two action lists is running over the first, then the second |
| TypedRouting.NameAfterStep | src/SchoStack.AspNetCore.ModelUrls/TypedRoutingApplicationModelConvention.cs:15-20 | one action step names its target route (last writer wins) and leaves the others |
| TypedRouting.ApplyToActions | src/SchoStack.AspNetCore.ModelUrls/TypedRoutingApplicationModelConvention.cs:13-21 | after the inner loop every route's name is the last name assigned to it, else its old name |
| TypedRouting.Apply | src/SchoStack.AspNetCore.ModelUrls/TypedRoutingApplicationModelConvention.cs:9-23 | after both loops every route's name is the last name assigned over all actions, else its old name |
| UrlExtensions.AmbientKept | src/SchoStack.AspNetCore.ModelUrls/UrlExtensions.cs:45-46 | exactly the ambient values not keyed "action" or "controller" and not already generated |
| UrlExtensions.MergedRouteValues | src/SchoStack.AspNetCore.ModelUrls/UrlExtensions.cs:45-46 | the generated entries first, unchanged, followed by exactly the kept ambient values |
| UrlExtensions.Lookup | src/SchoStack.AspNetCore.ModelUrls/UrlExtensions.cs:48 | a key is found exactly when present, with the value of a matching entry |
| UrlExtensions.LookupAppend | src/SchoStack.AspNetCore.ModelUrls/UrlExtensions.cs:45 | looking up in a concatenation prefers the first part |
| UrlExtensions.NotActionOrController | src/SchoStack.AspNetCore.ModelUrls/UrlExtensions.cs:46 | the ambient values without "action" and "controller" |
| UrlExtensions.KeptLookup | src/SchoStack.AspNetCore.ModelUrls/UrlExtensions.cs:46 | for a key not generated, the kept ambient values answer as the ambient values without action/controller |
| UrlExtensions.MergedLookup | src/SchoStack.AspNetCore.ModelUrls/UrlExtensions.cs:45-46 | a generated value wins over an ambient one; other keys come from the ambient values without action/controller |
| UrlExtensions.KeptDistinct | src/SchoStack.AspNetCore.ModelUrls/UrlExtensions.cs:46 | filtering keeps ambient keys distinct |
| UrlExtensions.MergedDistinct | src/SchoStack.AspNetCore.ModelUrls/UrlExtensions.cs:45-48 | the merged values have distinct keys, so building the dictionary for `RouteUrl` cannot fail |
| UrlExtensions.Model.constructor | src/SchoStack.AspNetCore.ModelUrls/UrlExtensions.cs:36 | a model holds its state and runtime type |
| UrlExtensions.ModifiedAppend | src/SchoStack.AspNetCore.ModelUrls/UrlExtensions.cs:74-77 | modifiers run in the order given |
| UrlExtensions.BoundNothing | src/SchoStack.AspNetCore.ModelUrls/UrlExtensions.cs:57-80 | without query binding and without modifiers the model is unchanged |
| UrlExtensions.BindModelFor | src/SchoStack.AspNetCore.ModelUrls/UrlExtensions.cs:57-80 | the same model is returned, bound from the query only when asked, then changed by each modifier in order |
| UrlExtensions.ForAsync | src/SchoStack.AspNetCore.ModelUrls/UrlExtensions.cs:36-50 | binds as above, then asks for the route named by the runtime type with the merged route values |
| UrlExtensions.For | src/SchoStack.AspNetCore.ModelUrls/UrlExtensions.cs:21-24 | `For(obj)` does not bind or modify the model |
| UrlExtensions.ForNew | src/SchoStack.AspNetCore.ModelUrls/UrlExtensions.cs:16-19 | `For<T>()` generates from a new model, without binding |
| UrlExtensions.ForModifiers | src/SchoStack.AspNetCore.ModelUrls/UrlExtensions.cs:26-34 | the modifier overloads start from a new model, bind from the query, then apply the modifiers |
| UrlExtensions.BindModelForNew | src/SchoStack.AspNetCore.ModelUrls/UrlExtensions.cs:52-55 | a new model, bound from the query, then modified |
| UrlExtensions.RouteNamesAgree | src/SchoStack.AspNetCore.ModelUrls/TypedRoutingApplicationModelConvention.cs:19 | when the model's runtime type is the action's declared parameter type, the name the convention assigns is the name URL generation asks for |
| HtmlProfiles.HttpItems.constructor | src/SchoStack.AspNetCore.HtmlConventions/TagExtensions.cs:32 | an item bag holds its items |
| HtmlProfiles.ExistingContext | src/SchoStack.AspNetCore.HtmlConventions/TagExtensions.cs:32 | the slot's value when it is a profile context, else null |
| HtmlProfiles.WithContext | src/SchoStack.AspNetCore.HtmlConventions/TagExtensions.cs:34 | the slot holds the context; other items are unchanged |
| HtmlProfiles.Disposed | src/SchoStack.AspNetCore.HtmlConventions/Core/HtmlProfileContext.cs:21-27 | without a parent the slot is removed, with one it holds the parent; other items are unchanged |
| HtmlProfiles.DisposeIdempotent | src/SchoStack.AspNetCore.HtmlConventions/Core/HtmlProfileContext.cs:21-27 | disposing twice is disposing once |
| HtmlProfiles.ProfileThenDisposeRestores | src/SchoStack.AspNetCore.HtmlConventions/TagExtensions.cs:32-34 | `Profile` then `Dispose` restores the items when the slot was absent or held a profile context |
| HtmlProfiles.ProfileThenDisposeDropsForeignValue | src/SchoStack.AspNetCore.HtmlConventions/TagExtensions.cs:32 | if the slot held something else, `Profile` then `Dispose` removes it |
| HtmlProfiles.NestedProfilesUnwind | src/SchoStack.AspNetCore.HtmlConventions/Core/HtmlProfileContext.cs:11-27 | nested profiles unwind last in, first out, back to the original items |
| HtmlProfiles.CurrentInputType | src/SchoStack.AspNetCore.HtmlConventions/TagExtensions.cs:157 | the form-input-type slot's type, when it holds one |
| HtmlProfiles.FormSlotRoundTrip | src/SchoStack.AspNetCore.HtmlConventions/TagExtensions.cs:150-157 | setting the slot makes it the current input type, removing it leaves none, and set-then-remove on an empty slot restores the items |
| HtmlProfiles.HtmlProfileContext.constructor | src/SchoStack.AspNetCore.HtmlConventions/Core/HtmlProfileContext.cs:11-16 | the profile and parent are recorded unchanged |
| HtmlProfiles.HtmlProfileContext.Dispose | src/SchoStack.AspNetCore.HtmlConventions/Core/HtmlProfileContext.cs:21-27 | the items become the disposed items for this context's parent |
| HtmlProfiles.Profile | src/SchoStack.AspNetCore.HtmlConventions/TagExtensions.cs:30-36 | a fresh context for the profile, whose parent is the previous profile context (or null), stored in the slot and returned |
| HtmlProfiles.Class | src/SchoStack.AspNetCore.HtmlConventions/TagExtensions.cs:101-104 | the class name exactly when the condition holds, else null |
| HtmlProfiles.InputTypeMvcForm.constructor | src/SchoStack.AspNetCore.HtmlConventions/Core/InputTypeMvcForm.cs:10-13 | a form holds the request's items |
| HtmlProfiles.InputTypeMvcForm.GenerateEndForm | src/SchoStack.AspNetCore.HtmlConventions/Core/InputTypeMvcForm.cs:15-19 | ending the form removes the input-type slot and nothing else |
| HtmlProfiles.GenerateForm | src/SchoStack.AspNetCore.HtmlConventions/TagExtensions.cs:154-163 | the slot is set to the input type, other items unchanged, and a form over the same items is returned |
| HtmlProfiles.Form | src/SchoStack.AspNetCore.HtmlConventions/TagExtensions.cs:136-146 | the URL is `For(model)` and the input type is the model's runtime type |
| HtmlProfiles.FormEnd | src/SchoStack.AspNetCore.HtmlConventions/TagExtensions.cs:148-152 | removes the slot, leaves no current input type, and returns "</form>" |

## Left out

- Tasks are modelled by their values. An async method is its result, so the synchronous MediatR overloads (`Task.FromResult` wrappers) coincide with the asynchronous ones. For the same reason `ExecuteResultAsync`, the `.Result` blocking in `For` and the cancellation tokens are left out.
- HtmlTags is not part of this model; its behaviour is assumed:
  - `Attr(k, null)` removes k;
  - `Data(k, v)` sets `data-`+k;
  - `Attr(k, b)` with a boolean b writes `b.ToString()`, that is "True" or "False";
  - `Data(k, true)` writes "true", and `CheckboxTag` marks a checked box with `checked="true"`;
  - a null text renders as "";
  - `IsInputElement` means input, select or textarea;
  - `AddClass` adds to a set.
- `ActionResultBuilder`, `IReturnActionResult.Result()` and the implicit conversions to `HandleActionResult` are framework plumbing with no rule of their own. They are left out.
- Null handler or condition delegates passed to the setters are not modelled. Every handler given to a setter is a total function.
- FluentValidation's `GetMessage` (MessageFormatter and ErrorMessageSource) is library code. A validator's message is an abstract optional string.
- The property accessor is abstract: its getters, their names, PropertyInfo and attributes come as data.
- `InputPropertyMatcher.FindPropertyData` is not part of this model. The matched property list is an input of the request.
- The route-value generator keeps two static caches, and neither is modelled. One maps a type to its properties. The other maps a string key to a property's classification, its attributes and its member accessor.
- RouteValues.Generate: the model assumes the generator's cache keys never collide; it reads every property's own classification, attributes and value. In the source the key is `t.FullName + prefix + p.Name` with no separator, and an element's key adds `"_list"`. Two properties can therefore share an entry, and whichever is met first decides for the other, on every later call as well:
  - across types: property `LineItems` of `NS.Order` and property `Items` of `NS.OrderLine` both use `"NS.OrderLineItems"`;
  - within one type: an enumerable `Items` and a string property `Items_list` share the key `"…Items_list"`. If `Items_list` is met first, `Items`' elements become scalar `Items[i]` entries. If `Items` is met first and has a non-null element, `Items_list` reads as Unknown and is dropped.

  The unreachable Simple-element branch proved in `RouteValues.AddProperty` is unreachable only under this assumption.
- RouteValues.Generate: object graphs are modelled as finite trees, so every walk ends. The source recurses into complex properties and elements without a visited set. On a cyclic object graph, or on a getter that builds a fresh child on every read, it does not terminate and ends in a stack overflow.
- The request data's `Accessor` and `InputType` have public setters, but the model holds them fixed after construction. Memoised `Name` and `Id` going stale after such an assignment is therefore not captured. No caller visible here reassigns them.
- The tests' constructor-based `Generate(model)` API is not part of this model. `UrlExtensions` therefore takes route-value generation as an abstract function of the model, and `RouteValues.Generate` models the shown overload.
- `TryUpdateModelAsync` (framework model binding) is an abstract query-binding function in `UrlExtensions`.
- The type-converter part of `ConvertSimpleType` (TypeDescriptor, Enum.ToObject, culture, exception rethrow) is an abstract converter. So are the compatible-collection helpers and the resource strings.
- Model-state keys and `DefaultConventions.HasErrors`/`ModelBinding.ModelStateDictionary.ClearValidationState` compare keys ordinally. The framework's case-insensitive model-state dictionary is not modelled. The route-value dictionary is modelled case-insensitively, for ASCII letters only.
- `ModelBinding.ModelStateDictionary.ClearValidationState` follows the framework's documented prefix rule, because the framework class is not part of this model.
- TagGenerator is not part of this model, so the value of its `FORMINPUTTYPE` key is not shown. The form-input-type slot is an abstract item key. The profile slot is keyed by the profile-slot constant.
- `IHtmlProfile` is represented by its name. The conventions it selects are not modelled.
- Writing the form tag to the view's writer is left out, and so are the `Action<FormTag>` form modifier, the closing tag written by the base `GenerateEndForm`, and HTML encoding.
- `UrlExtensions.RouteNamesAgree`: the typed-routing convention names a route from the declared type of the action's first parameter, while URL generation asks for the runtime type of the model. The lemma states agreement only when those two types are the same. For a model whose runtime type is a subclass of the declared parameter type, the two names differ.
- `UrlExtensions.For` and the other URL members return the arguments of `RouteUrl` (`RouteUrlCall`), not the URL string. Route-table lookup is framework code.

## Findings

| source | as written | input that shows it | evidently intended | confidence | as-written member | corrected member |
|---|---|---|---|---|---|---|
| src/SchoStack.AspNetCore.Invoker/HandleActionBuilder.cs:144 | the typed builder's constructor always wraps the success handler as `(_, x) => successResult(x)`, so `_successResult` is never null, even when no success handler was given; the null-conditional call at line 230 then invokes a null delegate | `Returning<TRet>()` on a builder without `OnSuccess`, no `On` conditions, a valid model: `ExecuteResult` throws NullReferenceException | return null when no success handler is set, as the untyped builder does at line 127 | not executed | HandleActionBuilders.ReturningWithoutSuccessThrows (over HandleActionBuilders.LiftAsWritten) | HandleActionBuilders.Lift |
