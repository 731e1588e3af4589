# Formatter registration in a fluent object printer

The object printer turns an object into a readable text dump: one line per member. Callers configure it fluently. `Printing<T>()` or `Printing(p => p.Member)` returns a `PropertyPrintingConfig`. This is a sub-builder bound either to every member of a declared type or to one member. Its `Using` call registers a print option (a formatter) and hands back the parent `PrintingConfig`, so calls can be chained.

This project models that registration step:

- `Formatters` (formatters.dfy): the print options the printer's tests use, as a datatype. They are upper-casing, trimming to a maximum length, appending a fixed text, and conversion to a culture. The module also defines how a chain of them is applied, in registration order.
- `PrintOptions` (print_options.dfy): the parent configuration's two option tables as a value. One table maps a type to a formatter chain and the other maps a member to a chain. The module defines the scope decision that appends to one of them (`Register`). It also defines the order in which stored chains are applied when a member is printed (`Resolve`): the member's own chain first, then the chain of its declared type.
- `ObjectPrinting` (property_printing_config.dfy): the two classes. `PrintingConfig` holds the two tables as fields updated in place. `PropertyPrintingConfig` holds its parent configuration, its declared type and an optional member. Its `Using` appends to exactly one table of the parent and returns the parent.
- `PrinterScenarios` (scenarios.dfy): the printer's test cases about formatting. Each one configures a fresh configuration through the builders and states the printed text of the members the test checks.

The C# code of `ObjectPrinter` and `PrintingConfig` is not available, so `Resolve` is backed by the tests only. The model's `PrintingConfig` class covers only the two option tables and the two append methods that `Using` calls. Two orders in `Resolve` are the orders this model assumes: the member chain before the type chain, and registration order within one scope. The tests at ObjectPrinting/Tests/ObjectPrinterTests.cs:114-144 agree with that order but do not fix it. Upper-casing and trimming commute on every input they use, so the opposite order would print the same text. Pinning the order down would need formatters that do not commute, such as `Suffix` followed by `Truncate`. What the tests do show is that both scopes apply to a member, and that a second registration in the same scope composes with the first instead of replacing it. That is also the only evidence for the append bodies the model gives `AddPropertyPrintOption` and `AddTypePrintOption`: the source calls them, but their C# bodies are not available.

A member's value enters `Resolve` as its default text (`"Alex"`, `"19"`, `"83,65"`). Culture conversion is a call into the host platform, so it is a parameter `conv` of type `CultureConversion`. It maps a culture name and a value's text to the converted text.

## Model

| member | source | states |
|---|---|---|
| `Formatters.ToUpper` | ObjectPrinting/Tests/ObjectPrinterTests.cs:53 | the upper-cased text has the same length, and each character is the upper-case form of the character at that position |
| `Formatters.TrimmedToLength` | ObjectPrinting/Tests/ObjectPrinterTests.cs:84-90 | the result is the prefix of the text of length min(text length, maxLength); a text no longer than maxLength is unchanged |
| `Formatters.ApplyChainSnoc` | ObjectPrinting/Tests/ObjectPrinterTests.cs:114-122 | appending a formatter to a chain applies it to the output of all the earlier links |
| `Formatters.ApplyChainConcat` | ObjectPrinting/Tests/ObjectPrinterTests.cs:125-133 | applying one chain and then another equals applying their concatenation |
| `PrintOptions.PrintOptions.WithTypeOption` | ObjectPrinting/PropertyPrintingConfig.cs:32 | the type's chain gains the formatter at its end; the member table and every other type chain are unchanged |
| `PrintOptions.PrintOptions.WithPropertyOption` | ObjectPrinting/PropertyPrintingConfig.cs:30 | the member's chain gains the formatter at its end; the type table and every other member chain are unchanged |
| `PrintOptions.PrintOptions.Register` | ObjectPrinting/PropertyPrintingConfig.cs:29-32 | with a member present, only that member's chain grows and the type table is unchanged; with none, only the chain of the builder's type grows and the member table is unchanged |
| `PrintOptions.PrintOptions.Resolve` | ObjectPrinting/Tests/ObjectPrinterTests.cs:114-144 | the printed text is the default text run through the member's chain followed by its type's chain, as one chain; the tests are its only evidence, and `ResolveEmpty`, `TypeOptionAppliesLast`, `TypeOptionLeavesOtherTypes`, `PropertyOptionAppliesInMemberStage` and `PropertyOptionLeavesOtherMembers` state its further properties |
| `PrintOptions.ResolveEmpty` | ObjectPrinting/Tests/ObjectPrinterTests.cs:20-27 | with no option registered, a member prints as its default text |
| `PrintOptions.TypeOptionAppliesLast` | ObjectPrinting/Tests/ObjectPrinterTests.cs:136-144 | a new type option is applied to what a member of that type printed before |
| `PrintOptions.TypeOptionLeavesOtherTypes` | ObjectPrinting/PropertyPrintingConfig.cs:31-32 | a new type option leaves members of every other type printing as before |
| `PrintOptions.PropertyOptionAppliesInMemberStage` | ObjectPrinting/Tests/ObjectPrinterTests.cs:125-133 | a new member option is applied after the member's earlier links and before its type's chain |
| `PrintOptions.PropertyOptionLeavesOtherMembers` | ObjectPrinting/Tests/ObjectPrinterTests.cs:125-133 | a new member option leaves every other member, including one of the same type, printing as before |
| `PrintOptions.RegistrationsCompose` | ObjectPrinting/PropertyPrintingConfig.cs:27-34 | two registrations through builders of the same scope leave that scope's chain extended by both, in registration order |
| `PrintOptions.ScopesCommute` | ObjectPrinting/Tests/ObjectPrinterTests.cs:125-133 | a member registration and a type registration give the same tables in either order |
| `ObjectPrinting.PrintingConfig.constructor` | ObjectPrinting/Tests/ObjectPrinterTests.cs:22 | a fresh configuration has both option tables empty |
| `ObjectPrinting.PrintingConfig.AddPropertyPrintOption` | ObjectPrinting/PropertyPrintingConfig.cs:30 | the new tables are the old ones with the formatter appended to the member's chain |
| `ObjectPrinting.PrintingConfig.AddTypePrintOption` | ObjectPrinting/PropertyPrintingConfig.cs:32 | the new tables are the old ones with the formatter appended to the type's chain |
| `ObjectPrinting.PropertyPrintingConfig.ParentConfig` | ObjectPrinting/PropertyPrintingConfig.cs:14 | the getter's own contract is its body: it returns the stored parent field. The promise that it yields the configuration the builder was constructed with is carried by the `ForType` and `ForProperty` contracts, and `Using` returns exactly it |
| `ObjectPrinting.PropertyPrintingConfig.ForType` | ObjectPrinting/PropertyPrintingConfig.cs:16-19 | the builder holds no member, and `ParentConfig` yields the configuration it was given |
| `ObjectPrinting.PropertyPrintingConfig.ForProperty` | ObjectPrinting/PropertyPrintingConfig.cs:21-25 | the builder holds the given member (absent for a null one), and `ParentConfig` yields the configuration it was given |
| `ObjectPrinting.PropertyPrintingConfig.Using` | ObjectPrinting/PropertyPrintingConfig.cs:27-35 | the parent's tables become `Register` of the old tables in the builder's scope; the result is the parent configuration itself |
| `ObjectPrinting.PropertyPrintingConfig.UsingCulture` | ObjectPrinting/PropertyPrintingConfig.cs:37-40 | the same scope, table change and returned configuration as `Using` given the culture-conversion formatter |
| `PrinterScenarios.TypeSerializationOption` | ObjectPrinting/Tests/ObjectPrinterTests.cs:50-57 | upper-casing every string prints `FOSTER` and `ALEX` |
| `PrinterScenarios.NumericalTypeWithCulture` | ObjectPrinting/Tests/ObjectPrinterTests.cs:60-69 | a culture registered for doubles converts the weight and leaves the age as `19` |
| `PrinterScenarios.PropertySerializationOption` | ObjectPrinting/Tests/ObjectPrinterTests.cs:72-79 | an option on the age prints `19 years old`, and the name stays `Alex` |
| `PrinterScenarios.TrimmedStringProperty` | ObjectPrinting/Tests/ObjectPrinterTests.cs:82-91 | trimming the name to 2 prints `Al`, and the surname stays `Foster` |
| `PrinterScenarios.PropertyWithMultipleConfigs` | ObjectPrinting/Tests/ObjectPrinterTests.cs:114-122 | upper-casing and then trimming the name to 3 prints `ALE` |
| `PrinterScenarios.PropertyWithIntersectingConfigs` | ObjectPrinting/Tests/ObjectPrinterTests.cs:125-133 | a member upper-casing on the name plus a type trim to 3 on strings prints `Name = ALE` and `Surname = Fos` |
| `PrinterScenarios.TypeWithMultipleConfigs` | ObjectPrinting/Tests/ObjectPrinterTests.cs:136-144 | upper-casing and then trimming every string to 4 prints `FOST` and `ALEX` |

## Left out

- Object-graph traversal, indentation, the CRLF output format, cycle detection and the cycle message. They live in the C# `ObjectPrinter` and `PrintingConfig`, whose code is not available.
- `Excluding<T>()` and `Excluding(selector)`: the exclusion sets live in the C# `PrintingConfig`, whose code is not available. The model's `PrintingConfig` holds only the option tables.
- `Printing<T>()` and `Printing(selector)`, the C# `PrintingConfig` methods that create builders, are not modelled because their code is not available. The scenarios call the two builder constructors directly.
- `Formatters.TrimmedToLength`: the C# `TrimmedToLength` extension method is not available. The model gives it the meaning of the `Truncate(n)` formatter. The tests only trim texts at least as long as the limit: `Alex` to 2 and 3, `Foster` to 3 and 4, and `ALEX` to 4 (ObjectPrinting/Tests/ObjectPrinterTests.cs:87, 118, 129, 140). Returning a shorter text unchanged is this model's own choice. Whether the extension does that or fails is unknown. Its length is a `nat`, so a negative length cannot be expressed.
- Arbitrary `Func<TPropType, string>` lambdas: only the four formatter forms used by the tests are modelled.
- `Formatters.ToUpper`: does not model culture-sensitive Unicode case mapping, because the tests only upper-case ASCII letters.
- Culture conversion `((IConvertible)x).ToString(culture)` is a foreign, culture-dependent, floating-point call. It is the parameter `conv`. The invalid-cast failure for a value that is not `IConvertible` is not modelled.
- Reflection: `PropertyInfo` becomes the `MemberKey` value, and `typeof(TPropType)` becomes the builder's `propType` field. The `TOwner` type parameter is not modelled.
- Member values enter the printer as their default text. The typed raw value that the first formatter link receives in the source is not modelled.
- A null parent configuration: Dafny references in the model are non-null, so the null-reference failure in `Using` is not modelled.
