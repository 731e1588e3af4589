/**
  The configuration objects of the fluent object printer. A `PrintingConfig`
  owns the option tables and is updated in place; a `PropertyPrintingConfig`
  is the sub-builder returned for one declared type or one member, whose
  `Using` appends a formatter to the right table of its parent configuration
  and hands that same configuration back for further chaining.
 */
module ObjectPrinting {
  import opened Optional
  import opened Formatters
  import opened PrintOptions

  /** The parent configuration: the option table keyed by type and the one
      keyed by member, both mutated by registration. */
  class PrintingConfig {
    var typeOptions: map<TypeKey, seq<Formatter>>
    var propertyOptions: map<MemberKey, seq<Formatter>>

    /** The tables as a value. */
    function Options(): PrintOptions
      reads this
    {
      PrintOptions(typeOptions, propertyOptions)
    }

    /** A fresh configuration has no option registered. */
    constructor ()
      ensures Options() == EMPTY
    {
      typeOptions := map[];
      propertyOptions := map[];
    }

    /** Appends `printOption` to the chain of member `propertyInfo`. */
    method AddPropertyPrintOption(propertyInfo: MemberKey, printOption: Formatter)
      modifies this
      ensures Options() == old(Options()).WithPropertyOption(propertyInfo, printOption)
    {
      var chain := if propertyInfo in propertyOptions then propertyOptions[propertyInfo] else [];
      propertyOptions := propertyOptions[propertyInfo := chain + [printOption]];
    }

    /** Appends `printOption` to the chain of type `propType`. */
    method AddTypePrintOption(propType: TypeKey, printOption: Formatter)
      modifies this
      ensures Options() == old(Options()).WithTypeOption(propType, printOption)
    {
      var chain := if propType in typeOptions then typeOptions[propType] else [];
      typeOptions := typeOptions[propType := chain + [printOption]];
    }
  }

  /** A formatter builder bound to the declared type `propType` and, when
      `propertyInfo` is present, to that one member. */
  class PropertyPrintingConfig {
    const printingConfig: PrintingConfig
    const propertyInfo: Option<MemberKey>
    const propType: TypeKey

    /** The configuration this builder registers into and returns: the one it
        was constructed with. */
    function ParentConfig(): (c: PrintingConfig)
      ensures c == printingConfig
    {
      printingConfig
    }

    /** A builder for every member whose declared type is `propType`. */
    constructor ForType(printingConfig: PrintingConfig, propType: TypeKey)
      ensures ParentConfig() == printingConfig
      ensures this.propertyInfo == None && this.propType == propType
    {
      this.printingConfig := printingConfig;
      this.propertyInfo := None;
      this.propType := propType;
    }

    /** A builder for one member; an absent member makes it a type builder. */
    constructor ForProperty(printingConfig: PrintingConfig, propType: TypeKey, propertyInfo: Option<MemberKey>)
      ensures ParentConfig() == printingConfig
      ensures this.propertyInfo == propertyInfo && this.propType == propType
    {
      this.printingConfig := printingConfig;
      this.propertyInfo := propertyInfo;
      this.propType := propType;
    }

    /** Registers `printOption` in this builder's scope and returns the parent
        configuration, unchanged in identity. */
    method Using(printOption: Formatter) returns (r: PrintingConfig)
      modifies printingConfig
      ensures r == ParentConfig()
      ensures r.Options() == old(printingConfig.Options()).Register(propType, propertyInfo, printOption)
    {
      if propertyInfo.Some? {
        printingConfig.AddPropertyPrintOption(propertyInfo.value, printOption);
      } else {
        printingConfig.AddTypePrintOption(propType, printOption);
      }
      return printingConfig;
    }

    /** Registers conversion to `culture` in this builder's scope, exactly as
        `Using` does with that formatter. */
    method UsingCulture(culture: string) returns (r: PrintingConfig)
      modifies printingConfig
      ensures r == ParentConfig()
      ensures r.Options() == old(printingConfig.Options()).Register(propType, propertyInfo, Culture(culture))
    {
      r := Using(Culture(culture));
    }
  }
}
