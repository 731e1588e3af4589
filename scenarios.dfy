/**
  The printer's test scenarios, on the person `Surname = Foster, Name = Alex,
  Age = 19, Weight = 83,65`. Each method configures a fresh printing
  configuration through formatter builders, then states what is printed for
  the members the test looks at. Only the printed value of each member is
  modelled; the surrounding lines are not.
 */
module PrinterScenarios {
  import opened Optional
  import opened Formatters
  import opened PrintOptions
  import opened ObjectPrinting

  const PERSON: TypeKey := "Person"
  const STRING: TypeKey := "string"
  const INT: TypeKey := "int"
  const DOUBLE: TypeKey := "double"

  const SURNAME: MemberKey := MemberKey(PERSON, "Surname")
  const NAME: MemberKey := MemberKey(PERSON, "Name")
  const AGE: MemberKey := MemberKey(PERSON, "Age")
  const WEIGHT: MemberKey := MemberKey(PERSON, "Weight")

  /** Upper-casing every string prints both names in capitals. */
  method TypeSerializationOption(conv: CultureConversion) returns (surname: string, name: string)
    ensures surname == "FOSTER" && name == "ALEX"
  {
    var config := new PrintingConfig();
    var strings := new PropertyPrintingConfig.ForType(config, STRING);
    config := strings.Using(Upper);
    surname := config.Options().Resolve(SURNAME, STRING, "Foster", conv);
    name := config.Options().Resolve(NAME, STRING, "Alex", conv);
    TypeOptionAppliesLast(EMPTY, STRING, Upper, SURNAME, "Foster", conv);
    TypeOptionAppliesLast(EMPTY, STRING, Upper, NAME, "Alex", conv);
    assert ToUpper("Foster") == "FOSTER";
    assert ToUpper("Alex") == "ALEX";
  }

  /** A culture registered for doubles converts the weight and leaves the age
      as it was. */
  method NumericalTypeWithCulture(conv: CultureConversion) returns (weight: string, age: string)
    ensures weight == conv("en", "83,65")
    ensures age == "19"
  {
    var config := new PrintingConfig();
    var doubles := new PropertyPrintingConfig.ForType(config, DOUBLE);
    config := doubles.UsingCulture("en");
    weight := config.Options().Resolve(WEIGHT, DOUBLE, "83,65", conv);
    age := config.Options().Resolve(AGE, INT, "19", conv);
    TypeOptionAppliesLast(EMPTY, DOUBLE, Culture("en"), WEIGHT, "83,65", conv);
    TypeOptionLeavesOtherTypes(EMPTY, DOUBLE, Culture("en"), AGE, INT, "19", conv);
  }

  /** An option on the age changes the age only. */
  method PropertySerializationOption(conv: CultureConversion) returns (age: string, name: string)
    ensures age == "19 years old"
    ensures name == "Alex"
  {
    var config := new PrintingConfig();
    var ages := new PropertyPrintingConfig.ForProperty(config, INT, Some(AGE));
    config := ages.Using(Suffix(" years old"));
    age := config.Options().Resolve(AGE, INT, "19", conv);
    name := config.Options().Resolve(NAME, STRING, "Alex", conv);
  }

  /** Trimming the name to two characters. */
  method TrimmedStringProperty(conv: CultureConversion) returns (name: string, surname: string)
    ensures name == "Al"
    ensures surname == "Foster"
  {
    var config := new PrintingConfig();
    var names := new PropertyPrintingConfig.ForProperty(config, STRING, Some(NAME));
    config := names.Using(Truncate(2));
    name := config.Options().Resolve(NAME, STRING, "Alex", conv);
    surname := config.Options().Resolve(SURNAME, STRING, "Foster", conv);
  }

  /** Two options on the name compose: upper-case, then trim to three. */
  method PropertyWithMultipleConfigs(conv: CultureConversion) returns (name: string)
    ensures name == "ALE"
  {
    var config := new PrintingConfig();
    var names := new PropertyPrintingConfig.ForProperty(config, STRING, Some(NAME));
    config := names.Using(Upper);
    names := new PropertyPrintingConfig.ForProperty(config, STRING, Some(NAME));
    config := names.Using(Truncate(3));
    name := config.Options().Resolve(NAME, STRING, "Alex", conv);
    assert ToUpper("Alex") == "ALEX";
  }

  /** A member option and a type option intersect on the name: the member's
      upper-casing runs before the type's trimming, and the surname gets the
      trimming only. */
  method PropertyWithIntersectingConfigs(conv: CultureConversion) returns (surname: string, name: string)
    ensures surname == "Fos" && name == "ALE"
  {
    var config := new PrintingConfig();
    var names := new PropertyPrintingConfig.ForProperty(config, STRING, Some(NAME));
    config := names.Using(Upper);
    var strings := new PropertyPrintingConfig.ForType(config, STRING);
    config := strings.Using(Truncate(3));
    surname := config.Options().Resolve(SURNAME, STRING, "Foster", conv);
    name := config.Options().Resolve(NAME, STRING, "Alex", conv);
    ghost var named := EMPTY.WithPropertyOption(NAME, Upper);
    TypeOptionAppliesLast(named, STRING, Truncate(3), SURNAME, "Foster", conv);
    TypeOptionAppliesLast(named, STRING, Truncate(3), NAME, "Alex", conv);
    assert ToUpper("Alex") == "ALEX";
  }

  /** Two options on every string compose: upper-case, then trim to four. */
  method TypeWithMultipleConfigs(conv: CultureConversion) returns (surname: string, name: string)
    ensures surname == "FOST" && name == "ALEX"
  {
    var config := new PrintingConfig();
    var strings := new PropertyPrintingConfig.ForType(config, STRING);
    config := strings.Using(Upper);
    strings := new PropertyPrintingConfig.ForType(config, STRING);
    config := strings.Using(Truncate(4));
    surname := config.Options().Resolve(SURNAME, STRING, "Foster", conv);
    name := config.Options().Resolve(NAME, STRING, "Alex", conv);
    ghost var upper := EMPTY.WithTypeOption(STRING, Upper);
    TypeOptionAppliesLast(upper, STRING, Truncate(4), SURNAME, "Foster", conv);
    TypeOptionAppliesLast(upper, STRING, Truncate(4), NAME, "Alex", conv);
    TypeOptionAppliesLast(EMPTY, STRING, Upper, SURNAME, "Foster", conv);
    TypeOptionAppliesLast(EMPTY, STRING, Upper, NAME, "Alex", conv);
    assert ToUpper("Foster") == "FOSTER";
    assert ToUpper("Alex") == "ALEX";
  }
}
