/** Stream names (src/stream_name.rs): a category, optionally followed by `-`
    and an id. Only the first `-` separates the two; later ones belong to the
    id. */
module StreamNames {
  import opened Errors
  import opened Text
  import Ids
  import Categories

  const IdSeparator: char := '-'

  datatype StreamName = StreamName(category: Categories.Category, id: Option<Ids.ID>)

  /** `StreamName::is_category` as coded: true when the text CONTAINS `-`,
      that is, when it names an entity stream rather than a category. */
  function IsCategory(streamName: string): (r: bool)
    ensures r <==> SplitOnce(streamName, IdSeparator).Some?
  {
    IdSeparator in streamName
  }

  /** `StreamName::category`: the text before the first `-`, or all of it. */
  function CategoryPart(streamName: string): (r: string)
    ensures IdSeparator !in r
    ensures r <= streamName
    ensures r == streamName <==> IdSeparator !in streamName
    ensures IdSeparator in streamName ==> r + [IdSeparator] <= streamName
  {
    match SplitOnce(streamName, IdSeparator)
    case Some((category, _)) => category
    case None => streamName
  }

  /** `StreamName::from_str`. */
  function Parse(s: string): (r: Result<StreamName, Error>)
    ensures r.Err? <==> SplitOnce(s, IdSeparator).Some? && Ids.New(SplitOnce(s, IdSeparator).value.1).Err?
    ensures r.Err? ==> r.error == EmptyStreamID
    ensures r.Ok? ==> (r.value.id.Some? <==> IdSeparator in s)
    ensures r.Ok? ==> r.value.category == Categories.Parse(CategoryPart(s)).value
  {
    match SplitOnce(s, IdSeparator)
    case Some((categoryPart, idPart)) =>
      (match Categories.Parse(categoryPart)
       case Err(e) => Err(e)
       case Ok(category) =>
         match Ids.New(idPart)
         case Err(e) => Err(e)
         case Ok(id) => Ok(StreamName(category, Some(id))))
    case None =>
      match Categories.Parse(s)
      case Err(e) => Err(e)
      case Ok(category) => Ok(StreamName(category, None))
  }

  /** `impl Display for StreamName`. */
  function Format(sn: StreamName): string
  {
    Categories.Format(sn.category)
    + match sn.id
      case Some(id) => [IdSeparator] + Ids.Format(id)
      case None => []
  }

  /** Every text that parses is reproduced by formatting its parse. */
  lemma FormatParse(s: string)
    requires Parse(s).Ok?
    ensures Format(Parse(s).value) == s
  {
    if IdSeparator in s {
      var parts := SplitOnce(s, IdSeparator).value;
      FormatParseWithId(parts.0, parts.1);
    } else {
      Categories.FormatParse(s);
      assert Parse(s) == Ok(StreamName(Categories.Parse(s).value, None));
    }
  }

  lemma FormatParseWithId(categoryPart: string, idPart: string)
    requires IdSeparator !in categoryPart
    requires Ids.New(idPart).Ok?
    ensures Parse(categoryPart + [IdSeparator] + idPart).Ok?
    ensures Format(Parse(categoryPart + [IdSeparator] + idPart).value) == categoryPart + [IdSeparator] + idPart
  {
    ParseSplitsAtFirstDash(categoryPart, idPart);
    var category := Categories.Parse(categoryPart).value;
    var id := Ids.New(idPart).value;
    Categories.FormatParse(categoryPart);
    Ids.FormatNew(idPart);
    FormatWithId(category, id);
  }

  /** A stream name with an id is written as its category, `-`, its id. */
  lemma FormatWithId(category: Categories.Category, id: Ids.ID)
    ensures Format(StreamName(category, Some(id))) == Categories.Format(category) + [IdSeparator] + Ids.Format(id)
  {
  }

  /** The stream names that survive formatting and parsing: the category
      round-trips and its text has no `-`, and the id (if any) has non-empty
      components without `+`. Id components may contain `-`. */
  predicate RoundTrips(sn: StreamName) {
    && CanonicalCategory(sn.category)
    && (sn.id.Some? ==>
          |sn.id.value.ids| > 0 && NoneEmpty(sn.id.value.ids)
          && NoneContains(sn.id.value.ids, Ids.CompoundIdSeparator))
  }

  predicate CanonicalCategory(c: Categories.Category) {
    && Categories.CategoryTypeSeparator !in c.entityName
    && NoneContains(c.types, Categories.CompoundTypeSeparator)
    && IdSeparator !in Categories.Format(c)
  }

  lemma ParseFormat(sn: StreamName)
    requires RoundTrips(sn)
    ensures Parse(Format(sn)) == Ok(sn)
  {
    var cat := Categories.Format(sn.category);
    Categories.ParseFormat(sn.category);
    if sn.id.Some? {
      var id := sn.id.value;
      Ids.NewFormat(id);
      ParseSplitsAtFirstDash(cat, Ids.Format(id));
      FormatWithId(sn.category, id);
      assert sn == StreamName(sn.category, Some(id));
    } else {
      ParseCategoryOnly(cat);
      assert Format(sn) == cat;
    }
  }

  /** A text without `-` is a category stream name. */
  lemma ParseCategoryOnly(s: string)
    requires IdSeparator !in s
    ensures Parse(s) == Ok(StreamName(Categories.Parse(s).value, None))
  {
  }

  /** The parser accepts an empty entity name, with or without types. */
  lemma ParseAcceptsEmptyEntityName()
    ensures Parse("") == Ok(StreamName(Categories.Category("", []), None))
    ensures Parse(":type") == Ok(StreamName(Categories.Category("", ["type"]), None))
  {
    Categories.ParseAcceptsEmptyEntityName();
    assert SplitOnce("", IdSeparator) == None;
    assert SplitOnce(":type", IdSeparator) == None;
  }

  /** The parser refuses an empty id and an id with an empty component. */
  lemma ParseRejectsEmptyIds()
    ensures Parse("cat-") == Err(EmptyStreamID)
    ensures Parse("cat-id+") == Err(EmptyStreamID)
  {
    assert "cat-" == "cat" + [IdSeparator] + "";
    SplitOnceAt("cat", "", IdSeparator);
    assert "cat-id+" == "cat" + [IdSeparator] + "id+";
    SplitOnceAt("cat", "id+", IdSeparator);
    Ids.NewOkIff("id+");
  }

  /** Only the first `-` separates: whatever follows it, further dashes
      included, is parsed as the id. */
  lemma ParseSplitsAtFirstDash(categoryPart: string, idPart: string)
    requires IdSeparator !in categoryPart
    ensures Parse(categoryPart + [IdSeparator] + idPart) ==
      match Ids.New(idPart)
      case Ok(id) => Ok(StreamName(Categories.Parse(categoryPart).value, Some(id)))
      case Err(e) => Err(e)
  {
    SplitOnceAt(categoryPart, idPart, IdSeparator);
  }

  /** The formatting examples of the module's test with a single id. */
  lemma FormatExamples()
    ensures Format(StreamName(Categories.Category("category", []), Some(Ids.ID(["id"]))))
      == "category-id"
    ensures Format(StreamName(Categories.Category("category", ["type_a"]), Some(Ids.ID(["id"]))))
      == "category:type_a-id"
    ensures Format(StreamName(Categories.Category("category", ["type_a", "type_b"]), Some(Ids.ID(["id"]))))
      == "category:type_a+type_b-id"
  {
    var single := Ids.ID(["id"]);
    assert Ids.Format(single) == "id";
    FormatWithId(Categories.Category("category", []), single);
    FormatWithId(Categories.Category("category", ["type_a"]), single);
    CompoundTypesFormat();
    FormatWithId(Categories.Category("category", ["type_a", "type_b"]), single);
  }

  /** The formatting examples of the module's test with a compound id. */
  lemma CompoundFormatExamples()
    ensures Format(StreamName(Categories.Category("category", []), Some(Ids.ID(["id_a", "id_b"]))))
      == "category-id_a+id_b"
    ensures Format(StreamName(Categories.Category("category", ["type_a", "type_b"]), Some(Ids.ID(["id_a", "id_b"]))))
      == "category:type_a+type_b-id_a+id_b"
  {
    var pair := Ids.ID(["id_a", "id_b"]);
    assert Ids.Format(pair) == "id_a+id_b";
    FormatWithId(Categories.Category("category", []), pair);
    CompoundTypesFormat();
    FormatWithId(Categories.Category("category", ["type_a", "type_b"]), pair);
  }

  /** The category texts of the module's test parse to the categories the
      examples format. */
  lemma ExampleCategoriesParse()
    ensures Categories.Parse("category") == Ok(Categories.Category("category", []))
    ensures Categories.Parse("category:type_a") == Ok(Categories.Category("category", ["type_a"]))
    ensures Categories.Parse("category:type_a+type_b") == Ok(Categories.Category("category", ["type_a", "type_b"]))
  {
    TypedExampleParses();
    CompoundTypesParse();
  }

  lemma TypedExampleParses()
    ensures Categories.Parse("category:type_a") == Ok(Categories.Category("category", ["type_a"]))
  {
    var typed := Categories.Category("category", ["type_a"]);
    assert Categories.Format(typed) == "category:type_a";
    Categories.ParseFormat(typed);
  }

  lemma CompoundTypesParse()
    ensures Categories.Parse("category:type_a+type_b") == Ok(Categories.Category("category", ["type_a", "type_b"]))
  {
    var compound := Categories.Category("category", ["type_a", "type_b"]);
    CompoundTypesFormat();
    Categories.ParseFormat(compound);
  }

  /** The id texts of the module's test parse to the ids the examples
      format. */
  lemma ExampleIdsParse()
    ensures Ids.New("id") == Ok(Ids.ID(["id"]))
    ensures Ids.New("id_a+id_b") == Ok(Ids.ID(["id_a", "id_b"]))
  {
    var single := Ids.ID(["id"]);
    assert Ids.Format(single) == "id";
    Ids.NewFormat(single);
    Ids.CompoundIdExample();
  }

  lemma CompoundTypesFormat()
    ensures Categories.Format(Categories.Category("category", ["type_a", "type_b"])) == "category:type_a+type_b"
  {
    assert Join(["type_a", "type_b"], Categories.CompoundTypeSeparator) == "type_a+type_b";
  }
}
