/** Categories (src/stream_name/category.rs): an entity name, optionally
    followed by `:` and a `+`-separated list of types. */
module Categories {
  import opened Errors
  import opened Text

  const CategoryTypeSeparator: char := ':'
  const CompoundTypeSeparator: char := '+'

  datatype Category = Category(entityName: string, types: seq<string>)

  /** `Category::new`: the only constructor that refuses an empty entity name. */
  function New(entityName: string, types: seq<string>): (r: Result<Category, Error>)
    ensures r.Err? <==> entityName == []
    ensures r.Err? ==> r.error == EmptyStreamName
    ensures r.Ok? ==> r.value.entityName == entityName && r.value.types == types
  {
    if entityName == [] then Err(EmptyStreamName) else Ok(Category(entityName, types))
  }

  /** `Category::from_str`: split once on the first `:`, then split the rest
      on every `+`. It never fails, not even for an empty entity name. */
  function Parse(s: string): (r: Result<Category, Error>)
    ensures r.Ok?
    ensures CategoryTypeSeparator !in s ==> r.value == Category(s, [])
    ensures CategoryTypeSeparator in s ==>
      && CategoryTypeSeparator !in r.value.entityName
      && |r.value.types| >= 1
      && NoneContains(r.value.types, CompoundTypeSeparator)
      && r.value.entityName + [CategoryTypeSeparator] <= s
  {
    match SplitOnce(s, CategoryTypeSeparator)
    case Some((entityName, types)) =>
      Ok(Category(entityName, Split(types, CompoundTypeSeparator)))
    case None =>
      Ok(Category(s, []))
  }

  /** `impl Display for Category`: the entity name, then `:` and the joined
      types only when there are types. */
  function Format(c: Category): string
  {
    c.entityName
    + if c.types == [] then [] else [CategoryTypeSeparator] + Join(c.types, CompoundTypeSeparator)
  }

  /** Every text survives parsing and formatting unchanged. */
  lemma FormatParse(s: string)
    ensures Format(Parse(s).value) == s
  {
    match SplitOnce(s, CategoryTypeSeparator)
    case Some((entityName, types)) =>
      JoinSplit(types, CompoundTypeSeparator);
    case None =>
  }

  /** The parser splits at the first `:`; the types are the `+`-separated
      pieces of the rest. */
  lemma ParseAt(entityName: string, types: string)
    requires CategoryTypeSeparator !in entityName
    ensures Parse(entityName + [CategoryTypeSeparator] + types)
         == Ok(Category(entityName, Split(types, CompoundTypeSeparator)))
  {
    SplitOnceAt(entityName, types, CategoryTypeSeparator);
  }

  /** Parsing a formatted category gives it back when the entity name has no
      `:` and no type contains `+`. */
  lemma ParseFormat(c: Category)
    requires CategoryTypeSeparator !in c.entityName
    requires NoneContains(c.types, CompoundTypeSeparator)
    ensures Parse(Format(c)) == Ok(c)
  {
    if c.types == [] {
      assert Format(c) == c.entityName;
    } else {
      var rest := Join(c.types, CompoundTypeSeparator);
      assert Format(c) == c.entityName + [CategoryTypeSeparator] + rest;
      SplitOnceAt(c.entityName, rest, CategoryTypeSeparator);
      SplitJoin(c.types, CompoundTypeSeparator);
    }
  }

  /** The texts `Category::new` refuses are accepted by the parser. */
  lemma ParseAcceptsEmptyEntityName()
    ensures Parse("") == Ok(Category("", []))
    ensures Parse(":type") == Ok(Category("", ["type"]))
    ensures New("", []).Err? && New("", ["type"]).Err?
  {
    ParseFormat(Category("", ["type"]));
  }

  lemma FormatExample()
    ensures Format(Category("account", ["command", "snapshot"])) == "account:command+snapshot"
  {
  }
}
