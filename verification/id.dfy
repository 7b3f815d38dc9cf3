/** Stream ids (src/stream_name/id.rs): a compound id is a list of components
    written joined with `+`; the first component is the cardinal id. */
module Ids {
  import opened Errors
  import opened Text

  const CompoundIdSeparator: char := '+'

  /** `ID(Vec<String>)`. Values built by `New` and `NewCompound` have at least
      one component and no empty component. */
  datatype ID = ID(ids: seq<string>)

  /** `ids.iter().any(|id| id.is_empty())`. */
  function AnyEmpty(xs: seq<string>): (r: bool)
    ensures r <==> exists i :: 0 <= i < |xs| && xs[i] == []
  {
    if xs == [] then false else xs[0] == [] || AnyEmpty(xs[1..])
  }

  /** `ID::new_compound`: refuses an empty list and a list with an empty
      component; otherwise keeps the components as given. */
  function NewCompound(xs: seq<string>): (r: Result<ID, Error>)
    ensures r.Ok? <==> |xs| > 0 && NoneEmpty(xs)
    ensures r.Ok? ==> r.value.ids == xs
    ensures r.Err? ==> r.error == EmptyStreamID
  {
    if xs == [] || AnyEmpty(xs) then Err(EmptyStreamID) else Ok(ID(xs))
  }

  /** `ID::new`, which is also `ID::from_str`: an empty text is refused,
      otherwise the text is split on every `+`. */
  function New(s: string): (r: Result<ID, Error>)
    ensures s == [] ==> r == Err(EmptyStreamID)
    ensures r.Err? ==> r.error == EmptyStreamID
    ensures r.Ok? ==> |r.value.ids| > 0 && NoneEmpty(r.value.ids)
    ensures r.Ok? ==> NoneContains(r.value.ids, CompoundIdSeparator)
  {
    if s == [] then Err(EmptyStreamID) else NewCompound(Split(s, CompoundIdSeparator))
  }

  /** `ID::cardinal_id`: the first component (the source unwraps, so the id
      must have one). */
  function CardinalId(id: ID): string
    requires |id.ids| > 0
  {
    id.ids[0]
  }

  /** `impl Display for ID`. */
  function Format(id: ID): string
  {
    Join(id.ids, CompoundIdSeparator)
  }

  /** Exactly the texts with no empty component parse: not empty, no leading
      or trailing `+`, no `++`. */
  lemma NewOkIff(s: string)
    ensures New(s).Ok? <==>
      s != [] && s[0] != CompoundIdSeparator && s[|s| - 1] != CompoundIdSeparator
      && NoDoubled(s, CompoundIdSeparator)
  {
    SplitNoneEmpty(s, CompoundIdSeparator);
  }

  /** Formatting a parsed id gives back the text it was parsed from. */
  lemma FormatNew(s: string)
    requires New(s).Ok?
    ensures Format(New(s).value) == s
  {
    JoinSplit(s, CompoundIdSeparator);
  }

  /** Parsing a formatted id gives back the id when no component is empty
      or contains `+`. */
  lemma NewFormat(id: ID)
    requires |id.ids| > 0 && NoneEmpty(id.ids)
    requires NoneContains(id.ids, CompoundIdSeparator)
    ensures New(Format(id)) == Ok(id)
  {
    SplitJoin(id.ids, CompoundIdSeparator);
  }

  /** The cardinal id of a parsed id is the non-empty text before the first
      `+`, or the whole text when it has none. */
  lemma CardinalIdOfNew(s: string)
    requires New(s).Ok?
    ensures CardinalId(New(s).value) != []
    ensures CompoundIdSeparator !in CardinalId(New(s).value)
    ensures match SplitOnce(s, CompoundIdSeparator)
            case None => CardinalId(New(s).value) == s
            case Some(parts) => CardinalId(New(s).value) == parts.0
  {
    var ids := New(s).value.ids;
    match SplitOnce(s, CompoundIdSeparator)
    case None =>
      SplitWord(s, CompoundIdSeparator);
    case Some(parts) =>
      SplitWordThen(parts.0, parts.1, CompoundIdSeparator);
  }

  /** The examples of rejected ids: empty, a trailing, a leading and a
      doubled separator. */
  lemma RejectedIds()
    ensures New("") == Err(EmptyStreamID)
    ensures New("a+") == Err(EmptyStreamID)
    ensures New("+a") == Err(EmptyStreamID)
    ensures New("a++b") == Err(EmptyStreamID)
  {
    NewOkIff("a+");
    NewOkIff("+a");
    NewOkIff("a++b");
    assert "a++b"[1] == '+' && "a++b"[2] == '+';
  }

  lemma CompoundIdExample()
    ensures New("id_a+id_b") == Ok(ID(["id_a", "id_b"]))
    ensures Format(ID(["id_a", "id_b"])) == "id_a+id_b"
  {
    var id := ID(["id_a", "id_b"]);
    assert Format(id) == "id_a+id_b";
    assert NoneContains(id.ids, CompoundIdSeparator);
    NewFormat(id);
  }
}
