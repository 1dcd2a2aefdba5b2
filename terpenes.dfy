/** The records the admin tool exchanges with the terpene API
    (src/interfaces/index.ts). */
module Terpenes {

  datatype Option<+T> = None | Some(value: T)
  {
    function GetOr(default: T): T
    {
      match this
      case Some(v) => v
      case None => default
    }
  }

  /** A smell, taste or property as attached to a terpene (`SmellwithCitation`,
      `TastewithCitation`, `PropertywithCitation`), or as listed in a catalogue
      (`Smell`, `Taste`, `BasicProperty`). The source names the fields per kind
      (`SmellID`/`Smell`, `TasteID`/`Taste`, `PropertyID`/`Property`); the
      model uses one shape for all three. `citation` is None both for a JSON
      `null` and for an entry that has no `Citation` field at all, which is
      what a catalogue entry picked from a dropdown looks like. */
  datatype Attribute = Attribute(id: int, name: string, citation: Option<string>)

  /** `{Synonym: string}`: carried along unchanged by every operation. */
  type Synonym = string

  /** `TerpeneObjectResponse`: the aggregate read from and written back to the
      server as a whole. Any of its lists may be null in a server response. */
  datatype TerpeneObject = TerpeneObject(
    terpeneId: int,
    terpene: string,
    smells: Option<seq<Attribute>>,
    tastes: Option<seq<Attribute>>,
    synonyms: Option<seq<Synonym>>,
    properties: Option<seq<Attribute>>)

  /** `list || []`: a missing list reads as the empty one (an empty JavaScript
      array is truthy, so a present list is kept as it is). */
  function OrEmpty(list: Option<seq<Attribute>>): seq<Attribute>
  {
    list.GetOr([])
  }

  /** `{...a, Citation: ''}`: the same item with an empty citation. */
  function Blank(a: Attribute): Attribute
  {
    a.(citation := Some(""))
  }
}
