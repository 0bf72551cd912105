/** Cards and the property templates of their board, as the web client sees them. */
module Cards {

  /** The value of a card property: absent, one text or option ID, or several. */
  datatype Value = Missing | Text(s: string) | Several(ids: seq<string>)

  datatype Card = Card(id: string, title: string, createdBy: string, modifiedBy: string, createAt: int, updateAt: int,
                       properties: map<string, Value>)

  datatype PropertyType =
    | TextType | NumberType | SelectType | MultiSelectType | DateType | PersonType | MultiPersonType | FileType
    | CheckboxType | UrlType | EmailType | PhoneType | CreatedTimeType | CreatedByType | UpdatedTimeType | UpdatedByType
    | UnknownType

  /** The value of an option: a text, or the list some card holds where a text belongs.  Lists are objects,
      each card has its own, and they are told apart as objects. */
  datatype Label = Plain(s: string) | ListOf(cardID: string)

  datatype Choice = Choice(id: string, value: Label)

  datatype Template = Template(id: string, name: string, kind: PropertyType, options: seq<Choice>)

  function ValueOf(card: Card, propertyID: string): Value {
    if propertyID in card.properties then card.properties[propertyID] else Missing
  }

  predicate Offers(options: seq<Choice>, id: string) {
    exists i :: 0 <= i < |options| && options[i].id == id
  }

  /** The first option with the ID. */
  function FindOption(options: seq<Choice>, id: string): (r: Choice)
    requires Offers(options, id)
    ensures r in options && r.id == id
  {
    if options[0].id == id then options[0] else FindOption(options[1..], id)
  }

  ghost predicate DistinctOptions(options: seq<Choice>) {
    forall i, j :: 0 <= i < j < |options| ==> options[i].id != options[j].id
  }
}
