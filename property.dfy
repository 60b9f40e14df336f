/** The property record built from the form (`gatherPropertyInfo`,
    js/app.js:195-216). The form is given as a map from field name to the
    text entered; the checked feature boxes as a list of their values. */
module Property {

  /** The form's named entries; a field the form does not send is absent. */
  type FormData = map<string, string>

  datatype PropertyInfo = PropertyInfo(
    address: string,
    price: string,
    propertyType: string,
    bedrooms: string,
    bathrooms: string,
    squareFootage: string,
    lotSize: string,
    yearBuilt: string,
    garage: string,
    neighborhood: string,
    listingStyle: string,
    features: seq<string>,
    specialFeatures: string,
    additionalNotes: string)

  const NotSpecified: string := "Not specified"

  /** The fields that `gatherPropertyInfo` fills with a fallback. */
  datatype DefaultedField =
    | Price | PropertyType | Bedrooms | Bathrooms | SquareFootage | LotSize
    | YearBuilt | Garage | Neighborhood | ListingStyle | SpecialFeatures | AdditionalNotes

  /** The form entry a field is read from. */
  function Key(f: DefaultedField): string
  {
    match f
    case Price => "price"
    case PropertyType => "propertyType"
    case Bedrooms => "bedrooms"
    case Bathrooms => "bathrooms"
    case SquareFootage => "squareFootage"
    case LotSize => "lotSize"
    case YearBuilt => "yearBuilt"
    case Garage => "garage"
    case Neighborhood => "neighborhood"
    case ListingStyle => "listingStyle"
    case SpecialFeatures => "specialFeatures"
    case AdditionalNotes => "additionalNotes"
  }

  /** The fallback a field takes when its entry is absent or empty. */
  function Default(f: DefaultedField): string
  {
    match f
    case Price => "0"
    case PropertyType => "Property"
    case ListingStyle => "professional"
    case SpecialFeatures => "None specified"
    case AdditionalNotes => "None"
    case _ => NotSpecified
  }

  /** The record's value of field `f`. */
  function Field(p: PropertyInfo, f: DefaultedField): string
  {
    match f
    case Price => p.price
    case PropertyType => p.propertyType
    case Bedrooms => p.bedrooms
    case Bathrooms => p.bathrooms
    case SquareFootage => p.squareFootage
    case LotSize => p.lotSize
    case YearBuilt => p.yearBuilt
    case Garage => p.garage
    case Neighborhood => p.neighborhood
    case ListingStyle => p.listingStyle
    case SpecialFeatures => p.specialFeatures
    case AdditionalNotes => p.additionalNotes
  }

  /** No defaulted field of the record is empty. */
  predicate Complete(p: PropertyInfo)
  {
    forall f :: Field(p, f) != ""
  }

  /** `${data[key]}`: the entered text, or "undefined" when the form has no
      such entry. */
  function Interpolated(data: FormData, key: string): string
  {
    if key in data then data[key] else "undefined"
  }

  /** `data[key] || fallback`: an absent or empty entry takes the fallback. */
  function OrDefault(data: FormData, key: string, fallback: string): string
  {
    if key in data && data[key] != "" then data[key] else fallback
  }

  /** `gatherPropertyInfo`: composes the address and puts the fixed default
      in place of every absent or empty field; entered text is kept as it
      is, whitespace included. */
  function GatherPropertyInfo(data: FormData, features: seq<string>): (p: PropertyInfo)
    ensures Complete(p)
    ensures forall f :: Key(f) in data && data[Key(f)] != "" ==> Field(p, f) == data[Key(f)]
    ensures forall f :: Key(f) !in data || data[Key(f)] == "" ==> Field(p, f) == Default(f)
    ensures p.address == Interpolated(data, "address") + ", " + Interpolated(data, "city")
      + ", " + Interpolated(data, "state") + " " + Interpolated(data, "zipCode")
    ensures p.features == features
  {
    var p := PropertyInfo(
      address := Interpolated(data, "address") + ", " + Interpolated(data, "city") + ", "
        + Interpolated(data, "state") + " " + Interpolated(data, "zipCode"),
      price := OrDefault(data, "price", "0"),
      propertyType := OrDefault(data, "propertyType", "Property"),
      bedrooms := OrDefault(data, "bedrooms", "Not specified"),
      bathrooms := OrDefault(data, "bathrooms", "Not specified"),
      squareFootage := OrDefault(data, "squareFootage", "Not specified"),
      lotSize := OrDefault(data, "lotSize", "Not specified"),
      yearBuilt := OrDefault(data, "yearBuilt", "Not specified"),
      garage := OrDefault(data, "garage", "Not specified"),
      neighborhood := OrDefault(data, "neighborhood", "Not specified"),
      listingStyle := OrDefault(data, "listingStyle", "professional"),
      features := features,
      specialFeatures := OrDefault(data, "specialFeatures", "None specified"),
      additionalNotes := OrDefault(data, "additionalNotes", "None"));
    FieldsFollowForm(data, p);
    p
  }

  /** Every defaulted field of a record built the way `gatherPropertyInfo`
      builds it holds the entered text or the field's fallback. */
  lemma FieldsFollowForm(data: FormData, p: PropertyInfo)
    requires forall f :: Field(p, f) == OrDefault(data, Key(f), Default(f))
    ensures Complete(p)
    ensures forall f :: Key(f) in data && data[Key(f)] != "" ==> Field(p, f) == data[Key(f)]
    ensures forall f :: Key(f) !in data || data[Key(f)] == "" ==> Field(p, f) == Default(f)
  {
    forall f ensures Field(p, f) != "" {
      assert Default(f) != "";
    }
  }
}
