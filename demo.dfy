/** The stand-in listing shown when generation for a platform fails
    (`generateDemoListing`, js/app.js:369-402). */
module Demo {
  import opened Text
  import opened Price
  import opened Property

  /** The marker that tells a demo listing from a generated one. */
  const DemoMarker: string := "DEMO LISTING - Please Configure API Key for AI Generation"

  /** The bullet line of one checked feature: hyphens become spaces and the
      first letter of every word is upper-cased. */
  function FeatureBullet(feature: string): string
  {
    "\U{2022} " + TitleCase(HyphensToSpaces(feature))
  }

  /** The bullet line of every checked feature, in order. */
  function FeatureBulletLines(features: seq<string>): (r: seq<string>)
    ensures |r| == |features|
    ensures forall i :: 0 <= i < |r| ==> r[i] == FeatureBullet(features[i])
  {
    seq(|features|, i requires 0 <= i < |features| => FeatureBullet(features[i]))
  }

  /** The "Outstanding Features" block: one bullet line per feature, or a
      single "Standard home features" bullet when none is checked. */
  function FeatureBullets(features: seq<string>): string
  {
    if |features| > 0 then Join(FeatureBulletLines(features), "\n")
    else "\U{2022} Standard home features"
  }

  /** A bullet line holds no hyphen. */
  lemma FeatureBulletHasNoHyphen(feature: string)
    ensures '-' !in FeatureBullet(feature)
  {
    var h := HyphensToSpaces(feature);
    var t := TitleCase(h);
    forall i | 0 <= i < |t| ensures t[i] != '-' {
      assert h[i] != '-';
    }
  }

  /** The features block holds no hyphen, holds the bullet line of every
      checked feature, and reads "• Standard home features" when none is
      checked. */
  lemma FeatureBulletsShape(features: seq<string>)
    ensures '-' !in FeatureBullets(features)
    ensures forall i :: 0 <= i < |features| ==>
      IsInfix(FeatureBullet(features[i]), FeatureBullets(features))
    ensures features == [] ==> FeatureBullets(features) == "\U{2022} Standard home features"
  {
    var b := FeatureBulletLines(features);
    if |features| > 0 {
      forall k | 0 <= k < |b| ensures '-' !in b[k] {
        FeatureBulletHasNoHyphen(features[k]);
      }
      JoinAvoids(b, "\n", '-');
      forall i | 0 <= i < |features|
        ensures IsInfix(FeatureBullet(features[i]), FeatureBullets(features))
      {
        JoinedPartIsInfix(b, "\n", i);
      }
    }
  }

  /** `propertyData.neighborhood || 'neighborhood'`. */
  function NeighborhoodShown(p: PropertyInfo): string
  {
    if p.neighborhood != "" then p.neighborhood else "neighborhood"
  }

  /** On a record built from the form the fallback never applies: the
      neighborhood shown is the one entered, or "Not specified". */
  lemma NeighborhoodFallbackUnused(data: FormData, features: seq<string>)
    ensures var p := GatherPropertyInfo(data, features);
      NeighborhoodShown(p) == p.neighborhood
      && NeighborhoodShown(p) == OrDefault(data, "neighborhood", NotSpecified)
  {
    var p := GatherPropertyInfo(data, features);
    assert Field(p, Neighborhood) != "";
  }

  // The fixed text between the interpolated values of the demo template.
  const Headline: string := "\U{1F3E1} **STUNNING "
  const HeadlineEnd: string := " IN PRIME LOCATION** \U{1F3E1}\n\n"
    + "\U{2728} **"
  const Welcome: string := "** \U{2728}\n\n"
    + "Welcome to this beautiful "
  const LocatedAt: string := " located at "
  const Offers: string := ". This exceptional property offers "
  const BedroomsAnd: string := " bedrooms and "
  const BathroomsAcross: string := " bathrooms across "
  const PricedAt: string :=
    " square feet of thoughtfully designed living space.\n\n"
      + "\U{1F4B0} **COMPETITIVELY PRICED AT "
  const FeaturesHeading: string := "**\n\n\U{1F511} **Outstanding Features:**\n"
  const LocationHeading: string := "\n\n\U{1F4CD} **PRIME LOCATION**\n"
    + "Situated in the desirable "
  const Highlights: string :=
    ", this property offers convenient access to schools, "
      + "shopping, dining, and transportation.\n\n"
      + "\U{1F3E0} **PROPERTY HIGHLIGHTS:**\n"
      + "\U{2022} Year Built: "
  const LotSizeBullet: string := "\n\U{2022} Lot Size: "
  const GarageBullet: string := "\n\U{2022} Garage: "
  const SpecialFeaturesBullet: string := "\n\U{2022} Special Features: "
  const Notice: string :=
    "\n\n\U{26A0}\U{FE0F} **DEMO MODE NOTICE**\n"
      + "This is a sample listing generated in demo mode. "
      + "To create personalized, AI-powered listings "
      + "tailored specifically for "
  const Closing: string :=
    ", please configure your Gemini API key in the settings menu.\n\n"
      + "\U{1F4DE} **READY TO MAKE THIS HOME YOURS?**\n"
      + "Contact us today to schedule a private showing and experience "
      + "all this exceptional property has to offer!\n\n"
      + "---\n"
      + "Generated by PropListAI - Professional Real Estate Listing Generator"

  /** The headline, the demo marker and the opening sentence. */
  function DemoIntro(upperType: string, propertyType: string, address: string): string
  {
    Concat([Headline, upperType, HeadlineEnd, DemoMarker, Welcome, propertyType, LocatedAt,
      address])
  }

  /** The rooms, the floor area and the price. */
  function DemoRooms(bedrooms: string, bathrooms: string, squareFootage: string,
    price: string): string
  {
    Concat([Offers, bedrooms, BedroomsAnd, bathrooms, BathroomsAcross, squareFootage, PricedAt,
      "$" + price])
  }

  /** The features block and the location paragraph. */
  function DemoFeatures(features: string, neighborhood: string): string
  {
    Concat([FeaturesHeading, features, LocationHeading, neighborhood])
  }

  /** The highlights list. */
  function DemoHighlights(yearBuilt: string, lotSize: string, garage: string,
    specialFeatures: string): string
  {
    Concat([Highlights, yearBuilt, LotSizeBullet, lotSize + " sq ft", GarageBullet,
      garage + " spaces", SpecialFeaturesBullet, specialFeatures])
  }

  /** The demo-mode notice and the closing call to action. */
  function DemoNotice(platformName: string): string
  {
    Concat([Notice, platformName, Closing])
  }

  /** The template of js/app.js:374-401 filled in, cut into its five
      consecutive sections. Unlike the prompt, the lot size and the garage
      always carry their unit. */
  function DemoSections(platformName: string, p: PropertyInfo): (r: seq<string>)
    ensures |r| == 5
  {
    [DemoIntro(AsciiUpper(p.propertyType), p.propertyType, p.address),
     DemoRooms(p.bedrooms, p.bathrooms, p.squareFootage, FormatPrice(p.price)),
     DemoFeatures(FeatureBullets(p.features), NeighborhoodShown(p)),
     DemoHighlights(p.yearBuilt, p.lotSize, p.garage, p.specialFeatures),
     DemoNotice(platformName)]
  }

  /** `generateDemoListing(platformName, propertyData)`: the sections,
      joined. */
  function GenerateDemoListing(platformName: string, p: PropertyInfo): string
  {
    Concat(DemoSections(platformName, p))
  }

  /** The opening holds the upper-cased type, the demo marker, the type as
      entered and the address. */
  lemma DemoIntroMentions(upperType: string, propertyType: string, address: string)
    ensures var intro := DemoIntro(upperType, propertyType, address);
      && IsInfix(upperType, intro) && IsInfix(DemoMarker, intro)
      && IsInfix(propertyType, intro) && IsInfix(address, intro)
  {
    var pieces := [Headline, upperType, HeadlineEnd, DemoMarker, Welcome, propertyType, LocatedAt,
      address];
    PieceIsInfix(pieces, 1);
    PieceIsInfix(pieces, 3);
    PieceIsInfix(pieces, 5);
    PieceIsInfix(pieces, 7);
  }

  /** The rooms paragraph holds the bedroom and bathroom counts, the
      square footage and the price after a dollar sign. */
  lemma DemoRoomsMention(bedrooms: string, bathrooms: string, squareFootage: string, price: string)
    ensures var rooms := DemoRooms(bedrooms, bathrooms, squareFootage, price);
      && IsInfix(bedrooms, rooms) && IsInfix(bathrooms, rooms)
      && IsInfix(squareFootage, rooms) && IsInfix("$" + price, rooms)
  {
    var pieces := [Offers, bedrooms, BedroomsAnd, bathrooms, BathroomsAcross, squareFootage,
      PricedAt, "$" + price];
    PieceIsInfix(pieces, 1);
    PieceIsInfix(pieces, 3);
    PieceIsInfix(pieces, 5);
    PieceIsInfix(pieces, 7);
  }

  /** The features block holds the bullets and the neighborhood. */
  lemma DemoFeaturesMention(features: string, neighborhood: string)
    ensures IsInfix(features, DemoFeatures(features, neighborhood))
    ensures IsInfix(neighborhood, DemoFeatures(features, neighborhood))
  {
    PieceIsInfix([FeaturesHeading, features, LocationHeading, neighborhood], 1);
    PieceIsInfix([FeaturesHeading, features, LocationHeading, neighborhood], 3);
  }

  /** The highlights hold the year built, the lot size and garage with
      their units, and the special features. */
  lemma DemoHighlightsMention(yearBuilt: string, lotSize: string, garage: string,
    specialFeatures: string)
    ensures var highlights := DemoHighlights(yearBuilt, lotSize, garage, specialFeatures);
      && IsInfix(yearBuilt, highlights) && IsInfix(lotSize + " sq ft", highlights)
      && IsInfix(garage + " spaces", highlights) && IsInfix(specialFeatures, highlights)
  {
    var pieces := [Highlights, yearBuilt, LotSizeBullet, lotSize + " sq ft", GarageBullet,
      garage + " spaces", SpecialFeaturesBullet, specialFeatures];
    PieceIsInfix(pieces, 1);
    PieceIsInfix(pieces, 3);
    PieceIsInfix(pieces, 5);
    PieceIsInfix(pieces, 7);
  }

  /** A demo listing is marked as such and names the platform, the property
      type both upper-cased and as entered, and the address. */
  lemma DemoMentions(platformName: string, p: PropertyInfo)
    ensures var demo := GenerateDemoListing(platformName, p);
      && IsInfix(DemoMarker, demo)
      && IsInfix(platformName, demo)
      && IsInfix(AsciiUpper(p.propertyType), demo)
      && IsInfix(p.propertyType, demo)
      && IsInfix(p.address, demo)
  {
    var sections := DemoSections(platformName, p);
    var demo := Concat(sections);
    var upperType := AsciiUpper(p.propertyType);
    DemoIntroMentions(upperType, p.propertyType, p.address);
    PieceIsInfix([Notice, platformName, Closing], 1);
    PieceIsInfix(sections, 0);
    PieceIsInfix(sections, 4);
    InfixTransitive(DemoMarker, sections[0], demo);
    InfixTransitive(upperType, sections[0], demo);
    InfixTransitive(p.propertyType, sections[0], demo);
    InfixTransitive(p.address, sections[0], demo);
    InfixTransitive(platformName, sections[4], demo);
  }

  /** A demo listing carries the bedroom and bathroom counts, the square
      footage and the formatted price after a dollar sign. */
  lemma DemoListsRooms(platformName: string, p: PropertyInfo)
    ensures var demo := GenerateDemoListing(platformName, p);
      && IsInfix(p.bedrooms, demo)
      && IsInfix(p.bathrooms, demo)
      && IsInfix(p.squareFootage, demo)
      && IsInfix("$" + FormatPrice(p.price), demo)
  {
    var sections := DemoSections(platformName, p);
    var demo := Concat(sections);
    var price := FormatPrice(p.price);
    DemoRoomsMention(p.bedrooms, p.bathrooms, p.squareFootage, price);
    PieceIsInfix(sections, 1);
    InfixTransitive(p.bedrooms, sections[1], demo);
    InfixTransitive(p.bathrooms, sections[1], demo);
    InfixTransitive(p.squareFootage, sections[1], demo);
    InfixTransitive("$" + price, sections[1], demo);
  }

  /** A demo listing carries the feature bullets and the neighborhood
      shown for the record. */
  lemma DemoListsFeatures(platformName: string, p: PropertyInfo)
    ensures var demo := GenerateDemoListing(platformName, p);
      && IsInfix(FeatureBullets(p.features), demo)
      && IsInfix(NeighborhoodShown(p), demo)
  {
    var sections := DemoSections(platformName, p);
    var demo := Concat(sections);
    var features, neighborhood := FeatureBullets(p.features), NeighborhoodShown(p);
    DemoFeaturesMention(features, neighborhood);
    PieceIsInfix(sections, 2);
    InfixTransitive(features, sections[2], demo);
    InfixTransitive(neighborhood, sections[2], demo);
  }

  /** A demo listing carries the year built, the lot size with " sq ft",
      the garage with " spaces" and the special features. */
  lemma DemoListsHighlights(platformName: string, p: PropertyInfo)
    ensures var demo := GenerateDemoListing(platformName, p);
      && IsInfix(p.yearBuilt, demo)
      && IsInfix(p.lotSize + " sq ft", demo)
      && IsInfix(p.garage + " spaces", demo)
      && IsInfix(p.specialFeatures, demo)
  {
    var sections := DemoSections(platformName, p);
    var demo := Concat(sections);
    DemoHighlightsMention(p.yearBuilt, p.lotSize, p.garage, p.specialFeatures);
    PieceIsInfix(sections, 3);
    InfixTransitive(p.yearBuilt, sections[3], demo);
    InfixTransitive(p.lotSize + " sq ft", sections[3], demo);
    InfixTransitive(p.garage + " spaces", sections[3], demo);
    InfixTransitive(p.specialFeatures, sections[3], demo);
  }

  /** The bullet line of every checked feature occurs in the demo listing. */
  lemma DemoListsEveryFeature(platformName: string, p: PropertyInfo, i: nat)
    requires i < |p.features|
    ensures IsInfix(FeatureBullet(p.features[i]), GenerateDemoListing(platformName, p))
  {
    FeatureBulletsShape(p.features);
    DemoListsFeatures(platformName, p);
    InfixTransitive(FeatureBullet(p.features[i]), FeatureBullets(p.features),
      GenerateDemoListing(platformName, p));
  }
}
