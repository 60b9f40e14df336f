/** The text sent to the generation service for one platform
    (`buildGeminiPrompt` and `getPlatformSpecificRequirements`,
    js/app.js:218-274), and the fixed platform list (js/app.js:14-18). */
module Prompt {
  import opened Text
  import opened Price
  import opened Property

  /** A target platform: its name and the focus the copy should take. */
  datatype Platform = Platform(name: string, focus: string)

  /** The platforms every run generates a listing for, in this order. */
  const Platforms: seq<Platform> := [
    Platform("Zillow", "comprehensive details and buyer appeal"),
    Platform("Redfin", "data-driven insights and neighborhood highlights"),
    Platform("Agent Website", "personal touch and unique selling points")]

  const ProfessionalStyle: string :=
    "Write in a professional, authoritative tone that builds trust "
      + "and credibility. "
      + "Focus on facts, market appeal, and investment value."
  const WarmStyle: string :=
    "Use warm, inviting language that makes readers feel at home "
      + "and emotionally connected. "
      + "Emphasize comfort and lifestyle."
  const LuxuryStyle: string :=
    "Employ sophisticated, elegant language that emphasizes exclusivity, "
      + "premium quality, and luxury amenities."
  const ModernStyle: string :=
    "Use contemporary, clean language that highlights innovation, "
      + "cutting-edge features, and sleek design."
  const FamilyFriendlyStyle: string :=
    "Focus on family lifestyle benefits with warm, "
      + "community-oriented language. "
      + "Emphasize safety, schools, and family spaces."

  /** The five writing styles the style table has an entry for. */
  predicate IsKnownStyle(style: string)
  {
    style == "professional" || style == "warm" || style == "luxury"
    || style == "modern" || style == "family-friendly"
  }

  /** The style paragraph for `listingStyle`, looked up among the table's
      own five entries; anything else gets the professional paragraph. */
  function StyleInstruction(style: string): string
  {
    if style == "warm" then WarmStyle
    else if style == "luxury" then LuxuryStyle
    else if style == "modern" then ModernStyle
    else if style == "family-friendly" then FamilyFriendlyStyle
    else ProfessionalStyle
  }

  /** The style lookup is total: every style outside the five known ones
      gets the professional paragraph, and only "professional" itself gets
      it among the known ones. */
  lemma StyleInstructionFallback(style: string)
    ensures !IsKnownStyle(style) ==> StyleInstruction(style) == ProfessionalStyle
    ensures StyleInstruction(style) == ProfessionalStyle <==> style == "professional" || !IsKnownStyle(style)
  {
  }

  /** The names an ordinary JavaScript object inherits from
      `Object.prototype`; reading one of them from an object literal yields
      the inherited member, not `undefined`. */
  predicate IsObjectPrototypeMember(name: string)
  {
    name in {"constructor", "hasOwnProperty", "isPrototypeOf", "propertyIsEnumerable",
             "toString", "toLocaleString", "valueOf", "__proto__", "__defineGetter__",
             "__defineSetter__", "__lookupGetter__", "__lookupSetter__"}
  }

  /** What `styleInstructions[style] || styleInstructions['professional']`
      interpolates: one of the table's paragraphs, or an inherited
      prototype member, which is truthy and so escapes the fallback. */
  datatype StyleLookup = Paragraph(text: string) | InheritedMember(name: string)

  /** The style lookup as written in js/app.js:219-227. */
  function StyleLookupAsWritten(style: string): (r: StyleLookup)
    ensures !IsObjectPrototypeMember(style) ==> r == Paragraph(StyleInstruction(style))
  {
    if IsKnownStyle(style) || !IsObjectPrototypeMember(style) then Paragraph(StyleInstruction(style))
    else InheritedMember(style)
  }

  /** The style "toString" is not one of the five, yet the lookup as
      written does not fall back to the professional paragraph; the
      corrected lookup does. */
  lemma StyleLookupCounterexample()
    ensures !IsKnownStyle("toString")
    ensures StyleLookupAsWritten("toString") != Paragraph(ProfessionalStyle)
    ensures StyleInstruction("toString") == ProfessionalStyle
  {
    assert IsObjectPrototypeMember("toString");
  }

  const ZillowRequirements: string :=
    "Create a comprehensive listing optimized for search. "
      + "Include bullet points for key features, "
      + "emphasize neighborhood benefits, and focus on factors that help "
      + "buyers make decisions quickly. "
      + "Use keywords that buyers commonly search for."
  const RedfinRequirements: string :=
    "Emphasize data-driven insights, market trends, "
      + "walkability scores, and practical details. "
      + "Tech-savvy buyers appreciate specifics about efficiency, "
      + "smart home features, and investment potential."
  const AgentWebsiteRequirements: string :=
    "Create a personalized listing that tells the property's story. "
      + "Build emotional connection, emphasize unique selling points, "
      + "and showcase your local expertise. "
      + "Make it feel exclusive and special."
  const BalancedRequirements: string :=
    "Create a balanced listing that appeals to a broad audience with "
      + "clear details and compelling language."

  /** `getPlatformSpecificRequirements`: the three known platforms each get
      their own paragraph, every other name the balanced one. */
  function PlatformRequirements(platformName: string): string
  {
    if platformName == "Zillow" then ZillowRequirements
    else if platformName == "Redfin" then RedfinRequirements
    else if platformName == "Agent Website" then AgentWebsiteRequirements
    else BalancedRequirements
  }

  /** The requirements lookup is total, and the paragraph it returns
      identifies the platform: each known name has its own paragraph and
      every other name gets the balanced one. */
  lemma PlatformRequirementsCases(platformName: string)
    ensures platformName == "Zillow" <==> PlatformRequirements(platformName) == ZillowRequirements
    ensures platformName == "Redfin" <==> PlatformRequirements(platformName) == RedfinRequirements
    ensures platformName == "Agent Website" <==> PlatformRequirements(platformName) == AgentWebsiteRequirements
    ensures PlatformRequirements(platformName) == BalancedRequirements <==>
      platformName !in {"Zillow", "Redfin", "Agent Website"}
  {
  }

  /** Every platform of the fixed list has its own requirements paragraph. */
  lemma ListedPlatformsHaveOwnRequirements(i: nat)
    requires i < |Platforms|
    ensures PlatformRequirements(Platforms[i].name) != BalancedRequirements
  {
  }

  /** Each feature with its hyphens turned into spaces. */
  function HumanisedFeatures(features: seq<string>): (r: seq<string>)
    ensures |r| == |features|
    ensures forall i :: 0 <= i < |r| ==> r[i] == HyphensToSpaces(features[i])
  {
    seq(|features|, i requires 0 <= i < |features| => HyphensToSpaces(features[i]))
  }

  /** The "Key Features" value of the prompt. */
  function FeaturesText(features: seq<string>): string
  {
    if |features| > 0 then Join(HumanisedFeatures(features), ", ") else "Standard home features"
  }

  /** The features line holds no hyphen, names every feature with its
      hyphens as spaces, and reads "Standard home features" when no feature
      is checked. */
  lemma FeaturesTextShape(features: seq<string>)
    ensures '-' !in FeaturesText(features)
    ensures forall i :: 0 <= i < |features| ==>
      IsInfix(HyphensToSpaces(features[i]), FeaturesText(features))
    ensures features == [] ==> FeaturesText(features) == "Standard home features"
  {
    var h := HumanisedFeatures(features);
    if |features| > 0 {
      forall k | 0 <= k < |h| ensures '-' !in h[k] {
        assert forall j :: 0 <= j < |h[k]| ==> h[k][j] != '-';
      }
      JoinAvoids(h, ", ", '-');
      forall i | 0 <= i < |features|
        ensures IsInfix(HyphensToSpaces(features[i]), FeaturesText(features))
      {
        JoinedPartIsInfix(h, ", ", i);
      }
    }
  }

  /** A measurement with its unit, unless it reads "Not specified". */
  function WithUnit(value: string, unit: string): (r: string)
    requires unit != ""
    ensures StartsWith(r, value)
    ensures r == value <==> value == NotSpecified
    ensures r != value ==> r[|value|..] == unit
  {
    if value == NotSpecified then value else value + unit
  }

  /** The fixed closing block of every prompt. */
  const Instructions: string :=
    "\n\nINSTRUCTIONS:\n"
    + "1. Create a compelling headline that grabs attention\n"
    + "2. Write a detailed description (300-500 words) that highlights "
    + "the property's best features\n"
    + "3. Use persuasive real estate language and emotional triggers\n"
    + "4. Include specific details that justify the price point\n"
    + "5. End with a strong call-to-action\n"
    + "6. Format with proper paragraphs and spacing\n\n"
    + "Generate the complete listing now:"

  // The fixed text between the interpolated values of the prompt template.
  const Opening: string := "You are an expert real estate copywriter specializing in "
  const FocusLead: string := ". Create a compelling, engaging listing that focuses on "
  const AddressLine: string := ".\n\nPROPERTY DETAILS:\n- Address: "
  const PriceLine: string := "\n- Price: "
  const TypeLine: string := "\n- Type: "
  const BedroomsLine: string := "\n- Bedrooms: "
  const BathroomsLine: string := "\n- Bathrooms: "
  const SquareFootageLine: string := "\n- Square Footage: "
  const LotSizeLine: string := "\n- Lot Size: "
  const YearBuiltLine: string := "\n- Year Built: "
  const GarageLine: string := "\n- Garage: "
  const NeighborhoodLine: string := "\n- Neighborhood: "
  const KeyFeaturesLine: string := "\n- Key Features: "
  const SpecialFeaturesLine: string := "\n- Special Features: "
  const AdditionalNotesLine: string := "\n- Additional Notes: "
  const StyleHeading: string := "\n\nWRITING STYLE: "
  const RequirementsHeading: string := "\n\nPLATFORM REQUIREMENTS FOR "
  const RequirementsLead: string := ":\n"

  /** The first line of the prompt: the platform and the focus it asks for. */
  function PromptIntro(name: string, focus: string): string
  {
    Concat([Opening, name, FocusLead, focus])
  }

  /** The address, price, type, bedroom and bathroom lines. */
  function PromptBasics(address: string, price: string, propertyType: string,
    bedrooms: string, bathrooms: string): string
  {
    Concat([AddressLine, address, PriceLine, "$" + price, TypeLine, propertyType,
      BedroomsLine, bedrooms, BathroomsLine, bathrooms])
  }

  /** The square footage, lot size, year and garage lines. */
  function PromptMeasures(squareFootage: string, lotSize: string, yearBuilt: string,
    garage: string): string
  {
    Concat([SquareFootageLine, squareFootage, LotSizeLine, lotSize, YearBuiltLine, yearBuilt,
      GarageLine, garage])
  }

  /** The neighborhood, feature and notes lines. */
  function PromptExtras(neighborhood: string, features: string, specialFeatures: string,
    additionalNotes: string): string
  {
    Concat([NeighborhoodLine, neighborhood, KeyFeaturesLine, features,
      SpecialFeaturesLine, specialFeatures, AdditionalNotesLine, additionalNotes])
  }

  /** The style paragraph, the platform's requirements and the instructions. */
  function PromptClosing(name: string, style: string, requirements: string): string
  {
    Concat([StyleHeading, style, RequirementsHeading, name, RequirementsLead, requirements,
      Instructions])
  }

  /** The template of js/app.js:230-260 filled in, cut into its five
      consecutive sections. The style paragraph comes from the corrected
      lookup `StyleInstruction`; on the names a plain object inherits, the
      lookup as written differs (see `StyleLookupAsWritten`). */
  function PromptSections(p: PropertyInfo, platform: Platform): (r: seq<string>)
    ensures |r| == 5
  {
    [PromptIntro(platform.name, platform.focus),
     PromptBasics(p.address, FormatPrice(p.price), p.propertyType, p.bedrooms, p.bathrooms),
     PromptMeasures(WithUnit(p.squareFootage, " sq ft"), WithUnit(p.lotSize, " sq ft"),
       p.yearBuilt, WithUnit(p.garage, " spaces")),
     PromptExtras(p.neighborhood, FeaturesText(p.features), p.specialFeatures, p.additionalNotes),
     PromptClosing(platform.name, StyleInstruction(p.listingStyle), PlatformRequirements(platform.name))]
  }

  /** `buildGeminiPrompt(propertyData, platform)`: the sections, joined. */
  function BuildGeminiPrompt(p: PropertyInfo, platform: Platform): string
  {
    Concat(PromptSections(p, platform))
  }

  /** The first line names the platform and the focus it asks for. */
  lemma IntroMentions(name: string, focus: string)
    ensures IsInfix(name, PromptIntro(name, focus))
    ensures IsInfix(focus, PromptIntro(name, focus))
  {
    PieceIsInfix([Opening, name, FocusLead, focus], 1);
    PieceIsInfix([Opening, name, FocusLead, focus], 3);
  }

  /** The details section holds the address, the price after a dollar
      sign, the type and the bedroom and bathroom counts. */
  lemma BasicsMention(address: string, price: string, propertyType: string,
    bedrooms: string, bathrooms: string)
    ensures var basics := PromptBasics(address, price, propertyType, bedrooms, bathrooms);
      && IsInfix(address, basics) && IsInfix("$" + price, basics) && IsInfix(propertyType, basics)
      && IsInfix(bedrooms, basics) && IsInfix(bathrooms, basics)
  {
    var pieces := [AddressLine, address, PriceLine, "$" + price, TypeLine, propertyType,
      BedroomsLine, bedrooms, BathroomsLine, bathrooms];
    PieceIsInfix(pieces, 1);
    PieceIsInfix(pieces, 3);
    PieceIsInfix(pieces, 5);
    PieceIsInfix(pieces, 7);
    PieceIsInfix(pieces, 9);
  }

  /** The measures section holds the square footage, lot size, year built
      and garage values. */
  lemma MeasuresMention(squareFootage: string, lotSize: string, yearBuilt: string, garage: string)
    ensures var measures := PromptMeasures(squareFootage, lotSize, yearBuilt, garage);
      && IsInfix(squareFootage, measures) && IsInfix(lotSize, measures)
      && IsInfix(yearBuilt, measures) && IsInfix(garage, measures)
  {
    var pieces := [SquareFootageLine, squareFootage, LotSizeLine, lotSize, YearBuiltLine, yearBuilt,
      GarageLine, garage];
    PieceIsInfix(pieces, 1);
    PieceIsInfix(pieces, 3);
    PieceIsInfix(pieces, 5);
    PieceIsInfix(pieces, 7);
  }

  /** The extras section holds the neighborhood, the features line, the
      special features and the additional notes. */
  lemma ExtrasMention(neighborhood: string, features: string, specialFeatures: string,
    additionalNotes: string)
    ensures var extras := PromptExtras(neighborhood, features, specialFeatures, additionalNotes);
      && IsInfix(neighborhood, extras) && IsInfix(features, extras)
      && IsInfix(specialFeatures, extras) && IsInfix(additionalNotes, extras)
  {
    var pieces := [NeighborhoodLine, neighborhood, KeyFeaturesLine, features,
      SpecialFeaturesLine, specialFeatures, AdditionalNotesLine, additionalNotes];
    PieceIsInfix(pieces, 1);
    PieceIsInfix(pieces, 3);
    PieceIsInfix(pieces, 5);
    PieceIsInfix(pieces, 7);
  }

  /** The closing section holds the style paragraph and the platform's
      requirements paragraph. */
  lemma ClosingMentions(name: string, style: string, requirements: string)
    ensures IsInfix(style, PromptClosing(name, style, requirements))
    ensures IsInfix(requirements, PromptClosing(name, style, requirements))
  {
    var pieces := [StyleHeading, style, RequirementsHeading, name, RequirementsLead, requirements,
      Instructions];
    PieceIsInfix(pieces, 1);
    PieceIsInfix(pieces, 5);
  }

  /** The prompt names the platform and its focus, and carries the style
      paragraph chosen by the record's style and the requirements paragraph
      chosen by the platform's name. */
  lemma PromptMentions(p: PropertyInfo, platform: Platform)
    ensures var prompt := BuildGeminiPrompt(p, platform);
      && IsInfix(platform.name, prompt)
      && IsInfix(platform.focus, prompt)
      && IsInfix(StyleInstruction(p.listingStyle), prompt)
      && IsInfix(PlatformRequirements(platform.name), prompt)
  {
    var sections := PromptSections(p, platform);
    var prompt := Concat(sections);
    IntroMentions(platform.name, platform.focus);
    ClosingMentions(platform.name, StyleInstruction(p.listingStyle), PlatformRequirements(platform.name));
    PieceIsInfix(sections, 0);
    PieceIsInfix(sections, 4);
    InfixTransitive(platform.name, sections[0], prompt);
    InfixTransitive(platform.focus, sections[0], prompt);
    InfixTransitive(StyleInstruction(p.listingStyle), sections[4], prompt);
    InfixTransitive(PlatformRequirements(platform.name), sections[4], prompt);
  }

  /** The prompt carries the address, the formatted price after a dollar
      sign, the property type and the bedroom and bathroom counts
      verbatim. */
  lemma PromptListsDetails(p: PropertyInfo, platform: Platform)
    ensures var prompt := BuildGeminiPrompt(p, platform);
      && IsInfix(p.address, prompt)
      && IsInfix("$" + FormatPrice(p.price), prompt)
      && IsInfix(p.propertyType, prompt)
      && IsInfix(p.bedrooms, prompt)
      && IsInfix(p.bathrooms, prompt)
  {
    var sections := PromptSections(p, platform);
    var prompt := Concat(sections);
    BasicsMention(p.address, FormatPrice(p.price), p.propertyType, p.bedrooms, p.bathrooms);
    PieceIsInfix(sections, 1);
    InfixTransitive(p.address, sections[1], prompt);
    InfixTransitive("$" + FormatPrice(p.price), sections[1], prompt);
    InfixTransitive(p.propertyType, sections[1], prompt);
    InfixTransitive(p.bedrooms, sections[1], prompt);
    InfixTransitive(p.bathrooms, sections[1], prompt);
  }

  /** The prompt carries the year built, and the square footage, lot size
      and garage each followed by its unit (" sq ft", " sq ft", " spaces")
      unless the value reads "Not specified". */
  lemma PromptListsMeasures(p: PropertyInfo, platform: Platform)
    ensures var prompt := BuildGeminiPrompt(p, platform);
      && IsInfix(WithUnit(p.squareFootage, " sq ft"), prompt)
      && IsInfix(WithUnit(p.lotSize, " sq ft"), prompt)
      && IsInfix(p.yearBuilt, prompt)
      && IsInfix(WithUnit(p.garage, " spaces"), prompt)
  {
    var sections := PromptSections(p, platform);
    var prompt := Concat(sections);
    var squareFootage, lotSize := WithUnit(p.squareFootage, " sq ft"), WithUnit(p.lotSize, " sq ft");
    var garage := WithUnit(p.garage, " spaces");
    MeasuresMention(squareFootage, lotSize, p.yearBuilt, garage);
    PieceIsInfix(sections, 2);
    InfixTransitive(squareFootage, sections[2], prompt);
    InfixTransitive(lotSize, sections[2], prompt);
    InfixTransitive(p.yearBuilt, sections[2], prompt);
    InfixTransitive(garage, sections[2], prompt);
  }

  /** The prompt carries the neighborhood, the humanised features line, the
      special features and the additional notes verbatim. */
  lemma PromptListsExtras(p: PropertyInfo, platform: Platform)
    ensures var prompt := BuildGeminiPrompt(p, platform);
      && IsInfix(p.neighborhood, prompt)
      && IsInfix(FeaturesText(p.features), prompt)
      && IsInfix(p.specialFeatures, prompt)
      && IsInfix(p.additionalNotes, prompt)
  {
    var sections := PromptSections(p, platform);
    var prompt := Concat(sections);
    ExtrasMention(p.neighborhood, FeaturesText(p.features), p.specialFeatures, p.additionalNotes);
    PieceIsInfix(sections, 3);
    InfixTransitive(p.neighborhood, sections[3], prompt);
    InfixTransitive(FeaturesText(p.features), sections[3], prompt);
    InfixTransitive(p.specialFeatures, sections[3], prompt);
    InfixTransitive(p.additionalNotes, sections[3], prompt);
  }
}
