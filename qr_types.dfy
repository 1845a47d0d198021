/**
 * The static catalog of QR categories: ten categories, each with the ordered
 * list of form fields the page shows for it. Nothing here changes at run time.
 */
module QrTypes {
  import opened Wrappers

  /** The seven input kinds a field can have. */
  datatype FieldKind = Text | Email | Tel | Url | Textarea | Select | Number

  /** One input slot of a category's form (`labelText` is the `label` of qr-types.ts,
      a reserved word in Dafny). An absent `required` flag is `false`. */
  datatype Field = Field(
    name: string,
    kind: FieldKind,
    labelText: string,
    placeholder: Option<string>,
    required: bool,
    options: Option<seq<string>>)

  datatype Category = Category(
    id: string,
    name: string,
    icon: string,
    description: string,
    fields: seq<Field>,
    color: string)

  const WebsiteLinksCategory: Category := Category(
    "website-links", "Website & Links", "Link",
    "Create QR codes for websites, social media, and online content",
    [
      Field("url", Url, "Website URL", Some("https://example.com"), true, None),
      Field("title", Text, "Title (Optional)", Some("My Website"), false, None)
    ],
    "bg-blue-500")

  const ContactCommunicationCategory: Category := Category(
    "contact-communication", "Contact & Communication", "Phone",
    "Share contact details, phone numbers, and communication links",
    [
      Field("type", Select, "Contact Type", None, true, Some(["vCard", "Phone", "SMS", "Email", "WhatsApp"])),
      Field("firstName", Text, "First Name", Some("John"), true, None),
      Field("middleName", Text, "Middle Name", Some("Michael"), false, None),
      Field("lastName", Text, "Last Name", Some("Doe"), false, None),
      Field("mobileNumber1", Tel, "Mobile Number 1", Some("+1234567890"), true, None),
      Field("mobileLabel1", Select, "Mobile 1 Label", None, true, Some(["Personal", "WhatsApp", "Official", "Work", "Home"])),
      Field("mobileNumber2", Tel, "Mobile Number 2 (Optional)", Some("+1234567890"), false, None),
      Field("mobileLabel2", Select, "Mobile 2 Label", None, false, Some(["Personal", "WhatsApp", "Official", "Work", "Home"])),
      Field("mobileNumber3", Tel, "Mobile Number 3 (Optional)", Some("+1234567890"), false, None),
      Field("mobileLabel3", Select, "Mobile 3 Label", None, false, Some(["Personal", "WhatsApp", "Official", "Work", "Home"])),
      Field("homeAddress", Textarea, "Home Address", Some("123 Home Street, City, State, ZIP"), false, None),
      Field("officeAddress", Textarea, "Office Address", Some("456 Office Building, City, State, ZIP"), false, None),
      Field("email", Email, "Email Address", Some("john@example.com"), false, None),
      Field("linkedinLink", Url, "LinkedIn Profile", Some("https://linkedin.com/in/johndoe"), false, None),
      Field("instagramLink", Url, "Instagram Profile", Some("https://instagram.com/johndoe"), false, None),
      Field("xAccount", Url, "X (Twitter) Profile", Some("https://x.com/johndoe"), false, None),
      Field("facebook", Url, "Facebook Profile", Some("https://facebook.com/johndoe"), false, None),
      Field("website", Url, "Website", Some("https://johndoe.com"), false, None),
      Field("summary", Textarea, "About/Summary", Some("Brief description about yourself or your profession..."), false, None),
      Field("message", Textarea, "Message (for SMS/WhatsApp)", Some("Hello! Nice to connect with you."), false, None)
    ],
    "bg-green-500")

  const DocumentsFilesCategory: Category := Category(
    "documents-files", "Documents & Files", "FileText",
    "Link to downloadable files, documents, and resources",
    [
      Field("fileUrl", Url, "File URL", Some("https://example.com/document.pdf"), true, None),
      Field("fileName", Text, "File Name", Some("Document.pdf"), true, None),
      Field("description", Textarea, "Description", Some("Brief description of the file"), false, None)
    ],
    "bg-purple-500")

  const PaymentsDonationsCategory: Category := Category(
    "payments-donations", "Payments & Donations", "CreditCard",
    "Create payment links and donation QR codes",
    [
      Field("paymentType", Select, "Payment Type", None, true, Some(["UPI", "PayPal", "Stripe", "Crypto", "Donation"])),
      Field("recipient", Text, "Recipient", Some("john@upi or wallet address"), true, None),
      Field("amount", Number, "Amount (Optional)", Some("10.00"), false, None),
      Field("currency", Text, "Currency", Some("USD"), false, None),
      Field("note", Text, "Payment Note", Some("Payment for..."), false, None)
    ],
    "bg-yellow-500")

  const BusinessMarketingCategory: Category := Category(
    "business-marketing", "Business & Marketing", "Briefcase",
    "Digital business cards, promotions, and marketing materials",
    [
      Field("businessType", Select, "Business Type", None, true, Some(["Business Card", "Promotion", "Menu", "Review", "Loyalty"])),
      Field("businessName", Text, "Business Name", Some("ABC Company"), true, None),
      Field("contactPerson", Text, "Contact Person", Some("John Doe"), false, None),
      Field("phone", Tel, "Phone", Some("+1234567890"), false, None),
      Field("email", Email, "Email", Some("info@company.com"), false, None),
      Field("website", Url, "Website", Some("https://company.com"), false, None),
      Field("address", Textarea, "Address", Some("123 Business St, City, State"), false, None)
    ],
    "bg-indigo-500")

  const EventsTicketingCategory: Category := Category(
    "events-ticketing", "Events & Ticketing", "Calendar",
    "Event invitations, tickets, and RSVP forms",
    [
      Field("eventName", Text, "Event Name", Some("Birthday Party"), true, None),
      Field("eventDate", Text, "Event Date", Some("2024-12-25"), false, None),
      Field("eventTime", Text, "Event Time", Some("7:00 PM"), false, None),
      Field("location", Textarea, "Location", Some("123 Party Ave, City"), false, None),
      Field("rsvpUrl", Url, "RSVP URL (Optional)", Some("https://rsvp.com/event"), false, None),
      Field("description", Textarea, "Event Description", Some("Join us for a celebration!"), false, None)
    ],
    "bg-pink-500")

  const LocationNavigationCategory: Category := Category(
    "location-navigation", "Location & Navigation", "MapPin",
    "Share locations, addresses, and navigation links",
    [
      Field("locationName", Text, "Location Name", Some("My Store"), true, None),
      Field("address", Textarea, "Full Address", Some("123 Main St, City, State, ZIP"), true, None),
      Field("coordinates", Text, "GPS Coordinates (Optional)", Some("40.7128,-74.0060"), false, None),
      Field("instructions", Textarea, "Directions/Instructions", Some("Additional navigation help"), false, None)
    ],
    "bg-red-500")

  const MediaEntertainmentCategory: Category := Category(
    "media-entertainment", "Media & Entertainment", "Play",
    "Share music, videos, and entertainment content",
    [
      Field("mediaType", Select, "Media Type", None, true, Some(["Music", "Video", "Playlist", "Photo Gallery", "AR/VR"])),
      Field("mediaUrl", Url, "Media URL", Some("https://spotify.com/playlist/..."), true, None),
      Field("title", Text, "Title", Some("My Awesome Playlist"), true, None),
      Field("artist", Text, "Artist/Creator", Some("Artist Name"), false, None),
      Field("description", Textarea, "Description", Some("About this content..."), false, None)
    ],
    "bg-orange-500")

  const WifiAuthCategory: Category := Category(
    "wifi-auth", "WiFi & Authentication", "Wifi",
    "WiFi access codes and authentication setup",
    [
      Field("authType", Select, "Type", None, true, Some(["WiFi", "2FA Setup", "Login"])),
      Field("networkName", Text, "Network Name (SSID)", Some("MyWiFi"), false, None),
      Field("password", Text, "Password", Some("wifi-password"), false, None),
      Field("security", Select, "Security Type", None, false, Some(["WPA2", "WPA3", "WEP", "None"])),
      Field("loginUrl", Url, "Login URL (Optional)", Some("https://login.example.com"), false, None)
    ],
    "bg-teal-500")

  const CreativeFunCategory: Category := Category(
    "creative-fun", "Creative & Fun", "Sparkles",
    "Hidden messages, games, and creative uses",
    [
      Field("creativeType", Select, "Creative Type", None, true, Some(["Hidden Message", "Game", "Treasure Hunt", "Surprise", "Art"])),
      Field("title", Text, "Title", Some("Secret Message"), true, None),
      Field("content", Textarea, "Content/Message", Some("Your hidden message or instructions..."), true, None),
      Field("revealUrl", Url, "Reveal URL (Optional)", Some("https://surprise.com"), false, None)
    ],
    "bg-violet-500")

  const QR_CATEGORIES: seq<Category> := [
      WebsiteLinksCategory,
      ContactCommunicationCategory,
      DocumentsFilesCategory,
      PaymentsDonationsCategory,
      BusinessMarketingCategory,
      EventsTicketingCategory,
      LocationNavigationCategory,
      MediaEntertainmentCategory,
      WifiAuthCategory,
      CreativeFunCategory
    ]

  /** The first field of `c` called `name`, if there is one. */
  function FieldNamed(c: Category, name: string): (r: Option<Field>)
    ensures r.Some? ==> r.value in c.fields && r.value.name == name
    ensures r.None? ==> forall f :: f in c.fields ==> f.name != name
  {
    FirstNamed(c.fields, name)
  }

  function FirstNamed(fields: seq<Field>, name: string): (r: Option<Field>)
    ensures r.Some? ==> r.value in fields && r.value.name == name
    ensures r.None? ==> forall f :: f in fields ==> f.name != name
  {
    if fields == [] then None
    else if fields[0].name == name then Some(fields[0])
    else FirstNamed(fields[1..], name)
  }

  /** The names of the fields of `c`. */
  function FieldNameSet(c: Category): set<string>
  {
    set f | f in c.fields :: f.name
  }

  predicate IsRequired(c: Category, name: string)
  {
    FieldNamed(c, name).Some? && FieldNamed(c, name).value.required
  }

  /** `option` is one of the choices of the select field `name` of `c`. */
  predicate Offers(c: Category, name: string, option: string)
  {
    FieldNamed(c, name).Some? && FieldNamed(c, name).value.kind == Select &&
    FieldNamed(c, name).value.options.Some? && option in FieldNamed(c, name).value.options.value
  }

  predicate DistinctNames(fields: seq<Field>)
  {
    forall i, j :: 0 <= i < j < |fields| ==> fields[i].name != fields[j].name
  }

  /** A field has a non-empty list of options exactly when it is a select field. */
  predicate OptionsMatchKind(f: Field)
  {
    (f.kind == Select) == (f.options.Some? && |f.options.value| > 0)
  }

  predicate WellFormedCategory(c: Category)
  {
    DistinctNames(c.fields) && forall f :: f in c.fields ==> OptionsMatchKind(f)
  }

  /** Ten categories with pairwise distinct ids. */
  lemma CatalogIdsDistinct()
    ensures |QR_CATEGORIES| == 10
    ensures forall i, j :: 0 <= i < j < |QR_CATEGORIES| ==> QR_CATEGORIES[i].id != QR_CATEGORIES[j].id
  {
  }

  /** Within each category the field names are distinct, and select fields,
      and only they, carry a non-empty list of options. */
  lemma CatalogWellFormed()
    ensures forall c :: c in QR_CATEGORIES ==> WellFormedCategory(c)
  {
    WebsiteLinksWellFormed();
    ContactCommunicationWellFormed();
    DocumentsFilesWellFormed();
    PaymentsDonationsWellFormed();
    BusinessMarketingWellFormed();
    EventsTicketingWellFormed();
    LocationNavigationWellFormed();
    MediaEntertainmentWellFormed();
    WifiAuthWellFormed();
    CreativeFunWellFormed();
  }

  lemma WebsiteLinksWellFormed()
    ensures WellFormedCategory(WebsiteLinksCategory)
  {
    WebsiteLinksNames();
    WebsiteLinksOptions();
    OptionsByIndex(WebsiteLinksCategory);
  }

  lemma WebsiteLinksNames()
    ensures DistinctNames(WebsiteLinksCategory.fields)
  {
  }

  lemma WebsiteLinksOptions()
    ensures var fields := WebsiteLinksCategory.fields;
      forall i :: 0 <= i < |fields| ==> OptionsMatchKind(fields[i])
  {
  }

  lemma ContactCommunicationWellFormed()
    ensures WellFormedCategory(ContactCommunicationCategory)
  {
    ContactNamesDistinct();
    ContactOptionsMatchKinds();
  }

  /** The contact category has 20 fields; its checks are done in slices. */
  lemma ContactNamesDistinct()
    ensures DistinctNames(ContactCommunicationCategory.fields)
  {
    ContactNamesFrom0();
    ContactNamesFrom3();
    ContactNamesFrom7();
    ContactNamesFrom12();
    assert |ContactCommunicationCategory.fields| == 20;
  }

  lemma ContactNamesFrom0()
    ensures var fields := ContactCommunicationCategory.fields;
      forall i, j :: 0 <= i < 3 && i < j < |fields| ==> fields[i].name != fields[j].name
  {
  }

  lemma ContactNamesFrom3()
    ensures var fields := ContactCommunicationCategory.fields;
      forall i, j :: 3 <= i < 7 && i < j < |fields| ==> fields[i].name != fields[j].name
  {
  }

  lemma ContactNamesFrom7()
    ensures var fields := ContactCommunicationCategory.fields;
      forall i, j :: 7 <= i < 12 && i < j < |fields| ==> fields[i].name != fields[j].name
  {
  }

  lemma ContactNamesFrom12()
    ensures var fields := ContactCommunicationCategory.fields;
      forall i, j :: 12 <= i < 20 && i < j < |fields| ==> fields[i].name != fields[j].name
  {
  }

  lemma OptionsByIndex(c: Category)
    requires forall i :: 0 <= i < |c.fields| ==> OptionsMatchKind(c.fields[i])
    ensures forall f :: f in c.fields ==> OptionsMatchKind(f)
  {
  }

  lemma ContactOptionsMatchKinds()
    ensures forall f :: f in ContactCommunicationCategory.fields ==> OptionsMatchKind(f)
  {
    var fields := ContactCommunicationCategory.fields;
    ContactOptionsFrom0();
    ContactOptionsFrom10();
    assert |fields| == 20;
    forall f | f in fields
      ensures OptionsMatchKind(f)
    {
      var i :| 0 <= i < |fields| && fields[i] == f;
    }
  }

  lemma ContactOptionsFrom0()
    ensures var fields := ContactCommunicationCategory.fields;
      forall i :: 0 <= i < 10 && i < |fields| ==> OptionsMatchKind(fields[i])
  {
  }

  lemma ContactOptionsFrom10()
    ensures var fields := ContactCommunicationCategory.fields;
      forall i :: 10 <= i < 20 && i < |fields| ==> OptionsMatchKind(fields[i])
  {
  }

  lemma DocumentsFilesWellFormed()
    ensures WellFormedCategory(DocumentsFilesCategory)
  {
    DocumentsFilesNames();
    DocumentsFilesOptions();
    OptionsByIndex(DocumentsFilesCategory);
  }

  lemma DocumentsFilesNames()
    ensures DistinctNames(DocumentsFilesCategory.fields)
  {
  }

  lemma DocumentsFilesOptions()
    ensures var fields := DocumentsFilesCategory.fields;
      forall i :: 0 <= i < |fields| ==> OptionsMatchKind(fields[i])
  {
  }

  lemma PaymentsDonationsWellFormed()
    ensures WellFormedCategory(PaymentsDonationsCategory)
  {
    PaymentsDonationsNames();
    PaymentsDonationsOptions();
    OptionsByIndex(PaymentsDonationsCategory);
  }

  lemma PaymentsDonationsNames()
    ensures DistinctNames(PaymentsDonationsCategory.fields)
  {
  }

  lemma PaymentsDonationsOptions()
    ensures var fields := PaymentsDonationsCategory.fields;
      forall i :: 0 <= i < |fields| ==> OptionsMatchKind(fields[i])
  {
  }

  lemma BusinessMarketingWellFormed()
    ensures WellFormedCategory(BusinessMarketingCategory)
  {
    BusinessMarketingNames();
    BusinessMarketingOptions();
    OptionsByIndex(BusinessMarketingCategory);
  }

  lemma BusinessMarketingNames()
    ensures DistinctNames(BusinessMarketingCategory.fields)
  {
  }

  lemma BusinessMarketingOptions()
    ensures var fields := BusinessMarketingCategory.fields;
      forall i :: 0 <= i < |fields| ==> OptionsMatchKind(fields[i])
  {
  }

  lemma EventsTicketingWellFormed()
    ensures WellFormedCategory(EventsTicketingCategory)
  {
    EventsTicketingNames();
    EventsTicketingOptions();
    OptionsByIndex(EventsTicketingCategory);
  }

  lemma EventsTicketingNames()
    ensures DistinctNames(EventsTicketingCategory.fields)
  {
  }

  lemma EventsTicketingOptions()
    ensures var fields := EventsTicketingCategory.fields;
      forall i :: 0 <= i < |fields| ==> OptionsMatchKind(fields[i])
  {
  }

  lemma LocationNavigationWellFormed()
    ensures WellFormedCategory(LocationNavigationCategory)
  {
    LocationNavigationNames();
    LocationNavigationOptions();
    OptionsByIndex(LocationNavigationCategory);
  }

  lemma LocationNavigationNames()
    ensures DistinctNames(LocationNavigationCategory.fields)
  {
  }

  lemma LocationNavigationOptions()
    ensures var fields := LocationNavigationCategory.fields;
      forall i :: 0 <= i < |fields| ==> OptionsMatchKind(fields[i])
  {
  }

  lemma MediaEntertainmentWellFormed()
    ensures WellFormedCategory(MediaEntertainmentCategory)
  {
    MediaEntertainmentNames();
    MediaEntertainmentOptions();
    OptionsByIndex(MediaEntertainmentCategory);
  }

  lemma MediaEntertainmentNames()
    ensures DistinctNames(MediaEntertainmentCategory.fields)
  {
  }

  lemma MediaEntertainmentOptions()
    ensures var fields := MediaEntertainmentCategory.fields;
      forall i :: 0 <= i < |fields| ==> OptionsMatchKind(fields[i])
  {
  }

  lemma WifiAuthWellFormed()
    ensures WellFormedCategory(WifiAuthCategory)
  {
    WifiAuthNames();
    WifiAuthOptions();
    OptionsByIndex(WifiAuthCategory);
  }

  lemma WifiAuthNames()
    ensures DistinctNames(WifiAuthCategory.fields)
  {
  }

  lemma WifiAuthOptions()
    ensures var fields := WifiAuthCategory.fields;
      forall i :: 0 <= i < |fields| ==> OptionsMatchKind(fields[i])
  {
  }

  lemma CreativeFunWellFormed()
    ensures WellFormedCategory(CreativeFunCategory)
  {
    CreativeFunNames();
    CreativeFunOptions();
    OptionsByIndex(CreativeFunCategory);
  }

  lemma CreativeFunNames()
    ensures DistinctNames(CreativeFunCategory.fields)
  {
  }

  lemma CreativeFunOptions()
    ensures var fields := CreativeFunCategory.fields;
      forall i :: 0 <= i < |fields| ==> OptionsMatchKind(fields[i])
  {
  }

  /** The option literals the encoder branches on are offered by the matching select fields. */
  lemma BranchLiteralsOffered()
    ensures Offers(ContactCommunicationCategory, "type", "vCard")
    ensures Offers(ContactCommunicationCategory, "type", "Phone")
    ensures Offers(ContactCommunicationCategory, "type", "SMS")
    ensures Offers(ContactCommunicationCategory, "type", "Email")
    ensures Offers(ContactCommunicationCategory, "type", "WhatsApp")
    ensures Offers(PaymentsDonationsCategory, "paymentType", "UPI")
    ensures Offers(BusinessMarketingCategory, "businessType", "Business Card")
    ensures Offers(WifiAuthCategory, "authType", "WiFi")
  {
    ContactTypesOffered();
    SelectorLiteralsOffered();
  }

  lemma ContactTypesOffered()
    ensures Offers(ContactCommunicationCategory, "type", "vCard")
    ensures Offers(ContactCommunicationCategory, "type", "Phone")
    ensures Offers(ContactCommunicationCategory, "type", "SMS")
    ensures Offers(ContactCommunicationCategory, "type", "Email")
    ensures Offers(ContactCommunicationCategory, "type", "WhatsApp")
  {
  }

  lemma SelectorLiteralsOffered()
    ensures Offers(PaymentsDonationsCategory, "paymentType", "UPI")
    ensures Offers(BusinessMarketingCategory, "businessType", "Business Card")
    ensures Offers(WifiAuthCategory, "authType", "WiFi")
  {
  }

  /** The fields the encoder writes without a fallback are required by their categories. */
  lemma UncoalescedFieldsRequired()
    ensures IsRequired(PaymentsDonationsCategory, "recipient")
    ensures IsRequired(LocationNavigationCategory, "locationName")
    ensures IsRequired(LocationNavigationCategory, "address")
  {
  }

  /** The contact form has no field called `name` or `phone`, although the encoder reads both. */
  lemma ContactLacksNameAndPhone()
    ensures forall f :: f in ContactCommunicationCategory.fields ==> f.name != "name"
    ensures forall f :: f in ContactCommunicationCategory.fields ==> f.name != "phone"
  {
    ContactLacksField("name");
    ContactLacksField("phone");
  }

  lemma ContactLacksField(name: string)
    requires name == "name" || name == "phone"
    ensures forall i :: 0 <= i < |ContactCommunicationCategory.fields| ==> ContactCommunicationCategory.fields[i].name != name
  {
  }
}
