/**
 * The payload encoder `generateQRData`: from a category and the form's field
 * values to the text handed to the QR library. It dispatches on the category
 * id and, for some categories, on a select field, and fills a fixed template:
 * a vCard 3.0 record, an iCalendar VEVENT block, `tel:`, `sms:`, `mailto:`,
 * `geo:` and `upi://pay` URIs, a WhatsApp or Google Maps link, or the
 * `WIFI:` string. Records are joined with LF, as the templates write them.
 */
module Encoder {
  import opened Wrappers
  import opened Strings
  import opened Uri
  import opened QrTypes

  /** The form's values by field name. Every input and select writes text. */
  type FormData = map<string, string>

  /** The ten category ids the encoder recognises. */
  datatype Kind =
    | WebsiteLinks | ContactCommunication | DocumentsFiles | PaymentsDonations | BusinessMarketing
    | EventsTicketing | LocationNavigation | MediaEntertainment | WifiAuth | CreativeFun

  function IdOf(k: Kind): string
  {
    match k
    case WebsiteLinks => "website-links"
    case ContactCommunication => "contact-communication"
    case DocumentsFiles => "documents-files"
    case PaymentsDonations => "payments-donations"
    case BusinessMarketing => "business-marketing"
    case EventsTicketing => "events-ticketing"
    case LocationNavigation => "location-navigation"
    case MediaEntertainment => "media-entertainment"
    case WifiAuth => "wifi-auth"
    case CreativeFun => "creative-fun"
  }

  /** The `case` of the encoder's `switch` that `id` selects; None for its `default`. */
  function KindOf(id: string): (r: Option<Kind>)
    ensures r.Some? ==> IdOf(r.value) == id
    ensures forall k :: IdOf(k) == id ==> r == Some(k)
  {
    if id == "website-links" then Some(WebsiteLinks)
    else if id == "contact-communication" then Some(ContactCommunication)
    else if id == "documents-files" then Some(DocumentsFiles)
    else if id == "payments-donations" then Some(PaymentsDonations)
    else if id == "business-marketing" then Some(BusinessMarketing)
    else if id == "events-ticketing" then Some(EventsTicketing)
    else if id == "location-navigation" then Some(LocationNavigation)
    else if id == "media-entertainment" then Some(MediaEntertainment)
    else if id == "wifi-auth" then Some(WifiAuth)
    else if id == "creative-fun" then Some(CreativeFun)
    else None
  }

  /** The catalog entry each case of the encoder is written for. */
  function CategoryOf(k: Kind): Category
  {
    match k
    case WebsiteLinks => WebsiteLinksCategory
    case ContactCommunication => ContactCommunicationCategory
    case DocumentsFiles => DocumentsFilesCategory
    case PaymentsDonations => PaymentsDonationsCategory
    case BusinessMarketing => BusinessMarketingCategory
    case EventsTicketing => EventsTicketingCategory
    case LocationNavigation => LocationNavigationCategory
    case MediaEntertainment => MediaEntertainmentCategory
    case WifiAuth => WifiAuthCategory
    case CreativeFun => CreativeFunCategory
  }

  /** The ten cases in the order of the catalog. */
  const KINDS: seq<Kind> := [
    WebsiteLinks, ContactCommunication, DocumentsFiles, PaymentsDonations, BusinessMarketing,
    EventsTicketing, LocationNavigation, MediaEntertainment, WifiAuth, CreativeFun
  ]

  /** The catalog lists the category of each case, in the order of `KINDS`. */
  lemma CatalogInKindOrder()
    ensures |KINDS| == |QR_CATEGORIES|
    ensures forall i :: 0 <= i < |KINDS| ==> CategoryOf(KINDS[i]) == QR_CATEGORIES[i]
  {
  }

  /** Every catalog category selects a case of the encoder, each case is
      selected by exactly one catalog category, so the `default` branch is
      never taken for a catalog category. */
  lemma CatalogCoversKinds()
    ensures forall c :: c in QR_CATEGORIES ==> KindOf(c.id).Some? && CategoryOf(KindOf(c.id).value) == c
    ensures forall k :: CategoryOf(k) in QR_CATEGORIES && CategoryOf(k).id == IdOf(k)
  {
    forall c | c in QR_CATEGORIES
      ensures KindOf(c.id).Some? && CategoryOf(KindOf(c.id).value) == c
    {
      var i :| 0 <= i < |QR_CATEGORIES| && QR_CATEGORIES[i] == c;
      CatalogInKindOrder();
      KindOfCategory(KINDS[i]);
    }
    forall k: Kind
      ensures CategoryOf(k) in QR_CATEGORIES && CategoryOf(k).id == IdOf(k)
    {
      KindOfCategory(k);
    }
  }

  lemma KindOfCategory(k: Kind)
    ensures CategoryOf(k) in QR_CATEGORIES
    ensures CategoryOf(k).id == IdOf(k) && KindOf(IdOf(k)) == Some(k)
  {
  }

  /** JavaScript truthiness of `data.key`: present and not the empty string. */
  predicate Filled(data: FormData, key: string)
  {
    key in data && data[key] != ""
  }

  /** `data.key || fallback`. */
  function Or(data: FormData, key: string, fallback: string): string
  {
    if Filled(data, key) then data[key] else fallback
  }

  /** `data.key === literal`. */
  predicate Is(data: FormData, key: string, literal: string)
  {
    key in data && data[key] == literal
  }

  /** `${data.key}` with no fallback: the value, or `undefinedText` when the
      property is missing. */
  function Interpolate(data: FormData, key: string, undefinedText: string): string
  {
    if key in data then data[key] else undefinedText
  }

  /** The text JavaScript writes for a missing property in a template or a concatenation. */
  const UNDEFINED: string := "undefined"

  /** The encoder, with the text a missing property turns into left as a
      parameter, so that lemmas can say when it cannot reach the output. */
  function EncodeWith(kind: Kind, data: FormData, undefinedText: string): string
  {
    match kind
    case WebsiteLinks =>
      Or(data, "url", "")
    case ContactCommunication =>
      if Is(data, "type", "vCard") then
        "BEGIN:VCARD\nVERSION:3.0\nFN:" + Or(data, "name", "") +
        "\nTEL:" + Or(data, "phone", "") +
        "\nEMAIL:" + Or(data, "email", "") +
        "\nEND:VCARD"
      else if Is(data, "type", "Phone") then
        "tel:" + Or(data, "phone", "")
      else if Is(data, "type", "SMS") then
        "sms:" + Or(data, "phone", "") + "?body=" + EncodeURIComponent(Or(data, "message", ""))
      else if Is(data, "type", "Email") then
        "mailto:" + Or(data, "email", "") + "?subject=" + EncodeURIComponent(Or(data, "message", ""))
      else if Is(data, "type", "WhatsApp") then
        "https://wa.me/" + (if "phone" in data then DigitsOnly(data["phone"]) else "") +
        "?text=" + EncodeURIComponent(Or(data, "message", ""))
      else ""
    case DocumentsFiles =>
      Or(data, "fileUrl", "")
    case PaymentsDonations =>
      if Is(data, "paymentType", "UPI") then
        "upi://pay?pa=" + Interpolate(data, "recipient", undefinedText) +
        "&am=" + Or(data, "amount", "") +
        "&cu=" + Or(data, "currency", "INR") +
        "&tn=" + EncodeURIComponent(Or(data, "note", ""))
      else Or(data, "recipient", "")
    case BusinessMarketing =>
      if Is(data, "businessType", "Business Card") then
        "BEGIN:VCARD\nVERSION:3.0\nFN:" + Or(data, "contactPerson", "") +
        "\nORG:" + Or(data, "businessName", "") +
        "\nTEL:" + Or(data, "phone", "") +
        "\nEMAIL:" + Or(data, "email", "") +
        "\nURL:" + Or(data, "website", "") +
        "\nADR:;;" + Or(data, "address", "") + ";;;;" +
        "\nEND:VCARD"
      else Or(data, "website", Or(data, "email", ""))
    case EventsTicketing =>
      "BEGIN:VEVENT\nSUMMARY:" + Or(data, "eventName", "") +
      "\nDTSTART:" + (if Filled(data, "eventDate") then StripHyphens(data["eventDate"]) else "") +
      "\nLOCATION:" + Or(data, "location", "") +
      "\nDESCRIPTION:" + Or(data, "description", "") +
      "\nURL:" + Or(data, "rsvpUrl", "") +
      "\nEND:VEVENT"
    case LocationNavigation =>
      if Filled(data, "coordinates") then
        "geo:" + data["coordinates"] + "?q=" +
        EncodeURIComponent(Interpolate(data, "locationName", undefinedText) + ", " + Interpolate(data, "address", undefinedText))
      else "https://maps.google.com/maps?q=" + EncodeURIComponent(Or(data, "address", ""))
    case MediaEntertainment =>
      Or(data, "mediaUrl", "")
    case WifiAuth =>
      if Is(data, "authType", "WiFi") then
        "WIFI:T:" + Or(data, "security", "WPA2") + ";S:" + Or(data, "networkName", "") +
        ";P:" + Or(data, "password", "") + ";H:false;;"
      else Or(data, "loginUrl", "")
    case CreativeFun =>
      Or(data, "revealUrl", Or(data, "content", ""))
  }

  /** The payload text of one of the ten cases. */
  function Encode(kind: Kind, data: FormData): string
  {
    EncodeWith(kind, data, UNDEFINED)
  }

  /** What `generateQRData` returns: a payload text, or, in the `default`
      branch, `JSON.stringify(data)`, whose text this model does not spell out. */
  datatype Encoded = Payload(text: string) | Serialized(data: FormData)

  /** `generateQRData(category, data)`: a recognised id gives that case's
      payload; any other id falls through to the serialisation of `data`. */
  function GenerateQRData(category: Category, data: FormData): (r: Encoded)
    ensures r.Serialized? <==> KindOf(category.id).None?
    ensures r.Serialized? ==> r.data == data
    ensures r.Payload? ==> r.text == Encode(KindOf(category.id).value, data)
  {
    match KindOf(category.id)
    case Some(k) => Payload(Encode(k, data))
    case None => Serialized(data)
  }
}
