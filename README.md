# QR Code Design Forge — a Dafny model of the generator core

This project models the logic of the QR generator page and of its sign-in
dialog:

- **The catalog** (`qr_types.dfy`, module `QrTypes`): the ten QR categories,
  each with its ordered form fields. Every field has a kind, a label, an
  optional placeholder, a `required` flag and, for select fields, the
  options.
- **The payload encoder** `generateQRData` (`encoder.dfy`, module
  `Encoder`). It dispatches on the category id and, within a category, on a
  select value. It fills one of these templates:
  - a vCard 3.0 record;
  - an iCalendar VEVENT block;
  - `tel:`, `sms:`, `mailto:`, `geo:` or `upi://pay` URIs;
  - a WhatsApp or Google Maps link;
  - the `WIFI:` string;
  - or one of the form's values, passed through unchanged.

  JavaScript's `||` coalescing is modelled by `Or`, and a bare
  `${data.x}` by `Interpolate`. Records are joined with LF, as the
  templates write them.
- **What the encoder promises** (`encoder_lemmas.dfy`, module
  `EncoderLemmas`):
  - the line structure of each record;
  - the query structure of each URI, with the percent-encoded text
    recoverable by decoding;
  - the worked examples;
  - when the text JavaScript writes for a missing property can or cannot
    reach the payload;
  - the contact form's `name`/`phone` gap.
- **`encodeURIComponent`** (`uri.dfy`, module `Uri`). It keeps the
  unreserved set of section 2.3 of RFC 2396 and writes every other
  character as the `%XY` escapes of its UTF-8 bytes (section 3 of RFC
  3629). Its inverse `DecodeURIComponent` is proved to undo it for every
  string.
- **The JavaScript string and array operations used** (`strings.dfy`,
  module `Strings`): `filter`, one-character `split`/`join`, the
  `replace` calls with `[^0-9]`, `-` and `\s+`, ASCII `toLowerCase`, and
  the decimal text of a number.
- **The page state** (`generator.dfy`, module `Generator`). It covers:
  - the required-field gate;
  - the outcome of the generate button, with the QR library passed in as a
    parameter;
  - favourites and the favourites-first sidebar order;
  - the download file name.

  The class `QRCodeGenerator` holds the page's state fields. Its methods are
  the page's handlers.
- **The sign-in dialog** (`auth.dfy`, module `Auth`). It covers:
  - the five-input form;
  - the login check and the name fallback to the email's local part;
  - the registration checks, in their order, with their messages;
  - the two phases (send code, then verify), in which the code's value is
    never compared to anything;
  - the user records handed to the page.

  The class `AuthModal` holds the dialog's state fields.

**Three interpolations have no `|| ''` fallback:**
- `recipient` in the UPI link (`QRCodeGenerator.tsx:69`);
- `locationName` and `address` in the `geo:` URI (`:98`).

A missing one of these becomes the text `undefined`. The model keeps that
text as a parameter of `EncodeWith`. `NoMissingPropertyRendered` shows
that the text cannot reach the output once the category's required fields
are filled. `UpiWithoutRecipient` shows that it does reach the output when
the recipient is missing.

**The download file name** always ends `.png` (`QRCodeGenerator.tsx:182`).

**The contact category** declares no `name` or `phone` field. Its vCard
template reads both (`QRCodeGenerator.tsx:49-50`), and its `tel:`, SMS and
WhatsApp templates read `phone` (`:54`, `:56`, `:60`). The model
reproduces this as written. The page writes only keys that name a field of
the selected category, and selects only catalog categories; the class
invariant `QRCodeGenerator.Valid` records this. `ContactNameAndPhoneNeverSet`
and `DeclaredFormEncodes` state what such a form produces: the FN and TEL
lines are empty and `tel:` carries no number.

## Model

| member | source | states |
|---|---|---|
| QrTypes.CatalogIdsDistinct | src/types/qr-types.ts:37-188 | the catalog has exactly ten categories, with pairwise distinct ids |
| QrTypes.CatalogWellFormed | src/types/qr-types.ts:10-17 | in every category, field names are distinct, and a field has a non-empty option list exactly when it is a select field |
| QrTypes.FieldNamed | src/types/qr-types.ts:10-17 | the field it finds belongs to the category and has the requested name |
| QrTypes.BranchLiteralsOffered | src/types/qr-types.ts:56-183 | each literal the encoder branches on is one of the options of the matching select field: `vCard`, `Phone`, `SMS`, `Email`, `WhatsApp`, `UPI`, `Business Card`, `WiFi` |
| QrTypes.UncoalescedFieldsRequired | src/types/qr-types.ts:98-143 | `recipient` is required for payments, and `locationName` and `address` are required for location |
| QrTypes.ContactLacksNameAndPhone | src/types/qr-types.ts:56-75 | no field of the contact category is named `name` or `phone` |
| Encoder.KindOf | src/components/QRCodeGenerator.tsx:41-116 | the switch case selected by an id is the one whose id it is; an id that no case names gives None, i.e. the `default` branch |
| Encoder.CatalogCoversKinds | src/components/QRCodeGenerator.tsx:41-116 | every catalog category selects a case, and every case is selected by exactly one catalog category, so the catalog never reaches `default` |
| Encoder.GenerateQRData | src/components/QRCodeGenerator.tsx:40-117 | the result is a serialisation of the form exactly when the id names no case; otherwise it is the payload of that case |
| EncoderLemmas.ContactVCardLines | src/components/QRCodeGenerator.tsx:46-52 | when no value contains a line feed, the contact vCard is exactly the six lines BEGIN, VERSION:3.0, FN, TEL, EMAIL, END, with the coalesced values |
| EncoderLemmas.BusinessCardLines | src/components/QRCodeGenerator.tsx:74-83 | the business card is exactly nine lines; the address sits in the street slot of `ADR:;;…;;;;` |
| EncoderLemmas.EventLines | src/components/QRCodeGenerator.tsx:88-94 | the event block is exactly seven lines, from BEGIN:VEVENT to END:VEVENT; DTSTART is the event date with its hyphens removed |
| EncoderLemmas.EventStartDate | src/components/QRCodeGenerator.tsx:90 | the DTSTART value never contains a hyphen |
| EncoderLemmas.EventStartDateExample | src/components/QRCodeGenerator.tsx:90 | `2024-12-25` becomes `20241225` |
| EncoderLemmas.WifiFields | src/components/QRCodeGenerator.tsx:106-107 | when no value contains `;`, the WiFi string splits at `;` into `WIFI:T:<security or WPA2>`, `S:<name>`, `P:<password>`, `H:false` and two empty fields |
| EncoderLemmas.SmsUri | src/components/QRCodeGenerator.tsx:55-56 | the SMS URI is `sms:<phone>` and one `body=` query, and decoding that query gives back the message |
| EncoderLemmas.MailtoUri | src/components/QRCodeGenerator.tsx:57-58 | the mailto URI is `mailto:<email>` and one `subject=` query, and decoding that query gives back the message |
| EncoderLemmas.WhatsAppLink | src/components/QRCodeGenerator.tsx:59-60 | the link is `https://wa.me/` followed only by digits, then one `text=` query that decodes back to the message |
| EncoderLemmas.WhatsAppPayload | src/components/QRCodeGenerator.tsx:60 | the WhatsApp payload is `https://wa.me/`, the phone's digits, `?text=` and the encoded message |
| EncoderLemmas.WhatsAppExample | src/components/QRCodeGenerator.tsx:60 | phone `+1 (234) 567-8900` with message `hi` gives `https://wa.me/12345678900?text=hi` |
| EncoderLemmas.UpiUri | src/components/QRCodeGenerator.tsx:68-69 | the UPI link is `upi://pay` and exactly four `&`-separated parameters: `pa`, `am` (amount or empty), `cu` (currency or INR) and `tn`, and decoding `tn` gives back the note |
| EncoderLemmas.UpiPayload | src/components/QRCodeGenerator.tsx:69 | for a form with all four values, the UPI payload is the template filled with them and the encoded note |
| EncoderLemmas.UpiNoteExample | src/components/QRCodeGenerator.tsx:69 | the note `gift` is written unchanged, and `for you` is written `for%20you` |
| EncoderLemmas.UpiWithoutRecipient | src/components/QRCodeGenerator.tsx:69 | a UPI form without a recipient gives a link starting `upi://pay?pa=undefined&am=` |
| EncoderLemmas.LocationUri | src/components/QRCodeGenerator.tsx:96-100 | with coordinates, the payload is `geo:<coordinates>?q=`, whose query decodes to `<locationName>, <address>`; without them, it is the Google Maps link, whose query decodes to the address |
| EncoderLemmas.PassThroughPayloads | src/components/QRCodeGenerator.tsx:42-112 | the link categories and the sub-types without a template output the typed value unchanged, or its fallback value, or the empty text |
| EncoderLemmas.NoMissingPropertyRendered | src/components/QRCodeGenerator.tsx:40-117 | once a category's required fields are filled, the payload does not depend on the text JavaScript writes for a missing property |
| EncoderLemmas.ContactNameAndPhoneNeverSet | src/components/QRCodeGenerator.tsx:46-60 | with only the contact category's declared fields, the FN and TEL lines are empty, `tel:` carries no number, and the WhatsApp link has no digits |
| Uri.EncodeURIComponent | src/components/QRCodeGenerator.tsx:56 | the output holds only unreserved characters and `%`; it equals the input exactly when every input character is unreserved, and is longer otherwise |
| Uri.EncodeIdentity | src/components/QRCodeGenerator.tsx:60 | the encoding leaves a string unchanged if and only if all of its characters are unreserved |
| Uri.EncodeAppend | src/components/QRCodeGenerator.tsx:98 | encoding a concatenation concatenates the encodings |
| Uri.PercentDecodeEncode | src/components/QRCodeGenerator.tsx:69 | undoing the escapes of an encoding gives the UTF-8 bytes of the original string |
| Uri.Utf8DecodeString | src/components/QRCodeGenerator.tsx:58 | decoding the UTF-8 bytes of a string gives back the string |
| Uri.DecodeEncode | src/components/QRCodeGenerator.tsx:56 | `decodeURIComponent(encodeURIComponent(s)) == s` for every string |
| Strings.FilterSpec | src/components/QRCodeGenerator.tsx:124-125 | `filter` keeps exactly the elements that pass the test, and keeps all of them when all pass |
| Strings.FilterAppend | src/components/QRCodeGenerator.tsx:246-247 | filtering distributes over concatenation, so filtering keeps order |
| Strings.FilterPartition | src/components/QRCodeGenerator.tsx:245-249 | the passing elements followed by the failing ones form a permutation of the input |
| Strings.SplitPieces | src/components/AuthModal.tsx:45 | the pieces of `split` contain no separator, joining them gives back the string, and the first piece is the longest prefix without a separator |
| Strings.SplitJoin | src/components/AuthModal.tsx:45 | splitting undoes joining pieces that contain no separator |
| Strings.TrimStartSpec | src/components/QRCodeGenerator.tsx:182 | a run of whitespace is consumed whole: what is removed is a prefix made only of whitespace, and what remains starts with a character that is not whitespace |
| Strings.HyphenateRun | src/components/QRCodeGenerator.tsx:182 | each maximal run of whitespace becomes exactly one hyphen: a word, a non-empty whitespace run and text not starting with whitespace give the word, one `-`, and the rest hyphenated |
| Strings.HyphenateSpec | src/components/QRCodeGenerator.tsx:182 | `replace(/\s+/g, '-')` leaves no whitespace, and changes nothing in a string without whitespace |
| Strings.HyphenateChars | src/components/QRCodeGenerator.tsx:182 | every character of the result is a hyphen or a character of the input |
| Strings.ToLower | src/components/QRCodeGenerator.tsx:182 | every character is lower-cased in place, and no upper-case ASCII letter remains |
| Strings.DecimalRoundTrip | src/components/QRCodeGenerator.tsx:182 | the decimal text of the timestamp reads back as the same number |
| Generator.MissingFields | src/components/QRCodeGenerator.tsx:124-125 | a field is reported missing exactly when it is declared, required and empty or absent; the list is empty exactly when every required field is filled |
| Generator.MissingFieldsInOrder | src/components/QRCodeGenerator.tsx:124-125 | the missing fields are listed in the category's field order |
| Generator.Generate | src/components/QRCodeGenerator.tsx:119-171 | the outcome is MissingRequired exactly when a required field is empty, and then lists the missing fields' labels; it is InvalidData exactly when the gate passes and the payload is empty; rendering is attempted only after both checks pass |
| Generator.EmptyPayload | src/components/QRCodeGenerator.tsx:136-145 | once the required fields are filled, a catalog payload is empty in exactly three cases: an unknown contact type, a non-card business form with neither website nor email, or a non-WiFi form without a login URL |
| Generator.InvalidWhenEmpty | src/components/QRCodeGenerator.tsx:136-145 | a catalog form that passes the gate but encodes to the empty text ends in InvalidData, whatever the renderer would do |
| Generator.PromotionWithoutLinksIsInvalid | src/components/QRCodeGenerator.tsx:138-145 | a business form that passes the gate is still rejected as invalid data when it gives neither website nor email |
| Generator.EmptyWebsiteFormExample | src/components/QRCodeGenerator.tsx:127-133 | an empty website form reports `Website URL` as missing |
| Generator.FavoritesFirst | src/components/QRCodeGenerator.tsx:245-249 | the ordering has as many categories as the catalog |
| Generator.FavoritesFirstSpec | src/components/QRCodeGenerator.tsx:245-249 | the ordering is a permutation of the catalog; favourites come first, then the rest, and each group keeps catalog order |
| Generator.NoFavoritesKeepsOrder | src/components/QRCodeGenerator.tsx:245-249 | with no favourites, the sidebar shows the catalog order |
| Generator.Toggled | src/components/QRCodeGenerator.tsx:192-202 | toggling flips the membership of the given id and leaves every other id as it was |
| Generator.ToggleTwice | src/components/QRCodeGenerator.tsx:192-202 | toggling the same id twice restores the favourites |
| Generator.Slug | src/components/QRCodeGenerator.tsx:182 | the category part of the file name has no whitespace and no upper-case letter |
| Generator.DownloadNameReadsBack | src/components/QRCodeGenerator.tsx:182 | the file name starts `qr-code-`, ends `.png` and has no whitespace or upper-case letters; its last hyphen-separated piece is the timestamp's digits, which read back as the timestamp |
| Generator.WebsiteSlugExample | src/components/QRCodeGenerator.tsx:182 | the category name `Website & Links` becomes `website-&-links` |
| Generator.QRCodeGenerator.constructor | src/components/QRCodeGenerator.tsx:20-24 | the page starts on the first catalog category, with an empty form, no image, not busy and no favourites |
| Generator.QRCodeGenerator.HandleCategoryChange | src/components/QRCodeGenerator.tsx:27-31 | changing to a catalog category selects it, empties the form and clears the image; favourites are kept; the page stays valid |
| Generator.QRCodeGenerator.HandleInputChange | src/components/QRCodeGenerator.tsx:33-38 | writing an input of the selected category sets exactly that key; every other key and value is unchanged; the page stays valid |
| Generator.SelectAndType | src/components/QRCodeGenerator.tsx:285-293 | selecting any entry of the sorted sidebar list, then typing into any of its inputs, is allowed and keeps the page valid; the form then holds just that one value |
| Generator.DeclaredFormEncodes | src/components/QRCodeGenerator.tsx:40-117 | a catalog category with a form keyed by its own field names never reaches the `default` branch; in the contact category such a form has no name and no phone, and `Phone` gives the bare `tel:` |
| Generator.ValidPageEncodes | src/components/QRCodeGenerator.tsx:19-38 | whatever a valid page holds encodes to a payload, never to the serialised form |
| Generator.QRCodeGenerator.GenerateQRCode | src/components/QRCodeGenerator.tsx:119-171 | the outcome is `Generate` on the current state; the image changes only on success; the busy flag is down at the end |
| Generator.QRCodeGenerator.ToggleFavorite | src/components/QRCodeGenerator.tsx:192-202 | the favourites become `Toggled` of the old favourites; nothing else changes |
| Generator.QRCodeGenerator.SortedCategories | src/components/QRCodeGenerator.tsx:245-249 | the sidebar shows each catalog category exactly once |
| Generator.QRCodeGenerator.DownloadQRCode | src/components/QRCodeGenerator.tsx:173-190 | with no image nothing happens; a visitor gets the login prompt; otherwise the image is saved under the download name |
| Auth.SetField | src/components/AuthModal.tsx:29-31 | the chosen input takes the new value, and every other input keeps its value |
| Auth.SetFieldLaws | src/components/AuthModal.tsx:29-31 | writing back an input's own value changes nothing, and of two writes to one input the later wins |
| Auth.EmailLocalPart | src/components/AuthModal.tsx:45 | `email.split('@')[0]` is the longest prefix of the email without an `@` |
| Auth.LocalPartExample | src/components/AuthModal.tsx:45 | the local part of `jane@example.com` is `jane` |
| Auth.Login | src/components/AuthModal.tsx:33-68 | login fails with "Please fill in all fields" exactly when the email or password is empty; otherwise the user has id 1, the form's email, not premium, 3 of 10 codes used, and the form's name or else the email's local part |
| Auth.LoginIgnoresRegistrationInputs | src/components/AuthModal.tsx:39-50 | login reads neither the password confirmation nor the code |
| Auth.LoginNameExample | src/components/AuthModal.tsx:43-50 | logging in as `jane@example.com` with no name gives the user `jane` |
| Auth.Register | src/components/AuthModal.tsx:70-124 | any empty input fails with "Please fill in all fields" before a password mismatch can fail with "Passwords do not match"; a valid form in the first phase only sends the code; in the second phase an empty code fails with "Please enter the OTP", and any other code creates the user with 0 of 10 codes used |
| Auth.OtpValueIgnored | src/components/AuthModal.tsx:92-106 | any two non-empty codes give the same result |
| Auth.TwoPhaseRegistration | src/components/AuthModal.tsx:81-106 | a valid form first gets OtpSent and then, in the second phase, Registered |
| Auth.AuthModal.constructor | src/components/AuthModal.tsx:18-27 | the dialog starts not busy, with an empty form, in the first phase |
| Auth.AuthModal.HandleInputChange | src/components/AuthModal.tsx:29-31 | the form becomes `SetField` of the old form; the flags do not change |
| Auth.AuthModal.HandleLogin | src/components/AuthModal.tsx:33-68 | the result is `Login` of the form; the dialog is not busy at the end |
| Auth.AuthModal.HandleRegister | src/components/AuthModal.tsx:70-124 | the result is `Register` of the form in the old phase; the phase moves to "code sent" exactly on OtpSent and never moves back; the dialog is not busy at the end |
| Auth.AuthModal.ResendCode | src/components/AuthModal.tsx:349 | the dialog returns to the first phase and keeps the form |
| Auth.RegistrationScenario | src/components/AuthModal.tsx:70-124 | a fresh dialog, filled with a valid form, answers OtpSent on the first press and Registered on the second, once a code is typed |

## Left out

- `JSON.stringify(data)` in the encoder's `default` branch (`QRCodeGenerator.tsx:115`) is represented by the form itself (`Serialized`). Its text is not spelled out. No catalog category reaches that branch.
- `QRCode.toDataURL` (`QRCodeGenerator.tsx:147-154`), the QR library that draws the image, is the `render` parameter. None stands for a thrown error.
- Toasts, JSX rendering, `renderField`, `async`/`await` and the `setTimeout` delays of the dialog are not modelled.
- The DOM anchor and its click are not modelled. `Date.now()` is the `now` parameter.
- `onLoginPrompt`, `onLogin` and `onClose` are not modelled. A handler's result says which callback the page would call.
- The Google login of the dialog (`AuthModal.tsx:126-157`) hands over a hard-coded user. It has no logic to model.
- `showPassword` is not modelled. It only toggles how the password is displayed.
- `src/pages/Index.tsx` is not part of this model. It holds only header, avatar and dropdown composition.
- The hard-coded usage figures of the page are not modelled.
- The `QRCodeData` and `UserLimits` interfaces (`qr-types.ts:19-34`) are not modelled. No core code uses them.
- Form values are strings. Every input and select of the page writes text.
- `handleInputChange` of the dialog takes any field name. The model takes one of the five inputs, since its callers pass only those five.
- Strings.ToLower: lower-cases only ASCII letters. Non-ASCII case mapping is not modelled.
- Uri.EncodeURIComponent: takes Unicode scalar values, because Dafny's `char` is one. The `URIError` that JavaScript throws for a lone surrogate cannot arise.
- The line and field lemmas (`ContactVCardLines`, `BusinessCardLines`, `EventLines`, `WifiFields`, `SmsUri`, `MailtoUri`, `UpiUri`, `LocationUri`) require that the values not contain the separator. The source does no escaping, so a line feed in a description, or a `;` in a WiFi password, breaks the record structure.
- EncoderLemmas.WhatsAppExample and EncoderLemmas.UpiNoteExample: each states its worked example on the template's parts rather than on a whole form map. `WhatsAppPayload` and `UpiPayload` connect the parts to the payload of such a form.
