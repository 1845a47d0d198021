/**
 * The state of the QR generator page around the encoder: the selected
 * category, the form's values, the rendered image, the favourite
 * categories, and the steps that change them. The required-field gate,
 * the favourites-first ordering and the download file name are functions;
 * the page's handlers are the methods of `QRCodeGenerator`.
 */
module Generator {
  import opened Wrappers
  import opened Strings
  import opened QrTypes
  import opened Encoder
  import opened EncoderLemmas

  predicate IsRequiredField(f: Field) { f.required }

  /** The test `!formData[field.name]` of the gate. */
  function Unfilled(data: FormData): Field -> bool
  {
    (f: Field) => !Filled(data, f.name)
  }

  /** The required fields of `c` whose value is empty or absent, in the
      order the category lists them. */
  function MissingFields(c: Category, data: FormData): (r: seq<Field>)
    ensures forall f :: f in r <==> f in c.fields && f.required && !Filled(data, f.name)
    ensures r == [] <==> RequiredFilled(c, data)
  {
    var required := Filter(c.fields, IsRequiredField);
    var unfilled := Unfilled(data);
    FilterSpec(c.fields, IsRequiredField);
    FilterSpec(required, unfilled);
    var r := Filter(required, unfilled);
    assert r == [] <==> RequiredFilled(c, data) by {
      if r != [] {
        assert r[0] in r;
      }
    }
    r
  }

  /** The gate filters the catalog's field list once, so the missing fields
      keep the catalog's order: the missing fields of a list of fields
      followed by more are those of the first part followed by those of the
      second. */
  lemma MissingFieldsInOrder(c: Category, data: FormData, split: nat)
    requires split <= |c.fields|
    ensures MissingFields(c, data)
      == MissingFields(c.(fields := c.fields[..split]), data) + MissingFields(c.(fields := c.fields[split..]), data)
  {
    var unfilled := Unfilled(data);
    var both := (f: Field) => f.required && !Filled(data, f.name);
    var a, b := c.fields[..split], c.fields[split..];
    assert c.fields == a + b;
    FilterFilter(c.fields, IsRequiredField, unfilled, both);
    FilterFilter(a, IsRequiredField, unfilled, both);
    FilterFilter(b, IsRequiredField, unfilled, both);
    FilterAppend(a, b, both);
  }

  /** The labels the "Missing Required Fields" message lists. */
  function Labels(fields: seq<Field>): (r: seq<string>)
    ensures |r| == |fields|
    ensures forall i :: 0 <= i < |fields| ==> r[i] == fields[i].labelText
  {
    seq(|fields|, i requires 0 <= i < |fields| => fields[i].labelText)
  }

  /** How a press of the generate button ends. */
  datatype Outcome =
    | MissingRequired(labels: seq<string>)
    | InvalidData
    | RenderFailed
    | Generated(url: string)

  /** `generateQRCode` for category `c` and form `data`. `render` stands for
      the QR library's `toDataURL`, None when it throws. A serialised form
      is never the empty string, so only an empty payload is rejected. */
  function Generate(c: Category, data: FormData, render: Encoded -> Option<string>): (r: Outcome)
    ensures r.MissingRequired? <==> !RequiredFilled(c, data)
    ensures r.MissingRequired? ==> r.labels == Labels(MissingFields(c, data)) && |r.labels| > 0
    ensures r.InvalidData? <==> RequiredFilled(c, data) && GenerateQRData(c, data) == Payload("")
    ensures r.RenderFailed? <==>
      RequiredFilled(c, data) && GenerateQRData(c, data) != Payload("") && render(GenerateQRData(c, data)).None?
    ensures r.Generated? ==>
      RequiredFilled(c, data) && GenerateQRData(c, data) != Payload("") && render(GenerateQRData(c, data)) == Some(r.url)
  {
    var missing := MissingFields(c, data);
    if |missing| > 0 then MissingRequired(Labels(missing))
    else
      var q := GenerateQRData(c, data);
      if q == Payload("") then InvalidData
      else
        match render(q)
        case None => RenderFailed
        case Some(url) => Generated(url)
  }

  /** With the required fields filled, a catalog category's payload is empty
      exactly in three cases: a contact type outside the five the encoder
      knows, a business type other than `Business Card` with neither website
      nor email, and an authentication type other than `WiFi` without a
      login URL. These are the forms the "Invalid Data" message answers. */
  lemma EmptyPayload(k: Kind, data: FormData)
    requires RequiredFilled(CategoryOf(k), data)
    ensures Encode(k, data) == "" <==>
      || (k == ContactCommunication && !Is(data, "type", "vCard") && !Is(data, "type", "Phone")
          && !Is(data, "type", "SMS") && !Is(data, "type", "Email") && !Is(data, "type", "WhatsApp"))
      || (k == BusinessMarketing && !Is(data, "businessType", "Business Card")
          && !Filled(data, "website") && !Filled(data, "email"))
      || (k == WifiAuth && !Is(data, "authType", "WiFi") && !Filled(data, "loginUrl"))
  {
    RequiredKeysFilled(k, data);
    EmptyPayloadCases(k, data);
  }

  /** The keys a template writes without a fallback, or whose value is the
      whole payload, are required fields of their category. */
  lemma RequiredKeysFilled(k: Kind, data: FormData)
    requires RequiredFilled(CategoryOf(k), data)
    ensures k == WebsiteLinks ==> Filled(data, "url")
    ensures k == DocumentsFiles ==> Filled(data, "fileUrl")
    ensures k == PaymentsDonations ==> Filled(data, "recipient")
    ensures k == MediaEntertainment ==> Filled(data, "mediaUrl")
    ensures k == CreativeFun ==> Filled(data, "content")
  {
    match k
    case WebsiteLinks => WebsiteLinksKeyFilled(data);
    case DocumentsFiles => DocumentsFilesKeyFilled(data);
    case PaymentsDonations => PaymentsDonationsKeyFilled(data);
    case MediaEntertainment => MediaEntertainmentKeyFilled(data);
    case CreativeFun => CreativeFunKeyFilled(data);
    case _ =>
  }

  lemma WebsiteLinksKeyFilled(data: FormData)
    requires RequiredFilled(WebsiteLinksCategory, data)
    ensures Filled(data, "url")
  {
    WebsiteLinksKeyRequired();
    RequiredKeyFilled(WebsiteLinksCategory, data, "url");
  }

  lemma WebsiteLinksKeyRequired()
    ensures IsRequired(WebsiteLinksCategory, "url")
  {
  }

  lemma DocumentsFilesKeyFilled(data: FormData)
    requires RequiredFilled(DocumentsFilesCategory, data)
    ensures Filled(data, "fileUrl")
  {
    DocumentsFilesKeyRequired();
    RequiredKeyFilled(DocumentsFilesCategory, data, "fileUrl");
  }

  lemma DocumentsFilesKeyRequired()
    ensures IsRequired(DocumentsFilesCategory, "fileUrl")
  {
  }

  lemma PaymentsDonationsKeyFilled(data: FormData)
    requires RequiredFilled(PaymentsDonationsCategory, data)
    ensures Filled(data, "recipient")
  {
    PaymentsDonationsKeyRequired();
    RequiredKeyFilled(PaymentsDonationsCategory, data, "recipient");
  }

  lemma PaymentsDonationsKeyRequired()
    ensures IsRequired(PaymentsDonationsCategory, "recipient")
  {
  }

  lemma MediaEntertainmentKeyFilled(data: FormData)
    requires RequiredFilled(MediaEntertainmentCategory, data)
    ensures Filled(data, "mediaUrl")
  {
    MediaEntertainmentKeyRequired();
    RequiredKeyFilled(MediaEntertainmentCategory, data, "mediaUrl");
  }

  lemma MediaEntertainmentKeyRequired()
    ensures IsRequired(MediaEntertainmentCategory, "mediaUrl")
  {
  }

  lemma CreativeFunKeyFilled(data: FormData)
    requires RequiredFilled(CreativeFunCategory, data)
    ensures Filled(data, "content")
  {
    CreativeFunKeyRequired();
    RequiredKeyFilled(CreativeFunCategory, data, "content");
  }

  lemma CreativeFunKeyRequired()
    ensures IsRequired(CreativeFunCategory, "content")
  {
  }

  lemma RequiredKeyFilled(c: Category, data: FormData, name: string)
    requires RequiredFilled(c, data) && IsRequired(c, name)
    ensures Filled(data, name)
  {
    var f := FieldNamed(c, name).value;
    assert f in c.fields;
  }

  lemma EmptyPayloadCases(k: Kind, data: FormData)
    requires k == WebsiteLinks ==> Filled(data, "url")
    requires k == DocumentsFiles ==> Filled(data, "fileUrl")
    requires k == PaymentsDonations ==> Filled(data, "recipient")
    requires k == MediaEntertainment ==> Filled(data, "mediaUrl")
    requires k == CreativeFun ==> Filled(data, "content")
    ensures Encode(k, data) == "" <==>
      || (k == ContactCommunication && !Is(data, "type", "vCard") && !Is(data, "type", "Phone")
          && !Is(data, "type", "SMS") && !Is(data, "type", "Email") && !Is(data, "type", "WhatsApp"))
      || (k == BusinessMarketing && !Is(data, "businessType", "Business Card")
          && !Filled(data, "website") && !Filled(data, "email"))
      || (k == WifiAuth && !Is(data, "authType", "WiFi") && !Filled(data, "loginUrl"))
  {
  }

  /** A business form of a type other than `Business Card` that names
      the business but gives neither website nor email passes the gate and is
      rejected as invalid data. */
  lemma PromotionWithoutLinksIsInvalid(data: FormData, render: Encoded -> Option<string>)
    requires Is(data, "businessType", "Promotion") && Filled(data, "businessName")
    requires !Filled(data, "website") && !Filled(data, "email")
    ensures Generate(CategoryOf(BusinessMarketing), data, render) == InvalidData
  {
    BusinessRequiredFilled(data);
    EmptyPayload(BusinessMarketing, data);
    InvalidWhenEmpty(BusinessMarketing, data, render);
  }

  /** A catalog form that passes the gate and encodes to nothing is rejected
      as invalid data, whatever the renderer would do. */
  lemma InvalidWhenEmpty(k: Kind, data: FormData, render: Encoded -> Option<string>)
    requires RequiredFilled(CategoryOf(k), data) && Encode(k, data) == ""
    ensures Generate(CategoryOf(k), data, render) == InvalidData
  {
    KindOfCategory(k);
  }

  /** The business form's required fields are its type and its name. */
  lemma BusinessRequiredFilled(data: FormData)
    requires Filled(data, "businessType") && Filled(data, "businessName")
    ensures RequiredFilled(CategoryOf(BusinessMarketing), data)
  {
    assert CategoryOf(BusinessMarketing) == BusinessMarketingCategory;
    var fields := BusinessMarketingCategory.fields;
    forall f | f in fields && f.required
      ensures Filled(data, f.name)
    {
      var i :| 0 <= i < |fields| && fields[i] == f;
      assert i < 2;
    }
  }

  /** The website form without a URL names its one required field. */
  lemma EmptyWebsiteFormExample(render: Encoded -> Option<string>)
    ensures Generate(WebsiteLinksCategory, map[], render) == MissingRequired(["Website URL"])
  {
    var fields := WebsiteLinksCategory.fields;
    assert fields == [fields[0], fields[1]];
    assert Filter(fields, IsRequiredField) == [fields[0]] by {
      assert fields[1..] == [fields[1]];
      assert fields[1..][1..] == [];
    }
    var unfilled := Unfilled(map[]);
    assert Filter([fields[0]], unfilled) == [fields[0]] by {
      assert [fields[0]][1..] == [];
    }
  }

  function IsFavorite(favorites: set<string>): Category -> bool
  {
    (c: Category) => c.id in favorites
  }

  function IsRegular(favorites: set<string>): Category -> bool
  {
    (c: Category) => c.id !in favorites
  }

  /** `sortedCategories`: the categories whose id is a favourite, then the
      others, each group in the order of `cats`. */
  function FavoritesFirst(cats: seq<Category>, favorites: set<string>): (r: seq<Category>)
    ensures |r| == |cats|
  {
    var isFavorite, isRegular := IsFavorite(favorites), IsRegular(favorites);
    FilterPartition(cats, isFavorite, isRegular);
    Filter(cats, isFavorite) + Filter(cats, isRegular)
  }

  /** The ordering is a permutation of `cats` that puts every favourite
      before every other category and keeps the order of `cats` within
      each group. */
  lemma FavoritesFirstSpec(cats: seq<Category>, favorites: set<string>)
    ensures var r := FavoritesFirst(cats, favorites);
      var n := |Filter(cats, IsFavorite(favorites))|;
      && multiset(r) == multiset(cats)
      && (forall i :: 0 <= i < |r| ==> (r[i].id in favorites <==> i < n))
      && r[..n] == Filter(cats, IsFavorite(favorites))
      && r[n..] == Filter(cats, IsRegular(favorites))
  {
    var isFavorite, isRegular := IsFavorite(favorites), IsRegular(favorites);
    var fav, reg := Filter(cats, isFavorite), Filter(cats, isRegular);
    var r := FavoritesFirst(cats, favorites);
    FilterPartition(cats, isFavorite, isRegular);
    FilterSpec(cats, isFavorite);
    FilterSpec(cats, isRegular);
    assert r == fav + reg;
    GroupsInOrder(fav, reg, isFavorite);
  }

  /** In `a + b`, where `keep` holds on all of `a` and on none of `b`,
      `keep` holds exactly on the first `|a|` positions. */
  lemma GroupsInOrder<T>(a: seq<T>, b: seq<T>, keep: T -> bool)
    requires forall i :: 0 <= i < |a| ==> keep(a[i])
    requires forall i :: 0 <= i < |b| ==> !keep(b[i])
    ensures forall i :: 0 <= i < |a + b| ==> (keep((a + b)[i]) <==> i < |a|)
  {
    forall i | 0 <= i < |a + b|
      ensures keep((a + b)[i]) <==> i < |a|
    {
      if i >= |a| {
        assert (a + b)[i] == b[i - |a|];
      }
    }
  }

  /** With no favourites the catalog order is kept. */
  lemma NoFavoritesKeepsOrder(cats: seq<Category>)
    ensures FavoritesFirst(cats, {}) == cats
  {
    var isFavorite, isRegular := IsFavorite({}), IsRegular({});
    FilterSpec(cats, isRegular);
    FilterPartition(cats, isFavorite, isRegular);
  }

  /** The favourites after `toggleFavorite(id)`: `id` changes membership,
      every other id keeps it. */
  function Toggled(favorites: set<string>, id: string): (r: set<string>)
    ensures id in r <==> id !in favorites
    ensures forall x :: x != id ==> (x in r <==> x in favorites)
  {
    if id in favorites then favorites - {id} else favorites + {id}
  }

  /** Toggling the same id twice restores the favourites. */
  lemma ToggleTwice(favorites: set<string>, id: string)
    ensures Toggled(Toggled(favorites, id), id) == favorites
  {
    var once := Toggled(favorites, id);
    assert forall x :: x in Toggled(once, id) <==> x in favorites;
  }

  /** The part of the download name made from the category name:
      lower-cased, each run of whitespace replaced by one hyphen. */
  function Slug(name: string): (r: string)
    ensures forall i :: 0 <= i < |r| ==> !IsJsWhitespace(r[i]) && !('A' <= r[i] <= 'Z')
  {
    var lower := ToLower(name);
    HyphenateSpec(lower);
    HyphenateChars(lower);
    HyphenateWhitespace(lower)
  }

  /** The file name `downloadQRCode` gives the image, for a category name
      and the clock reading `now` in milliseconds. */
  function DownloadName(name: string, now: nat): string
  {
    "qr-code-" + Slug(name) + "-" + NatToDecimal(now) + ".png"
  }

  /** `s` is decimal digits whose value is `n`. */
  predicate ReadsAs(s: string, n: nat)
  {
    (forall i :: 0 <= i < |s| ==> IsDigit(s[i])) && DecimalValue(s) == n
  }

  /** The download name starts with `qr-code-`, ends with `.png`, holds no
      whitespace and no upper-case letter, and its last hyphen-separated
      piece before `.png` is the decimal text of the clock reading. */
  lemma DownloadNameReadsBack(name: string, now: nat)
    ensures var f := DownloadName(name, now);
      && |f| >= 14 && f[..8] == "qr-code-" && f[|f| - 4..] == ".png"
      && (forall i :: 0 <= i < |f| ==> !IsJsWhitespace(f[i]) && !('A' <= f[i] <= 'Z'))
    ensures var f := DownloadName(name, now);
      && |f| >= 12
      && var pieces := Split(f[8..|f| - 4], '-');
      && |pieces| >= 1
      && ReadsAs(pieces[|pieces| - 1], now)
  {
    var slug, digits := Slug(name), NatToDecimal(now);
    assert DownloadName(name, now) == "qr-code-" + slug + "-" + digits + ".png";
    FramedStem(slug, digits);
    StampPiece(slug, digits);
    DecimalRoundTrip(now);
  }

  /** `qr-code-`, a slug, a hyphen, digits and `.png`: the frame is where it
      should be and no character is whitespace or upper case. */
  lemma FramedStem(slug: string, digits: string)
    requires forall i :: 0 <= i < |slug| ==> !IsJsWhitespace(slug[i]) && !('A' <= slug[i] <= 'Z')
    requires |digits| >= 1 && forall i :: 0 <= i < |digits| ==> IsDigit(digits[i])
    ensures var f := "qr-code-" + slug + "-" + digits + ".png";
      && |f| >= 14 && f[..8] == "qr-code-" && f[|f| - 4..] == ".png"
      && f[8..|f| - 4] == slug + ['-'] + digits
      && (forall i :: 0 <= i < |f| ==> !IsJsWhitespace(f[i]) && !('A' <= f[i] <= 'Z'))
  {
    var f := "qr-code-" + slug + "-" + digits + ".png";
    var stem := slug + ['-'] + digits;
    assert f == "qr-code-" + stem + ".png";
    assert forall i :: 8 <= i < 8 + |slug| ==> f[i] == slug[i - 8];
    assert forall i :: 9 + |slug| <= i < 9 + |slug| + |digits| ==> f[i] == digits[i - 9 - |slug|];
  }

  /** The last hyphen-separated piece of a slug, a hyphen and digits is the digits. */
  lemma StampPiece(slug: string, digits: string)
    requires forall i :: 0 <= i < |digits| ==> IsDigit(digits[i])
    ensures var pieces := Split(slug + ['-'] + digits, '-');
      |pieces| >= 1 && pieces[|pieces| - 1] == digits
  {
    assert '-' !in digits by {
      assert forall i :: 0 <= i < |digits| ==> digits[i] != '-';
    }
    SplitSnoc(slug, digits, '-');
  }

  /** The catalog's first category gives the slug `website-&-links`. */
  lemma WebsiteSlugExample()
    ensures Slug("Website & Links") == "website-&-links"
  {
    var w, a, l := "Website", "&", "Links";
    var w', l' := "website", "links";
    SlugWords(w, a, l, w', l');
    SlugOfWords(w, a, l, w', l');
  }

  // The lemmas below take the words of the example as parameters pinned by
  // their preconditions rather than as literals: each literal fact is then
  // established once, in a small lemma, and the larger proofs reason about
  // the words only through those facts.

  /** The slug of three space-separated words is their lower-case forms
      joined by hyphens. */
  lemma SlugOfWords(x: string, y: string, z: string, x': string, z': string)
    requires x == "Website" && y == "&" && z == "Links" && x' == "website" && z' == "links"
    ensures Slug(x + ([' '] + (y + ([' '] + z)))) == x' + ("-" + (y + ("-" + z')))
  {
    WordLiterals(x, y, z, x', z');
    NoWhitespaceIn(x');
    NoWhitespaceIn(y);
    NoWhitespaceIn(z');
    assert ToLower(x + ([' '] + (y + ([' '] + z)))) == x' + ([' '] + (y + ([' '] + z'))) by {
      LowerWords(x, y, z);
    }
    HyphenateWords(x', y, z');
  }

  lemma WordLiterals(x: string, y: string, z: string, x': string, z': string)
    requires x == "Website" && y == "&" && z == "Links" && x' == "website" && z' == "links"
    ensures ToLower(x) == x' && ToLower(y) == y && ToLower(z) == z'
  {
    LowerWebsite();
    LowerLinks();
    LowerAmpersand();
  }

  lemma LowerWebsite()
    ensures ToLower("Website") == "website"
  {
  }

  lemma LowerLinks()
    ensures ToLower("Links") == "links"
  {
  }

  lemma LowerAmpersand()
    ensures ToLower("&") == "&"
  {
  }

  lemma NoWhitespaceIn(w: string)
    requires w == "website" || w == "&" || w == "links"
    ensures forall i :: 0 <= i < |w| ==> !IsJsWhitespace(w[i])
  {
  }

  lemma SlugWords(w: string, a: string, l: string, w': string, l': string)
    requires w == "Website" && a == "&" && l == "Links" && w' == "website" && l' == "links"
    ensures "Website & Links" == w + ([' '] + (a + ([' '] + l)))
    ensures w' + ("-" + (a + ("-" + l'))) == "website-&-links"
  {
  }

  lemma LowerAppend(a: string, b: string)
    ensures ToLower(a + b) == ToLower(a) + ToLower(b)
  {
    var r := ToLower(a) + ToLower(b);
    assert forall i :: 0 <= i < |a + b| ==> ToLower(a + b)[i] == r[i];
  }

  lemma LowerWords(x: string, y: string, z: string)
    ensures ToLower(x + ([' '] + (y + ([' '] + z)))) == ToLower(x) + ([' '] + (ToLower(y) + ([' '] + ToLower(z))))
  {
    assert ToLower([' ']) == [' '];
    LowerAppend([' '], z);
    LowerAppend(y, [' '] + z);
    LowerAppend([' '], y + ([' '] + z));
    LowerAppend(x, [' '] + (y + ([' '] + z)));
  }

  /** Three whitespace-free words separated by single spaces keep their
      letters and gain hyphens. */
  lemma HyphenateWords(x: string, y: string, z: string)
    requires forall i :: 0 <= i < |x| ==> !IsJsWhitespace(x[i])
    requires forall i :: 0 <= i < |y| ==> !IsJsWhitespace(y[i])
    requires forall i :: 0 <= i < |z| ==> !IsJsWhitespace(z[i])
    requires y != [] && z != []
    ensures HyphenateWhitespace(x + ([' '] + (y + ([' '] + z)))) == x + ("-" + (y + ("-" + z)))
  {
    HyphenateSpaced(y, z);
    HyphenateSpec(z);
    HyphenateSpaced(x, y + ([' '] + z));
  }

  /** A whitespace-free word followed by one space and text that does not
      start with whitespace: the space becomes one hyphen. */
  lemma HyphenateSpaced(w: string, t: string)
    requires forall i :: 0 <= i < |w| ==> !IsJsWhitespace(w[i])
    requires t != [] && !IsJsWhitespace(t[0])
    ensures HyphenateWhitespace(w + ([' '] + t)) == w + ("-" + HyphenateWhitespace(t))
  {
    assert w + ([' '] + t) == w + [' '] + t;
    HyphenateRun(w, [' '], t);
  }

  /** `c` is one of `cats`, found by walking the list: the verifier unfolds
      this a step at a time instead of comparing `c` with every entry of
      the catalog at once. `ListedSpec` relates it to `c in cats`. */
  predicate Listed(c: Category, cats: seq<Category>)
  {
    cats != [] && (cats[0] == c || Listed(c, cats[1..]))
  }

  lemma {:induction false} ListedSpec(c: Category, cats: seq<Category>)
    ensures Listed(c, cats) <==> c in cats
  {
    if cats != [] {
      ListedSpec(c, cats[1..]);
      assert cats == [cats[0]] + cats[1..];
    }
  }

  /** What pressing the download button does. */
  datatype Download =
    | NothingToDownload
    | LoginPrompt
    | Saved(fileName: string, href: string)

  /** The page: its state fields and handlers. */
  class QRCodeGenerator {
    var selectedCategory: Category
    var formData: FormData
    var qrCodeUrl: string
    var isGenerating: bool
    var favorites: set<string>

    /** The selected category is a catalog entry, chosen from the sorted
        list, and the form holds only values the selected category's inputs
        wrote: each key is the name of one of its fields. */
    predicate Valid()
      reads this`selectedCategory, this`formData
    {
      Listed(selectedCategory, QR_CATEGORIES) && formData.Keys <= FieldNameSet(selectedCategory)
    }

    /** The page opens on the first catalog category, with an empty form, no
        image and no favourites. */
    constructor()
      ensures selectedCategory == QR_CATEGORIES[0] && formData == map[] && qrCodeUrl == ""
      ensures !isGenerating && favorites == {}
      ensures Valid()
    {
      selectedCategory := QR_CATEGORIES[0];
      formData := map[];
      qrCodeUrl := "";
      isGenerating := false;
      favorites := {};
    }

    /** `handleCategoryChange`: select `category` and clear the form and the
        image. The sidebar offers only entries of the catalog. */
    method HandleCategoryChange(category: Category)
      requires Valid() && Listed(category, QR_CATEGORIES)
      modifies this
      ensures Valid()
      ensures selectedCategory == category && formData == map[] && qrCodeUrl == ""
      ensures isGenerating == old(isGenerating) && favorites == old(favorites)
    {
      selectedCategory := category;
      formData := map[];
      qrCodeUrl := "";
    }

    /** `handleInputChange`: set one field's value; every other value stays.
        Each input the page draws is a field of the selected category, and
        passes that field's name. */
    method HandleInputChange(fieldName: string, value: string)
      requires Valid() && fieldName in FieldNameSet(selectedCategory)
      modifies this
      ensures Valid()
      ensures formData == old(formData)[fieldName := value]
      ensures selectedCategory == old(selectedCategory) && qrCodeUrl == old(qrCodeUrl)
      ensures isGenerating == old(isGenerating) && favorites == old(favorites)
    {
      formData := formData[fieldName := value];
    }

    /** `generateQRCode`: the gate, the encoder, then the renderer. The image
        changes only when rendering succeeds; the busy flag is down again at
        the end whichever way the call ends. */
    method GenerateQRCode(render: Encoded -> Option<string>) returns (outcome: Outcome)
      requires Valid()
      modifies this
      ensures Valid()
      ensures outcome == Generate(selectedCategory, formData, render)
      ensures qrCodeUrl == (if outcome.Generated? then outcome.url else old(qrCodeUrl))
      ensures !isGenerating
      ensures selectedCategory == old(selectedCategory) && formData == old(formData)
      ensures favorites == old(favorites)
    {
      isGenerating := true;
      var missing := MissingFields(selectedCategory, formData);
      if |missing| > 0 {
        outcome := MissingRequired(Labels(missing));
      } else {
        var qrData := GenerateQRData(selectedCategory, formData);
        if qrData == Payload("") {
          outcome := InvalidData;
        } else {
          var rendered := render(qrData);
          if rendered.None? {
            outcome := RenderFailed;
          } else {
            qrCodeUrl := rendered.value;
            outcome := Generated(rendered.value);
          }
        }
      }
      isGenerating := false;
    }

    /** `toggleFavorite`: flip whether `categoryId` is a favourite. */
    method ToggleFavorite(categoryId: string)
      requires Valid()
      modifies this
      ensures Valid()
      ensures favorites == Toggled(old(favorites), categoryId)
      ensures selectedCategory == old(selectedCategory) && formData == old(formData)
      ensures qrCodeUrl == old(qrCodeUrl) && isGenerating == old(isGenerating)
    {
      if categoryId in favorites {
        favorites := favorites - {categoryId};
      } else {
        favorites := favorites + {categoryId};
      }
    }

    /** `sortedCategories`: the catalog with the favourites first. */
    function SortedCategories(): (r: seq<Category>)
      reads this
      ensures multiset(r) == multiset(QR_CATEGORIES)
    {
      FavoritesFirstSpec(QR_CATEGORIES, favorites);
      FavoritesFirst(QR_CATEGORIES, favorites)
    }

    /** `downloadQRCode` at clock reading `now`: nothing without an image,
        the login prompt for a visitor, otherwise the image saved under the
        category's download name. It changes no state. */
    function DownloadQRCode(isLoggedIn: bool, now: nat): (d: Download)
      reads this
      ensures d.NothingToDownload? <==> qrCodeUrl == ""
      ensures d.LoginPrompt? <==> qrCodeUrl != "" && !isLoggedIn
      ensures d.Saved? ==> d.href == qrCodeUrl && d.fileName == DownloadName(selectedCategory.name, now)
    {
      if qrCodeUrl == "" then NothingToDownload
      else if !isLoggedIn then LoginPrompt
      else Saved(DownloadName(selectedCategory.name, now), qrCodeUrl)
    }
  }

  /** The page's own calls keep it valid: each entry of the sorted list it
      shows can be selected, and once selected, the name of each of its
      inputs can be written. */
  method SelectAndType(page: QRCodeGenerator, i: nat, j: nat, value: string)
    requires page.Valid() && i < |QR_CATEGORIES|
    modifies page
    ensures page.Valid()
    ensures page.selectedCategory == old(page.SortedCategories())[i]
    ensures j < |page.selectedCategory.fields| ==>
      page.formData == map[page.selectedCategory.fields[j].name := value]
  {
    var sorted := page.SortedCategories();
    PermutationMembers(sorted, QR_CATEGORIES);
    ListedSpec(sorted[i], QR_CATEGORIES);
    page.HandleCategoryChange(sorted[i]);
    if j < |page.selectedCategory.fields| {
      var f := page.selectedCategory.fields[j];
      assert f.name in FieldNameSet(page.selectedCategory);
      page.HandleInputChange(f.name, value);
    }
  }

  lemma PermutationMembers<T>(r: seq<T>, s: seq<T>)
    requires multiset(r) == multiset(s)
    ensures |r| == |s| && forall x :: x in r ==> x in s
  {
    assert |multiset(r)| == |r| && |multiset(s)| == |s|;
    forall x | x in r
      ensures x in s
    {
      assert x in multiset(r);
    }
  }

  /** A form the page can hold never reaches the encoder's `default`
      branch, and in the contact category it has no `name` and no `phone`,
      so the vCard's FN and TEL lines are empty, the `tel:` URI is bare and
      the WhatsApp link carries no number. */
  lemma DeclaredFormEncodes(c: Category, data: FormData)
    requires c in QR_CATEGORIES && data.Keys <= FieldNameSet(c)
    ensures GenerateQRData(c, data).Payload?
    ensures c.id == IdOf(ContactCommunication) ==>
      && Or(data, "name", "") == "" && Or(data, "phone", "") == ""
      && (Is(data, "type", "Phone") ==> GenerateQRData(c, data) == Payload("tel:"))
  {
    CatalogCoversKinds();
    if c.id == IdOf(ContactCommunication) {
      assert KindOf(c.id) == Some(ContactCommunication);
      assert c == ContactCommunicationCategory;
      ContactNameAndPhoneNeverSet(data);
    }
  }

  /** What the page holds at any time encodes to a payload. */
  lemma ValidPageEncodes(page: QRCodeGenerator)
    requires page.Valid()
    ensures GenerateQRData(page.selectedCategory, page.formData).Payload?
  {
    ListedSpec(page.selectedCategory, QR_CATEGORIES);
    DeclaredFormEncodes(page.selectedCategory, page.formData);
  }
}
