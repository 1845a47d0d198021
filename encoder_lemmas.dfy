/**
 * What the encoder's templates guarantee: the line structure of the vCard and
 * VEVENT records, the fields of the `WIFI:` string, the parts of the URIs and
 * their percent-encoded query values, and that a missing property never
 * reaches the payload once the category's required fields are filled.
 */
module EncoderLemmas {
  import opened Wrappers
  import opened Strings
  import opened Uri
  import opened QrTypes
  import opened Encoder

  /** The property `key`, when present, does not contain `c`. */
  predicate Free(data: FormData, key: string, c: char)
  {
    key in data ==> c !in data[key]
  }

  lemma FreeOr(data: FormData, key: string, fallback: string, c: char)
    requires Free(data, key, c) && c !in fallback
    ensures c !in Or(data, key, fallback)
  {
  }

  /** A percent-encoded text never holds a character that must be escaped. */
  lemma EncodedLacks(s: string, c: char)
    requires !IsUnreserved(c) && c != '%'
    ensures c !in EncodeURIComponent(s)
  {
  }

  // ------------------------------------------------------------ line records

  /** The three lines every vCard of the encoder starts with. */
  lemma VCardHead(x: string)
    requires '\n' !in x
    ensures Split("BEGIN:VCARD\nVERSION:3.0\nFN:" + x, '\n') == ["BEGIN:VCARD", "VERSION:3.0", "FN:" + x]
  {
    var b, v, f := "BEGIN:VCARD", "VERSION:3.0", "FN:";
    assert "BEGIN:VCARD\nVERSION:3.0\nFN:" == b + (['\n'] + v) + (['\n'] + f);
    SplitHead2(b, ['\n'] + v, v, ['\n'] + f, f, x, '\n');
  }

  /** The vCard branch of the contact category is six LF-separated lines. */
  lemma ContactVCardLines(data: FormData)
    requires Is(data, "type", "vCard")
    requires Free(data, "name", '\n') && Free(data, "phone", '\n') && Free(data, "email", '\n')
    ensures Split(Encode(ContactCommunication, data), '\n') == [
      "BEGIN:VCARD",
      "VERSION:3.0",
      "FN:" + Or(data, "name", ""),
      "TEL:" + Or(data, "phone", ""),
      "EMAIL:" + Or(data, "email", ""),
      "END:VCARD"]
  {
    var x, y, z := Or(data, "name", ""), Or(data, "phone", ""), Or(data, "email", "");
    FreeOr(data, "name", "", '\n');
    FreeOr(data, "phone", "", '\n');
    FreeOr(data, "email", "", '\n');
    VCardTags();
    var t1 := "BEGIN:VCARD\nVERSION:3.0\nFN:" + x;
    var t2 := t1 + "\nTEL:" + y;
    var t3 := t2 + "\nEMAIL:" + z;
    assert Split(t1, '\n') == ["BEGIN:VCARD", "VERSION:3.0", "FN:" + x] by {
      VCardHead(x);
    }
    assert Split(t2, '\n') == Split(t1, '\n') + ["TEL:" + y] by {
      SplitAppendPiece(t1, "\nTEL:", "TEL:", y, '\n');
    }
    assert Split(t3, '\n') == Split(t2, '\n') + ["EMAIL:" + z] by {
      SplitAppendPiece(t2, "\nEMAIL:", "EMAIL:", z, '\n');
    }
    assert Split(t3 + "\nEND:VCARD", '\n') == Split(t3, '\n') + ["END:VCARD"] by {
      SplitAppendLast(t3, "\nEND:VCARD", "END:VCARD", '\n');
    }
  }

  /** The business-card branch is a nine-line vCard; the address sits in the
      street component of `ADR`, followed by the four empty components after it. */
  lemma BusinessCardLines(data: FormData)
    requires Is(data, "businessType", "Business Card")
    requires Free(data, "contactPerson", '\n') && Free(data, "businessName", '\n') && Free(data, "phone", '\n')
    requires Free(data, "email", '\n') && Free(data, "website", '\n') && Free(data, "address", '\n')
    ensures Split(Encode(BusinessMarketing, data), '\n') == [
      "BEGIN:VCARD",
      "VERSION:3.0",
      "FN:" + Or(data, "contactPerson", ""),
      "ORG:" + Or(data, "businessName", ""),
      "TEL:" + Or(data, "phone", ""),
      "EMAIL:" + Or(data, "email", ""),
      "URL:" + Or(data, "website", ""),
      "ADR:;;" + Or(data, "address", "") + ";;;;",
      "END:VCARD"]
  {
    var cp, bn, ph := Or(data, "contactPerson", ""), Or(data, "businessName", ""), Or(data, "phone", "");
    var em, web, ad := Or(data, "email", ""), Or(data, "website", ""), Or(data, "address", "");
    FreeOr(data, "contactPerson", "", '\n');
    FreeOr(data, "businessName", "", '\n');
    FreeOr(data, "phone", "", '\n');
    FreeOr(data, "email", "", '\n');
    FreeOr(data, "website", "", '\n');
    FreeOr(data, "address", "", '\n');
    assert Encode(BusinessMarketing, data) ==
      "BEGIN:VCARD\nVERSION:3.0\nFN:" + cp + "\nORG:" + bn + "\nTEL:" + ph +
      "\nEMAIL:" + em + "\nURL:" + web + "\nADR:;;" + ad + ";;;;" + "\nEND:VCARD";
    BusinessCardBlock(cp, bn, ph, em, web, ad);
  }

  /** The business-card template around six values without a line break. */
  lemma BusinessCardBlock(cp: string, bn: string, ph: string, em: string, web: string, ad: string)
    requires '\n' !in cp && '\n' !in bn && '\n' !in ph && '\n' !in em && '\n' !in web && '\n' !in ad
    ensures Split("BEGIN:VCARD\nVERSION:3.0\nFN:" + cp + "\nORG:" + bn + "\nTEL:" + ph +
      "\nEMAIL:" + em + "\nURL:" + web + "\nADR:;;" + ad + ";;;;" + "\nEND:VCARD", '\n') == [
      "BEGIN:VCARD", "VERSION:3.0", "FN:" + cp, "ORG:" + bn, "TEL:" + ph,
      "EMAIL:" + em, "URL:" + web, "ADR:;;" + ad + ";;;;", "END:VCARD"]
  {
    VCardTags();
    var t3 := "BEGIN:VCARD\nVERSION:3.0\nFN:" + cp + "\nORG:" + bn + "\nTEL:" + ph;
    var t4 := t3 + "\nEMAIL:" + em;
    var t5 := t4 + "\nURL:" + web;
    var t6 := t5 + "\nADR:;;" + ad + ";;;;";
    BusinessCardOpening(cp, bn, ph);
    SplitAppendPiece(t3, "\nEMAIL:", "EMAIL:", em, '\n');
    SplitAppendPiece(t4, "\nURL:", "URL:", web, '\n');
    assert Split(t6, '\n') == Split(t5, '\n') + ["ADR:;;" + ad + ";;;;"] by {
      assert t6 == t5 + "\nADR:;;" + (ad + ";;;;");
      assert '\n' !in ";;;;";
      SplitAppendPiece(t5, "\nADR:;;", "ADR:;;", ad + ";;;;", '\n');
      assert "ADR:;;" + (ad + ";;;;") == "ADR:;;" + ad + ";;;;";
    }
    SplitAppendLast(t6, "\nEND:VCARD", "END:VCARD", '\n');
  }

  lemma BusinessCardOpening(cp: string, bn: string, ph: string)
    requires '\n' !in cp && '\n' !in bn && '\n' !in ph
    ensures Split("BEGIN:VCARD\nVERSION:3.0\nFN:" + cp + "\nORG:" + bn + "\nTEL:" + ph, '\n')
      == ["BEGIN:VCARD", "VERSION:3.0", "FN:" + cp, "ORG:" + bn, "TEL:" + ph]
  {
    VCardTags();
    var t1 := "BEGIN:VCARD\nVERSION:3.0\nFN:" + cp;
    var t2 := t1 + "\nORG:" + bn;
    VCardHead(cp);
    SplitAppendPiece(t1, "\nORG:", "ORG:", bn, '\n');
    SplitAppendPiece(t2, "\nTEL:", "TEL:", ph, '\n');
  }

  lemma VCardTags()
    ensures "\nTEL:" == ['\n'] + "TEL:" && '\n' !in "TEL:"
    ensures "\nEMAIL:" == ['\n'] + "EMAIL:" && '\n' !in "EMAIL:"
    ensures "\nORG:" == ['\n'] + "ORG:" && '\n' !in "ORG:"
    ensures "\nURL:" == ['\n'] + "URL:" && '\n' !in "URL:"
    ensures "\nADR:;;" == ['\n'] + "ADR:;;" && '\n' !in "ADR:;;"
    ensures "\nEND:VCARD" == ['\n'] + "END:VCARD" && '\n' !in "END:VCARD"
  {
  }

  lemma EventTags()
    ensures "\nDTSTART:" == ['\n'] + "DTSTART:" && '\n' !in "DTSTART:"
    ensures "\nLOCATION:" == ['\n'] + "LOCATION:" && '\n' !in "LOCATION:"
    ensures "\nDESCRIPTION:" == ['\n'] + "DESCRIPTION:" && '\n' !in "DESCRIPTION:"
    ensures "\nURL:" == ['\n'] + "URL:" && '\n' !in "URL:"
    ensures "\nEND:VEVENT" == ['\n'] + "END:VEVENT" && '\n' !in "END:VEVENT"
  {
  }

  lemma WifiTags()
    ensures ";S:" == [';'] + "S:" && ';' !in "S:"
    ensures ";P:" == [';'] + "P:" && ';' !in "P:"
    ensures ";H:false" == [';'] + "H:false" && ';' !in "H:false"
    ensures ";" == [';'] + "" && ';' !in ""
  {
  }

  lemma StripHyphensLacks(s: string, c: char)
    requires c !in s
    ensures c !in StripHyphens(s)
  {
    FilterSpec(s, NotHyphen);
  }

  /** The event branch is a seven-line VEVENT block, whatever the form holds;
      the start date loses its hyphens. */
  lemma EventLines(data: FormData)
    requires Free(data, "eventName", '\n') && Free(data, "eventDate", '\n') && Free(data, "location", '\n')
    requires Free(data, "description", '\n') && Free(data, "rsvpUrl", '\n')
    ensures Split(Encode(EventsTicketing, data), '\n') == [
      "BEGIN:VEVENT",
      "SUMMARY:" + Or(data, "eventName", ""),
      "DTSTART:" + StripHyphens(Or(data, "eventDate", "")),
      "LOCATION:" + Or(data, "location", ""),
      "DESCRIPTION:" + Or(data, "description", ""),
      "URL:" + Or(data, "rsvpUrl", ""),
      "END:VEVENT"]
  {
    var nm, lo := Or(data, "eventName", ""), Or(data, "location", "");
    var ds, ur := Or(data, "description", ""), Or(data, "rsvpUrl", "");
    var dt := if Filled(data, "eventDate") then StripHyphens(data["eventDate"]) else "";
    assert dt == StripHyphens(Or(data, "eventDate", ""));
    FreeOr(data, "eventName", "", '\n');
    FreeOr(data, "eventDate", "", '\n');
    FreeOr(data, "location", "", '\n');
    FreeOr(data, "description", "", '\n');
    FreeOr(data, "rsvpUrl", "", '\n');
    StripHyphensLacks(Or(data, "eventDate", ""), '\n');
    assert Encode(EventsTicketing, data) ==
      "BEGIN:VEVENT\nSUMMARY:" + nm + "\nDTSTART:" + dt + "\nLOCATION:" + lo +
      "\nDESCRIPTION:" + ds + "\nURL:" + ur + "\nEND:VEVENT";
    EventBlock(nm, dt, lo, ds, ur);
  }

  /** The VEVENT template around five values without a line break. */
  lemma EventBlock(nm: string, dt: string, lo: string, ds: string, ur: string)
    requires '\n' !in nm && '\n' !in dt && '\n' !in lo && '\n' !in ds && '\n' !in ur
    ensures Split("BEGIN:VEVENT\nSUMMARY:" + nm + "\nDTSTART:" + dt + "\nLOCATION:" + lo +
      "\nDESCRIPTION:" + ds + "\nURL:" + ur + "\nEND:VEVENT", '\n') == [
      "BEGIN:VEVENT", "SUMMARY:" + nm, "DTSTART:" + dt, "LOCATION:" + lo,
      "DESCRIPTION:" + ds, "URL:" + ur, "END:VEVENT"]
  {
    EventTags();
    var t3 := "BEGIN:VEVENT\nSUMMARY:" + nm + "\nDTSTART:" + dt + "\nLOCATION:" + lo;
    var t4 := t3 + "\nDESCRIPTION:" + ds;
    var t5 := t4 + "\nURL:" + ur;
    EventOpening(nm, dt, lo);
    SplitAppendPiece(t3, "\nDESCRIPTION:", "DESCRIPTION:", ds, '\n');
    SplitAppendPiece(t4, "\nURL:", "URL:", ur, '\n');
    SplitAppendLast(t5, "\nEND:VEVENT", "END:VEVENT", '\n');
  }

  lemma EventOpening(nm: string, dt: string, lo: string)
    requires '\n' !in nm && '\n' !in dt && '\n' !in lo
    ensures Split("BEGIN:VEVENT\nSUMMARY:" + nm + "\nDTSTART:" + dt + "\nLOCATION:" + lo, '\n')
      == ["BEGIN:VEVENT", "SUMMARY:" + nm, "DTSTART:" + dt, "LOCATION:" + lo]
  {
    EventTags();
    var t1 := "BEGIN:VEVENT\nSUMMARY:" + nm;
    var t2 := t1 + "\nDTSTART:" + dt;
    assert Split(t1, '\n') == ["BEGIN:VEVENT", "SUMMARY:" + nm] by {
      var b, m := "BEGIN:VEVENT", "SUMMARY:";
      assert "BEGIN:VEVENT\nSUMMARY:" == b + (['\n'] + m);
      SplitHead(b, ['\n'] + m, m, nm, '\n');
    }
    SplitAppendPiece(t1, "\nDTSTART:", "DTSTART:", dt, '\n');
    SplitAppendPiece(t2, "\nLOCATION:", "LOCATION:", lo, '\n');
  }

  /** The start date of an event carries no hyphen. */
  lemma EventStartDate(data: FormData)
    ensures '-' !in StripHyphens(Or(data, "eventDate", ""))
  {
    FilterSpec(Or(data, "eventDate", ""), NotHyphen);
  }

  /** `2024-12-25` becomes the iCalendar basic date `20241225`. */
  lemma EventStartDateExample()
    ensures StripHyphens("2024-12-25") == "20241225"
  {
    var y, h, m, d := "2024", "-", "12", "25";
    DatePieces();
    assert Filter(y + h, NotHyphen) == y by {
      FilterAppend(y, h, NotHyphen);
    }
    assert Filter(y + h + m, NotHyphen) == y + m by {
      FilterAppend(y + h, m, NotHyphen);
    }
    assert Filter(y + h + m + h, NotHyphen) == y + m by {
      FilterAppend(y + h + m, h, NotHyphen);
    }
    assert Filter(y + h + m + h + d, NotHyphen) == y + m + d by {
      FilterAppend(y + h + m + h, d, NotHyphen);
    }
  }

  lemma DatePieces()
    ensures "2024-12-25" == "2024" + "-" + "12" + "-" + "25"
    ensures "2024" + "12" + "25" == "20241225"
    ensures Filter("-", NotHyphen) == []
    ensures Filter("2024", NotHyphen) == "2024"
    ensures Filter("12", NotHyphen) == "12"
    ensures Filter("25", NotHyphen) == "25"
  {
  }

  // ------------------------------------------------------------- WiFi string

  /** The `WIFI:` string is six `;`-separated fields, the security type
      defaulting to WPA2 and the network never hidden. */
  lemma WifiFields(data: FormData)
    requires Is(data, "authType", "WiFi")
    requires Free(data, "security", ';') && Free(data, "networkName", ';') && Free(data, "password", ';')
    ensures Split(Encode(WifiAuth, data), ';') == [
      "WIFI:T:" + Or(data, "security", "WPA2"),
      "S:" + Or(data, "networkName", ""),
      "P:" + Or(data, "password", ""),
      "H:false",
      "",
      ""]
  {
    var sec, nm, pw := Or(data, "security", "WPA2"), Or(data, "networkName", ""), Or(data, "password", "");
    FreeOr(data, "security", "WPA2", ';');
    FreeOr(data, "networkName", "", ';');
    FreeOr(data, "password", "", ';');
    assert Encode(WifiAuth, data) == "WIFI:T:" + sec + ";S:" + nm + ";P:" + pw + ";H:false;;";
    WifiBlock(sec, nm, pw);
  }

  /** The `WIFI:` template around three values without a `;`. */
  lemma WifiBlock(sec: string, nm: string, pw: string)
    requires ';' !in sec && ';' !in nm && ';' !in pw
    ensures Split("WIFI:T:" + sec + ";S:" + nm + ";P:" + pw + ";H:false;;", ';') ==
      ["WIFI:T:" + sec, "S:" + nm, "P:" + pw, "H:false", "", ""]
  {
    WifiTags();
    var t1 := "WIFI:T:" + sec;
    var t2 := t1 + ";S:" + nm;
    var t3 := t2 + ";P:" + pw;
    var t4 := t3 + ";H:false";
    var t5 := t4 + ";";
    assert t3 + ";H:false;;" == t5 + ";";
    assert Split(t1, ';') == [t1] by {
      assert ';' !in "WIFI:T:";
      SplitFree(t1, ';');
    }
    SplitAppendPiece(t1, ";S:", "S:", nm, ';');
    SplitAppendPiece(t2, ";P:", "P:", pw, ';');
    SplitAppendLast(t3, ";H:false", "H:false", ';');
    SplitAppendLast(t4, ";", "", ';');
    SplitAppendLast(t5, ";", "", ';');
  }

  // ------------------------------------------------------------------- URIs

  /** A URI `base?key<value>` whose value is percent-encoded: the query is the
      second `?`-separated part and its value decodes back to the text. */
  lemma OneQuery(base: string, lit: string, key: string, text: string)
    requires '?' !in base && lit == ['?'] + key && '?' !in key
    ensures var parts := Split(base + lit + EncodeURIComponent(text), '?');
      && parts == [base, key + EncodeURIComponent(text)]
      && DecodeURIComponent(parts[1][|key|..]) == Some(text)
  {
    var e := EncodeURIComponent(text);
    EncodedLacks(text, '?');
    SplitHead(base, lit, key, e, '?');
    assert (key + e)[|key|..] == e;
    DecodeEncode(text);
  }

  /** `sms:` carries the number before `?` and the message, recoverable, after `body=`. */
  lemma SmsUri(data: FormData)
    requires Is(data, "type", "SMS") && Free(data, "phone", '?')
    ensures var parts := Split(Encode(ContactCommunication, data), '?');
      && |parts| == 2
      && parts[0] == "sms:" + Or(data, "phone", "")
      && "body=" <= parts[1]
      && DecodeURIComponent(parts[1][5..]) == Some(Or(data, "message", ""))
  {
    FreeOr(data, "phone", "", '?');
    QueryKeys();
    OneQuery("sms:" + Or(data, "phone", ""), "?body=", "body=", Or(data, "message", ""));
  }

  /** `mailto:` carries the address before `?` and the message, recoverable, after `subject=`. */
  lemma MailtoUri(data: FormData)
    requires Is(data, "type", "Email") && Free(data, "email", '?')
    ensures var parts := Split(Encode(ContactCommunication, data), '?');
      && |parts| == 2
      && parts[0] == "mailto:" + Or(data, "email", "")
      && "subject=" <= parts[1]
      && DecodeURIComponent(parts[1][8..]) == Some(Or(data, "message", ""))
  {
    FreeOr(data, "email", "", '?');
    QueryKeys();
    OneQuery("mailto:" + Or(data, "email", ""), "?subject=", "subject=", Or(data, "message", ""));
  }

  /** The WhatsApp link: only the digits of the number follow `https://wa.me/`,
      and the message is recoverable from `text=`. */
  lemma WhatsAppLink(data: FormData)
    requires Is(data, "type", "WhatsApp")
    ensures var parts := Split(Encode(ContactCommunication, data), '?');
      && |parts| == 2
      && "https://wa.me/" <= parts[0]
      && (forall i :: 14 <= i < |parts[0]| ==> IsDigit(parts[0][i]))
      && "text=" <= parts[1]
      && DecodeURIComponent(parts[1][5..]) == Some(Or(data, "message", ""))
  {
    var digits := if "phone" in data then DigitsOnly(data["phone"]) else "";
    var message := Or(data, "message", "");
    assert forall i :: 0 <= i < |digits| ==> IsDigit(digits[i]) by {
      if "phone" in data {
        FilterSpec(data["phone"], IsDigit);
      }
    }
    var base := "https://wa.me/" + digits;
    assert Encode(ContactCommunication, data) == base + "?text=" + EncodeURIComponent(message);
    WhatsAppBase(digits);
    QueryKeys();
    OneQuery(base, "?text=", "text=", message);
  }

  /** `https://wa.me/` followed by digits holds no `?`, and its digits start at index 14. */
  lemma WhatsAppBase(digits: string)
    requires forall i :: 0 <= i < |digits| ==> IsDigit(digits[i])
    ensures var base := "https://wa.me/" + digits;
      && '?' !in base
      && forall i :: 14 <= i < |base| ==> IsDigit(base[i])
  {
    WhatsAppPrefix();
    var base := "https://wa.me/" + digits;
    assert forall i :: 14 <= i < |base| ==> base[i] == digits[i - 14];
    assert '?' !in digits by {
      assert forall i :: 0 <= i < |digits| ==> digits[i] != '?';
    }
  }

  lemma WhatsAppPrefix()
    ensures |"https://wa.me/"| == 14 && '?' !in "https://wa.me/"
  {
  }

  /** The query keys of the encoder's URIs, and the schemes before them. */
  lemma QueryKeys()
    ensures "?text=" == ['?'] + "text=" && '?' !in "text="
    ensures "?body=" == ['?'] + "body=" && '?' !in "body="
    ensures "?subject=" == ['?'] + "subject=" && '?' !in "subject="
    ensures "?q=" == ['?'] + "q=" && '?' !in "q="
    ensures '?' !in "sms:" && '?' !in "mailto:" && '?' !in "geo:" && '?' !in "https://maps.google.com/maps"
  {
  }

  /** The WhatsApp payload of a form holding a number and a message. */
  lemma WhatsAppPayload(phone: string, message: string)
    ensures Encode(ContactCommunication, map["type" := "WhatsApp", "phone" := phone, "message" := message])
      == "https://wa.me/" + DigitsOnly(phone) + "?text=" + EncodeURIComponent(message)
  {
    var data := map["type" := "WhatsApp", "phone" := phone, "message" := message];
    assert Is(data, "type", "WhatsApp") && !Is(data, "type", "vCard") && !Is(data, "type", "Phone");
    assert !Is(data, "type", "SMS") && !Is(data, "type", "Email");
    assert Or(data, "message", "") == message;
  }

  lemma KeepDigits(s: string)
    requires forall i :: 0 <= i < |s| ==> IsDigit(s[i])
    ensures DigitsOnly(s) == s
  {
    FilterSpec(s, IsDigit);
  }

  lemma {:induction false} DropNonDigits(s: string)
    requires forall i :: 0 <= i < |s| ==> !IsDigit(s[i])
    ensures DigitsOnly(s) == ""
  {
    if s != [] {
      assert forall i :: 0 <= i < |s| - 1 ==> s[1..][i] == s[i + 1];
      DropNonDigits(s[1..]);
    }
  }

  lemma DigitsOfAppend(a: string, b: string, da: string, db: string)
    requires DigitsOnly(a) == da && DigitsOnly(b) == db
    ensures DigitsOnly(a + b) == da + db
  {
    FilterAppend(a, b, IsDigit);
  }

  /** The number `+1 (234) 567-8900` with the message `hi` gives
      `https://wa.me/12345678900?text=hi`. */
  lemma WhatsAppExample()
    ensures DigitsOnly("+1 (234) 567-8900") == "12345678900"
    ensures "https://wa.me/" + DigitsOnly("+1 (234) 567-8900") + "?text=" + EncodeURIComponent("hi")
      == "https://wa.me/12345678900?text=hi"
  {
    var p1, p2, p3, p4 := "+1 (", "234) ", "567-", "8900";
    PhonePieces();
    DigitsOfAppend(p1, p2, "1", "234");
    DigitsOfAppend(p1 + p2, p3, "1" + "234", "567");
    DigitsOfAppend(p1 + p2 + p3, p4, "1" + "234" + "567", "8900");
    WhatsAppLiterals();
  }

  lemma PhonePieces()
    ensures "+1 (234) 567-8900" == "+1 (" + "234) " + "567-" + "8900"
    ensures DigitsOnly("+1 (") == "1"
    ensures DigitsOnly("234) ") == "234"
    ensures DigitsOnly("567-") == "567"
    ensures DigitsOnly("8900") == "8900"
  {
    CountryCodeDigits();
    AreaCodeDigits();
    ExchangeDigits();
    KeepDigits("8900");
  }

  lemma CountryCodeDigits()
    ensures DigitsOnly("+1 (") == "1"
  {
    DropNonDigits("+");
    KeepDigits("1");
    DropNonDigits(" (");
    DigitsOfAppend("+", "1", "", "1");
    DigitsOfAppend("+" + "1", " (", "1", "");
    assert "+" + "1" + " (" == "+1 (";
  }

  lemma AreaCodeDigits()
    ensures DigitsOnly("234) ") == "234"
  {
    KeepDigits("234");
    DropNonDigits(") ");
    DigitsOfAppend("234", ") ", "234", "");
    assert "234" + ") " == "234) ";
  }

  lemma ExchangeDigits()
    ensures DigitsOnly("567-") == "567"
  {
    KeepDigits("567");
    DropNonDigits("-");
    DigitsOfAppend("567", "-", "567", "");
    assert "567" + "-" == "567-";
  }

  lemma WhatsAppLiterals()
    ensures "1" + "234" + "567" + "8900" == "12345678900"
    ensures EncodeURIComponent("hi") == "hi"
    ensures "https://wa.me/" + "12345678900" + "?text=" + "hi" == "https://wa.me/12345678900?text=hi"
  {
  }

  /** Without a recipient the UPI link names the payee `undefined`, which is
      why the recipient is a required field. */
  lemma UpiWithoutRecipient(data: FormData)
    requires Is(data, "paymentType", "UPI") && "recipient" !in data
    ensures "upi://pay?pa=" + UNDEFINED + "&am=" <= Encode(PaymentsDonations, data)
  {
    var p := "upi://pay?pa=" + UNDEFINED + "&am=";
    var rest := Or(data, "amount", "") + "&cu=" + Or(data, "currency", "INR") +
      "&tn=" + EncodeURIComponent(Or(data, "note", ""));
    assert Encode(PaymentsDonations, data) == p + rest by {
      ConcatAssoc5(p, Or(data, "amount", ""), "&cu=", Or(data, "currency", "INR"),
        "&tn=", EncodeURIComponent(Or(data, "note", "")));
    }
    assert (p + rest)[..|p|] == p;
  }

  lemma ConcatAssoc5(p: string, a: string, b: string, c: string, d: string, e: string)
    ensures p + a + b + c + d + e == p + (a + b + c + d + e)
  {
  }

  /** The UPI deep link: `upi://pay`, then four `&`-separated query
      parameters; the currency defaults to INR and the note is recoverable. */
  lemma UpiUri(data: FormData)
    requires Is(data, "paymentType", "UPI")
    requires Free(data, "recipient", '?') && Free(data, "amount", '?') && Free(data, "currency", '?')
    requires Free(data, "recipient", '&') && Free(data, "amount", '&') && Free(data, "currency", '&')
    ensures var parts := Split(Encode(PaymentsDonations, data), '?');
      && |parts| == 2
      && parts[0] == "upi://pay"
      && var query := Split(parts[1], '&');
      && |query| == 4
      && query[0] == "pa=" + Interpolate(data, "recipient", UNDEFINED)
      && query[1] == "am=" + Or(data, "amount", "")
      && query[2] == "cu=" + Or(data, "currency", "INR")
      && "tn=" <= query[3]
      && DecodeURIComponent(query[3][3..]) == Some(Or(data, "note", ""))
  {
    var r, a, c := Interpolate(data, "recipient", UNDEFINED), Or(data, "amount", ""), Or(data, "currency", "INR");
    var n := Or(data, "note", "");
    FreeOr(data, "amount", "", '?');
    FreeOr(data, "amount", "", '&');
    FreeOr(data, "currency", "INR", '?');
    FreeOr(data, "currency", "INR", '&');
    assert '?' !in r && '&' !in r;
    assert Encode(PaymentsDonations, data) == "upi://pay?pa=" + r + "&am=" + a + "&cu=" + c + "&tn=" + EncodeURIComponent(n);
    UpiQuery(r, a, c, n);
  }

  /** The UPI template around four values free of `?` and `&`. */
  lemma UpiQuery(r: string, a: string, c: string, n: string)
    requires '?' !in r && '?' !in a && '?' !in c
    requires '&' !in r && '&' !in a && '&' !in c
    ensures var parts := Split("upi://pay?pa=" + r + "&am=" + a + "&cu=" + c + "&tn=" + EncodeURIComponent(n), '?');
      && |parts| == 2
      && parts[0] == "upi://pay"
      && var query := Split(parts[1], '&');
      && |query| == 4
      && query[0] == "pa=" + r && query[1] == "am=" + a && query[2] == "cu=" + c
      && "tn=" <= query[3]
      && DecodeURIComponent(query[3][3..]) == Some(n)
  {
    var e := EncodeURIComponent(n);
    EncodedLacks(n, '?');
    EncodedLacks(n, '&');
    UpiLinkParts(r, a, c, e);
    UpiQueryParts(r, a, c, e);
    assert ("tn=" + e)[3..] == e;
    DecodeEncode(n);
  }

  /** The UPI payload of a form holding all four properties; an empty
      amount is written empty, since `data.amount || ''` gives `''` then. */
  lemma UpiPayload(recipient: string, amount: string, currency: string, note: string)
    requires currency != ""
    ensures Encode(PaymentsDonations, map["paymentType" := "UPI", "recipient" := recipient, "amount" := amount,
      "currency" := currency, "note" := note])
      == "upi://pay?pa=" + recipient + "&am=" + amount + "&cu=" + currency + "&tn=" + EncodeURIComponent(note)
  {
    var data := map["paymentType" := "UPI", "recipient" := recipient, "amount" := amount,
      "currency" := currency, "note" := note];
    assert Is(data, "paymentType", "UPI");
    assert Or(data, "note", "") == note;
  }

  /** A note of unreserved characters is written as it is; a space in a
      note is written `%20`. */
  lemma UpiNoteExample()
    ensures EncodeURIComponent("gift") == "gift"
    ensures EncodeURIComponent("for you") == "for%20you"
  {
    UnreservedWord("gift");
    var f, y := "for", "you";
    assert "for you" == f + (" " + y);
    assert f + ("%20" + y) == "for%20you";
    SpacedWords(f, y);
  }

  lemma SpacedWords(f: string, y: string)
    requires forall i :: 0 <= i < |f| ==> IsUnreserved(f[i])
    requires forall i :: 0 <= i < |y| ==> IsUnreserved(y[i])
    ensures EncodeURIComponent(f + (" " + y)) == f + ("%20" + y)
  {
    assert EncodeURIComponent(f) == f && EncodeURIComponent(y) == y;
    assert EncodeURIComponent(" " + y) == "%20" + y by {
      SpaceEscape();
      EncodeAppend(" ", y);
    }
    EncodeAppend(f, " " + y);
  }

  // The words come in as parameters pinned by the precondition rather than
  // as literals in the ensures: the verifier then checks the literals once
  // here instead of in every larger proof that uses them.
  lemma UnreservedWord(g: string)
    requires g == "gift" || g == "for" || g == "you"
    ensures forall i :: 0 <= i < |g| ==> IsUnreserved(g[i])
  {
  }

  lemma SpaceEscape()
    ensures EncodeURIComponent(" ") == "%20"
  {
    assert Utf8(' ') == [32];
    assert Escape(32) == "%20";
    assert EscapeAll([32]) == "%20";
  }

  /** The UPI template splits at its one `?`. */
  lemma UpiLinkParts(r: string, a: string, c: string, e: string)
    requires '?' !in r && '?' !in a && '?' !in c && '?' !in e
    ensures Split("upi://pay?pa=" + r + "&am=" + a + "&cu=" + c + "&tn=" + e, '?')
      == ["upi://pay", "pa=" + r + "&am=" + a + "&cu=" + c + "&tn=" + e]
  {
    var q2 := "pa=" + r + "&am=" + a;
    var u2 := "upi://pay?pa=" + r + "&am=" + a;
    UpiAmount(r, a);
    QueryLiterals();
    ExtendSecond(u2, "upi://pay", q2, "&cu=", c, '?');
    ExtendSecond(u2 + "&cu=" + c, "upi://pay", q2 + "&cu=" + c, "&tn=", e, '?');
  }

  lemma QueryLiterals()
    ensures '?' !in "&am=" && '?' !in "&cu=" && '?' !in "&tn="
  {
  }

  lemma UpiAmount(r: string, a: string)
    requires '?' !in r && '?' !in a
    ensures Split("upi://pay?pa=" + r + "&am=" + a, '?') == ["upi://pay", "pa=" + r + "&am=" + a]
  {
    UpiHead(r);
    ExtendSecond("upi://pay?pa=" + r, "upi://pay", "pa=" + r, "&am=", a, '?');
  }

  lemma UpiHead(r: string)
    requires '?' !in r
    ensures Split("upi://pay?pa=" + r, '?') == ["upi://pay", "pa=" + r]
  {
    var b, k := "upi://pay", "pa=";
    UpiHeadLiteral();
    SplitHead(b, ['?'] + k, k, r, '?');
  }

  lemma UpiHeadLiteral()
    ensures "upi://pay?pa=" == "upi://pay" + (['?'] + "pa=")
  {
  }

  /** Text free of `sep` appended to a two-piece string extends its second piece. */
  lemma ExtendSecond(u: string, head: string, q: string, lit: string, v: string, sep: char)
    requires Split(u, sep) == [head, q] && sep !in lit && sep !in v
    ensures Split(u + lit + v, sep) == [head, q + lit + v]
  {
    SplitExtend(u, lit + v, sep);
    assert u + lit + v == u + (lit + v);
    assert q + lit + v == q + (lit + v);
  }

  /** The UPI query splits into its four parameters at `&`. */
  lemma UpiQueryParts(r: string, a: string, c: string, e: string)
    requires '&' !in r && '&' !in a && '&' !in c && '&' !in e
    ensures Split("pa=" + r + "&am=" + a + "&cu=" + c + "&tn=" + e, '&')
      == ["pa=" + r, "am=" + a, "cu=" + c, "tn=" + e]
  {
    var q1 := "pa=" + r;
    var q2 := q1 + "&am=" + a;
    var q3 := q2 + "&cu=" + c;
    assert Split(q1, '&') == [q1] by {
      SplitFree(q1, '&');
    }
    assert Split(q2, '&') == [q1, "am=" + a] by {
      SplitAppendPiece(q1, "&am=", "am=", a, '&');
    }
    assert Split(q3, '&') == [q1, "am=" + a, "cu=" + c] by {
      SplitAppendPiece(q2, "&cu=", "cu=", c, '&');
    }
    SplitAppendPiece(q3, "&tn=", "tn=", e, '&');
  }

  /** With coordinates, a `geo:` URI whose query decodes to the place's name
      and address; otherwise a Google Maps search for the address. */
  lemma LocationUri(data: FormData)
    requires Free(data, "coordinates", '?')
    ensures var parts := Split(Encode(LocationNavigation, data), '?');
      && |parts| == 2
      && "q=" <= parts[1]
      && (Filled(data, "coordinates") ==>
           && parts[0] == "geo:" + data["coordinates"]
           && DecodeURIComponent(parts[1][2..]) ==
                Some(Interpolate(data, "locationName", UNDEFINED) + ", " + Interpolate(data, "address", UNDEFINED)))
      && (!Filled(data, "coordinates") ==>
           && parts[0] == "https://maps.google.com/maps"
           && DecodeURIComponent(parts[1][2..]) == Some(Or(data, "address", "")))
  {
    QueryKeys();
    if Filled(data, "coordinates") {
      var place := Interpolate(data, "locationName", UNDEFINED) + ", " + Interpolate(data, "address", UNDEFINED);
      OneQuery("geo:" + data["coordinates"], "?q=", "q=", place);
    } else {
      assert "https://maps.google.com/maps?q=" == "https://maps.google.com/maps" + "?q=";
      OneQuery("https://maps.google.com/maps", "?q=", "q=", Or(data, "address", ""));
    }
  }

  // ------------------------------------------------- single-value payloads

  /** The link categories, and the sub-types without a template, hand one of
      the form's values to the QR code exactly as it was typed, falling back
      to a second value or to the empty payload. */
  lemma PassThroughPayloads(data: FormData)
    ensures Filled(data, "url") ==> Encode(WebsiteLinks, data) == data["url"]
    ensures Filled(data, "fileUrl") ==> Encode(DocumentsFiles, data) == data["fileUrl"]
    ensures Filled(data, "mediaUrl") ==> Encode(MediaEntertainment, data) == data["mediaUrl"]
    ensures !Filled(data, "url") ==> Encode(WebsiteLinks, data) == ""
    ensures !Filled(data, "fileUrl") ==> Encode(DocumentsFiles, data) == ""
    ensures !Filled(data, "mediaUrl") ==> Encode(MediaEntertainment, data) == ""
    ensures !Is(data, "paymentType", "UPI") ==>
      Encode(PaymentsDonations, data) == (if Filled(data, "recipient") then data["recipient"] else "")
    ensures !Is(data, "authType", "WiFi") ==>
      Encode(WifiAuth, data) == (if Filled(data, "loginUrl") then data["loginUrl"] else "")
    ensures !Is(data, "businessType", "Business Card") ==>
      Encode(BusinessMarketing, data) ==
        (if Filled(data, "website") then data["website"] else if Filled(data, "email") then data["email"] else "")
    ensures Encode(CreativeFun, data) ==
      (if Filled(data, "revealUrl") then data["revealUrl"] else if Filled(data, "content") then data["content"] else "")
  {
  }

  // --------------------------------------------------- required-field gate

  /** Every field the category marks required is filled in. */
  predicate RequiredFilled(c: Category, data: FormData)
  {
    forall f :: f in c.fields && f.required ==> Filled(data, f.name)
  }

  /** Once the category's required fields are filled, the text JavaScript
      writes for a missing property cannot reach the payload: the only
      interpolations without a fallback read required fields. */
  lemma NoMissingPropertyRendered(k: Kind, data: FormData, u1: string, u2: string)
    requires RequiredFilled(CategoryOf(k), data)
    ensures EncodeWith(k, data, u1) == EncodeWith(k, data, u2)
  {
    match k
    case PaymentsDonations =>
      RecipientFilled(data);
      RecipientInterpolated(data, u1, u2);
    case LocationNavigation =>
      PlaceFilled(data);
      PlaceInterpolated(data, u1, u2);
    case _ =>
      NoInterpolation(k, data, u1, u2);
  }

  lemma RecipientInterpolated(data: FormData, u1: string, u2: string)
    requires "recipient" in data
    ensures EncodeWith(PaymentsDonations, data, u1) == EncodeWith(PaymentsDonations, data, u2)
  {
  }

  lemma PlaceInterpolated(data: FormData, u1: string, u2: string)
    requires "locationName" in data && "address" in data
    ensures EncodeWith(LocationNavigation, data, u1) == EncodeWith(LocationNavigation, data, u2)
  {
  }

  /** The other eight cases write every property with a fallback. */
  lemma NoInterpolation(k: Kind, data: FormData, u1: string, u2: string)
    requires k != PaymentsDonations && k != LocationNavigation
    ensures EncodeWith(k, data, u1) == EncodeWith(k, data, u2)
  {
  }

  lemma RecipientFilled(data: FormData)
    requires RequiredFilled(PaymentsDonationsCategory, data)
    ensures "recipient" in data
  {
    UncoalescedFieldsRequired();
    var f := FieldNamed(PaymentsDonationsCategory, "recipient").value;
    assert f in PaymentsDonationsCategory.fields && f.required;
  }

  lemma PlaceFilled(data: FormData)
    requires RequiredFilled(LocationNavigationCategory, data)
    ensures "locationName" in data && "address" in data
  {
    UncoalescedFieldsRequired();
    var f := FieldNamed(LocationNavigationCategory, "locationName").value;
    var g := FieldNamed(LocationNavigationCategory, "address").value;
    assert f in LocationNavigationCategory.fields && f.required;
    assert g in LocationNavigationCategory.fields && g.required;
  }

  // ----------------------------------------------- contact form as declared

  /** The contact category declares no `name` and no `phone` field, so a form
      holding only declared fields leaves the vCard's FN and TEL lines empty,
      the `tel:` URI bare and the WhatsApp link without a number. */
  lemma ContactNameAndPhoneNeverSet(data: FormData)
    requires data.Keys <= FieldNameSet(ContactCommunicationCategory)
    ensures Or(data, "name", "") == "" && Or(data, "phone", "") == ""
    ensures Is(data, "type", "Phone") ==> Encode(ContactCommunication, data) == "tel:"
    ensures Is(data, "type", "WhatsApp") ==>
      Encode(ContactCommunication, data) == "https://wa.me/?text=" + EncodeURIComponent(Or(data, "message", ""))
    ensures Is(data, "type", "vCard") ==>
      Encode(ContactCommunication, data) == "BEGIN:VCARD\nVERSION:3.0\nFN:\nTEL:\nEMAIL:" + Or(data, "email", "") + "\nEND:VCARD"
  {
    ContactKeys(data);
    if Is(data, "type", "Phone") {
      BarePhoneUri(data);
    }
    if Is(data, "type", "WhatsApp") {
      BareWhatsAppLink(data);
    }
    if Is(data, "type", "vCard") {
      BareVCard(data);
    }
  }

  lemma BarePhoneUri(data: FormData)
    requires "phone" !in data && Is(data, "type", "Phone")
    ensures Encode(ContactCommunication, data) == "tel:"
  {
  }

  lemma BareWhatsAppLink(data: FormData)
    requires "phone" !in data && Is(data, "type", "WhatsApp")
    ensures Encode(ContactCommunication, data) == "https://wa.me/?text=" + EncodeURIComponent(Or(data, "message", ""))
  {
    assert "https://wa.me/" + "" + "?text=" == "https://wa.me/?text=" by {
      EmptyPieces();
    }
  }

  lemma BareVCard(data: FormData)
    requires "name" !in data && "phone" !in data && Is(data, "type", "vCard")
    ensures Encode(ContactCommunication, data) == "BEGIN:VCARD\nVERSION:3.0\nFN:\nTEL:\nEMAIL:" + Or(data, "email", "") + "\nEND:VCARD"
  {
    var h := "BEGIN:VCARD\nVERSION:3.0\nFN:";
    assert h + "" + "\nTEL:" + "" + "\nEMAIL:" == "BEGIN:VCARD\nVERSION:3.0\nFN:\nTEL:\nEMAIL:" by {
      EmptyPieces();
    }
  }

  lemma ContactKeys(data: FormData)
    requires data.Keys <= FieldNameSet(ContactCommunicationCategory)
    ensures "name" !in data && "phone" !in data
  {
    ContactLacksNameAndPhone();
  }

  lemma EmptyPieces()
    ensures "https://wa.me/" + "" + "?text=" == "https://wa.me/?text="
    ensures "BEGIN:VCARD\nVERSION:3.0\nFN:" + "" + "\nTEL:" + "" + "\nEMAIL:" == "BEGIN:VCARD\nVERSION:3.0\nFN:\nTEL:\nEMAIL:"
  {
  }
}
