/**
 * The string and array operations of JavaScript that the QR generator uses:
 * `filter`, `split`/`join` on one character, `replace` with the character
 * classes `[^0-9]`, `-` and `\s+`, ASCII `toLowerCase`, and the decimal text
 * of a non-negative integer.
 */
module Strings {

  /** The elements of `s` that satisfy `keep`, in their original order
      (`Array.prototype.filter`; on a string, `replace` of a one-character
      class by the empty string). */
  function Filter<T>(s: seq<T>, keep: T -> bool): (r: seq<T>)
    ensures |r| <= |s|
  {
    if s == [] then []
    else if keep(s[0]) then [s[0]] + Filter(s[1..], keep)
    else Filter(s[1..], keep)
  }

  /** What `Filter` keeps: exactly the elements of `s` that satisfy `keep`,
      and all of `s` when every element does. */
  lemma {:induction false} FilterSpec<T(!new)>(s: seq<T>, keep: T -> bool)
    ensures forall i :: 0 <= i < |Filter(s, keep)| ==> keep(Filter(s, keep)[i])
    ensures forall x :: x in Filter(s, keep) <==> x in s && keep(x)
    ensures (forall i :: 0 <= i < |s| ==> keep(s[i])) ==> Filter(s, keep) == s
  {
    if s != [] {
      FilterSpec(s[1..], keep);
      assert s == [s[0]] + s[1..];
      assert forall i :: 1 <= i < |s| ==> s[i] == s[1..][i - 1];
    }
  }

  /** Filtering distributes over concatenation, so `Filter` keeps the order of `s`. */
  lemma {:induction false} FilterAppend<T(!new)>(a: seq<T>, b: seq<T>, keep: T -> bool)
    ensures Filter(a + b, keep) == Filter(a, keep) + Filter(b, keep)
  {
    if a == [] {
      assert a + b == b;
    } else {
      assert (a + b)[1..] == a[1..] + b;
      FilterAppend(a[1..], b, keep);
    }
  }

  /** Filtering by `p` and then by `q` is filtering once by both. */
  lemma {:induction false} FilterFilter<T(!new)>(s: seq<T>, p: T -> bool, q: T -> bool, pq: T -> bool)
    requires forall x :: pq(x) == (p(x) && q(x))
    ensures Filter(Filter(s, p), q) == Filter(s, pq)
  {
    if s != [] {
      FilterFilter(s[1..], p, q, pq);
    }
  }

  /** The elements of `s` that do not satisfy `keep` put after those that do
      give back every element of `s`, each as often as before. */
  lemma {:induction false} FilterPartition<T(!new)>(s: seq<T>, keep: T -> bool, drop: T -> bool)
    requires forall x :: drop(x) == !keep(x)
    ensures multiset(Filter(s, keep) + Filter(s, drop)) == multiset(s)
    ensures |Filter(s, keep)| + |Filter(s, drop)| == |s|
  {
    if s != [] {
      FilterPartition(s[1..], keep, drop);
      assert s == [s[0]] + s[1..];
    }
  }

  predicate IsDigit(c: char) { '0' <= c <= '9' }

  /** `s.replace(/[^0-9]/g, '')`: every character that is not an ASCII digit removed. */
  function DigitsOnly(s: string): string
  {
    Filter(s, IsDigit)
  }

  predicate NotHyphen(c: char) { c != '-' }

  /** `s.replace(/-/g, '')`: every hyphen removed. */
  function StripHyphens(s: string): string
  {
    Filter(s, NotHyphen)
  }

  /** `parts.join(sep)`. */
  function Join(parts: seq<string>, sep: char): string
  {
    if |parts| == 0 then ""
    else if |parts| == 1 then parts[0]
    else parts[0] + [sep] + Join(parts[1..], sep)
  }

  /** `s.split(sep)`: the pieces of `s` between the occurrences of `sep`.
      `SplitPieces` states what the pieces are. */
  function Split(s: string, sep: char): (r: seq<string>)
    ensures |r| >= 1
  {
    if s == [] then [""]
    else
      var rest := Split(s[1..], sep);
      if s[0] == sep then
        [""] + rest
      else
        assert s == [s[0]] + s[1..];
        [[s[0]] + rest[0]] + rest[1..]
  }

  /** The pieces hold no separator, joining them gives back `s`, and the
      first is the longest prefix of `s` free of `sep`. */
  lemma {:induction false} SplitPieces(s: string, sep: char)
    ensures var r := Split(s, sep);
      && (forall i :: 0 <= i < |r| ==> sep !in r[i])
      && Join(r, sep) == s
      && r[0] <= s && (|r[0]| == |s| || s[|r[0]|] == sep)
  {
    if s != [] {
      var rest := Split(s[1..], sep);
      SplitPieces(s[1..], sep);
      assert s == [s[0]] + s[1..];
      if s[0] == sep {
        assert Split(s, sep) == [""] + rest;
        assert ([""] + rest)[1..] == rest;
      } else {
        var r := Split(s, sep);
        assert r == [[s[0]] + rest[0]] + rest[1..];
        assert r[1..] == rest[1..];
        if |rest| > 1 {
          assert rest == [rest[0]] + rest[1..];
        }
      }
    }
  }

  /** Splitting a string that starts with a `sep`-free piece `a`. */
  lemma {:induction false} SplitPrefix(a: string, t: string, sep: char)
    requires sep !in a
    ensures Split(a + t, sep) == [a + Split(t, sep)[0]] + Split(t, sep)[1..]
  {
    var st := Split(t, sep);
    if a == [] {
      assert a + t == t;
      assert a + st[0] == st[0];
      assert [st[0]] + st[1..] == st;
    } else {
      var u := a + t;
      assert u[0] == a[0] && u[0] != sep;
      assert u[1..] == a[1..] + t;
      SplitPrefix(a[1..], t, sep);
      var su := Split(u[1..], sep);
      assert su == [a[1..] + st[0]] + st[1..];
      assert Split(u, sep) == [[u[0]] + su[0]] + su[1..];
      assert [a[0]] + (a[1..] + st[0]) == a + st[0];
    }
  }

  /** A string free of `sep` is one piece. */
  lemma SplitFree(s: string, sep: char)
    requires sep !in s
    ensures Split(s, sep) == [s]
  {
    SplitPrefix(s, "", sep);
    assert s + "" == s;
  }

  /** Appending a separator and a `sep`-free piece appends that piece. */
  lemma {:induction false} SplitSnoc(p: string, q: string, sep: char)
    requires sep !in q
    ensures Split(p + [sep] + q, sep) == Split(p, sep) + [q]
  {
    var u := p + [sep] + q;
    if p == [] {
      assert u == [sep] + q;
      assert u[1..] == q;
      SplitFree(q, sep);
    } else {
      assert u[0] == p[0];
      assert u[1..] == p[1..] + [sep] + q;
      SplitSnoc(p[1..], q, sep);
      var sp := Split(p[1..], sep);
      var su := Split(u[1..], sep);
      assert su == sp + [q];
      if p[0] != sep {
        assert su[0] == sp[0];
        assert su[1..] == sp[1..] + [q];
        assert Split(u, sep) == [[p[0]] + sp[0]] + (sp[1..] + [q]);
        assert Split(p, sep) == [[p[0]] + sp[0]] + sp[1..];
      }
    }
  }

  /** A template that goes on with the literal `lit`, a separator followed by
      `tag`, and a `sep`-free value `v`, gains the piece `tag + v`. */
  lemma SplitAppendPiece(t: string, lit: string, tag: string, v: string, sep: char)
    requires lit == [sep] + tag && sep !in tag && sep !in v
    ensures Split(t + lit + v, sep) == Split(t, sep) + [tag + v]
  {
    assert t + lit + v == t + [sep] + (tag + v);
    SplitSnoc(t, tag + v, sep);
  }

  /** A `sep`-free head, then the literal `lit` and a value: two pieces. */
  lemma SplitHead(head: string, lit: string, tag: string, v: string, sep: char)
    requires sep !in head && lit == [sep] + tag && sep !in tag && sep !in v
    ensures Split(head + lit + v, sep) == [head, tag + v]
  {
    SplitFree(head, sep);
    SplitAppendPiece(head, lit, tag, v, sep);
  }

  /** A template that ends with the literal `lit`, a separator followed by
      `tag`, gains the piece `tag`. */
  lemma SplitAppendLast(t: string, lit: string, tag: string, sep: char)
    requires lit == [sep] + tag && sep !in tag
    ensures Split(t + lit, sep) == Split(t, sep) + [tag]
  {
    assert t + lit == t + [sep] + tag;
    SplitSnoc(t, tag, sep);
  }

  /** Appending text to a join appends it to the last part. */
  lemma {:induction false} JoinExtend(parts: seq<string>, q: string, sep: char)
    requires |parts| >= 1
    ensures Join(parts, sep) + q == Join(parts[..|parts| - 1] + [parts[|parts| - 1] + q], sep)
  {
    var n := |parts|;
    var ext := parts[..n - 1] + [parts[n - 1] + q];
    if n > 1 {
      var tail := parts[1..];
      JoinExtend(tail, q, sep);
      assert ext[0] == parts[0];
      assert ext[1..] == tail[..n - 2] + [tail[n - 2] + q];
      assert Join(parts, sep) + q == parts[0] + [sep] + (Join(tail, sep) + q);
    }
  }

  /** Appending `sep`-free text extends the last piece. */
  lemma SplitExtend(p: string, q: string, sep: char)
    requires sep !in q
    ensures var sp := Split(p, sep); Split(p + q, sep) == sp[..|sp| - 1] + [sp[|sp| - 1] + q]
  {
    var sp := Split(p, sep);
    var n := |sp|;
    var ext := sp[..n - 1] + [sp[n - 1] + q];
    SplitPieces(p, sep);
    JoinExtend(sp, q, sep);
    assert forall i :: 0 <= i < n - 1 ==> ext[i] == sp[i];
    SplitJoin(ext, sep);
  }

  /** A `sep`-free head, a literal piece, then a literal and a value: three pieces. */
  lemma SplitHead2(head: string, lit1: string, tag1: string, lit2: string, tag2: string, v: string, sep: char)
    requires sep !in head && lit1 == [sep] + tag1 && sep !in tag1
    requires lit2 == [sep] + tag2 && sep !in tag2 && sep !in v
    ensures Split(head + lit1 + lit2 + v, sep) == [head, tag1, tag2 + v]
  {
    SplitFree(head, sep);
    SplitAppendLast(head, lit1, tag1, sep);
    SplitAppendPiece(head + lit1, lit2, tag2, v, sep);
  }

  /** Splitting undoes joining when no piece contains the separator. */
  lemma {:induction false} SplitJoin(parts: seq<string>, sep: char)
    requires |parts| >= 1
    requires forall i :: 0 <= i < |parts| ==> sep !in parts[i]
    ensures Split(Join(parts, sep), sep) == parts
  {
    if |parts| == 1 {
      SplitPrefix(parts[0], "", sep);
      assert parts[0] + "" == parts[0];
    } else {
      var tail := Join(parts[1..], sep);
      SplitJoin(parts[1..], sep);
      SplitPrefix(parts[0], [sep] + tail, sep);
      assert parts[0] + [sep] + tail == parts[0] + ([sep] + tail);
      assert ([sep] + tail)[1..] == tail;
      assert Split([sep] + tail, sep) == [""] + Split(tail, sep);
      assert parts[0] + "" == parts[0];
      assert parts == [parts[0]] + parts[1..];
    }
  }

  /** The characters JavaScript's regular-expression class `\s` matches:
      the ECMAScript WhiteSpace and LineTerminator code points. */
  predicate IsJsWhitespace(c: char)
  {
    var v := c as int;
    (0x09 <= v <= 0x0D) || v == 0x20 || v == 0xA0 || v == 0x1680 ||
    (0x2000 <= v <= 0x200A) || v == 0x2028 || v == 0x2029 || v == 0x202F ||
    v == 0x205F || v == 0x3000 || v == 0xFEFF
  }

  /** `s` without its leading run of whitespace. `TrimStartSpec` states
      what is removed. */
  function TrimStartWhitespace(s: string): (r: string)
    ensures |r| <= |s|
  {
    if s != [] && IsJsWhitespace(s[0]) then TrimStartWhitespace(s[1..]) else s
  }

  /** Trimming removes a prefix made only of whitespace and stops at the
      first other character. */
  lemma {:induction false} TrimStartSpec(s: string)
    ensures var r := TrimStartWhitespace(s);
      && r == s[|s| - |r|..]
      && (r == [] || !IsJsWhitespace(r[0]))
      && (forall i :: 0 <= i < |s| - |r| ==> IsJsWhitespace(s[i]))
  {
    if s != [] && IsJsWhitespace(s[0]) {
      TrimStartSpec(s[1..]);
    }
  }

  /** `s.replace(/\s+/g, '-')`: every maximal run of whitespace replaced by
      one hyphen. `HyphenateSpec` and `HyphenateChars` state what it gives. */
  function HyphenateWhitespace(s: string): string
    decreases |s|
  {
    if s == [] then []
    else if IsJsWhitespace(s[0]) then "-" + HyphenateWhitespace(TrimStartWhitespace(s[1..]))
    else [s[0]] + HyphenateWhitespace(s[1..])
  }

  /** The result holds no whitespace, and a string without whitespace is
      left as it is. */
  lemma {:induction false} HyphenateSpec(s: string)
    ensures forall i :: 0 <= i < |HyphenateWhitespace(s)| ==> !IsJsWhitespace(HyphenateWhitespace(s)[i])
    ensures (forall i :: 0 <= i < |s| ==> !IsJsWhitespace(s[i])) ==> HyphenateWhitespace(s) == s
    decreases |s|
  {
    if s != [] {
      var r := HyphenateWhitespace(s);
      if IsJsWhitespace(s[0]) {
        var t := TrimStartWhitespace(s[1..]);
        HyphenateSpec(t);
        assert r == "-" + HyphenateWhitespace(t);
        assert forall i :: 1 <= i < |r| ==> r[i] == HyphenateWhitespace(t)[i - 1];
      } else {
        HyphenateSpec(s[1..]);
        assert r == [s[0]] + HyphenateWhitespace(s[1..]);
        assert forall i :: 1 <= i < |r| ==> r[i] == HyphenateWhitespace(s[1..])[i - 1];
        assert s == [s[0]] + s[1..];
      }
    }
  }

  /** Trimming text that starts with a run of whitespace and goes on with
      a character that is not whitespace leaves exactly that text. */
  lemma {:induction false} TrimRun(ws: string, t: string)
    requires forall i :: 0 <= i < |ws| ==> IsJsWhitespace(ws[i])
    requires t == [] || !IsJsWhitespace(t[0])
    ensures TrimStartWhitespace(ws + t) == t
    decreases |ws|
  {
    if ws == [] {
      assert ws + t == t;
    } else {
      assert (ws + t)[1..] == ws[1..] + t;
      TrimRun(ws[1..], t);
    }
  }

  /** Each maximal run of whitespace becomes exactly one hyphen: a word
      without whitespace, a non-empty run of whitespace, and text that does
      not start with whitespace give the word, one hyphen, and the rest
      hyphenated. */
  lemma {:induction false} HyphenateRun(w: string, ws: string, t: string)
    requires forall i :: 0 <= i < |w| ==> !IsJsWhitespace(w[i])
    requires ws != [] && forall i :: 0 <= i < |ws| ==> IsJsWhitespace(ws[i])
    requires t == [] || !IsJsWhitespace(t[0])
    ensures HyphenateWhitespace(w + ws + t) == w + "-" + HyphenateWhitespace(t)
    decreases |w|
  {
    var u := w + ws + t;
    if w == [] {
      assert u == ws + t && u[0] == ws[0];
      assert u[1..] == ws[1..] + t;
      TrimRun(ws[1..], t);
    } else {
      assert u[0] == w[0] && u[1..] == w[1..] + ws + t;
      HyphenateRun(w[1..], ws, t);
      assert w == [w[0]] + w[1..];
    }
  }

  /** Every character `s.replace(/\s+/g, '-')` writes is a hyphen or a character of `s`. */
  lemma {:induction false} HyphenateChars(s: string)
    ensures forall i :: 0 <= i < |HyphenateWhitespace(s)| ==>
      HyphenateWhitespace(s)[i] == '-' || HyphenateWhitespace(s)[i] in s
    decreases |s|
  {
    if s != [] {
      var r := HyphenateWhitespace(s);
      if IsJsWhitespace(s[0]) {
        var t := TrimStartWhitespace(s[1..]);
        HyphenateChars(t);
        TrimStartSpec(s[1..]);
        assert forall c :: c in t ==> c in s[1..];
        assert r == "-" + HyphenateWhitespace(t);
        assert forall i :: 1 <= i < |r| ==> r[i] == HyphenateWhitespace(t)[i - 1];
      } else {
        HyphenateChars(s[1..]);
        assert r == [s[0]] + HyphenateWhitespace(s[1..]);
        assert forall i :: 1 <= i < |r| ==> r[i] == HyphenateWhitespace(s[1..])[i - 1];
      }
    }
  }

  /** `c.toLowerCase()` for an ASCII letter; every other character is left as it is. */
  function ToLowerAscii(c: char): char
  {
    if 'A' <= c <= 'Z' then (c as int - 'A' as int + 'a' as int) as char else c
  }

  function ToLower(s: string): (r: string)
    ensures |r| == |s|
    ensures forall i :: 0 <= i < |s| ==> r[i] == ToLowerAscii(s[i])
    ensures forall i :: 0 <= i < |r| ==> !('A' <= r[i] <= 'Z')
  {
    if s == [] then [] else [ToLowerAscii(s[0])] + ToLower(s[1..])
  }

  function DigitChar(d: nat): char
    requires d < 10
  {
    ('0' as int + d) as char
  }

  /** `String(n)` for a non-negative integer: its decimal digits, most significant first, no leading zero. */
  function NatToDecimal(n: nat): (r: string)
    ensures |r| >= 1
    ensures forall i :: 0 <= i < |r| ==> IsDigit(r[i])
    ensures |r| > 1 ==> r[0] != '0'
  {
    if n < 10 then [DigitChar(n)] else NatToDecimal(n / 10) + [DigitChar(n % 10)]
  }

  /** The number a string of decimal digits denotes. */
  function DecimalValue(s: string): nat
    requires forall i :: 0 <= i < |s| ==> IsDigit(s[i])
  {
    if s == [] then 0
    else
      assert IsDigit(s[|s| - 1]);
      DecimalValue(s[..|s| - 1]) * 10 + (s[|s| - 1] as int - '0' as int)
  }

  /** The decimal text names the number it was made from. */
  lemma {:induction false} DecimalRoundTrip(n: nat)
    ensures DecimalValue(NatToDecimal(n)) == n
  {
    var r := NatToDecimal(n);
    if n >= 10 {
      DecimalRoundTrip(n / 10);
      assert r[..|r| - 1] == NatToDecimal(n / 10);
    }
  }
}
