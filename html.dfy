/**
 * The mail layout of Backend/mail/templates/layout.js: `escapeHtml`, a chain
 * of three global `replace` passes, and `layout`, one template literal that
 * puts the escaped title and the raw body into a fixed HTML frame.
 */
module Html {
  import opened Results

  /** `s.replace(/c/g, rep)`: every occurrence of `c` becomes `rep`. */
  function ReplaceAll(s: string, c: char, rep: string): string
    decreases |s|
  {
    if s == [] then [] else (if s[0] == c then rep else [s[0]]) + ReplaceAll(s[1..], c, rep)
  }

  lemma {:induction false} ReplaceAllAppend(a: string, b: string, c: char, rep: string)
    ensures ReplaceAll(a + b, c, rep) == ReplaceAll(a, c, rep) + ReplaceAll(b, c, rep)
    decreases |a|
  {
    if a != [] {
      assert (a + b)[1..] == a[1..] + b;
      ReplaceAllAppend(a[1..], b, c, rep);
    } else {
      assert a + b == b;
    }
  }

  /** The three passes in source order: `&` first, then `<`, then `>`. */
  function EscapeHtml(s: string): string
  {
    ReplaceAll(ReplaceAll(ReplaceAll(s, '&', "&amp;"), '<', "&lt;"), '>', "&gt;")
  }

  /** `escapeHtml(s = '')`: an absent argument is the empty string. */
  function EscapeHtmlArg(s: Option<string>): (r: string)
    ensures s.None? ==> r == ""
    ensures s.Some? ==> r == EscapeHtml(s.value)
  {
    match s
    case None => EscapeHtml("")
    case Some(v) => EscapeHtml(v)
  }

  /** Reference definition: each character is escaped on its own. */
  function EscapeChar(c: char): string
  {
    if c == '&' then "&amp;"
    else if c == '<' then "&lt;"
    else if c == '>' then "&gt;"
    else [c]
  }

  function EscapeEach(s: string): string
    decreases |s|
  {
    if s == [] then [] else EscapeChar(s[0]) + EscapeEach(s[1..])
  }

  /** The pass chain equals the one-character-at-a-time escape. */
  lemma {:induction false} EscapeHtmlPerChar(s: string)
    ensures EscapeHtml(s) == EscapeEach(s)
    decreases |s|
  {
    if s != [] {
      var c := s[0];
      assert s == [c] + s[1..];
      var r1 := ReplaceAll(s, '&', "&amp;");
      ReplaceAllAppend([c], s[1..], '&', "&amp;");
      var h1 := ReplaceAll([c], '&', "&amp;");
      var t1 := ReplaceAll(s[1..], '&', "&amp;");
      assert r1 == h1 + t1;
      ReplaceAllAppend(h1, t1, '<', "&lt;");
      var h2 := ReplaceAll(h1, '<', "&lt;");
      var t2 := ReplaceAll(t1, '<', "&lt;");
      ReplaceAllAppend(h2, t2, '>', "&gt;");
      var h3 := ReplaceAll(h2, '>', "&gt;");
      assert h3 == EscapeChar(c) by {
        if c == '&' {
          assert h1 == "&amp;";
          assert ReplaceAll("&amp;", '<', "&lt;") == "&amp;";
          assert ReplaceAll("&amp;", '>', "&gt;") == "&amp;";
        } else if c == '<' {
          assert h1 == "<";
          assert h2 == "&lt;";
          assert ReplaceAll("&lt;", '>', "&gt;") == "&lt;";
        } else if c == '>' {
          assert h1 == ">";
          assert h2 == ">";
        } else {
          assert h1 == [c];
          assert h2 == [c];
        }
      }
      EscapeHtmlPerChar(s[1..]);
    }
  }

  lemma {:induction false} EscapeEachHasNo(s: string, x: char)
    requires x == '<' || x == '>'
    ensures x !in EscapeEach(s)
    decreases |s|
  {
    if s != [] {
      EscapeEachHasNo(s[1..], x);
    }
  }

  /** No `<` or `>` survives escaping, so escaped text can never open or close a tag. */
  lemma EscapeHtmlHasNoAngles(s: string)
    ensures '<' !in EscapeHtml(s) && '>' !in EscapeHtml(s)
  {
    EscapeHtmlPerChar(s);
    EscapeEachHasNo(s, '<');
    EscapeEachHasNo(s, '>');
  }

  /** True when `r` at position `i` begins one of the three character references. */
  predicate BeginsReference(r: string, i: nat)
    requires i < |r|
  {
    || r[i..] [..Min(5, |r| - i)] == "&amp;"
    || r[i..] [..Min(4, |r| - i)] == "&lt;"
    || r[i..] [..Min(4, |r| - i)] == "&gt;"
  }

  function Min(a: int, b: int): int { if a < b then a else b }

  lemma {:induction false} EscapeEachAmpersands(s: string)
    ensures forall i :: 0 <= i < |EscapeEach(s)| && EscapeEach(s)[i] == '&' ==> BeginsReference(EscapeEach(s), i)
    decreases |s|
  {
    if s != [] {
      EscapeEachAmpersands(s[1..]);
      var h := EscapeChar(s[0]);
      var t := EscapeEach(s[1..]);
      var r := EscapeEach(s);
      assert r == h + t;
      forall i | 0 <= i < |r| && r[i] == '&'
        ensures BeginsReference(r, i)
      {
        if i < |h| {
          assert i == 0;
          assert r[i..] == h + t;
        } else {
          var j := i - |h|;
          assert r[i..] == t[j..];
          assert t[j] == '&';
          assert BeginsReference(t, j);
        }
      }
    }
  }

  /** `&` is replaced first: every `&` in the output begins `&amp;`, `&lt;` or `&gt;`. */
  lemma EscapeHtmlAmpersands(s: string)
    ensures forall i :: 0 <= i < |EscapeHtml(s)| && EscapeHtml(s)[i] == '&' ==> BeginsReference(EscapeHtml(s), i)
  {
    EscapeHtmlPerChar(s);
    EscapeEachAmpersands(s);
  }

  /** Because `&` goes first, a `<` becomes `&lt;`, not `&amp;lt;`. */
  lemma EscapeHtmlLtOnce()
    ensures EscapeHtml("<") == "&lt;"
  {
    EscapeHtmlPerChar("<");
    assert EscapeEach("<") == EscapeChar('<') + EscapeEach([]);
  }

  predicate Plain(s: string)
  {
    '&' !in s && '<' !in s && '>' !in s
  }

  /** Text with none of `&`, `<`, `>` (quotes included) is returned unchanged. */
  lemma {:induction false} EscapeHtmlPlain(s: string)
    requires Plain(s)
    ensures EscapeHtml(s) == s
    decreases |s|
  {
    EscapeHtmlPerChar(s);
    EscapeEachPlain(s);
  }

  lemma {:induction false} EscapeEachPlain(s: string)
    requires Plain(s)
    ensures EscapeEach(s) == s
    decreases |s|
  {
    if s != [] {
      assert s[0] in s;
      assert forall c :: c in s[1..] ==> c in s;
      EscapeEachPlain(s[1..]);
    }
  }

  /** Reads the three character references back; any other text passes through. */
  function Unescape(r: string): string
    decreases |r|
  {
    if r == [] then []
    else if |r| >= 5 && r[..5] == "&amp;" then "&" + Unescape(r[5..])
    else if |r| >= 4 && r[..4] == "&lt;" then "<" + Unescape(r[4..])
    else if |r| >= 4 && r[..4] == "&gt;" then ">" + Unescape(r[4..])
    else [r[0]] + Unescape(r[1..])
  }

  /** Escaping is lossless: unescaping the output gives the input back. */
  lemma {:induction false} UnescapeEscapeHtml(s: string)
    ensures Unescape(EscapeHtml(s)) == s
  {
    EscapeHtmlPerChar(s);
    UnescapeEscapeEach(s);
  }

  lemma {:induction false} UnescapeEscapeEach(s: string)
    ensures Unescape(EscapeEach(s)) == s
    decreases |s|
  {
    if s != [] {
      var c := s[0];
      var t := EscapeEach(s[1..]);
      var r := EscapeChar(c) + t;
      assert EscapeEach(s) == r;
      UnescapeEscapeEach(s[1..]);
      if c == '&' {
        assert r[..5] == "&amp;" && r[5..] == t;
      } else if c == '<' {
        assert r[..4] == "&lt;" && r[4..] == t;
        assert !(|r| >= 5 && r[..5] == "&amp;") by { assert r[1] == 'l'; }
      } else if c == '>' {
        assert r[..4] == "&gt;" && r[4..] == t;
        assert !(|r| >= 5 && r[..5] == "&amp;") by { assert r[1] == 'g'; }
        assert r[..4] != "&lt;" by { assert r[1] == 'g'; }
      } else {
        assert r[0] == c && r[1..] == t;
      }
      assert s == [c] + s[1..];
    }
  }

  /** Distinct inputs escape to distinct outputs. */
  lemma EscapeHtmlInjective(a: string, b: string)
    requires EscapeHtml(a) == EscapeHtml(b)
    ensures a == b
  {
    UnescapeEscapeHtml(a);
    UnescapeEscapeHtml(b);
  }

  /** The fixed text of a template literal around its two holes. */
  datatype Frame = Frame(head: string, middle: string, tail: string)

  /** The text of the `layout` template literal, cut at the title and the body. */
  const MailFrame: Frame := Frame(LayoutHead, LayoutMiddle, LayoutTail)

  const LayoutHead: string :=
    "<!doctype html>\n<html>\n<head>\n<meta charset=\"utf-8\" />\n" +
    "<meta name=\"viewport\" content=\"width=device-width,initial-scale=1\" />\n<title>"
  const LayoutMiddle: string :=
    "</title>\n</head>\n" +
    "<body style=\"margin:0;background:#0b1320;color:#e5e7eb;font-family:system-ui,-apple-system,Segoe UI,Roboto,Arial,sans-serif;\">\n" +
    "  <div style=\"max-width:640px;margin:0 auto;padding:24px;\">\n" +
    "    <div style=\"background:linear-gradient(180deg,#121b2e,#0b1320);border:1px solid rgba(148,163,184,.18);border-radius:16px;padding:20px;\">\n" +
    "      <div style=\"display:flex;align-items:center;gap:12px;margin-bottom:10px;\">\n" +
    "        <div style=\"width:10px;height:10px;border-radius:50%;background:#7c3aed\"></div>\n" +
    "        <h1 style=\"font-size:18px;margin:0;color:#fff;\">CryptoTradingX</h1>\n" +
    "      </div>\n      "
  const LayoutTail: string :=
    "\n      <p style=\"margin-top:22px;font-size:12px;color:#94a3b8\">\n" +
    "        This is an automated message from CryptoTradingX. If you did not initiate this action, please contact support.\n" +
    "      </p>\n    </div>\n  </div>\n</body>\n</html>"

  /**
   * `layout({ title, bodyHtml })` with the fixed text of `f`; the source's
   * layout is `Layout(MailFrame, title, bodyHtml)`.
   */
  function Layout(f: Frame, title: Option<string>, bodyHtml: string): (page: string)
    ensures |page| == |f.head| + |EscapeHtmlArg(title)| + |f.middle| + |bodyHtml| + |f.tail|
  {
    f.head + EscapeHtmlArg(title) + f.middle + bodyHtml + f.tail
  }

  lemma Pieces(a: string, e: string, m: string, b: string, t: string)
    ensures var page := a + e + m + b + t;
            var i := |a|;
            var j := i + |e| + |m|;
            && page[..i] == a
            && page[i..i + |e|] == e
            && page[i + |e|..j] == m
            && page[j..j + |b|] == b
            && page[j + |b|..] == t
  {
  }

  /**
   * The title appears only escaped, right after `<title>`, and contains no
   * `<`, so the element cannot be closed or broken out of by the title; the
   * body is embedded verbatim after the fixed header block.
   */
  lemma LayoutHoles(f: Frame, title: Option<string>, bodyHtml: string)
    ensures var page := Layout(f, title, bodyHtml);
            var e := EscapeHtmlArg(title);
            var i := |f.head|;
            var j := i + |e| + |f.middle|;
            && page[..i] == f.head
            && page[i..i + |e|] == e
            && '<' !in page[i..i + |e|]
            && page[i + |e|..j] == f.middle
            && page[j..j + |bodyHtml|] == bodyHtml
            && page[j + |bodyHtml|..] == f.tail
  {
    var e := EscapeHtmlArg(title);
    match title {
      case None => EscapeHtmlHasNoAngles("");
      case Some(v) => EscapeHtmlHasNoAngles(v);
    }
    Pieces(f.head, e, f.middle, bodyHtml, f.tail);
  }
}
