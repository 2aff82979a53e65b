/**
 The JSON-to-Netscape cookie converter: each exported browser cookie becomes one
 line of seven tab-separated fields under the `# Netscape HTTP Cookie File`
 header. Reading `cookies.json` and writing `cookies.txt` are outside the model;
 what remains is the pure serialiser, together with a reader for the format it
 writes, and the proof that the reader recovers every cookie in order.
 */
module Cookies {
  import opened Wrappers
  import opened Text

  /** One record of the JSON export; `expirationDate` is already truncated to an integer. */
  datatype Cookie = Cookie(
    domain: string,
    path: string,
    secure: bool,
    expirationDate: Option<int>,
    name: string,
    value: string)

  const Header: string := "# Netscape HTTP Cookie File"

  function Flag(b: bool): string {
    if b then "TRUE" else "FALSE"
  }

  predicate StartsWithDot(domain: string) {
    |domain| > 0 && domain[0] == '.'
  }

  /** The expiration written for a cookie: 0 for a session cookie without `expirationDate`. */
  function Expiration(c: Cookie): int {
    c.expirationDate.GetOr(0)
  }

  /** The line written for one cookie, newline included, field by field as the converter formats it. */
  function CookieLine(c: Cookie): string {
    c.domain + "\t" + Flag(StartsWithDot(c.domain)) + "\t" + c.path + "\t" + Flag(c.secure) + "\t"
    + IntToString(Expiration(c)) + "\t" + c.name + "\t" + c.value + "\n"
  }

  function CookieLines(cs: seq<Cookie>): string {
    if |cs| == 0 then "" else CookieLine(cs[0]) + CookieLines(cs[1..])
  }

  /** The whole file: the header, a blank line, then one line per cookie. */
  function CookiesTxt(cs: seq<Cookie>): string {
    Header + "\n\n" + CookieLines(cs)
  }

  /** Whatever the cookies, the file opens with the header line and a blank line. */
  lemma StartsWithHeader(cs: seq<Cookie>)
    ensures |CookiesTxt(cs)| >= |Header| + 2
    ensures CookiesTxt(cs)[..|Header| + 2] == Header + "\n\n"
  {
    PrefixOfConcat(Header + "\n\n", CookieLines(cs));
  }

  lemma PrefixOfConcat(a: string, b: string)
    ensures (a + b)[..|a|] == a
  {
  }

  /** The seven fields of one line, in file order. */
  function Fields(c: Cookie): seq<string> {
    [c.domain, Flag(StartsWithDot(c.domain)), c.path, Flag(c.secure),
     IntToString(Expiration(c)), c.name, c.value]
  }

  /** What a reader of the Netscape format learns from one line. */
  datatype Entry = Entry(
    domain: string,
    includeSubdomains: bool,
    path: string,
    secure: bool,
    expires: int,
    name: string,
    value: string)

  /** The entry a cookie is meant to become. */
  function EntryOf(c: Cookie): Entry {
    Entry(c.domain, StartsWithDot(c.domain), c.path, c.secure, Expiration(c), c.name, c.value)
  }

  /** The entries of a sequence of cookies, one per cookie, in order. */
  function Entries(cs: seq<Cookie>): (es: seq<Entry>)
    ensures |es| == |cs|
    ensures forall i :: 0 <= i < |cs| ==> es[i] == EntryOf(cs[i])
  {
    if |cs| == 0 then [] else [EntryOf(cs[0])] + Entries(cs[1..])
  }

  function ParseFlag(s: string): Option<bool> {
    if s == "TRUE" then Some(true) else if s == "FALSE" then Some(false) else None
  }

  /** Reads one line (without its newline): exactly seven fields, two flags and an integer. */
  function ParseLine(line: string): Option<Entry> {
    var f := Split(line, '\t');
    if |f| != 7 then None
    else match (ParseFlag(f[1]), ParseFlag(f[3]), ParseInt(f[4]))
      case (Some(sub), Some(sec), Some(exp)) => Some(Entry(f[0], sub, f[2], sec, exp, f[5], f[6]))
      case _ => None
  }

  function ParseLines(lines: seq<string>): Option<seq<Entry>> {
    if |lines| == 0 then Some([])
    else match (ParseLine(lines[0]), ParseLines(lines[1..]))
      case (Some(e), Some(es)) => Some([e] + es)
      case _ => None
  }

  /** Reads a whole file: header, blank line, the entry lines, and the empty remainder after the last newline. */
  function ReadCookieFile(text: string): Option<seq<Entry>> {
    var lines := Split(text, '\n');
    if |lines| < 3 || lines[0] != Header || lines[1] != "" || lines[|lines| - 1] != "" then None
    else ParseLines(lines[2..|lines| - 1])
  }

  /** A cookie whose free-text fields hold no newline, so it is written as exactly one line. */
  predicate NoNewline(c: Cookie) {
    '\n' !in c.domain && '\n' !in c.path && '\n' !in c.name && '\n' !in c.value
  }

  /** A cookie whose free-text fields hold no tab or newline either, so its line has seven fields. */
  predicate Clean(c: Cookie) {
    && NoNewline(c)
    && '\t' !in c.domain && '\t' !in c.path && '\t' !in c.name && '\t' !in c.value
  }

  lemma {:induction false} JoinSeven(a: string, b: string, c: string, d: string, e: string, f: string, g: string, sep: char)
    ensures Join([a, b, c, d, e, f, g], sep)
         == a + [sep] + b + [sep] + c + [sep] + d + [sep] + e + [sep] + f + [sep] + g
  {
    var p6, p5, p4, p3, p2, p1 := [g], [f, g], [e, f, g], [d, e, f, g], [c, d, e, f, g], [b, c, d, e, f, g];
    assert p5[1..] == p6 && p4[1..] == p5 && p3[1..] == p4 && p2[1..] == p3 && p1[1..] == p2;
    assert [a, b, c, d, e, f, g][1..] == p1;
    assert Join(p5, sep) == f + [sep] + g;
    assert Join(p4, sep) == e + [sep] + (f + [sep] + g);
    assert Join(p3, sep) == d + [sep] + (e + [sep] + (f + [sep] + g));
    assert Join(p2, sep) == c + [sep] + (d + [sep] + (e + [sep] + (f + [sep] + g)));
    assert Join(p1, sep) == b + [sep] + (c + [sep] + (d + [sep] + (e + [sep] + (f + [sep] + g))));
  }

  /** The converter's f-string is the seven fields joined by tabs, then a newline. */
  lemma CookieLineIsJoinedFields(c: Cookie)
    ensures CookieLine(c) == Join(Fields(c), '\t') + "\n"
  {
    JoinSeven(c.domain, Flag(StartsWithDot(c.domain)), c.path, Flag(c.secure),
      IntToString(Expiration(c)), c.name, c.value, '\t');
  }

  lemma NoTabInFlag(b: bool)
    ensures '\t' !in Flag(b) && '\n' !in Flag(b)
  {
  }

  lemma NoTabInInt(i: int)
    ensures '\t' !in IntToString(i) && '\n' !in IntToString(i)
  {
    var n := if i < 0 then -i else i;
    DigitsAvoid(NatToString(n), '\t');
    DigitsAvoid(NatToString(n), '\n');
  }

  /**
   One line per cookie: a clean cookie's line reads back as seven fields, in the
   order domain, include-subdomains, path, secure, expiration, name, value, with
   include-subdomains TRUE exactly for a leading dot, secure TRUE exactly for a
   secure cookie, and the expiration 0 when the cookie has none.
   */
  lemma LineReadsBack(c: Cookie)
    requires Clean(c)
    ensures var line := CookieLine(c);
      && |line| > 0 && line[|line| - 1] == '\n'
      && '\n' !in line[..|line| - 1]
      && Split(line[..|line| - 1], '\t') == Fields(c)
      && ParseLine(line[..|line| - 1]) == Some(EntryOf(c))
  {
    var line := CookieLine(c);
    var f := Fields(c);
    CookieLineIsJoinedFields(c);
    NoTabInFlag(StartsWithDot(c.domain));
    NoTabInFlag(c.secure);
    NoTabInInt(Expiration(c));
    assert line[..|line| - 1] == Join(f, '\t');
    SplitJoin(f, '\t');
    assert Split(Join(f, '\t'), '\n') == [Join(f, '\t')] by {
      assert forall i :: 0 <= i < |f| ==> '\n' !in f[i];
      JoinAvoids(f, '\t', '\n');
      SplitWithoutSeparator(Join(f, '\t'), '\n');
    }
    ParseIntToString(Expiration(c));
  }

  /** Joining parts that avoid a character, with a different separator, avoids it too. */
  lemma {:induction false} JoinAvoids(parts: seq<string>, sep: char, x: char)
    requires sep != x
    requires forall i :: 0 <= i < |parts| ==> x !in parts[i]
    ensures x !in Join(parts, sep)
    decreases |parts|
  {
    if |parts| > 1 {
      JoinAvoids(parts[1..], sep, x);
    }
  }

  /** The lines a reader should find in the body of the file: the tab-joined fields of each cookie. */
  function FieldLines(cs: seq<Cookie>): (lines: seq<string>)
    ensures |lines| == |cs|
  {
    if |cs| == 0 then [] else [Join(Fields(cs[0]), '\t')] + FieldLines(cs[1..])
  }

  /** The body of the file splits at its newlines into exactly one line per cookie, in input order. */
  lemma {:induction false} LinesSplit(cs: seq<Cookie>)
    requires forall i :: 0 <= i < |cs| ==> NoNewline(cs[i])
    ensures Split(CookieLines(cs), '\n') == FieldLines(cs) + [""]
    decreases |cs|
  {
    if |cs| == 0 {
      assert Split("", '\n') == [""];
    } else {
      var c := cs[0];
      var body := Join(Fields(c), '\t');
      CookieLineIsJoinedFields(c);
      NoTabInFlag(StartsWithDot(c.domain));
      NoTabInFlag(c.secure);
      NoTabInInt(Expiration(c));
      JoinAvoids(Fields(c), '\t', '\n');
      LinesSplit(cs[1..]);
      assert CookieLines(cs) == body + ['\n'] + CookieLines(cs[1..]);
      SplitAtFirstSeparator(body, CookieLines(cs[1..]), '\n');
    }
  }

  lemma {:induction false} ParseCleanLines(cs: seq<Cookie>)
    requires forall i :: 0 <= i < |cs| ==> Clean(cs[i])
    ensures ParseLines(FieldLines(cs)) == Some(Entries(cs))
    decreases |cs|
  {
    if |cs| > 0 {
      var c := cs[0];
      LineReadsBack(c);
      CookieLineIsJoinedFields(c);
      var line := CookieLine(c);
      assert line[..|line| - 1] == Join(Fields(c), '\t');
      ParseCleanLines(cs[1..]);
      assert FieldLines(cs)[1..] == FieldLines(cs[1..]);
    }
  }

  lemma HeaderIsOneLine()
    ensures '\n' !in Header
  {
  }

  /** A text made of a newline-free first line, a blank line and a body splits into those lines and the body's. */
  lemma SplitHeaderBlankBody(h: string, body: string)
    requires '\n' !in h
    ensures Split(h + "\n\n" + body, '\n') == [h, ""] + Split(body, '\n')
  {
    assert h + "\n\n" + body == h + ['\n'] + ("" + ['\n'] + body);
    SplitAtFirstSeparator(h, "" + ['\n'] + body, '\n');
    SplitAtFirstSeparator("", body, '\n');
  }

  lemma SplitHeaderBlankLines(h: string, body: string, lines: seq<string>)
    requires '\n' !in h
    requires Split(body, '\n') == lines + [""]
    ensures Split(h + "\n\n" + body, '\n') == [h, ""] + lines + [""]
  {
    SplitHeaderBlankBody(h, body);
  }

  /**
   The converter's output, cut at newlines: the header, a blank line, then exactly
   one line per cookie in input order, each the cookie's seven fields joined by tabs
   and terminated by a newline.
   */
  lemma FileLines(cs: seq<Cookie>)
    requires forall i :: 0 <= i < |cs| ==> NoNewline(cs[i])
    ensures Split(CookiesTxt(cs), '\n') == [Header, ""] + FieldLines(cs) + [""]
  {
    LinesSplit(cs);
    HeaderIsOneLine();
    SplitHeaderBlankLines(Header, CookieLines(cs), FieldLines(cs));
  }

  /** A text whose lines are the header, a blank line, some lines and a final empty one is read from those lines. */
  lemma ReadSplitFile(text: string, body: seq<string>)
    requires Split(text, '\n') == [Header, ""] + body + [""]
    ensures ReadCookieFile(text) == ParseLines(body)
  {
    var lines := Split(text, '\n');
    assert lines[2..|lines| - 1] == body;
  }

  /**
   The converter's output read back by `ReadCookieFile`: exactly the cookies'
   entries, one per cookie, in input order.
   */
  lemma ReadBackCookiesTxt(cs: seq<Cookie>)
    requires forall i :: 0 <= i < |cs| ==> Clean(cs[i])
    ensures ReadCookieFile(CookiesTxt(cs)) == Some(Entries(cs))
  {
    FileLines(cs);
    ParseCleanLines(cs);
    ReadSplitFile(CookiesTxt(cs), FieldLines(cs));
  }
}
