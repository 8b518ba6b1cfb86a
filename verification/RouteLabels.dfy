/** The Next.js adapter's route labels: a raw request URL becomes a label with
    at most five segments, each a token, a dot segment or a short lower-case word. */
module RouteLabels {
  import opened Wrappers
  import opened Text
  import opened PercentDecoding
  import opened Patterns

  const MAX_PATH_LENGTH := 8192
  const MAX_SEGMENTS := 5
  const UNMATCHED_ROUTE := "/__unmatched__"
  const OVERFLOW_ROUTE := "/__overflow__"
  const TOO_LONG_ROUTE := "/__toolong__"

  /** A consumer override: a regular expression, here its test, and its label. */
  datatype RouteTemplate = RouteTemplate(pattern: string -> bool, template: string)

  predicate Digit(c: char) { '0' <= c <= '9' }

  predicate Lower(c: char) { 'a' <= c <= 'z' }

  predicate IsNumeric(s: string) {
    s != "" && forall c <- s :: Digit(c)
  }

  predicate IsUuid(s: string) {
    |s| == 36 && forall i | 0 <= i < 36 :: if i in {8, 13, 18, 23} then s[i] == '-' else IsHex(s[i])
  }

  predicate IsDots(s: string) { s == "." || s == ".." }

  predicate IsSafeText(s: string) {
    1 <= |s| <= 32 && Lower(s[0]) && forall c <- s :: Lower(c) || c in ".-"
  }

  /** The text a segment is classified by: decoded if it can be, raw if not. */
  function Decoded(raw: string): string {
    Decode(raw).GetOr(raw)
  }

  function ClassifySegment(raw: string): string {
    var decoded := Decoded(raw);
    if decoded == "" then ""
    else if IsNumeric(decoded) then ":id"
    else if IsUuid(decoded) then ":uuid"
    else if IsDots(decoded) then decoded
    else if IsSafeText(decoded) then decoded
    else ":str"
  }

  /** s up to the first mark, all of it when there is none. */
  function Before(s: string, mark: char): string {
    if s == "" || s[0] == mark then "" else [s[0]] + Before(s[1..], mark)
  }

  function PathOf(url: string): string {
    Before(Before(url, '?'), '#')
  }

  /** The segments of a path: what follows its first '/'. */
  function Segments(path: string): seq<string> {
    Split(path, '/')[1..]
  }

  function Classified(parts: seq<string>): seq<string> {
    seq(|parts|, i requires 0 <= i < |parts| => ClassifySegment(parts[i]))
  }

  function DefaultLabel(path: string): string {
    var parts := Segments(path);
    if |parts| > MAX_SEGMENTS then
      "/" + ClassifySegment(parts[0]) + "/" + ClassifySegment(parts[1]) + "/__deep__"
    else "/" + Join(Classified(parts), '/')
  }

  function FirstTemplate(path: string, templates: seq<RouteTemplate>): Option<string> {
    if templates == [] then None
    else if templates[0].pattern(path) then Some(templates[0].template)
    else FirstTemplate(path, templates[1..])
  }

  function BucketRoute(url: string, templates: seq<RouteTemplate>): string {
    if |url| > MAX_PATH_LENGTH then TOO_LONG_ROUTE
    else
      var path := PathOf(url);
      if path == "" || path == "/" then "/"
      else FirstTemplate(path, templates).GetOr(DefaultLabel(path))
  }

  // ---- The predicates against the regular expressions they stand for ----

  /** ^\d+$ */
  function NumericRe(): seq<Piece> {
    [Piece(c => '0' <= c <= '9', 1, None)]
  }

  /** ^[a-z][a-z.-]{0,31}$ */
  function SafeTextRe(): seq<Piece> {
    [Piece(c => 'a' <= c <= 'z', 1, Some(1)), Piece(c => 'a' <= c <= 'z' || c == '.' || c == '-', 0, Some(31))]
  }

  function HexDigits(n: nat): Piece {
    Piece(c => '0' <= c <= '9' || 'a' <= c <= 'f' || 'A' <= c <= 'F', n, Some(n))
  }

  function Dash(): Piece {
    Piece(c => c == '-', 1, Some(1))
  }

  /** [0-9a-f]{sizes[0]}-[0-9a-f]{sizes[1]}-... in either case */
  function DashedHex(sizes: seq<nat>): seq<Piece>
    requires sizes != []
  {
    if |sizes| == 1 then [HexDigits(sizes[0])]
    else [HexDigits(sizes[0])] + ([Dash()] + DashedHex(sizes[1..]))
  }

  lemma NumericExactly(s: string)
    ensures IsNumeric(s) <==> Matches(NumericRe(), s)
  {
    LastPiece(NumericRe()[0], s);
  }

  lemma SafeTextExactly(s: string)
    ensures IsSafeText(s) <==> Matches(SafeTextRe(), s)
  {
    var first, rest := SafeTextRe()[0], SafeTextRe()[1];
    assert SafeTextRe() == [first] + [rest];
    FixedPiece(first, [rest], s);
    if s != "" {
      LastPiece(rest, s[1..]);
      assert s == [s[0]] + s[1..];
      assert forall c <- s[1..] :: c in s;
    }
  }

  lemma DashStep(rest: seq<Piece>, s: string)
    ensures Matches([Dash()] + rest, s) <==> s != "" && s[0] == '-' && Matches(rest, s[1..])
  {
    FixedPiece(Dash(), rest, s);
  }

  lemma HexStep(n: nat, rest: seq<Piece>, s: string)
    ensures Matches([HexDigits(n)] + rest, s) <==>
            n <= |s| && (forall i | 0 <= i < n :: IsHex(s[i])) && Matches(rest, s[n..])
  {
    FixedPiece(HexDigits(n), rest, s);
  }

  /** A group and a dash, then the rest. */
  lemma DashedHexStep(sizes: seq<nat>, s: string)
    requires |sizes| >= 2
    ensures var n := sizes[0];
            Matches(DashedHex(sizes), s) <==>
            && n < |s| && (forall i | 0 <= i < n :: IsHex(s[i])) && s[n] == '-'
            && Matches(DashedHex(sizes[1..]), s[n + 1..])
  {
    var n, rest := sizes[0], DashedHex(sizes[1..]);
    HexStep(n, [Dash()] + rest, s);
    if n <= |s| {
      DashStep(rest, s[n..]);
      if n < |s| { assert s[n..][1..] == s[n + 1..]; }
    }
  }

  lemma DashedHexLast(n: nat, s: string)
    ensures Matches(DashedHex([n]), s) <==> |s| == n && forall i | 0 <= i < n :: IsHex(s[i])
  {
    LastPiece(HexDigits(n), s);
    if |s| == n && forall i | 0 <= i < n :: IsHex(s[i]) { assert forall c <- s :: IsHex(c); }
    if Takes(HexDigits(n), s) {
      forall i | 0 <= i < n ensures IsHex(s[i]) { assert s[i] in s; }
    }
  }

  /** ^[0-9a-f]{8}-[0-9a-f]{4}-[0-9a-f]{4}-[0-9a-f]{4}-[0-9a-f]{12}$, in either case */
  lemma UuidExactly(s: string)
    ensures IsUuid(s) <==> Matches(DashedHex([8, 4, 4, 4, 12]), s)
  {
    assert [8, 4, 4, 4, 12][1..] == [4, 4, 4, 12] && [4, 4, 4, 12][1..] == [4, 4, 12];
    assert [4, 4, 12][1..] == [4, 12] && [4, 12][1..] == [12];
    DashedHexStep([8, 4, 4, 4, 12], s);
    if 9 <= |s| {
      DashedHexStep([4, 4, 4, 12], s[9..]);
      if 14 <= |s| {
        assert s[9..][5..] == s[14..];
        DashedHexStep([4, 4, 12], s[14..]);
        if 19 <= |s| {
          assert s[14..][5..] == s[19..];
          DashedHexStep([4, 12], s[19..]);
          if 24 <= |s| {
            assert s[19..][5..] == s[24..];
            DashedHexLast(12, s[24..]);
            UuidParts(s);
          }
        }
      }
    }
  }

  lemma UuidParts(s: string)
    requires 24 <= |s|
    ensures IsUuid(s) <==>
            && (forall i | 0 <= i < 8 :: IsHex(s[i])) && s[8] == '-'
            && (forall i | 0 <= i < 4 :: IsHex(s[9..][i])) && s[9..][4] == '-'
            && (forall i | 0 <= i < 4 :: IsHex(s[14..][i])) && s[14..][4] == '-'
            && (forall i | 0 <= i < 4 :: IsHex(s[19..][i])) && s[19..][4] == '-'
            && |s[24..]| == 12 && (forall i | 0 <= i < 12 :: IsHex(s[24..][i]))
  {
  }

  // ---- Classification of one segment ----

  /** The five classes exclude one another, so the order of the tests is
      irrelevant: each label names exactly one class of decoded texts. */
  lemma ClassesExclusive(raw: string)
    ensures ClassifySegment(raw) == ":id" <==> IsNumeric(Decoded(raw))
    ensures ClassifySegment(raw) == ":uuid" <==> IsUuid(Decoded(raw))
    ensures ClassifySegment(raw) == Decoded(raw) <==>
            Decoded(raw) == "" || IsDots(Decoded(raw)) || IsSafeText(Decoded(raw)) || Decoded(raw) == ":str"
    ensures ClassifySegment(raw) in [":id", ":uuid", ":str"] || ClassifySegment(raw) == Decoded(raw)
  {
    var d := Decoded(raw);
    if d != "" { assert d[0] in d; }
    if IsUuid(d) { assert d[8] == '-' && d[8] in d; }
  }

  /** The text a segment stands for: what it is a percent-encoding of, or itself
      when it is malformed. */
  ghost predicate StandsForText(raw: string, text: string) {
    Encodes(text, raw) || (text == raw && forall p :: !Encodes(p, raw))
  }

  /** Every segment stands for exactly one text, and its label is decided by that
      text and the regular expressions alone. */
  lemma ClassifiedByPatterns(raw: string, text: string)
    requires StandsForText(raw, text)
    ensures Decoded(raw) == text
    ensures ClassifySegment(raw) ==
            if Matches(NumericRe(), text) then ":id"
            else if Matches(DashedHex([8, 4, 4, 4, 12]), text) then ":uuid"
            else if text in ["", ".", ".."] || Matches(SafeTextRe(), text) then text
            else ":str"
  {
    if Encodes(text, raw) {
      DecodeExactly(raw, text);
    } else if Decode(raw).Some? {
      DecodeExactly(raw, Decode(raw).value);
    }
    NumericExactly(text);
    UuidExactly(text);
    SafeTextExactly(text);
  }

  /** What a classified segment may look like. */
  predicate IsLabelSegment(s: string) {
    |s| <= 32 && forall c <- s :: Lower(c) || c in ":.-"
  }

  lemma ClassifiedSegment(raw: string)
    ensures IsLabelSegment(ClassifySegment(raw))
  {
  }

  /** A segment with a malformed escape is always labelled ":str". */
  lemma {:induction false} MalformedIsStr(raw: string)
    requires Decode(raw) == None
    ensures ClassifySegment(raw) == ":str"
  {
    if '%' !in raw { DecodeVerbatim(raw); }
    var i :| 0 <= i < |raw| && raw[i] == '%';
    assert !IsUuid(raw);
  }

  /** A segment labelled by its class and not by its own text: fed back in, such
      a label is plain text again. */
  predicate Collapsed(raw: string) {
    IsNumeric(Decoded(raw)) || IsUuid(Decoded(raw))
  }

  lemma ColonIsStr(name: string)
    requires |name| >= 2 && name[0] == ':' && '%' !in name
    ensures ClassifySegment(name) == ":str"
  {
    DecodeVerbatim(name);
    assert name[0] in name;
  }

  lemma SegmentIdempotentExactly(raw: string)
    ensures ClassifySegment(ClassifySegment(raw)) == ClassifySegment(raw) <==> !Collapsed(raw)
  {
    var route := ClassifySegment(raw);
    ClassifiedSegment(raw);
    assert '%' !in route;
    ClassesExclusive(raw);
    if route in [":id", ":uuid", ":str"] {
      ColonIsStr(route);
    } else {
      DecodeVerbatim(route);
      assert Decoded(route) == Decoded(raw);
    }
  }

  // ---- Shape of a whole label ----

  predicate IsLabelChar(c: char) { Lower(c) || c in ":/_.-" }

  predicate AllLabelChars(s: string) { forall c <- s :: IsLabelChar(c) }

  lemma {:induction false} JoinShape(parts: seq<string>)
    requires forall p <- parts :: IsLabelSegment(p)
    ensures AllLabelChars(Join(parts, '/')) && '_' !in Join(parts, '/')
    ensures parts != [] ==> |Join(parts, '/')| <= 33 * |parts| - 1
  {
    if parts != [] {
      assert IsLabelSegment(parts[0]);
      if |parts| > 1 { JoinShape(parts[1..]); }
    }
  }

  lemma JoinFour(a: string, b: string, c: string, d: string)
    ensures Join([a, b, c, d], '/') == a + "/" + b + "/" + c + "/" + d
  {
    assert [a, b, c, d][1..] == [b, c, d];
    assert [b, c, d][1..] == [c, d];
    assert [c, d][1..] == [d];
    calc {
      Join([a, b, c, d], '/');
      a + "/" + Join([b, c, d], '/');
      a + "/" + (b + "/" + Join([c, d], '/'));
      a + "/" + (b + "/" + (c + "/" + d));
      a + "/" + b + "/" + c + "/" + d;
    }
  }

  lemma SplitDeep(a: string, b: string)
    requires IsLabelSegment(a) && IsLabelSegment(b)
    ensures Split("/" + a + "/" + b + "/__deep__", '/') == ["", a, b, "__deep__"]
  {
    var x := "/" + a + "/" + b;
    JoinFour("", a, b, "__deep__");
    assert "" + "/" + a + "/" + b == x;
    assert x + "/" + "__deep__" == x + "/__deep__";
    SplitUndoesJoin(["", a, b, "__deep__"], '/');
  }

  lemma DeepLabelSegments(path: string)
    requires |Segments(path)| > MAX_SEGMENTS
    ensures Split(DefaultLabel(path), '/') ==
            ["", ClassifySegment(Segments(path)[0]), ClassifySegment(Segments(path)[1]), "__deep__"]
  {
    ClassifiedSegment(Segments(path)[0]);
    ClassifiedSegment(Segments(path)[1]);
    SplitDeep(ClassifySegment(Segments(path)[0]), ClassifySegment(Segments(path)[1]));
  }

  lemma SplitShallow(parts: seq<string>)
    requires forall p <- parts :: IsLabelSegment(p)
    ensures Split("/" + Join(parts, '/'), '/') == if parts == [] then ["", ""] else [""] + parts
  {
    if parts == [] {
      RootSegments();
      assert "/" + "" == "/";
    } else {
      var shown := [""] + parts;
      assert shown[1..] == parts;
      assert forall p <- shown :: '/' !in p;
      SplitUndoesJoin(shown, '/');
      assert Join(shown, '/') == "" + "/" + Join(parts, '/') == "/" + Join(parts, '/');
    }
  }

  lemma ShallowLabelSegments(path: string)
    requires |Segments(path)| <= MAX_SEGMENTS
    ensures Split(DefaultLabel(path), '/') ==
            if Segments(path) == [] then ["", ""] else [""] + Classified(Segments(path))
  {
    var parts := Segments(path);
    forall p <- Classified(parts) ensures IsLabelSegment(p) {
      var i :| 0 <= i < |parts| && p == ClassifySegment(parts[i]);
      ClassifiedSegment(parts[i]);
    }
    SplitShallow(Classified(parts));
  }

  lemma RootSegments()
    ensures Split("/", '/') == ["", ""]
  {
    assert Split("/", '/') == [""] + Split("/"[1..], '/');
  }

  lemma TooLongSegments()
    ensures Split(TOO_LONG_ROUTE, '/') == ["", "__toolong__"]
  {
    assert ["", "__toolong__"][1..] == ["__toolong__"];
    SplitUndoesJoin(["", "__toolong__"], '/');
  }

  lemma {:induction false} DefaultLabelShape(path: string)
    ensures var route := DefaultLabel(path);
            |route| <= 165 && route != "" && route[0] == '/' && AllLabelChars(route)
            && route != OVERFLOW_ROUTE && route != UNMATCHED_ROUTE && route != TOO_LONG_ROUTE
  {
    var parts, route := Segments(path), DefaultLabel(path);
    if |parts| > MAX_SEGMENTS {
      ClassifiedSegment(parts[0]);
      ClassifiedSegment(parts[1]);
      assert route[|route| - 3] == 'p';
      assert OVERFLOW_ROUTE[|OVERFLOW_ROUTE| - 3] == 'w' && UNMATCHED_ROUTE[|UNMATCHED_ROUTE| - 3] == 'd';
      assert TOO_LONG_ROUTE[|TOO_LONG_ROUTE| - 3] == 'g';
    } else {
      forall p <- Classified(parts) ensures IsLabelSegment(p) {
        var i :| 0 <= i < |parts| && p == ClassifySegment(parts[i]);
        ClassifiedSegment(parts[i]);
      }
      JoinShape(Classified(parts));
      assert '_' !in route;
      assert OVERFLOW_ROUTE[1] == '_' && UNMATCHED_ROUTE[1] == '_' && TOO_LONG_ROUTE[1] == '_';
    }
  }

  ghost predicate WellShaped(route: string) {
    && |route| <= 165 && AllLabelChars(route)
    && route != OVERFLOW_ROUTE && route != UNMATCHED_ROUTE
    && 2 <= |Split(route, '/')| <= 1 + MAX_SEGMENTS && Split(route, '/')[0] == ""
  }

  lemma RootShape()
    ensures WellShaped("/")
  {
    RootSegments();
    assert |"/"| != |OVERFLOW_ROUTE| && |"/"| != |UNMATCHED_ROUTE|;
  }

  lemma TooLongCharacters()
    ensures AllLabelChars(TOO_LONG_ROUTE)
  {
    assert TOO_LONG_ROUTE == "/" + "__" + "toolong" + "__";
    assert AllLabelChars("/") && AllLabelChars("__") && AllLabelChars("toolong");
  }

  lemma TooLongShape()
    ensures WellShaped(TOO_LONG_ROUTE)
  {
    TooLongCharacters();
    TooLongSegments();
    assert TOO_LONG_ROUTE[3] == 't' && OVERFLOW_ROUTE[3] == 'o' && UNMATCHED_ROUTE[3] == 'u';
  }

  /** Every template-free label is short, uses a fixed alphabet, has at most
      five segments, and is never one of the two sentinels the adapter adds. */
  lemma {:induction false} LabelShape(url: string)
    ensures WellShaped(BucketRoute(url, []))
  {
    var path := PathOf(url);
    TooLongShape();
    RootShape();
    if |url| <= MAX_PATH_LENGTH && path != "" && path != "/" {
      assert BucketRoute(url, []) == DefaultLabel(path);
      DefaultLabelShape(path);
      if |Segments(path)| > MAX_SEGMENTS { DeepLabelSegments(path); } else { ShallowLabelSegments(path); }
    }
  }

  lemma NeverSentinel(url: string)
    ensures BucketRoute(url, []) != OVERFLOW_ROUTE && BucketRoute(url, []) != UNMATCHED_ROUTE
  {
    LabelShape(url);
  }

  lemma SentinelsDiffer()
    ensures OVERFLOW_ROUTE != UNMATCHED_ROUTE
  {
    assert OVERFLOW_ROUTE[3] == 'o' && UNMATCHED_ROUTE[3] == 'u';
  }

  /** A shallow path keeps its number of segments: decoding "%2F" inside a
      segment never adds one, and segment i of the label is the class of
      segment i of the path. */
  lemma {:induction false} SegmentsPreserved(url: string)
    requires |url| <= MAX_PATH_LENGTH && |Segments(PathOf(url))| <= MAX_SEGMENTS
    ensures var parts := Split(PathOf(url), '/');
            var route := Split(BucketRoute(url, []), '/');
            |parts| >= 2 ==>
              |route| == |parts| && forall i | 1 <= i < |parts| :: route[i] == ClassifySegment(parts[i])
  {
    var path := PathOf(url);
    if path == "/" {
      RootSegments();
    } else if path != "" {
      ShallowLabelSegments(path);
    }
  }

  /** Below the depth limit the whole path counts; beyond it only the first two
      segments do. */
  lemma DeepLabel(u: string, v: string)
    requires |u| <= MAX_PATH_LENGTH && |v| <= MAX_PATH_LENGTH
    requires |Segments(PathOf(u))| > MAX_SEGMENTS && |Segments(PathOf(v))| > MAX_SEGMENTS
    ensures BucketRoute(u, []) == BucketRoute(v, []) <==>
            Classified(Segments(PathOf(u))[..2]) == Classified(Segments(PathOf(v))[..2])
  {
    RootSegments();
    DeepLabelSegments(PathOf(u));
    DeepLabelSegments(PathOf(v));
    var us, vs := Segments(PathOf(u)), Segments(PathOf(v));
    var cu, cv := Classified(us[..2]), Classified(vs[..2]);
    assert cu == [ClassifySegment(us[0]), ClassifySegment(us[1])];
    assert cv == [ClassifySegment(vs[0]), ClassifySegment(vs[1])];
    assert Split(DefaultLabel(PathOf(u)), '/')[1..3] == cu;
    assert Split(DefaultLabel(PathOf(v)), '/')[1..3] == cv;
    assert BucketRoute(u, []) == DefaultLabel(PathOf(u)) && BucketRoute(v, []) == DefaultLabel(PathOf(v));
    if cu == cv { assert cu[0] == cv[0] && cu[1] == cv[1]; }
  }

  /** Template i is the first whose pattern matches the path. */
  predicate FirstMatch(path: string, templates: seq<RouteTemplate>, i: nat) {
    i < |templates| && templates[i].pattern(path) && forall j | 0 <= j < i :: !templates[j].pattern(path)
  }

  lemma {:induction false} FirstTemplateIsFirst(path: string, templates: seq<RouteTemplate>)
    ensures FirstTemplate(path, templates) == None <==> forall t <- templates :: !t.pattern(path)
    ensures forall i: nat | FirstMatch(path, templates, i) ::
              FirstTemplate(path, templates) == Some(templates[i].template)
    ensures FirstTemplate(path, templates).Some? ==> exists i: nat :: FirstMatch(path, templates, i)
  {
    if templates != [] {
      var rest := templates[1..];
      FirstTemplateIsFirst(path, rest);
      if templates[0].pattern(path) {
        assert FirstMatch(path, templates, 0);
      } else {
        forall i: nat | FirstMatch(path, templates, i)
          ensures FirstTemplate(path, templates) == Some(templates[i].template)
        {
          assert forall j | 0 <= j < i - 1 :: rest[j] == templates[j + 1];
          assert FirstMatch(path, rest, i - 1);
        }
        if i: nat :| FirstMatch(path, rest, i) {
          assert forall j | 1 <= j < i + 1 :: templates[j] == rest[j - 1];
          assert FirstMatch(path, templates, i + 1);
        }
      }
    }
  }

  /** Templates change a label exactly where they apply: an overlong URL and the
      root keep theirs, any other path takes the label of its first match, and
      a path without a match is labelled as if there were no templates. */
  lemma TemplatesOverride(url: string, templates: seq<RouteTemplate>)
    ensures var path := PathOf(url);
            if |url| > MAX_PATH_LENGTH || path in ["", "/"] || forall t <- templates :: !t.pattern(path) then
              BucketRoute(url, templates) == BucketRoute(url, [])
            else
              exists i: nat :: FirstMatch(path, templates, i) && BucketRoute(url, templates) == templates[i].template
  {
    FirstTemplateIsFirst(PathOf(url), templates);
    if i: nat :| FirstMatch(PathOf(url), templates, i) {
      assert FirstTemplate(PathOf(url), templates) == Some(templates[i].template);
    }
  }

  // ---- Query strings, fragments and percent-encoding ----

  lemma {:induction false} BeforeSuffix(s: string, mark: char, tail: string)
    ensures Before(s + [mark] + tail, mark) == Before(s, mark)
  {
    if s == "" {
      assert s + [mark] + tail == [mark] + tail;
    } else {
      assert (s + [mark] + tail)[1..] == s[1..] + [mark] + tail;
      BeforeSuffix(s[1..], mark, tail);
    }
  }

  lemma ConsAppend(c: char, rest: string, tail: string)
    ensures [c] + rest + tail == [c] + (rest + tail)
  {
  }

  lemma BeforeCons(c: char, s: string, mark: char)
    ensures Before([c] + s, mark) == if c == mark then "" else [c] + Before(s, mark)
  {
    assert ([c] + s)[1..] == s;
  }

  lemma {:induction false} BeforeMarked(s: string, tail: string, mark: char)
    requires mark in s
    ensures Before(s + tail, mark) == Before(s, mark)
  {
    var c, rest := s[0], s[1..];
    BeforeCons(c, rest + tail, mark);
    assert s + tail == [c] + (rest + tail);
    if c != mark {
      assert mark in rest;
      BeforeMarked(rest, tail, mark);
    }
  }

  lemma {:induction false} BeforeUnmarked(s: string, tail: string, mark: char)
    requires mark !in s
    ensures Before(s + tail, mark) == s + Before(tail, mark)
  {
    if s == "" {
      assert s + tail == tail;
    } else {
      var c, rest := s[0], s[1..];
      assert s == [c] + rest;
      ConsAppend(c, rest, tail);
      BeforeCons(c, rest + tail, mark);
      BeforeUnmarked(rest, tail, mark);
      ConsAppend(c, rest, Before(tail, mark));
    }
  }

  lemma QueryOutsidePath(url: string, tail: string)
    ensures PathOf(url + "?" + tail) == PathOf(url)
  {
    BeforeSuffix(url, '?', tail);
  }

  lemma FragmentOutsidePath(url: string, tail: string)
    ensures PathOf(url + "#" + tail) == PathOf(url)
  {
    assert url + "#" + tail == url + ("#" + tail);
    if '?' in url {
      BeforeMarked(url, "#" + tail, '?');
    } else {
      var rest := Before(tail, '?');
      BeforeCons('#', tail, '?');
      BeforeUnmarked(url, "#" + tail, '?');
      assert url + ("#" + rest) == url + "#" + rest;
      BeforeSuffix(url, '#', rest);
      BeforeUnmarked(url, "", '?');
      assert url + "" == url;
    }
  }

  /** A query string or a fragment never changes a label. */
  lemma SuffixIrrelevant(url: string, tail: string, templates: seq<RouteTemplate>)
    requires |url| + 1 + |tail| <= MAX_PATH_LENGTH
    ensures BucketRoute(url + "?" + tail, templates) == BucketRoute(url, templates)
    ensures BucketRoute(url + "#" + tail, templates) == BucketRoute(url, templates)
  {
    QueryOutsidePath(url, tail);
    FragmentOutsidePath(url, tail);
  }

  // ---- The whole label ----

  /** What Before keeps: all of a string up to its first mark. */
  lemma {:induction false} BeforeExactly(s: string, mark: char)
    ensures var kept := Before(s, mark);
            kept <= s && mark !in kept && (kept != s ==> s[|kept|] == mark)
  {
    if s != "" && s[0] != mark {
      BeforeExactly(s[1..], mark);
      assert s == [s[0]] + s[1..];
    }
  }

  /** The path is all of a URL up to its first '?' or '#'. */
  lemma PathExactly(url: string)
    ensures var path := PathOf(url);
            path <= url && '?' !in path && '#' !in path && (path != url ==> url[|path|] in "?#")
  {
    var query := Before(url, '?');
    BeforeExactly(url, '?');
    BeforeExactly(query, '#');
    assert PathOf(url) <= query <= url;
    forall c <- PathOf(url) ensures c in query {
      var i :| 0 <= i < |PathOf(url)| && PathOf(url)[i] == c;
      assert query[i] == c;
    }
    if PathOf(url) != query { assert url[|PathOf(url)|] == query[|PathOf(url)|]; }
  }

  /** Every template-free label, segment by segment: the classes of the path's
      segments, or of its first two when there are more than five. */
  lemma LabelExactly(url: string)
    ensures var parts := Split(PathOf(url), '/');
            Split(BucketRoute(url, []), '/') ==
            if |url| > 8192 then ["", "__toolong__"]
            else if |parts| == 1 then ["", ""]
            else if |parts| <= 6 then [""] + Classified(parts[1..])
            else ["", ClassifySegment(parts[1]), ClassifySegment(parts[2]), "__deep__"]
  {
    var path := PathOf(url);
    TooLongSegments();
    RootSegments();
    if |url| <= 8192 {
      if path == "" || path == "/" {
        if path == "/" { RootClassified(); }
      } else if |Segments(path)| > 5 {
        DeepLabelSegments(path);
      } else {
        ShallowLabelSegments(path);
      }
    }
  }

  lemma RootClassified()
    ensures Classified([""]) == [""]
  {
    DecodeVerbatim("");
  }

  // ---- Bucketing a label again ----

  lemma LabelIsItsPath(route: string)
    requires AllLabelChars(route)
    ensures PathOf(route) == route
  {
    assert route + "" == route;
    BeforeUnmarked(route, "", '?');
    BeforeUnmarked(route, "", '#');
  }

  lemma ClassifiedSegments(parts: seq<string>)
    ensures forall p <- Classified(parts) :: IsLabelSegment(p)
  {
    forall p <- Classified(parts) ensures IsLabelSegment(p) {
      var i :| 0 <= i < |parts| && p == ClassifySegment(parts[i]);
      ClassifiedSegment(parts[i]);
    }
  }

  /** A class name is not a fixed point, and every other label segment is. */
  lemma ClassifiedTwice(parts: seq<string>)
    ensures Classified(Classified(parts)) == Classified(parts) <==> forall p <- parts :: !Collapsed(p)
  {
    var once, twice := Classified(parts), Classified(Classified(parts));
    forall i | 0 <= i < |parts| ensures twice[i] == once[i] <==> !Collapsed(parts[i]) {
      SegmentIdempotentExactly(parts[i]);
    }
    if p :| p in parts && Collapsed(p) {
      var i :| 0 <= i < |parts| && parts[i] == p;
      assert twice[i] != once[i];
    }
  }

  /** No segment that contains '_' keeps its text. */
  lemma SentinelSegment(raw: string)
    requires '_' in raw
    ensures ClassifySegment(raw) != raw
  {
    ClassifiedSegment(raw);
  }

  lemma ShallowAgain(path: string)
    requires Segments(path) != [] && |Segments(path)| <= MAX_SEGMENTS
    ensures DefaultLabel(DefaultLabel(path)) == DefaultLabel(path) <==> forall p <- Segments(path) :: !Collapsed(p)
  {
    var once := Classified(Segments(path));
    ShallowLabelSegments(path);
    assert Segments(DefaultLabel(path)) == once;
    ClassifiedSegments(Segments(path));
    ClassifiedSegments(once);
    SplitShallow(once);
    SplitShallow(Classified(once));
    Tails(Classified(once), once);
    ClassifiedTwice(Segments(path));
  }

  lemma Tails(a: seq<string>, b: seq<string>)
    ensures [""] + a == [""] + b <==> a == b
  {
    assert ([""] + a)[1..] == a && ([""] + b)[1..] == b;
  }

  lemma DeepAgain(path: string)
    requires |Segments(path)| > MAX_SEGMENTS
    ensures DefaultLabel(DefaultLabel(path)) != DefaultLabel(path)
  {
    var route := DefaultLabel(path);
    DeepLabelSegments(path);
    var parts := Segments(route);
    assert |parts| == 3 && parts[2] == "__deep__";
    ShallowLabelSegments(route);
    assert "__deep__"[0] == '_';
    SentinelSegment(parts[2]);
    assert Classified(parts)[2] != parts[2];
  }

  lemma TooLongAgain()
    ensures DefaultLabel(TOO_LONG_ROUTE) != TOO_LONG_ROUTE
  {
    TooLongSegments();
    ShallowLabelSegments(TOO_LONG_ROUTE);
    assert "__toolong__"[0] == '_';
    SentinelSegment("__toolong__");
    assert Segments(TOO_LONG_ROUTE) == ["__toolong__"];
    assert Classified(["__toolong__"])[0] != "__toolong__";
  }

  /** The label of a label: that of the root, or the default label. */
  lemma BucketedAgain(url: string)
    ensures var route := BucketRoute(url, []);
            BucketRoute(route, []) == if route == "/" then "/" else DefaultLabel(route)
  {
    LabelShape(url);
    LabelIsItsPath(BucketRoute(url, []));
  }

  /** A label is stable when bucketed again exactly when its URL was within the
      length and depth limits and had no numeric and no UUID segment. */
  lemma IdempotentExactly(url: string)
    ensures BucketRoute(BucketRoute(url, []), []) == BucketRoute(url, []) <==>
            && |url| <= MAX_PATH_LENGTH && |Segments(PathOf(url))| <= MAX_SEGMENTS
            && forall p <- Segments(PathOf(url)) :: !Collapsed(p)
  {
    var path := PathOf(url);
    var parts := Segments(path);
    BucketedAgain(url);
    if |url| > MAX_PATH_LENGTH {
      TooLongAgain();
    } else if path == "" || path == "/" {
      RootSegments();
      NothingCollapsed();
    } else if |parts| > MAX_SEGMENTS {
      DeepLabelSegments(path);
      RootSegments();
      DeepAgain(path);
    } else if parts != [] {
      ShallowAgain(path);
      RootAgain();
    }
  }

  lemma NothingCollapsed()
    ensures !Collapsed("")
  {
    DecodeVerbatim("");
  }

  lemma RootAgain()
    ensures DefaultLabel("/") == "/"
  {
    RootSegments();
    assert Segments("/") == [""];
    NothingCollapsed();
    assert Classified([""]) == [""];
  }

  lemma {:induction false} BeforeReencoded(p: string, q: string, mark: char)
    requires mark in "?#" && Reencodes(p, q)
    ensures Reencodes(Before(p, mark), Before(q, mark))
    decreases |p|
  {
    if p != "" {
      var e, rest := ReencodesUncons(p, q);
      if p[0] == mark {
        assert q[0] == mark;
      } else {
        BeforeReencoded(p[1..], rest, mark);
        NoMarkInside(e, p[0], mark);
        BeforeUnmarked(e, rest, mark);
        ReencodesCons(p[0], e, Before(p[1..], mark), Before(rest, mark));
      }
    }
  }

  lemma {:induction false} BeforeNoPercent(p: string, mark: char)
    requires '%' !in p
    ensures '%' !in Before(p, mark)
  {
    if p != "" && p[0] != mark {
      assert '%' !in p[1..];
      BeforeNoPercent(p[1..], mark);
    }
  }

  lemma {:induction false} SplitNoPercent(p: string)
    requires '%' !in p
    ensures forall s <- Split(p, '/') :: '%' !in s
  {
    if p != "" { SplitNoPercent(p[1..]); }
  }

  /** The re-encoded segment decodes to the original, so both are classified alike. */
  lemma SegmentReencoded(p: string, q: string)
    requires Reencodes(p, q) && '%' !in p
    ensures ClassifySegment(q) == ClassifySegment(p)
  {
    DecodeUndoesReencoding(p, q);
    DecodeVerbatim(p);
  }

  lemma {:induction false} DefaultLabelReencoded(p: string, q: string)
    requires Reencodes(p, q) && '%' !in p
    ensures DefaultLabel(p) == DefaultLabel(q)
  {
    SplitReencoded(p, q);
    SplitNoPercent(p);
    var ps, qs := Segments(p), Segments(q);
    forall i | 0 <= i < |ps|
      ensures ClassifySegment(ps[i]) == ClassifySegment(qs[i])
    {
      assert ps[i] == Split(p, '/')[i + 1] && qs[i] == Split(q, '/')[i + 1];
      SegmentReencoded(ps[i], qs[i]);
    }
    assert Classified(ps) == Classified(qs);
  }

  lemma RootReencoded(p: string, q: string)
    requires Reencodes(p, q)
    ensures p == "" <==> q == ""
    ensures '%' !in p ==> (p == "/" <==> q == "/")
  {
    if p != "" {
      var e, rest := ReencodesUncons(p, q);
      if p == "/" { assert rest == ""; }
      if q == "/" { assert |e| < 3 && rest == "" && p[1..] == ""; }
    }
  }

  /** Percent-encoding any characters of a '%'-free URL other than '/', '?' and
      '#' (as UTF-8 octets, hex digits in either case) leaves the label as it is. */
  lemma {:induction false} EncodingInvariance(p: string, q: string)
    requires '%' !in p && Reencodes(p, q)
    requires |p| <= MAX_PATH_LENGTH && |q| <= MAX_PATH_LENGTH
    ensures BucketRoute(p, []) == BucketRoute(q, [])
  {
    BeforeReencoded(p, q, '?');
    BeforeNoPercent(p, '?');
    BeforeReencoded(Before(p, '?'), Before(q, '?'), '#');
    BeforeNoPercent(Before(p, '?'), '#');
    RootReencoded(PathOf(p), PathOf(q));
    DefaultLabelReencoded(PathOf(p), PathOf(q));
  }
}
