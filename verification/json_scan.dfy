// extractJSONObject (internal/assist/parse.go): a scanner that counts braces outside strings,
// against the grammar of RFC 8259, sections 2 to 7.
module JsonScan {
  import opened Common

  // ---- The scanner ------------------------------------------------------------------------

  // The loop's variables, or Done once the brace that opened the text is closed.
  datatype Scan = At(depth: int, inString: bool, escaped: bool) | Done

  const START := At(0, false, false)

  function Next(s: Scan, c: char): Scan {
    match s
    case Done => Done
    case At(depth, inString, escaped) =>
      if escaped then s.(escaped := false)
      else if inString && c == '\\' then s.(escaped := true)
      else if c == '"' then s.(inString := !inString)
      else if inString then s
      else if c == '{' then s.(depth := depth + 1)
      else if c == '}' then (if depth - 1 == 0 then Done else s.(depth := depth - 1))
      else s
  }

  function Feed(s: Scan, text: string): Scan
    decreases text
  {
    if text == "" then s else Feed(Next(s, text[0]), text[1..])
  }

  // The position of the first '{', or the end.
  function FirstBrace(raw: string): (n: nat)
    ensures n <= |raw| && '{' !in raw[..n] && (n < |raw| ==> raw[n] == '{')
  {
    if raw == "" || raw[0] == '{' then 0
    else
      var n := FirstBrace(raw[1..]);
      assert raw[..n + 1] == [raw[0]] + raw[1..][..n];
      n + 1
  }

  // The scan from `from` is done at `end`, and at no earlier position.
  ghost predicate ClosesAt(raw: string, from: nat, end: nat) {
    from < end <= |raw| && Feed(START, raw[from..end]) == Done && Feed(START, raw[from..end - 1]) != Done
  }

  // What the scan yields: the text from the first brace to where it closes, or nothing when it
  // does not close.
  ghost predicate Extracted(raw: string, o: Option<string>) {
    match o
    case Some(text) => exists end: nat :: ClosesAt(raw, FirstBrace(raw), end) && text == raw[FirstBrace(raw)..end]
    case None => forall end :: FirstBrace(raw) <= end <= |raw| ==> Feed(START, raw[FirstBrace(raw)..end]) != Done
  }

  // The text of the outermost object, or nothing when there is none or it does not close.
  method ExtractJsonObject(raw: string) returns (o: Option<string>)
    ensures Extracted(raw, o)
  {
    var start := FirstBrace(raw);
    var depth, inString, escaped := 0, false, false;
    for i := start to |raw|
      invariant Feed(START, raw[start..i]) == At(depth, inString, escaped)
      invariant forall end :: start <= end <= i ==> Feed(START, raw[start..end]) != Done
    {
      var c := raw[i];
      FeedOne(START, raw[start..i], c);
      assert raw[start..i + 1] == raw[start..i] + [c];
      if escaped {
        escaped := false;
      } else if inString && c == '\\' {
        escaped := true;
      } else if c == '"' {
        inString := !inString;
      } else if inString {
      } else if c == '{' {
        depth := depth + 1;
      } else if c == '}' {
        depth := depth - 1;
        if depth == 0 {
          assert ClosesAt(raw, start, i + 1);
          return Some(raw[start..i + 1]);
        }
      }
    }
    o := None;
  }

  lemma {:induction false} FeedConcat(s: Scan, a: string, b: string)
    ensures Feed(s, a + b) == Feed(Feed(s, a), b)
    decreases a
  {
    if a == "" {
      assert a + b == b;
    } else {
      assert (a + b)[1..] == a[1..] + b;
      FeedConcat(Next(s, a[0]), a[1..], b);
    }
  }

  lemma FeedOne(s: Scan, a: string, c: char)
    ensures Feed(s, a + [c]) == Next(Feed(s, a), c)
  {
    FeedConcat(s, a, [c]);
    assert Feed(Feed(s, a), [c]) == Feed(Next(Feed(s, a), c), [c][1..]);
  }

  // Outside strings nothing but quotes and braces matters; inside, nothing but the quote that
  // ends the string, whatever a backslash is followed by.
  lemma {:induction false} PlainIsIgnored(depth: int, text: string)
    requires '"' !in text && '{' !in text && '}' !in text
    ensures Feed(At(depth, false, false), text) == At(depth, false, false)
    decreases text
  {
    if text != "" { PlainIsIgnored(depth, text[1..]); }
  }

  lemma {:induction false} QuotedIsIgnored(depth: int, text: string)
    requires '"' !in text && '\\' !in text
    ensures Feed(At(depth, true, false), text) == At(depth, true, false)
    decreases text
  {
    if text != "" { QuotedIsIgnored(depth, text[1..]); }
  }

  // What the characters that matter do.
  lemma MarksAre(depth: int, c: char)
    ensures Feed(At(depth, true, false), ['\\', c]) == At(depth, true, false)
    ensures Feed(At(depth, false, false), "\"") == At(depth, true, false) && Feed(At(depth, true, false), "\"") == At(depth, false, false)
    ensures Feed(At(depth, false, false), "{") == At(depth + 1, false, false)
    ensures Feed(At(depth, false, false), "}") == if depth == 1 then Done else At(depth - 1, false, false)
  {
    FeedOne(At(depth, true, false), "\\", c);
    assert ['\\', c] == "\\" + [c] && Feed(At(depth, true, false), "\\") == At(depth, true, true) by {
      assert "\\"[1..] == "";
    }
    assert "\""[1..] == "" && "{"[1..] == "" && "}"[1..] == "";
  }

  lemma {:induction false} DoneStays(text: string)
    ensures Feed(Done, text) == Done
  {
    if text != "" { DoneStays(text[1..]); }
  }

  // ---- The grammar ------------------------------------------------------------------------

  // A character of a string: one that needs no escape, a two-character escape, or \\uXXXX.
  datatype Char = Plain(c: char) | Escape(c: char) | Unicode(hex: string)

  datatype Number = Number(minus: bool, whole: string, frac: Option<string>, exp: Option<Exponent>)
  datatype Exponent = Exponent(e: char, sign: string, digits: string)

  // Derivations, with the white space each one places.
  datatype Value = Literal(text: string) | Num(n: Number) | Text(chars: seq<Char>)
                 | Array(open: string, items: Items) | Object(open: string, members: Members)
  datatype Items = NoItems | Items(before: string, value: Value, after: string, rest: Items)
  datatype Members = NoMembers
                   | Members(before: string, key: seq<Char>, colon: string, space: string, value: Value, after: string, rest: Members)

  predicate White(s: string) {
    forall i :: 0 <= i < |s| ==> s[i] == ' ' || s[i] == '\t' || s[i] == '\n' || s[i] == '\r'
  }

  predicate Digits(s: string) {
    |s| > 0 && forall i :: 0 <= i < |s| ==> '0' <= s[i] <= '9'
  }

  predicate Hex(s: string) {
    |s| == 4 && forall i :: 0 <= i < 4 ==> '0' <= s[i] <= '9' || 'a' <= s[i] <= 'f' || 'A' <= s[i] <= 'F'
  }

  predicate CharOk(c: Char) {
    match c
    case Plain(c) => c >= ' ' && c != '"' && c != '\\'
    case Escape(c) => c in "\"\\/bfnrt"
    case Unicode(hex) => Hex(hex)
  }

  predicate CharsOk(cs: seq<Char>) {
    forall i :: 0 <= i < |cs| ==> CharOk(cs[i])
  }

  predicate NumberOk(n: Number) {
    && Digits(n.whole) && (|n.whole| > 1 ==> n.whole[0] != '0')
    && (n.frac.Some? ==> Digits(n.frac.value))
    && (n.exp.Some? ==> n.exp.value.e in "eE" && n.exp.value.sign in {"", "+", "-"} && Digits(n.exp.value.digits))
  }

  predicate ValueOk(v: Value) {
    match v
    case Literal(t) => t == "true" || t == "false" || t == "null"
    case Num(n) => NumberOk(n)
    case Text(cs) => CharsOk(cs)
    case Array(open, items) => White(open) && ItemsOk(items)
    case Object(open, members) => White(open) && MembersOk(members)
  }

  predicate ItemsOk(xs: Items) {
    xs.Items? ==> White(xs.before) && ValueOk(xs.value) && White(xs.after) && ItemsOk(xs.rest)
  }

  predicate MembersOk(xs: Members) {
    xs.Members? ==>
      White(xs.before) && CharsOk(xs.key) && White(xs.colon) && White(xs.space) && ValueOk(xs.value) && White(xs.after) && MembersOk(xs.rest)
  }

  // ---- The text of a derivation ------------------------------------------------------------

  function CharText(c: Char): string {
    match c
    case Plain(c) => [c]
    case Escape(c) => ['\\', c]
    case Unicode(hex) => "\\u" + hex
  }

  function CharsText(cs: seq<Char>): string {
    if cs == [] then "" else CharText(cs[0]) + CharsText(cs[1..])
  }

  function StringText(cs: seq<Char>): string { "\"" + CharsText(cs) + "\"" }

  function ExponentText(e: Exponent): string { [e.e] + e.sign + e.digits }

  function NumberText(n: Number): string {
    (if n.minus then "-" else "") + n.whole
    + (if n.frac.Some? then "." + n.frac.value else "")
    + (if n.exp.Some? then ExponentText(n.exp.value) else "")
  }

  function ValueText(v: Value): string {
    match v
    case Literal(t) => t
    case Num(n) => NumberText(n)
    case Text(cs) => StringText(cs)
    case Array(open, items) => "[" + open + ItemsText(items) + "]"
    case Object(open, members) => "{" + open + MembersText(members) + "}"
  }

  function ItemsText(xs: Items): string {
    match xs
    case NoItems => ""
    case Items(before, v, after, rest) =>
      before + ValueText(v) + after + (if rest.NoItems? then "" else "," + ItemsText(rest))
  }

  function MembersText(xs: Members): string {
    match xs
    case NoMembers => ""
    case Members(before, key, colon, space, v, after, rest) =>
      before + StringText(key) + colon + ":" + space + ValueText(v) + after + (if rest.NoMembers? then "" else "," + MembersText(rest))
  }

  // ---- The scanner over a derivation -------------------------------------------------------

  // Text without quotes and braces leaves the scanner where it is outside a string.
  predicate Inert(s: string) {
    forall i :: 0 <= i < |s| ==> s[i] != '"' && s[i] != '{' && s[i] != '}'
  }

  function Outside(depth: int): Scan { At(depth, false, false) }
  function Inside(depth: int): Scan { At(depth, true, false) }

  lemma {:induction false} InertStays(d: int, s: string)
    requires Inert(s)
    ensures Feed(Outside(d), s) == Outside(d)
  {
    if s != "" {
      assert forall i :: 0 <= i < |s[1..]| ==> s[1..][i] == s[i + 1];
      InertStays(d, s[1..]);
    }
  }

  lemma CharStays(d: int, c: Char)
    requires CharOk(c)
    ensures Feed(Inside(d), CharText(c)) == Inside(d)
  {
    match c
    case Plain(x) => FeedOne(Inside(d), "", x);
    case Escape(x) =>
      FeedOne(Inside(d), "", '\\');
      FeedOne(Inside(d), "\\", x);
    case Unicode(hex) =>
      FeedOne(Inside(d), "", '\\');
      FeedOne(Inside(d), "\\", 'u');
      FeedConcat(Inside(d), "\\u", hex);
      HexStays(d, hex);
  }

  lemma {:induction false} HexStays(d: int, s: string)
    requires forall i :: 0 <= i < |s| ==> s[i] != '"' && s[i] != '\\'
    ensures Feed(Inside(d), s) == Inside(d)
  {
    if s != "" {
      assert forall i :: 0 <= i < |s[1..]| ==> s[1..][i] == s[i + 1];
      HexStays(d, s[1..]);
    }
  }

  lemma {:induction false} CharsStay(d: int, cs: seq<Char>)
    requires CharsOk(cs)
    ensures Feed(Inside(d), CharsText(cs)) == Inside(d)
  {
    if cs != [] {
      CharStays(d, cs[0]);
      FeedConcat(Inside(d), CharText(cs[0]), CharsText(cs[1..]));
      CharsStay(d, cs[1..]);
    }
  }

  lemma StringStays(d: int, cs: seq<Char>)
    requires CharsOk(cs)
    ensures Feed(Outside(d), StringText(cs)) == Outside(d)
  {
    FeedOne(Outside(d), "", '"');
    FeedConcat(Outside(d), "\"", CharsText(cs));
    CharsStay(d, cs);
    FeedOne(Outside(d), "\"" + CharsText(cs), '"');
  }

  lemma NumberStays(d: int, n: Number)
    requires NumberOk(n)
    ensures Feed(Outside(d), NumberText(n)) == Outside(d)
  {
    var head := (if n.minus then "-" else "") + n.whole;
    var frac := if n.frac.Some? then "." + n.frac.value else "";
    var exp := if n.exp.Some? then ExponentText(n.exp.value) else "";
    assert Inert(head) && Inert(frac) && Inert(exp);
    InertStays(d, head);
    InertStays(d, frac);
    InertStays(d, exp);
    FeedConcat(Outside(d), head, frac);
    FeedConcat(Outside(d), head + frac, exp);
  }

  // At any depth but the outermost, a value leaves the scanner where it was.
  lemma {:induction false} ValueStays(d: int, v: Value)
    requires ValueOk(v) && d >= 1
    ensures Feed(Outside(d), ValueText(v)) == Outside(d)
    decreases v, 0
  {
    match v
    case Literal(t) => InertStays(d, t);
    case Num(n) => NumberStays(d, n);
    case Text(cs) => StringStays(d, cs);
    case Array(open, items) =>
      assert Inert("[" + open);
      InertStays(d, "[" + open);
      ItemsStay(d, items);
      FeedConcat(Outside(d), "[" + open, ItemsText(items));
      FeedOne(Outside(d), "[" + open + ItemsText(items), ']');
    case Object(open, members) =>
      OpenObject(d, open, members);
      FeedOne(Outside(d), "{" + open + MembersText(members), '}');
  }

  // An object up to its closing brace is one level deeper.
  lemma {:induction false} OpenObject(d: int, open: string, members: Members)
    requires White(open) && MembersOk(members) && d >= 0
    ensures Feed(Outside(d), "{" + open + MembersText(members)) == Outside(d + 1)
    decreases members, 1
  {
    FeedOne(Outside(d), "", '{');
    FeedConcat(Outside(d), "{", open);
    InertStays(d + 1, open);
    FeedConcat(Outside(d), "{" + open, MembersText(members));
    MembersStay(d + 1, members);
  }

  lemma {:induction false} ItemsStay(d: int, xs: Items)
    requires ItemsOk(xs) && d >= 1
    ensures Feed(Outside(d), ItemsText(xs)) == Outside(d)
    decreases xs, 0
  {
    if xs.Items? {
      InertStays(d, xs.before);
      ValueStays(d, xs.value);
      InertStays(d, xs.after);
      FeedConcat(Outside(d), xs.before, ValueText(xs.value));
      FeedConcat(Outside(d), xs.before + ValueText(xs.value), xs.after);
      var head := xs.before + ValueText(xs.value) + xs.after;
      if xs.rest.NoItems? {
        assert ItemsText(xs) == head;
      } else {
        InertStays(d, ",");
        ItemsStay(d, xs.rest);
        FeedConcat(Outside(d), ",", ItemsText(xs.rest));
        FeedConcat(Outside(d), head, "," + ItemsText(xs.rest));
      }
    }
  }

  lemma {:induction false} MembersStay(d: int, xs: Members)
    requires MembersOk(xs) && d >= 1
    ensures Feed(Outside(d), MembersText(xs)) == Outside(d)
    decreases xs, 0
  {
    if xs.Members? {
      KeyStays(d, xs.before, xs.key, xs.colon, xs.space);
      ValueStays(d, xs.value);
      InertStays(d, xs.after);
      var key := xs.before + StringText(xs.key) + xs.colon + ":" + xs.space;
      FeedConcat(Outside(d), key, ValueText(xs.value));
      FeedConcat(Outside(d), key + ValueText(xs.value), xs.after);
      var head := key + ValueText(xs.value) + xs.after;
      if xs.rest.NoMembers? {
        assert MembersText(xs) == head;
      } else {
        InertStays(d, ",");
        MembersStay(d, xs.rest);
        FeedConcat(Outside(d), ",", MembersText(xs.rest));
        FeedConcat(Outside(d), head, "," + MembersText(xs.rest));
      }
    }
  }

  lemma KeyStays(d: int, before: string, key: seq<Char>, colon: string, space: string)
    requires White(before) && CharsOk(key) && White(colon) && White(space)
    ensures Feed(Outside(d), before + StringText(key) + colon + ":" + space) == Outside(d)
  {
    InertStays(d, before);
    StringStays(d, key);
    InertStays(d, colon);
    InertStays(d, ":");
    InertStays(d, space);
    FeedConcat(Outside(d), before, StringText(key));
    FeedConcat(Outside(d), before + StringText(key), colon);
    FeedConcat(Outside(d), before + StringText(key) + colon, ":");
    FeedConcat(Outside(d), before + StringText(key) + colon + ":", space);
  }

  // ---- Agreement ----------------------------------------------------------------------------

  // An object's text closes at its last character, and nowhere before.
  lemma ObjectClosesAtItsEnd(v: Value, n: nat)
    requires v.Object? && ValueOk(v) && n <= |ValueText(v)|
    ensures Feed(START, ValueText(v)[..n]) == Done <==> n == |ValueText(v)|
  {
    var body := "{" + v.open + MembersText(v.members);
    OpenObject(0, v.open, v.members);
    FeedOne(START, body, '}');
    assert ValueText(v) == body + "}";
    if n == |ValueText(v)| {
      assert ValueText(v)[..n] == ValueText(v);
    } else {
      assert body == ValueText(v)[..n] + body[n..];
      FeedConcat(START, ValueText(v)[..n], body[n..]);
      DoneStays(body[n..]);
    }
  }

  lemma BraceAt(prefix: string, text: string)
    requires '{' !in prefix && (text == "" || text[0] == '{')
    ensures FirstBrace(prefix + text) == |prefix|
  {
    if prefix == "" {
      assert prefix + text == text;
    } else {
      assert (prefix + text)[1..] == prefix[1..] + text;
      BraceAt(prefix[1..], text);
    }
  }

  lemma ObjectBegins(v: Value)
    requires v.Object?
    ensures ValueText(v) != "" && ValueText(v)[0] == '{'
  {
  }

  // Around an object the scan closes at the end of the object and nowhere else.
  lemma OnlyObjectCloses(prefix: string, v: Value, suffix: string)
    requires '{' !in prefix && v.Object? && ValueOk(v)
    ensures var raw := prefix + ValueText(v) + suffix;
            && FirstBrace(raw) == |prefix|
            && forall end :: ClosesAt(raw, |prefix|, end) <==> end == |prefix| + |ValueText(v)|
    ensures var raw := prefix + ValueText(v) + suffix;
            raw[|prefix|..|prefix| + |ValueText(v)|] == ValueText(v)
            && Feed(START, raw[|prefix|..|prefix| + |ValueText(v)|]) == Done
  {
    hide ValueText, ValueOk, FirstBrace, Feed;
    var text := ValueText(v);
    var raw := prefix + text + suffix;
    assert text != "" && text[0] == '{' by { ObjectBegins(v); }
    assert raw == prefix + (text + suffix);
    BraceAt(prefix, text + suffix);
    var stop := |prefix| + |text|;
    assert raw[|prefix|..stop] == text == text[..|text|];
    ObjectClosesAtItsEnd(v, |text|);
    forall end | |prefix| <= end <= |raw|
      ensures Feed(START, raw[|prefix|..end]) == Done <==> end >= stop
    {
      if end <= stop {
        assert raw[|prefix|..end] == text[..end - |prefix|];
        ObjectClosesAtItsEnd(v, end - |prefix|);
      } else {
        assert raw[|prefix|..end] == text + raw[stop..end];
        FeedConcat(START, text, raw[stop..end]);
        DoneStays(raw[stop..end]);
      }
    }
  }

  // Whatever surrounds it, so long as no brace precedes it, exactly the object is extracted.
  lemma ObjectIsExtracted(prefix: string, v: Value, suffix: string, o: Option<string>)
    requires '{' !in prefix && v.Object? && ValueOk(v) && Extracted(prefix + ValueText(v) + suffix, o)
    ensures o == Some(ValueText(v))
  {
    OnlyObjectCloses(prefix, v, suffix);
  }

  // A reply cut off inside the object yields nothing.
  lemma CutObjectIsNot(prefix: string, v: Value, n: nat, o: Option<string>)
    requires '{' !in prefix && v.Object? && ValueOk(v) && n < |ValueText(v)| && Extracted(prefix + ValueText(v)[..n], o)
    ensures o == None
  {
    hide ValueText, ValueOk, FirstBrace, Feed;
    var text := ValueText(v)[..n];
    var raw := prefix + text;
    ObjectBegins(v);
    BraceAt(prefix, text);
    forall end | |prefix| <= end <= |raw| ensures Feed(START, raw[|prefix|..end]) != Done {
      assert raw[|prefix|..end] == ValueText(v)[..end - |prefix|];
      ObjectClosesAtItsEnd(v, end - |prefix|);
    }
  }

  // Object texts are prefix-free: of two, one is a prefix of the other only if they are equal.
  lemma ObjectsArePrefixFree(v: Value, w: Value)
    requires v.Object? && w.Object? && ValueOk(v) && ValueOk(w) && ValueText(v) <= ValueText(w)
    ensures ValueText(v) == ValueText(w)
  {
    var n := |ValueText(v)|;
    ObjectClosesAtItsEnd(v, n);
    ObjectClosesAtItsEnd(w, n);
    assert ValueText(w)[..n] == ValueText(v) == ValueText(v)[..n];
  }
}
