/** Values and string operations shared by the components: an Option type,
    the JSON values that JSON.parse produces, and the JavaScript string
    methods the components call (trim, toLowerCase, includes, split on one
    character, a global one-character replace, replace with a string pattern)
    and number-to-decimal-text conversion. */
module Common {

  datatype Option<T> = None | Some(value: T) {
    function GetOr(default: T): T {
      match this
      case Some(v) => v
      case None => default
    }
  }

  /** The outcome of a call that can fail with a message (a database query, an HTTP
      request, a thrown error). */
  datatype Result<T> = Ok(value: T) | Err(error: string)

  /** An optional string that JavaScript reads as true: present and not empty. */
  predicate Present(s: Option<string>) {
    s.Some? && s.value != ""
  }

  /** A JSON value after JSON.parse; numbers keep their source text. */
  datatype Json =
    | JNull
    | JBool(b: bool)
    | JNumber(text: string)
    | JString(s: string)
    | JArray(items: seq<Json>)
    | JObject(entries: seq<(string, Json)>)

  /** An HTTP response of an edge function: its status and JSON body. */
  datatype HttpResponse = HttpResponse(status: nat, body: Json)

  /** A call to the model provider: a non-OK status (its code or text) or the
      first choice's message content. */
  datatype Upstream = NotOk(status: string) | Content(text: string)

  /** The value of the first entry with key k of a JSON object (JavaScript's `obj[k]`). */
  function Field(entries: seq<(string, Json)>, k: string): (r: Option<Json>)
    ensures r.Some? <==> exists i :: 0 <= i < |entries| && entries[i].0 == k
    ensures r.Some? ==> exists i :: 0 <= i < |entries| && entries[i] == (k, r.value)
  {
    if entries == [] then None
    else if entries[0].0 == k then Some(entries[0].1)
    else
      var r := Field(entries[1..], k);
      assert forall i :: 1 <= i < |entries| ==> entries[i] == entries[1..][i - 1];
      r
  }

  /** `String(v)` of a JSON value: arrays are their items' texts joined by
      commas (null items giving ''), objects are "[object Object]". */
  function JsString(v: Json): string
    decreases v
  {
    match v
    case JNull => "null"
    case JBool(b) => if b then "true" else "false"
    case JNumber(text) => text
    case JString(s) => s
    case JArray(items) => JoinWith(ItemTexts(items), ",")
    case JObject(_) => "[object Object]"
  }

  function ItemTexts(items: seq<Json>): (r: seq<string>)
    ensures |r| == |items|
    decreases items
  {
    if items == [] then []
    else [if items[0].JNull? then "" else JsString(items[0])] + ItemTexts(items[1..])
  }

  /** The digits of a JSON number before its exponent. */
  function Mantissa(t: string): (r: string)
    ensures 'e' !in r && 'E' !in r
  {
    if t == [] || t[0] == 'e' || t[0] == 'E' then [] else [t[0]] + Mantissa(t[1..])
  }

  /** A JSON number text that denotes zero. */
  predicate ZeroNumber(t: string) {
    forall c :: c in Mantissa(t) ==> c == '-' || c == '0' || c == '.'
  }

  /** JavaScript truthiness of a property read: a missing property, null,
      false, zero and '' are falsy. */
  predicate Truthy(v: Option<Json>) {
    match v
    case None => false
    case Some(JNull) => false
    case Some(JBool(b)) => b
    case Some(JNumber(t)) => !ZeroNumber(t)
    case Some(JString(s)) => s != ""
    case Some(_) => true
  }

  // ---------------------------------------------------------------- trim

  /** The characters String.prototype.trim removes (white space and line terminators). */
  predicate IsWhitespace(c: char) {
    c == ' ' || c == '\t' || c == '\n' || c == '\r' || c == '\U{000B}' || c == '\U{000C}'
    || c == '\U{00A0}' || c == '\U{1680}' || ('\U{2000}' <= c <= '\U{200A}')
    || c == '\U{2028}' || c == '\U{2029}' || c == '\U{202F}' || c == '\U{205F}'
    || c == '\U{3000}' || c == '\U{FEFF}'
  }

  predicate AllWhitespace(s: string) {
    forall i :: 0 <= i < |s| ==> IsWhitespace(s[i])
  }

  function TrimStart(s: string): (r: string)
    ensures |r| <= |s| && r == s[|s| - |r|..]
    ensures r == [] || !IsWhitespace(r[0])
    ensures AllWhitespace(s[..|s| - |r|])
  {
    if |s| > 0 && IsWhitespace(s[0]) then
      var r := TrimStart(s[1..]);
      assert s[..|s| - |r|] == [s[0]] + s[1..][..|s[1..]| - |r|];
      r
    else s
  }

  function TrimEnd(s: string): (r: string)
    ensures |r| <= |s| && r == s[..|r|]
    ensures r == [] || !IsWhitespace(r[|r| - 1])
    ensures AllWhitespace(s[|r|..])
  {
    if |s| > 0 && IsWhitespace(s[|s| - 1]) then
      var r := TrimEnd(s[..|s| - 1]);
      assert s[|r|..] == s[..|s| - 1][|r|..] + [s[|s| - 1]];
      r
    else s
  }

  /** String.prototype.trim. */
  function Trim(s: string): (r: string)
    ensures |r| <= |s|
    ensures r == [] || (!IsWhitespace(r[0]) && !IsWhitespace(r[|r| - 1]))
    ensures r == [] <==> AllWhitespace(s)
  {
    var t := TrimStart(s);
    var r := TrimEnd(t);
    assert t != [] ==> t[0] == s[|s| - |t|];
    assert r == [] ==> t[|r|..] == t;
    assert t == [] ==> s[..|s| - |t|] == s;
    assert r != [] ==> r[0] == t[0];
    r
  }

  /** Text that is not empty and neither starts nor ends with whitespace. */
  predicate Trimmed(s: string) {
    s != "" && !IsWhitespace(s[0]) && !IsWhitespace(s[|s| - 1])
  }

  /** Trimmed text is its own trim. */
  lemma TrimmedIsFixed(s: string)
    requires Trimmed(s)
    ensures Trim(s) == s
  {
    assert TrimStart(s) == s;
    assert TrimEnd(s) == s;
  }

  /** Trimming twice is trimming once. */
  lemma {:induction false} TrimIdempotent(s: string)
    ensures Trim(Trim(s)) == Trim(s)
  {
    var r := Trim(s);
    assert r == [] || !IsWhitespace(r[0]);
    assert TrimStart(r) == r;
    assert r == [] || !IsWhitespace(r[|r| - 1]);
    assert TrimEnd(r) == r;
  }

  /** `x.trim() || null`. */
  function TrimOrNull(x: string): (r: Option<string>)
    ensures r.None? <==> AllWhitespace(x)
    ensures r.Some? ==> r.value == Trim(x) && r.value != ""
  {
    if Trim(x) == "" then None else Some(Trim(x))
  }

  lemma TrimOrNullIdempotent(x: string)
    ensures TrimOrNull(TrimOrNull(x).GetOr("")) == TrimOrNull(x)
  {
    if Trim(x) != "" {
      TrimIdempotent(x);
    } else {
      assert TrimOrNull(x).GetOr("") == "";
      assert Trim("") == "";
    }
  }

  // ---------------------------------------------------------------- case

  /** toLowerCase on one character, for the capital letters of Basic Latin,
      Latin-1 and Latin Extended-A that lower-case to a single character. */
  function LowerChar(c: char): (r: char)
    ensures r != c ==> c as int < 0x180 && r as int < 0x180
  {
    var n := c as int;
    if 'A' <= c <= 'Z' || (0xC0 <= n <= 0xDE && n != 0xD7) then (n + 32) as char
    else if (0x100 <= n <= 0x137 && n % 2 == 0 && n != 0x130) || (0x139 <= n <= 0x148 && n % 2 == 1)
         || (0x14A <= n <= 0x177 && n % 2 == 0) || (0x179 <= n <= 0x17E && n % 2 == 1) then (n + 1) as char
    else if n == 0x178 then 0xFF as char
    else c
  }

  /** A lower-cased character is its own lower case. */
  lemma LowerCharIdempotent(c: char)
    ensures LowerChar(LowerChar(c)) == LowerChar(c)
  {
  }

  /** Capitals with accents fold too: "CRÈME" lower-cases to "crème", and Ÿ to ÿ. */
  lemma AccentedCapitalsFold()
    ensures ToLower("CR\U{00C8}ME") == "cr\U{00E8}me"
    ensures LowerChar('\U{0178}') == '\U{00FF}' && LowerChar('\U{017D}') == '\U{017E}'
    ensures LowerChar('\U{0130}') == '\U{0130}' && LowerChar('\U{00D7}') == '\U{00D7}'
  {
  }

  function ToLower(s: string): (r: string)
    ensures |r| == |s|
    ensures forall i :: 0 <= i < |s| ==> r[i] == LowerChar(s[i])
  {
    if s == [] then [] else [LowerChar(s[0])] + ToLower(s[1..])
  }

  /** Lower-casing twice is lower-casing once. */
  lemma ToLowerIdempotent(s: string)
    ensures ToLower(ToLower(s)) == ToLower(s)
  {
    var t := ToLower(s);
    forall i | 0 <= i < |s| ensures LowerChar(t[i]) == t[i] {
      LowerCharIdempotent(s[i]);
    }
  }

  // ---------------------------------------------------------------- search

  /** pat occurs in s starting at position i. */
  predicate MatchAt(s: string, pat: string, i: nat) {
    i + |pat| <= |s| && s[i..i + |pat|] == pat
  }

  /** `hay.includes(needle)`: needle occurs at some position of hay. */
  predicate Contains(hay: string, needle: string) {
    exists i: nat | i <= |hay| :: MatchAt(hay, needle, i)
  }

  lemma ContainsEmpty(hay: string)
    ensures Contains(hay, "")
  {
    assert MatchAt(hay, "", 0);
  }

  lemma ContainsSelf(a: string, needle: string, b: string)
    ensures Contains(a + needle + b, needle)
  {
    var s := a + needle + b;
    assert s[|a|..|a| + |needle|] == needle;
    assert MatchAt(s, needle, |a|);
  }

  lemma ContainsExtend(hay: string, needle: string, a: string, b: string)
    requires Contains(hay, needle)
    ensures Contains(a + hay + b, needle)
  {
    var i: nat :| i <= |hay| && MatchAt(hay, needle, i);
    var s := a + hay + b;
    assert s[|a| + i..|a| + i + |needle|] == hay[i..i + |needle|];
    assert MatchAt(s, needle, |a| + i);
  }

  function IndexFrom(s: string, pat: string, k: nat): (r: Option<nat>)
    requires k <= |s| + 1
    ensures r.Some? ==> k <= r.value && MatchAt(s, pat, r.value)
    ensures r.Some? ==> forall j :: k <= j < r.value ==> !MatchAt(s, pat, j)
    ensures r.None? ==> forall j :: k <= j ==> !MatchAt(s, pat, j)
    decreases |s| + 1 - k
  {
    if k + |pat| > |s| then None
    else if s[k..k + |pat|] == pat then Some(k)
    else IndexFrom(s, pat, k + 1)
  }

  /** `s.indexOf(pat)`: the first position where pat occurs. */
  function IndexOf(s: string, pat: string): (r: Option<nat>)
    ensures r.Some? ==> MatchAt(s, pat, r.value)
    ensures r.Some? ==> forall j :: 0 <= j < r.value ==> !MatchAt(s, pat, j)
    ensures r.None? <==> forall j :: 0 <= j ==> !MatchAt(s, pat, j)
  {
    IndexFrom(s, pat, 0)
  }

  /** The text a replacement string `v` stands for when `replace` finds `matched`
      between `before` and `after` (GetSubstitution, section 22.1.3.19.1 of
      ECMA-262, with no capture groups): `$$` is one `$`, `$&` the match,
      `` $` `` the text before it, `$'` the text after it; any other `$` is literal. */
  function Substitute(v: string, matched: string, before: string, after: string): (r: string)
    ensures '$' !in v ==> r == v
  {
    if |v| < 2 then v
    else if v[0] == '$' && v[1] == '$' then "$" + Substitute(v[2..], matched, before, after)
    else if v[0] == '$' && v[1] == '&' then matched + Substitute(v[2..], matched, before, after)
    else if v[0] == '$' && v[1] == '`' then before + Substitute(v[2..], matched, before, after)
    else if v[0] == '$' && v[1] == '\'' then after + Substitute(v[2..], matched, before, after)
    else
      assert v == [v[0]] + v[1..];
      [v[0]] + Substitute(v[1..], matched, before, after)
  }

  /** No `$&`, `` $` `` or `$'` in `v`: the replacement quotes nothing of the subject. */
  predicate QuotesNothing(v: string) {
    forall i :: 0 <= i < |v| - 1 && v[i] == '$' ==> v[i + 1] != '&' && v[i + 1] != '`' && v[i + 1] != '\''
  }

  /** What a replacement that quotes nothing of the subject inserts. */
  function Expanded(v: string): (r: string)
    ensures forall c :: c in r ==> c in v
  {
    SubstituteChars(v, "", "", "");
    Substitute(v, "", "", "")
  }

  lemma {:induction false} SubstituteChars(v: string, matched: string, before: string, after: string)
    ensures forall c :: c in Substitute(v, matched, before, after) ==> c in v || c in matched || c in before || c in after
    decreases |v|
  {
    if |v| >= 2 {
      SubstituteChars(v[2..], matched, before, after);
      SubstituteChars(v[1..], matched, before, after);
      assert forall c :: c in v[2..] ==> c in v;
      assert forall c :: c in v[1..] ==> c in v;
    }
  }

  /** A replacement that quotes nothing of the subject inserts the same text wherever it lands. */
  lemma {:induction false} SubstituteQuotingNothing(v: string, matched: string, before: string, after: string)
    requires QuotesNothing(v)
    ensures Substitute(v, matched, before, after) == Expanded(v)
    decreases |v|
  {
    if |v| >= 2 {
      assert QuotesNothing(v[2..]) by {
        forall i | 0 <= i < |v[2..]| - 1 && v[2..][i] == '$'
          ensures v[2..][i + 1] != '&' && v[2..][i + 1] != '`' && v[2..][i + 1] != '\''
        { assert v[2..][i] == v[i + 2] && v[2..][i + 1] == v[i + 3]; }
      }
      assert QuotesNothing(v[1..]) by {
        forall i | 0 <= i < |v[1..]| - 1 && v[1..][i] == '$'
          ensures v[1..][i + 1] != '&' && v[1..][i + 1] != '`' && v[1..][i + 1] != '\''
        { assert v[1..][i] == v[i + 1] && v[1..][i + 1] == v[i + 2]; }
      }
      SubstituteQuotingNothing(v[2..], matched, before, after);
      SubstituteQuotingNothing(v[2..], "", "", "");
      SubstituteQuotingNothing(v[1..], matched, before, after);
      SubstituteQuotingNothing(v[1..], "", "", "");
    }
  }

  /** `$$` in a replacement inserts a single `$`; `$&` inserts the matched text. */
  lemma DollarPatterns(matched: string, before: string, after: string)
    ensures Substitute("$$", matched, before, after) == "$"
    ensures Substitute("$&", matched, before, after) == matched
    ensures Expanded("$$") == "$" && Expanded("$5") == "$5"
  {
    assert "$$"[2..] == [];
    assert "$&"[2..] == [];
    assert "$5"[1..] == "5";
  }

  /** `s.replace(pat, v)` with a string pattern: only the first occurrence is
      replaced, by `v` with its `$` patterns expanded. */
  function ReplaceFirst(s: string, pat: string, v: string): (r: string)
  {
    match IndexOf(s, pat)
    case None => s
    case Some(i) => s[..i] + Substitute(v, pat, s[..i], s[i + |pat|..]) + s[i + |pat|..]
  }

  /** When pat does not occur, replace leaves the string alone; otherwise the
      text before the first occurrence and everything after it (including any
      later occurrences) are kept. */
  lemma ReplaceFirstSpec(s: string, pat: string, v: string)
    ensures (forall j :: 0 <= j ==> !MatchAt(s, pat, j)) ==> ReplaceFirst(s, pat, v) == s
    ensures forall i: nat :: MatchAt(s, pat, i) && (forall j :: 0 <= j < i ==> !MatchAt(s, pat, j)) ==>
              ReplaceFirst(s, pat, v) == s[..i] + Substitute(v, pat, s[..i], s[i + |pat|..]) + s[i + |pat|..]
  {
    forall i: nat | MatchAt(s, pat, i) && (forall j :: 0 <= j < i ==> !MatchAt(s, pat, j))
      ensures ReplaceFirst(s, pat, v) == s[..i] + Substitute(v, pat, s[..i], s[i + |pat|..]) + s[i + |pat|..]
    {
      var r := IndexOf(s, pat);
      assert r.Some?;
      assert !(r.value < i) && !(i < r.value);
    }
  }

  lemma NoMatchAtDifferentHead(s: string, pat: string, j: nat)
    requires pat != [] && j < |s| && s[j] != pat[0]
    ensures !MatchAt(s, pat, j)
  {
    if j + |pat| <= |s| {
      assert s[j..j + |pat|][0] == s[j];
    }
  }

  /** Replacing a pattern whose first character the text does not hold changes nothing. */
  lemma ReplaceAbsent(s: string, pat: string, v: string)
    requires pat != [] && pat[0] !in s
    ensures ReplaceFirst(s, pat, v) == s
  {
    forall j | 0 <= j
      ensures !MatchAt(s, pat, j)
    {
      if j < |s| {
        NoMatchAtDifferentHead(s, pat, j);
      }
    }
    ReplaceFirstSpec(s, pat, v);
  }

  /** Replacing in `a + pat + b`, where `a` cannot hold the first character of
      pat, replaces exactly the displayed occurrence; a replacement that quotes
      nothing of the subject goes in as its expansion. */
  lemma {:induction false} ReplaceFirstAfterPrefix(a: string, pat: string, b: string, v: string)
    requires pat != [] && pat[0] !in a
    ensures ReplaceFirst(a + pat + b, pat, v) == a + Substitute(v, pat, a, b) + b
    ensures QuotesNothing(v) ==> ReplaceFirst(a + pat + b, pat, v) == a + Expanded(v) + b
  {
    var s := a + pat + b;
    assert MatchAt(s, pat, |a|) by { assert s[|a|..|a| + |pat|] == pat; }
    forall j | 0 <= j < |a| ensures !MatchAt(s, pat, j) {
      assert s[j] == a[j];
      NoMatchAtDifferentHead(s, pat, j);
    }
    ReplaceFirstSpec(s, pat, v);
    assert s[..|a|] == a;
    assert s[|a| + |pat|..] == b;
    if QuotesNothing(v) {
      SubstituteQuotingNothing(v, pat, a, b);
    }
  }

  // ---------------------------------------------------------------- split, join, replace-all

  /** Join with one separator character (`parts.join(sep)`). */
  function Join(parts: seq<string>, sep: char): string {
    if parts == [] then ""
    else if |parts| == 1 then parts[0]
    else parts[0] + [sep] + Join(parts[1..], sep)
  }

  /** Join with a separator string (`parts.join(sep)`). */
  function JoinWith(parts: seq<string>, sep: string): string {
    if parts == [] then ""
    else if |parts| == 1 then parts[0]
    else parts[0] + sep + JoinWith(parts[1..], sep)
  }

  /** The parts written one after the other (a template literal's pieces). */
  function Concat(parts: seq<string>): string {
    if parts == [] then "" else parts[0] + Concat(parts[1..])
  }

  /** Two neighbouring parts occur together in the concatenation. */
  lemma {:induction false} ConcatContainsPair(parts: seq<string>, i: nat)
    requires i + 1 < |parts|
    ensures Contains(Concat(parts), parts[i] + parts[i + 1])
  {
    if i == 0 {
      var rest := Concat(parts[2..]);
      assert parts[1..][1..] == parts[2..];
      assert Concat(parts) == parts[0] + (parts[1] + rest);
      ContainsSelf("", parts[0] + parts[1], rest);
      assert "" + (parts[0] + parts[1]) + rest == parts[0] + (parts[1] + rest);
    } else {
      ConcatContainsPair(parts[1..], i - 1);
      assert parts[1..][i - 1] == parts[i] && parts[1..][i] == parts[i + 1];
      ContainsExtend(Concat(parts[1..]), parts[i] + parts[i + 1], parts[0], "");
      assert parts[0] + Concat(parts[1..]) + "" == Concat(parts);
    }
  }

  /** Every part occurs in the joined text. */
  lemma {:induction false} JoinWithContains(parts: seq<string>, sep: string, i: nat)
    requires i < |parts|
    ensures Contains(JoinWith(parts, sep), parts[i])
  {
    if |parts| == 1 {
      ContainsSelf("", parts[0], "");
      assert "" + parts[0] + "" == parts[0];
    } else if i == 0 {
      var rest := JoinWith(parts[1..], sep);
      ContainsSelf("", parts[0], sep + rest);
      assert "" + parts[0] + (sep + rest) == parts[0] + sep + rest;
    } else {
      var rest := JoinWith(parts[1..], sep);
      JoinWithContains(parts[1..], sep, i - 1);
      ContainsExtend(rest, parts[i], parts[0] + sep, "");
      assert parts[0] + sep + rest + "" == parts[0] + sep + rest;
    }
  }

  /** `s.split(sep)` for a one-character separator: the pieces between
      separators, so there is always at least one piece and none of them
      holds the separator. */
  function Split(s: string, sep: char): (parts: seq<string>)
    ensures |parts| > 0
    ensures forall k :: 0 <= k < |parts| ==> sep !in parts[k]
  {
    if s == [] then [""]
    else
      var rest := Split(s[1..], sep);
      if s[0] == sep then
        var parts := [""] + rest;
        assert parts[1..] == rest;
        parts
      else
        var parts := [[s[0]] + rest[0]] + rest[1..];
        assert forall k :: 1 <= k < |parts| ==> parts[k] == rest[k];
        parts
  }

  /** Joining the pieces of a split with the separator gives the text back. */
  lemma {:induction false} JoinSplit(s: string, sep: char)
    ensures Join(Split(s, sep), sep) == s
  {
    if s != [] {
      JoinSplit(s[1..], sep);
      var rest := Split(s[1..], sep);
      if s[0] == sep {
        assert ([""] + rest)[1..] == rest;
        assert s == [sep] + s[1..];
      } else {
        var parts := [[s[0]] + rest[0]] + rest[1..];
        assert |rest| > 1 ==> Join(rest, sep) == rest[0] + [sep] + Join(rest[1..], sep);
        assert |parts| > 1 ==> parts[1..] == rest[1..];
        assert s == [s[0]] + s[1..];
      }
    }
  }

  /** A separator-free piece followed by the separator is split off on its own. */
  lemma {:induction false} SplitPrefix(p: string, t: string, sep: char)
    requires sep !in p
    ensures Split(p + [sep] + t, sep) == [p] + Split(t, sep)
  {
    var s := p + [sep] + t;
    if p == [] {
      assert s[0] == sep && s[1..] == t;
    } else {
      assert s[0] == p[0] && s[1..] == p[1..] + [sep] + t;
      SplitPrefix(p[1..], t, sep);
      assert [p[0]] + p[1..] == p;
    }
  }

  /** Text without the separator is one piece. */
  lemma {:induction false} SplitWhole(p: string, sep: char)
    requires sep !in p
    ensures Split(p, sep) == [p]
  {
    if p != [] {
      SplitWhole(p[1..], sep);
      assert [p[0]] + p[1..] == p;
    }
  }

  /** Splitting a join of pieces that hold no separator gives the pieces back. */
  lemma {:induction false} SplitJoin(parts: seq<string>, sep: char)
    requires |parts| > 0 && forall k :: 0 <= k < |parts| ==> sep !in parts[k]
    ensures Split(Join(parts, sep), sep) == parts
  {
    if |parts| == 1 {
      SplitWhole(parts[0], sep);
    } else {
      var rest := parts[1..];
      assert forall k :: 0 <= k < |rest| ==> rest[k] == parts[k + 1];
      SplitJoin(rest, sep);
      SplitPrefix(parts[0], Join(rest, sep), sep);
      assert [parts[0]] + rest == parts;
    }
  }

  /** `s.replace(/c/g, '')`: every occurrence of c removed. */
  function RemoveChar(s: string, c: char): (r: string)
    ensures c !in r
    ensures |r| <= |s|
    ensures c !in s ==> r == s
  {
    if s == [] then []
    else if s[0] == c then RemoveChar(s[1..], c)
    else [s[0]] + RemoveChar(s[1..], c)
  }

  /** Removing a character from a concatenation removes it from each part. */
  lemma {:induction false} RemoveCharAppend(a: string, b: string, c: char)
    ensures RemoveChar(a + b, c) == RemoveChar(a, c) + RemoveChar(b, c)
  {
    if a != [] {
      assert (a + b)[0] == a[0] && (a + b)[1..] == a[1..] + b;
      RemoveCharAppend(a[1..], b, c);
    } else {
      assert a + b == b;
    }
  }

  // ---------------------------------------------------------------- numbers

  function DigitChar(d: nat): char
    requires d < 10
  {
    "0123456789"[d]
  }

  function DigitValue(c: char): nat {
    if '0' <= c <= '9' then c as int - '0' as int else 0
  }

  /** Decimal text of a non-negative integer (`n.toString()`). */
  function NatToString(n: nat): (r: string)
    ensures |r| > 0
    ensures forall i :: 0 <= i < |r| ==> '0' <= r[i] <= '9'
  {
    if n < 10 then [DigitChar(n)] else NatToString(n / 10) + [DigitChar(n % 10)]
  }

  /** The number a string of decimal digits denotes. */
  function DecimalValue(s: string): nat {
    if s == [] then 0 else DecimalValue(s[..|s| - 1]) * 10 + DigitValue(s[|s| - 1])
  }

  /** Reading the decimal text back gives the number, so distinct numbers have distinct texts. */
  lemma {:induction false} DecimalRoundTrip(n: nat)
    ensures DecimalValue(NatToString(n)) == n
  {
    if n >= 10 {
      DecimalRoundTrip(n / 10);
      var s := NatToString(n);
      assert s[..|s| - 1] == NatToString(n / 10);
    }
  }

  lemma NatToStringInjective(m: nat, n: nat)
    requires NatToString(m) == NatToString(n)
    ensures m == n
  {
    DecimalRoundTrip(m);
    DecimalRoundTrip(n);
  }

  // ---------------------------------------------------------------- counting

  /** The number of elements of s that satisfy p (`s.filter(p).length`). */
  function CountWhere<T>(s: seq<T>, p: T -> bool): (r: nat)
    ensures r <= |s|
  {
    if s == [] then 0 else (if p(s[0]) then 1 else 0) + CountWhere(s[1..], p)
  }

  lemma {:induction false} CountWhereAppend<T>(a: seq<T>, b: seq<T>, p: T -> bool)
    ensures CountWhere(a + b, p) == CountWhere(a, p) + CountWhere(b, p)
  {
    if a == [] {
      assert a + b == b;
    } else {
      assert (a + b)[0] == a[0];
      assert (a + b)[1..] == a[1..] + b;
      CountWhereAppend(a[1..], b, p);
    }
  }

  /** s.filter(p), preserving order. */
  function Filter<T(!new)>(s: seq<T>, p: T -> bool): (r: seq<T>)
    ensures |r| == CountWhere(s, p)
    ensures forall x :: x in r <==> x in s && p(x)
  {
    if s == [] then []
    else if p(s[0]) then [s[0]] + Filter(s[1..], p)
    else Filter(s[1..], p)
  }

  /** Filtering distributes over concatenation, so the kept elements stay in order. */
  lemma {:induction false} FilterAppend<T(!new)>(a: seq<T>, b: seq<T>, p: T -> bool)
    ensures Filter(a + b, p) == Filter(a, p) + Filter(b, p)
  {
    if a == [] {
      assert a + b == b;
    } else {
      assert (a + b)[0] == a[0];
      assert (a + b)[1..] == a[1..] + b;
      FilterAppend(a[1..], b, p);
    }
  }

  lemma {:induction false} FilterAll<T(!new)>(s: seq<T>, p: T -> bool)
    requires forall x :: x in s ==> p(x)
    ensures Filter(s, p) == s
  {
    if s != [] {
      FilterAll(s[1..], p);
    }
  }

  /** Two conditions no element meets together count at most |s| elements between them. */
  lemma {:induction false} CountDisjoint<T(!new)>(s: seq<T>, p: T -> bool, q: T -> bool)
    requires forall x :: !(p(x) && q(x))
    ensures CountWhere(s, p) + CountWhere(s, q) <= |s|
  {
    if s != [] {
      CountDisjoint(s[1..], p, q);
    }
  }

  /** A condition and its negation count every element exactly once. */
  lemma {:induction false} CountComplement<T(!new)>(s: seq<T>, p: T -> bool, q: T -> bool)
    requires forall x :: q(x) == !p(x)
    ensures CountWhere(s, p) + CountWhere(s, q) == |s|
  {
    if s != [] {
      CountComplement(s[1..], p, q);
    }
  }
  /** No element occurs twice. */
  predicate Distinct<T(==)>(s: seq<T>) {
    forall i, j :: 0 <= i < j < |s| ==> s[i] != s[j]
  }

  lemma DistinctCons<T>(x: T, s: seq<T>)
    requires x !in s && Distinct(s)
    ensures Distinct([x] + s)
  {
    var t := [x] + s;
    forall i, j | 0 <= i < j < |t|
      ensures t[i] != t[j]
    {
      assert t[j] == s[j - 1];
      if i > 0 {
        assert t[i] == s[i - 1];
      }
    }
  }

  /** Filtering keeps a list free of duplicates. */
  lemma {:induction false} FilterDistinct<T(!new)>(s: seq<T>, p: T -> bool)
    requires Distinct(s)
    ensures Distinct(Filter(s, p))
  {
    if s != [] {
      assert Distinct(s[1..]) by {
        forall i, j | 0 <= i < j < |s[1..]|
          ensures s[1..][i] != s[1..][j]
        {
          assert s[1..][i] == s[i + 1] && s[1..][j] == s[j + 1];
        }
      }
      FilterDistinct(s[1..], p);
      if p(s[0]) {
        assert s[0] !in s[1..] by {
          forall k | 0 <= k < |s[1..]|
            ensures s[1..][k] != s[0]
          {
            assert s[1..][k] == s[k + 1];
          }
        }
        DistinctCons(s[0], Filter(s[1..], p));
      }
    }
  }
}
