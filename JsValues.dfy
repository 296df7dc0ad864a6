/** The few JavaScript value semantics that the request handler and the form
    rely on: truthiness, the `||` operator, `String.prototype.trim`,
    `startsWith`, and `split(',')` as used to take the data part of a data URL
    (the data URL syntax of section 3 of RFC 2397). */
module JsValues {

  datatype Option<T> = None | Some(value: T)

  /** A value as it arrives from `JSON.parse` or sits in a JS variable.
      Numbers are modelled by their integer values; `NaN` is kept because it is
      falsy; fractional numbers are not modelled. */
  datatype JsValue =
    | Undefined
    | Null
    | Bool(b: bool)
    | Num(n: int)
    | NaN
    | Str(s: string)
    | Object

  /** JavaScript truthiness: `undefined`, `null`, `false`, `0`, `NaN` and `''`
      are the falsy values; everything else (objects included) is truthy. */
  predicate Truthy(v: JsValue)
  {
    match v
    case Undefined => false
    case Null => false
    case Bool(b) => b
    case Num(n) => n != 0
    case NaN => false
    case Str(s) => s != []
    case Object => true
  }

  /** The falsy values are exactly these six. */
  lemma FalsyValues(v: JsValue)
    ensures !Truthy(v) <==> v in {Undefined, Null, Bool(false), Num(0), NaN, Str("")}
  {
  }

  /** `a || b`: the first operand when it is truthy, otherwise the second. */
  function Or(a: JsValue, b: JsValue): (r: JsValue)
    ensures Truthy(a) ==> r == a
    ensures !Truthy(a) ==> r == b
    ensures Truthy(r) <==> Truthy(a) || Truthy(b)
  {
    if Truthy(a) then a else b
  }

  // ---------------------------------------------------------------------
  // String.prototype.trim

  /** The characters `trim` removes: ECMAScript WhiteSpace (TAB, VT, FF, SP,
      NBSP, ZWNBSP and the Unicode Zs category) and LineTerminator (LF, CR,
      LS, PS). */
  predicate IsJsWhitespace(c: char)
  {
    || c == '\t' || c == '\n' || c == '\U{000B}' || c == '\U{000C}' || c == '\r'
    || c == ' ' || c == '\U{00A0}' || c == '\U{1680}'
    || ('\U{2000}' <= c <= '\U{200A}')
    || c == '\U{2028}' || c == '\U{2029}' || c == '\U{202F}' || c == '\U{205F}'
    || c == '\U{3000}' || c == '\U{FEFF}'
  }

  predicate AllWhitespace(s: string)
  {
    forall i :: 0 <= i < |s| ==> IsJsWhitespace(s[i])
  }

  function TrimStart(s: string): (r: string)
    ensures |r| <= |s| && r == s[|s| - |r|..]
    ensures r == [] || !IsJsWhitespace(r[0])
    ensures AllWhitespace(s[..|s| - |r|])
  {
    if s != [] && IsJsWhitespace(s[0]) then
      var r := TrimStart(s[1..]);
      var cut := s[..|s| - |r|];
      assert cut[1..] == s[1..][..|s| - 1 - |r|];
      AllWhitespaceCons(cut);
      r
    else s
  }

  function TrimEnd(s: string): (r: string)
    ensures |r| <= |s| && r == s[..|r|]
    ensures r == [] || !IsJsWhitespace(r[|r| - 1])
    ensures AllWhitespace(s[|r|..])
  {
    if s != [] && IsJsWhitespace(s[|s| - 1]) then
      var r := TrimEnd(s[..|s| - 1]);
      assert s[|r|..] == s[..|s| - 1][|r|..] + [s[|s| - 1]];
      r
    else s
  }

  /** `s.trim()`: `s` with the whitespace removed from both ends, that is,
      the infix left after cutting an all-whitespace prefix and suffix, and
      which neither starts nor ends with a whitespace character. */
  function Trim(s: string): (r: string)
    ensures |r| <= |s|
    ensures r == [] || (!IsJsWhitespace(r[0]) && !IsJsWhitespace(r[|r| - 1]))
    ensures exists k :: && 0 <= k <= |s| && r <= s[k..]
                        && AllWhitespace(s[..k]) && AllWhitespace(s[k + |r|..])
  {
    var t := TrimStart(s);
    var r := TrimEnd(t);
    var k := |s| - |t|;
    assert r <= s[k..];
    assert s[k + |r|..] == t[|r|..];
    r
  }

  /** A string is all whitespace iff its first character is and its rest is. */
  lemma AllWhitespaceCons(s: string)
    requires s != []
    ensures AllWhitespace(s) <==> IsJsWhitespace(s[0]) && AllWhitespace(s[1..])
  {
    if IsJsWhitespace(s[0]) && AllWhitespace(s[1..]) {
      forall i | 0 <= i < |s| ensures IsJsWhitespace(s[i]) {
        if i > 0 { assert s[i] == s[1..][i - 1]; }
      }
    }
  }

  lemma {:induction false} TrimStartEmpty(s: string)
    ensures TrimStart(s) == [] <==> AllWhitespace(s)
  {
    if s != [] {
      AllWhitespaceCons(s);
      if IsJsWhitespace(s[0]) {
        TrimStartEmpty(s[1..]);
      }
    }
  }

  lemma {:induction false} TrimEndEmptyOnlyIfEmpty(s: string)
    ensures TrimEnd(s) == [] ==> s == [] || IsJsWhitespace(s[0])
  {
    if s != [] && IsJsWhitespace(s[|s| - 1]) {
      TrimEndEmptyOnlyIfEmpty(s[..|s| - 1]);
      if |s| > 1 { assert s[..|s| - 1][0] == s[0]; }
    }
  }

  /** `s.trim()` is empty exactly when every character of `s` is whitespace:
      this is what `!text.trim()` tests. */
  lemma TrimEmptyIffAllWhitespace(s: string)
    ensures Trim(s) == [] <==> AllWhitespace(s)
  {
    TrimStartEmpty(s);
    var t := TrimStart(s);
    TrimEndEmptyOnlyIfEmpty(t);
  }

  /** A string that is not blank is non-empty, hence truthy. */
  lemma NotBlankIsTruthy(s: string)
    requires !AllWhitespace(s)
    ensures s != [] && Truthy(Str(s))
  {
  }

  // ---------------------------------------------------------------------
  // startsWith

  /** `s.startsWith(prefix)` */
  predicate StartsWith(s: string, prefix: string)
  {
    prefix <= s
  }

  // ---------------------------------------------------------------------
  // split(',') and the data part of a data URL

  /** `s.split(',')`: the maximal comma-free pieces of `s`, in order. */
  function SplitComma(s: string): (r: seq<string>)
    ensures |r| >= 1
  {
    if s == [] then [[]]
    else if s[0] == ',' then [[]] + SplitComma(s[1..])
    else
      var rest := SplitComma(s[1..]);
      [[s[0]] + rest[0]] + rest[1..]
  }

  /** Inverse of `split(',')`: `parts.join(',')`. */
  function JoinComma(parts: seq<string>): (s: string)
    requires |parts| >= 1
  {
    if |parts| == 1 then parts[0] else parts[0] + "," + JoinComma(parts[1..])
  }

  /** Joining the pieces back with commas gives the original string. */
  lemma {:induction false} JoinSplit(s: string)
    ensures JoinComma(SplitComma(s)) == s
  {
    if s != [] {
      var rest := SplitComma(s[1..]);
      JoinSplit(s[1..]);
      var r := SplitComma(s);
      if s[0] == ',' {
        assert r == [[]] + rest && r[1..] == rest;
        assert JoinComma(r) == [] + "," + s[1..];
      } else {
        assert r == [[s[0]] + rest[0]] + rest[1..];
        assert rest == [rest[0]] + rest[1..];
        JoinConsHead(s[0], rest[0], rest[1..]);
      }
      assert s == [s[0]] + s[1..];
    }
  }

  /** Putting a character in front of the first piece puts it in front of
      the joined string. */
  lemma JoinConsHead(c: char, p: string, ps: seq<string>)
    ensures JoinComma([[c] + p] + ps) == [c] + JoinComma([p] + ps)
  {
    if ps == [] {
      assert [[c] + p] + ps == [[c] + p] && [p] + ps == [p];
    } else {
      assert ([[c] + p] + ps)[1..] == ps && ([p] + ps)[1..] == ps;
      assert ([c] + p) + "," + JoinComma(ps) == [c] + (p + "," + JoinComma(ps));
    }
  }

  /** No piece of the split contains a comma. */
  lemma {:induction false} SplitPiecesCommaFree(s: string)
    ensures forall k :: 0 <= k < |SplitComma(s)| ==> ',' !in SplitComma(s)[k]
  {
    if s != [] {
      SplitPiecesCommaFree(s[1..]);
    }
  }

  /** Splitting `h + rest` where `h` has no comma glues `h` onto the first piece. */
  lemma {:induction false} SplitCommaFreePrefix(h: string, rest: string)
    requires ',' !in h
    ensures SplitComma(h + rest) ==
            [h + SplitComma(rest)[0]] + SplitComma(rest)[1..]
  {
    if h != [] {
      assert (h + rest)[0] == h[0];
      assert (h + rest)[1..] == h[1..] + rest;
      SplitCommaFreePrefix(h[1..], rest);
      assert [h[0]] + (h[1..] + SplitComma(rest)[0]) == h + SplitComma(rest)[0];
    } else {
      var r := SplitComma(rest);
      assert h + rest == rest && h + r[0] == r[0];
      assert r == [r[0]] + r[1..];
    }
  }

  /** `s.split(',')[1]`: the text between the first and the second comma, or
      `undefined` (None) when `s` has no comma. */
  function DataPart(s: string): (r: Option<string>)
    ensures r.Some? <==> ',' in s
    ensures r.Some? ==> ',' !in r.value
  {
    SplitPiecesCommaFree(s);
    JoinSplit(s);
    var parts := SplitComma(s);
    if |parts| >= 2 then Some(parts[1])
    else
      assert ',' !in parts[0];
      None
  }

  /** For a data URL `data:<mediatype>;base64,<data>` (the header and the data
      carry no comma), the split gives back exactly the data. */
  lemma DataPartOfDataUrl(header: string, data: string)
    requires ',' !in header && ',' !in data
    ensures DataPart(header + "," + data) == Some(data)
  {
    SplitCommaFreePrefix(data, []);
    assert data + [] == data;
    assert SplitComma([]) == [[]];
    assert SplitComma(data) == [data];
    assert SplitComma("," + data) == [[]] + SplitComma(data);
    SplitCommaFreePrefix(header, "," + data);
    assert header + "," + data == header + ("," + data);
    assert SplitComma("," + data) == [[], data];
    assert SplitComma(header + "," + data) == [header + []] + [data];
    assert header + [] == header;
  }
}
