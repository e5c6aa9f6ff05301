/** Python's `str()` of the containers the core renders into text: a list of
    strings, a string-valued dict and a list of such dicts. Each string inside
    is shown by `repr`, which picks its quote and escapes what needs escaping. */
module PyRepr {
  import opened Wrappers
  import Text

  /** `repr` quotes with '"' exactly when the string holds a single quote and no
      double quote, and with '\'' otherwise. */
  function QuoteChar(s: string): (q: char)
    ensures q == '\'' || q == '"'
  {
    if '\'' in s && '"' !in s then '"' else '\''
  }

  /** The lower-case hex digit of `k`. */
  function HexDigit(k: nat): (d: char)
    requires k < 16
  {
    if k < 10 then ('0' as int + k) as char else ('a' as int + k - 10) as char
  }

  /** The value of a lower-case hex digit, or None for any other character. */
  function HexValue(d: char): Option<nat>
  {
    if '0' <= d <= '9' then Some(d as int - '0' as int)
    else if 'a' <= d <= 'f' then Some(d as int - 'a' as int + 10)
    else None
  }

  /** The characters `repr` writes as `\xhh`: the C0 controls other than tab,
      newline and carriage return, DEL, the C1 controls, no-break space and
      soft hyphen. */
  predicate HexEscaped(c: char)
  {
    c as int < 0x20 || 0x7F <= c as int <= 0xA0 || c as int == 0xAD
  }

  /** How `repr` writes one character inside a literal quoted with `q`. */
  function Escaped(c: char, q: char): (r: string)
    ensures 1 <= |r| <= 4
    ensures |r| == 1 <==> r == [c]
  {
    if c == q || c == '\\' then ['\\', c]
    else if c == '\t' then "\\t"
    else if c == '\n' then "\\n"
    else if c == '\r' then "\\r"
    else if HexEscaped(c) then ['\\', 'x', HexDigit(c as int / 16), HexDigit(c as int % 16)]
    else [c]
  }

  /** The characters of `s` as `repr` writes them between the quotes. */
  function Body(s: string, q: char): string
  {
    if |s| == 0 then "" else Escaped(s[0], q) + Body(s[1..], q)
  }

  /** `repr(s)`. */
  function Quote(s: string): (r: string)
    ensures |r| >= 2 && r[0] == r[|r| - 1] == QuoteChar(s)
  {
    var q := QuoteChar(s);
    [q] + Body(s, q) + [q]
  }

  /** `c` put in front of a decoded string, if there is one. */
  function Prepend(c: char, r: Option<string>): Option<string>
  {
    match r
    case None => None
    case Some(t) => Some([c] + t)
  }

  /** Python's reading of the characters between the quotes `q` of a literal,
      restricted to the escapes `repr` writes; a bare `q` or any other escape is None. */
  function Decode(body: string, q: char): Option<string>
    decreases |body|
  {
    if |body| == 0 then Some("")
    else if body[0] != '\\' then
      if body[0] == q then None else Prepend(body[0], Decode(body[1..], q))
    else if |body| < 2 then None
    else if body[1] == '\\' || body[1] == '\'' || body[1] == '"' then Prepend(body[1], Decode(body[2..], q))
    else if body[1] == 't' then Prepend('\t', Decode(body[2..], q))
    else if body[1] == 'n' then Prepend('\n', Decode(body[2..], q))
    else if body[1] == 'r' then Prepend('\r', Decode(body[2..], q))
    else if body[1] == 'x' && |body| >= 4 && HexValue(body[2]).Some? && HexValue(body[3]).Some? then
      Prepend((16 * HexValue(body[2]).value + HexValue(body[3]).value) as char, Decode(body[4..], q))
    else None
  }

  /** Python's reading of a quoted string literal, as `Decode` restricts it. */
  function Unquote(r: string): Option<string>
  {
    if |r| >= 2 && (r[0] == '\'' || r[0] == '"') && r[|r| - 1] == r[0] then Decode(r[1..|r| - 1], r[0])
    else None
  }

  lemma HexRoundTrip(k: nat)
    requires k < 16
    ensures HexValue(HexDigit(k)) == Some(k)
  {
  }

  /** Reading back one written character gives that character, whatever follows it. */
  lemma DecodeEscaped(c: char, q: char, rest: string)
    requires q == '\'' || q == '"'
    ensures Decode(Escaped(c, q) + rest, q) == Prepend(c, Decode(rest, q))
  {
    var e := Escaped(c, q);
    if |e| == 1 {
      assert (e + rest)[1..] == rest;
    } else if |e| == 2 {
      assert (e + rest)[2..] == rest;
    } else {
      var n := c as int;
      HexRoundTrip(n / 16);
      HexRoundTrip(n % 16);
      assert (e + rest)[4..] == rest;
      assert (16 * (n / 16) + n % 16) as char == c;
    }
  }

  /** The written body of `s` reads back as `s`. */
  lemma {:induction false} DecodeBody(s: string, q: char)
    requires q == '\'' || q == '"'
    ensures Decode(Body(s, q), q) == Some(s)
    decreases |s|
  {
    if |s| > 0 {
      DecodeBody(s[1..], q);
      DecodeEscaped(s[0], q, Body(s[1..], q));
      assert [s[0]] + s[1..] == s;
    }
  }

  /** `repr` is read back by Python as the string it was made from. */
  lemma UnquoteQuote(s: string)
    ensures Unquote(Quote(s)) == Some(s)
  {
    var q := QuoteChar(s);
    var r := Quote(s);
    assert r[1..|r| - 1] == Body(s, q);
    DecodeBody(s, q);
  }

  /** A string of printable ASCII without quotes or backslashes is shown between
      single quotes as it is. */
  lemma PlainQuoted(s: string)
    requires forall i :: 0 <= i < |s| ==> ' ' <= s[i] <= '~' && s[i] != '\'' && s[i] != '"' && s[i] != '\\'
    ensures Quote(s) == "'" + s + "'"
  {
    PlainBody(s, '\'');
  }

  /** Printable ASCII other than the quote `q` and the backslash is written as it is. */
  lemma {:induction false} PlainBody(s: string, q: char)
    requires forall i :: 0 <= i < |s| ==> ' ' <= s[i] <= '~' && s[i] != q && s[i] != '\\'
    ensures Body(s, q) == s
    decreases |s|
  {
    if |s| > 0 {
      PlainBody(s[1..], q);
      assert [s[0]] + s[1..] == s;
    }
  }

  /** A string of printable ASCII with an apostrophe but no double quote or
      backslash, such as "O'Neil", is shown between double quotes as it is. */
  lemma DoubleQuoted(s: string)
    requires '\'' in s
    requires forall i :: 0 <= i < |s| ==> ' ' <= s[i] <= '~' && s[i] != '"' && s[i] != '\\'
    ensures Quote(s) == "\"" + s + "\""
  {
    PlainBody(s, '"');
  }

  /** A one-entry dict is its key and value, quoted, between braces. */
  lemma DictOfOne(key: string, value: string)
    ensures Dict([(key, value)]) == "{" + Quote(key) + ": " + Quote(value) + "}"
  {
    assert Entries([(key, value)]) == [Quote(key) + ": " + Quote(value)];
  }

  /** The entries of a dict as `str` writes them, `key: value`, in order. */
  function Entries(entries: seq<(string, string)>): (r: seq<string>)
    ensures |r| == |entries|
    ensures forall i :: 0 <= i < |r| ==> r[i] == Quote(entries[i].0) + ": " + Quote(entries[i].1)
  {
    seq(|entries|, i requires 0 <= i < |entries| => Quote(entries[i].0) + ": " + Quote(entries[i].1))
  }

  /** `str(d)` for a dict of strings given as its ordered entries. */
  function Dict(entries: seq<(string, string)>): string
  {
    "{" + Text.Join(", ", Entries(entries)) + "}"
  }

  /** `str(rows)` for a list of such dicts. */
  function DictList(rows: seq<seq<(string, string)>>): string
  {
    "[" + Text.Join(", ", seq(|rows|, i requires 0 <= i < |rows| => Dict(rows[i]))) + "]"
  }
}
