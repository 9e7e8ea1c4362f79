/** urlencode and parse_qsl with keep_blank_values, on bytes: a character is one byte of the UTF-8 text. */
module Query {
  import opened Wrappers

  type Octet = c: char | c as int < 256 witness 'a'

  type Text = seq<Octet>

  /** A name and its value. */
  type Pair = (Text, Text)

  // ---------------------------------------------------------------- percent-encoding

  /** Section 2.3 of RFC 3986. */
  predicate Unreserved(c: Octet) {
    'a' <= c <= 'z' || 'A' <= c <= 'Z' || '0' <= c <= '9' || c == '-' || c == '.' || c == '_' || c == '~'
  }

  function Hex(d: int): Octet
    requires 0 <= d < 16
  {
    if d < 10 then (48 + d) as char else (55 + d) as char
  }

  function HexValue(c: Octet): Option<int> {
    if '0' <= c <= '9' then Some(c as int - 48)
    else if 'A' <= c <= 'F' then Some(c as int - 55)
    else if 'a' <= c <= 'f' then Some(c as int - 87)
    else None
  }

  function QuoteOne(c: Octet): Text {
    if Unreserved(c) then [c] else if c == ' ' then ['+'] else ['%', Hex(c as int / 16), Hex(c as int % 16)]
  }

  function Quote(s: Text): Text {
    if s == [] then [] else QuoteOne(s[0]) + Quote(s[1..])
  }

  /** unquote_plus: '+' is a space, '%' without two hex digits stands for itself. */
  function Unquote(s: Text): Text {
    if s == [] then []
    else if s[0] == '+' then [' '] + Unquote(s[1..])
    else if s[0] == '%' && |s| >= 3 && HexValue(s[1]).Some? && HexValue(s[2]).Some?
    then [(HexValue(s[1]).value * 16 + HexValue(s[2]).value) as char] + Unquote(s[3..])
    else [s[0]] + Unquote(s[1..])
  }

  lemma HexRoundTrip(d: int)
    requires 0 <= d < 16
    ensures HexValue(Hex(d)) == Some(d)
  {
  }

  lemma {:induction false} UnquoteQuote(s: Text)
    ensures Unquote(Quote(s)) == s
  {
    if s != [] {
      var c, rest := s[0], Quote(s[1..]);
      UnquoteQuote(s[1..]);
      var q := QuoteOne(c) + rest;
      if Unreserved(c) || c == ' ' {
        assert q[1..] == rest;
      } else {
        HexRoundTrip(c as int / 16);
        HexRoundTrip(c as int % 16);
        assert q[3..] == rest && q[0] == '%' && q[1] == Hex(c as int / 16) && q[2] == Hex(c as int % 16);
      }
      assert [c] + s[1..] == s;
    }
  }

  /** The characters a query must not contain bare. */
  predicate Safe(s: Text) {
    forall i | 0 <= i < |s| :: s[i] != '&' && s[i] != '=' && s[i] != '#' && s[i] != '?' && s[i] > ' '
  }

  lemma {:induction false} QuoteIsSafe(s: Text)
    ensures Safe(Quote(s))
  {
    if s != [] {
      QuoteIsSafe(s[1..]);
      assert Safe(QuoteOne(s[0]));
    }
  }

  // ---------------------------------------------------------------- cutting at a separator

  /** Python's s.split(sep, 1), with the absent second half as None. */
  function Cut(s: Text, sep: Octet): (r: (Text, Option<Text>))
    ensures sep !in r.0
    ensures r.1.None? ==> s == r.0
    ensures r.1.Some? ==> s == r.0 + [sep] + r.1.value
  {
    if s == [] then ([], None)
    else if s[0] == sep then ([], Some(s[1..]))
    else
      var (a, b) := Cut(s[1..], sep);
      ([s[0]] + a, b)
  }

  lemma {:induction false} CutAt(a: Text, sep: Octet, b: Text)
    requires sep !in a
    ensures Cut(a + [sep] + b, sep) == (a, Some(b))
  {
    var s := a + [sep] + b;
    if a == [] {
      assert s[1..] == b;
    } else {
      assert s[1..] == a[1..] + [sep] + b && s[0] == a[0];
      CutAt(a[1..], sep, b);
      assert [a[0]] + a[1..] == a;
    }
  }

  lemma {:induction false} CutNowhere(a: Text, sep: Octet)
    requires sep !in a
    ensures Cut(a, sep) == (a, None)
  {
    if a != [] {
      CutNowhere(a[1..], sep);
    }
  }

  // ---------------------------------------------------------------- pairs

  function PrintPair(p: Pair): Text { Quote(p.0) + ['='] + Quote(p.1) }

  /** urlencode of a list of pairs. */
  function Print(pairs: seq<Pair>): Text {
    if pairs == [] then []
    else if |pairs| == 1 then PrintPair(pairs[0])
    else PrintPair(pairs[0]) + ['&'] + Print(pairs[1..])
  }

  /** One field: nothing, a name alone, or a name and a value. */
  function ParseField(field: Text): seq<Pair> {
    if field == [] then []
    else
      var (name, value) := Cut(field, '=');
      [(Unquote(name), if value.Some? then Unquote(value.value) else [])]
  }

  /** parse_qsl. */
  function Parse(s: Text): seq<Pair>
    decreases |s|
  {
    var (field, rest) := Cut(s, '&');
    ParseField(field) + if rest.Some? then Parse(rest.value) else []
  }

  lemma PrintedPair(p: Pair)
    ensures PrintPair(p) != [] && '&' !in PrintPair(p) && '#' !in PrintPair(p) && '?' !in PrintPair(p)
    ensures forall i | 0 <= i < |PrintPair(p)| :: PrintPair(p)[i] > ' '
    ensures ParseField(PrintPair(p)) == [p]
  {
    PrintedPairIsClean(p);
    QuoteIsSafe(p.0);
    CutAt(Quote(p.0), '=', Quote(p.1));
    UnquoteQuote(p.0);
    UnquoteQuote(p.1);
  }

  lemma PrintedPairIsClean(p: Pair)
    ensures PrintPair(p) != [] && '&' !in PrintPair(p) && '#' !in PrintPair(p) && '?' !in PrintPair(p)
    ensures forall i | 0 <= i < |PrintPair(p)| :: PrintPair(p)[i] > ' '
  {
    QuoteIsSafe(p.0);
    QuoteIsSafe(p.1);
    var n := |Quote(p.0)|;
    forall i | 0 <= i < |PrintPair(p)|
      ensures PrintPair(p)[i] > ' ' && PrintPair(p)[i] != '&' && PrintPair(p)[i] != '#' && PrintPair(p)[i] != '?'
    {
      assert PrintPair(p)[i] == if i < n then Quote(p.0)[i] else if i == n then '=' else Quote(p.1)[i - n - 1];
    }
  }

  /** Every list of pairs survives being printed and parsed, in order, duplicates and blanks included. */
  lemma {:induction false} ParsePrint(pairs: seq<Pair>)
    ensures Parse(Print(pairs)) == pairs
  {
    if |pairs| == 1 {
      PrintedPair(pairs[0]);
      CutNowhere(PrintPair(pairs[0]), '&');
      assert pairs == [pairs[0]];
    } else if pairs != [] {
      PrintedPair(pairs[0]);
      CutAt(PrintPair(pairs[0]), '&', Print(pairs[1..]));
      ParsePrint(pairs[1..]);
      assert pairs == [pairs[0]] + pairs[1..];
    }
  }

  /** A printed query holds no '#', no '?' and nothing a URL parser strips. */
  lemma {:induction false} PrintIsClean(pairs: seq<Pair>)
    ensures '#' !in Print(pairs) && '?' !in Print(pairs)
    ensures forall i | 0 <= i < |Print(pairs)| :: Print(pairs)[i] > ' '
    ensures Print(pairs) == [] <==> pairs == []
  {
    if |pairs| == 1 {
      PrintedPair(pairs[0]);
    } else if pairs != [] {
      PrintedPair(pairs[0]);
      PrintIsClean(pairs[1..]);
    }
  }

  // ---------------------------------------------------------------- Python dicts

  /** A dict is its items in insertion order. */
  predicate IsDict(d: seq<Pair>) { forall i, j | 0 <= i < j < |d| :: d[i].0 != d[j].0 }

  /** d[k] = v: in place if k is there, else at the end. */
  function Put(d: seq<Pair>, k: Text, v: Text): seq<Pair> {
    if d == [] then [(k, v)]
    else if d[0].0 == k then [(k, v)] + d[1..]
    else [d[0]] + Put(d[1..], k, v)
  }

  /** d.pop(k, None). */
  function Pop(d: seq<Pair>, k: Text): seq<Pair> {
    if d == [] then []
    else if d[0].0 == k then Pop(d[1..], k)
    else [d[0]] + Pop(d[1..], k)
  }

  /** dict(pairs): each name where it first stood, with its last value. */
  function Dict(pairs: seq<Pair>): seq<Pair> {
    if pairs == [] then [] else Put(Dict(pairs[..|pairs| - 1]), pairs[|pairs| - 1].0, pairs[|pairs| - 1].1)
  }

  /** The last value of a name, which is what a lookup in the dict returns. */
  function Last(pairs: seq<Pair>, k: Text): Option<Text> {
    if pairs == [] then None
    else if pairs[|pairs| - 1].0 == k then Some(pairs[|pairs| - 1].1)
    else Last(pairs[..|pairs| - 1], k)
  }

  /** Lookup in a dict. */
  function Lookup(d: seq<Pair>, k: Text): Option<Text> {
    if d == [] then None else if d[0].0 == k then Some(d[0].1) else Lookup(d[1..], k)
  }

  predicate HasKey(d: seq<Pair>, k: Text) { exists i | 0 <= i < |d| :: d[i].0 == k }

  lemma {:induction false} LookupPut(d: seq<Pair>, k: Text, v: Text, x: Text)
    ensures Lookup(Put(d, k, v), x) == if x == k then Some(v) else Lookup(d, x)
  {
    if d != [] && d[0].0 != k {
      LookupPut(d[1..], k, v, x);
    }
  }

  lemma {:induction false} LookupPop(d: seq<Pair>, k: Text, x: Text)
    ensures Lookup(Pop(d, k), x) == if x == k then None else Lookup(d, x)
  {
    if d != [] {
      LookupPop(d[1..], k, x);
    }
  }

  lemma {:induction false} LookupDict(pairs: seq<Pair>, k: Text)
    ensures Lookup(Dict(pairs), k) == Last(pairs, k)
  {
    if pairs != [] {
      var last := pairs[|pairs| - 1];
      LookupPut(Dict(pairs[..|pairs| - 1]), last.0, last.1, k);
      LookupDict(pairs[..|pairs| - 1], k);
    }
  }

  lemma {:induction false} KeysOfPut(d: seq<Pair>, k: Text, v: Text, x: Text)
    ensures HasKey(Put(d, k, v), x) <==> x == k || HasKey(d, x)
  {
    if d == [] {
      assert Put(d, k, v)[0].0 == k;
    } else {
      var made := Put(d, k, v);
      assert made[0].0 == d[0].0;
      if d[0].0 != k {
        KeysOfPut(d[1..], k, v, x);
        assert made[1..] == Put(d[1..], k, v);
      } else {
        assert made[1..] == d[1..];
      }
      assert HasKey(made, x) <==> made[0].0 == x || HasKey(made[1..], x) by { HasKeySplit(made, x); }
      assert HasKey(d, x) <==> d[0].0 == x || HasKey(d[1..], x) by { HasKeySplit(d, x); }
    }
  }

  lemma HasKeySplit(d: seq<Pair>, x: Text)
    requires d != []
    ensures HasKey(d, x) <==> d[0].0 == x || HasKey(d[1..], x)
  {
    if HasKey(d, x) {
      var i :| 0 <= i < |d| && d[i].0 == x;
      assert i == 0 || d[1..][i - 1].0 == x;
    }
    if HasKey(d[1..], x) {
      var i :| 0 <= i < |d[1..]| && d[1..][i].0 == x;
      assert d[i + 1].0 == x;
    }
  }

  lemma {:induction false} PutKeepsDict(d: seq<Pair>, k: Text, v: Text)
    requires IsDict(d)
    ensures IsDict(Put(d, k, v))
  {
    if d != [] && d[0].0 != k {
      PutKeepsDict(d[1..], k, v);
      var rest := Put(d[1..], k, v);
      KeysOfPut(d[1..], k, v, d[0].0);
      assert !HasKey(d[1..], d[0].0);
      assert forall i | 0 <= i < |rest| :: rest[i].0 != d[0].0;
    }
  }

  lemma {:induction false} DictIsDict(pairs: seq<Pair>)
    ensures IsDict(Dict(pairs))
  {
    if pairs != [] {
      var last := pairs[|pairs| - 1];
      DictIsDict(pairs[..|pairs| - 1]);
      PutKeepsDict(Dict(pairs[..|pairs| - 1]), last.0, last.1);
    }
  }

  lemma {:induction false} PopIsClean(d: seq<Pair>, k: Text)
    requires IsDict(d)
    ensures IsDict(Pop(d, k)) && !HasKey(Pop(d, k), k)
    ensures forall x :: HasKey(Pop(d, k), x) ==> HasKey(d, x)
  {
    if d != [] {
      PopIsClean(d[1..], k);
      var rest := Pop(d[1..], k);
      forall x ensures HasKey(Pop(d, k), x) ==> HasKey(d, x) {
        HasKeySplit(d, x);
        if d[0].0 != k {
          HasKeySplit(Pop(d, k), x);
        }
      }
      if d[0].0 != k {
        assert !HasKey(d[1..], d[0].0);
        assert forall i | 0 <= i < |rest| :: rest[i].0 != d[0].0;
      }
    }
  }

  lemma {:induction false} PutNew(d: seq<Pair>, k: Text, v: Text)
    requires !HasKey(d, k)
    ensures Put(d, k, v) == d + [(k, v)]
  {
    if d != [] {
      assert d[0].0 != k;
      forall i | 0 <= i < |d[1..]| ensures d[1..][i].0 != k {
        assert d[1..][i] == d[i + 1];
      }
      PutNew(d[1..], k, v);
    }
  }

  /** A dict read from its own items is the same dict. */
  lemma {:induction false} DictOfDict(d: seq<Pair>)
    requires IsDict(d)
    ensures Dict(d) == d
  {
    if d != [] {
      var last := |d| - 1;
      DictOfDict(d[..last]);
      PutNew(d[..last], d[last].0, d[last].1);
      assert d == d[..last] + [d[last]];
    }
  }
}
