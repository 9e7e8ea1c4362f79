/** URLs that carry the locale (i18n.py). */
module Locale {
  import opened Query
  import opened Wrappers

  const LANG: Text := "lang"
  const EN: Text := "en"
  const AR: Text := "ar"

  predicate Supported(locale: Text) { locale == EN || locale == AR }

  // ---------------------------------------------------------------- urlsplit and urlunsplit

  function LStrip(s: Text): Text { if s != [] && s[0] <= ' ' then LStrip(s[1..]) else s }

  predicate Removable(c: Octet) { c == '\t' || c == '\r' || c == '\n' }

  function Removed(s: Text): Text {
    if s == [] then [] else if Removable(s[0]) then Removed(s[1..]) else [s[0]] + Removed(s[1..])
  }

  predicate Letter(c: Octet) { 'a' <= c <= 'z' || 'A' <= c <= 'Z' }

  predicate SchemeChar(c: Octet) { Letter(c) || '0' <= c <= '9' || c == '+' || c == '-' || c == '.' }

  predicate IsScheme(s: Text) { s != [] && Letter(s[0]) && forall i | 0 <= i < |s| :: SchemeChar(s[i]) }

  function DropScheme(s: Text): Text {
    var (before, after) := Cut(s, ':');
    if after.Some? && IsScheme(before) then after.value else s
  }

  /** From the first '/', '?' or '#' on. */
  function AfterNetloc(s: Text): Text {
    if s == [] || s[0] == '/' || s[0] == '?' || s[0] == '#' then s else AfterNetloc(s[1..])
  }

  function DropNetloc(s: Text): Text {
    if |s| >= 2 && s[0] == '/' && s[1] == '/' then AfterNetloc(s[2..]) else s
  }

  datatype Parts = Parts(path: Text, query: Text, fragment: Text)

  function OrEmpty(t: Option<Text>): Text { if t.Some? then t.value else [] }

  /** urlsplit; scheme and host are not used further. */
  function Split(url: Text): Parts {
    var (before, fragment) := Cut(DropNetloc(DropScheme(Removed(LStrip(url)))), '#');
    var (path, query) := Cut(before, '?');
    Parts(path, OrEmpty(query), OrEmpty(fragment))
  }

  predicate LikeHost(p: Text) { |p| >= 2 && p[0] == '/' && p[1] == '/' }

  /** A path that would read as a host is guarded by two more slashes in newer releases of Python (`guard`), and not in
      older ones; the image of the service, python:3.12-slim, does not say which. */
  function Guarded(p: Text, guard: bool): Text { if guard && LikeHost(p) then "//" + p else p }

  function Marked(mark: Octet, part: Text): Text { if part == [] then [] else [mark] + part }

  /** urlunsplit without scheme and host. */
  function Join(p: Parts, guard: bool): Text {
    Guarded(p.path, guard) + Marked('?', p.query) + Marked('#', p.fragment)
  }

  // ---------------------------------------------------------------- with_locale

  function OrSlash(path: Text): Text { if path == [] then "/" else path }

  function Effective(locale: Text): Text { if Supported(locale) then locale else EN }

  /** The query dict with the locale set, or without it for English. */
  function SetLang(d: seq<Pair>, locale: Text): seq<Pair> {
    if Effective(locale) == EN then Pop(d, LANG) else Put(d, LANG, Effective(locale))
  }

  function WithLocale(path: Text, locale: Text, guard: bool): Text {
    var parts := Split(OrSlash(path));
    Join(Parts(OrSlash(parts.path), Print(SetLang(Dict(Parse(parts.query)), locale)), parts.fragment), guard)
  }

  /** switch_locale_href: other parameters first, lang last. */
  function SwitchHref(path: Text, query: Text, locale: Text): Text {
    OrSlash(path) + ['?'] + Print(Put(Dict(Others(Parse(query))), LANG, Effective(locale)))
  }

  function Others(pairs: seq<Pair>): seq<Pair> { Pop(pairs, LANG) }

  // ---------------------------------------------------------------- splitting what was joined

  predicate Clean(s: Text) { forall i | 0 <= i < |s| :: !Removable(s[i]) }

  predicate NoMarks(s: Text) { '?' !in s && '#' !in s }

  lemma {:induction false} RemovedIsClean(s: Text)
    ensures Clean(Removed(s))
    ensures Clean(s) ==> Removed(s) == s
  {
    if s != [] {
      RemovedIsClean(s[1..]);
      assert s == [s[0]] + s[1..];
    }
  }

  /** What urlsplit makes of a bare path. */
  function CorePath(p: Text): Text { DropNetloc(DropScheme(LStrip(p))) }

  predicate Tail(t: Text) { t == [] || t[0] == '?' || t[0] == '#' }

  lemma {:induction false} LStripTail(p: Text, t: Text)
    requires NoMarks(p) && Tail(t)
    ensures LStrip(p + t) == LStrip(p) + t && NoMarks(LStrip(p)) && |LStrip(p)| <= |p|
    ensures LStrip(p) == p <==> p == [] || p[0] > ' '
    ensures LStrip(p) != p ==> |LStrip(p)| < |p|
    ensures Clean(p) ==> Clean(LStrip(p))
  {
    if p == [] {
      assert p + t == t;
    } else if p[0] <= ' ' {
      assert (p + t)[1..] == p[1..] + t;
      LStripTail(p[1..], t);
    }
  }

  lemma DropSchemeTail(p: Text, t: Text)
    requires NoMarks(p) && Tail(t)
    ensures DropScheme(p + t) == DropScheme(p) + t && NoMarks(DropScheme(p)) && |DropScheme(p)| <= |p|
    ensures DropScheme(p) != p ==> |DropScheme(p)| < |p|
    ensures DropScheme(p) == p <==> !(Cut(p, ':').1.Some? && IsScheme(Cut(p, ':').0))
    ensures Clean(p) ==> Clean(DropScheme(p))
  {
    var (a, b) := Cut(p, ':');
    if b.Some? {
      CutAt(a, ':', b.value + t);
      assert p + t == a + [':'] + (b.value + t);
      assert b.value == p[|a| + 1..];
    } else {
      var (a', b') := Cut(p + t, ':');
      if b'.Some? {
        NoColonInside(p, t, a', b'.value);
      }
    }
  }

  /** If the first colon is behind the path, what stands before it is no scheme. */
  lemma NoColonInside(p: Text, t: Text, a: Text, b: Text)
    requires ':' !in p && Tail(t) && p + t == a + [':'] + b
    ensures !IsScheme(a)
  {
    assert (p + t)[|a|] == ':';
    assert |a| >= |p|;
    assert t != [] && (p + t)[|p|] == t[0];
    assert |a| > |p|;
    assert a[|p|] == t[0] && !SchemeChar(t[0]);
  }

  lemma {:induction false} AfterNetlocTail(p: Text, t: Text)
    requires NoMarks(p) && Tail(t)
    ensures AfterNetloc(p + t) == AfterNetloc(p) + t && NoMarks(AfterNetloc(p)) && |AfterNetloc(p)| <= |p|
    ensures Clean(p) ==> Clean(AfterNetloc(p))
  {
    if p == [] {
      assert p + t == t;
    } else if p[0] != '/' {
      assert (p + t)[1..] == p[1..] + t;
      AfterNetlocTail(p[1..], t);
    }
  }

  lemma DropNetlocTail(p: Text, t: Text)
    requires NoMarks(p) && Tail(t)
    ensures DropNetloc(p + t) == DropNetloc(p) + t && NoMarks(DropNetloc(p)) && |DropNetloc(p)| <= |p|
    ensures DropNetloc(p) != p ==> |DropNetloc(p)| < |p|
    ensures DropNetloc(p) == p <==> !(|p| >= 2 && p[0] == '/' && p[1] == '/')
    ensures Clean(p) ==> Clean(DropNetloc(p))
  {
    if |p| >= 2 && p[0] == '/' && p[1] == '/' {
      assert (p + t)[2..] == p[2..] + t;
      AfterNetlocTail(p[2..], t);
    }
  }

  lemma CorePathTail(p: Text, t: Text)
    requires NoMarks(p) && Clean(p) && Tail(t) && Clean(t)
    ensures DropNetloc(DropScheme(Removed(LStrip(p + t)))) == CorePath(p) + t
    ensures NoMarks(CorePath(p))
  {
    LStripTail(p, t);
    RemovedIsClean(LStrip(p) + t);
    DropSchemeTail(LStrip(p), t);
    DropNetlocTail(DropScheme(LStrip(p)), t);
  }

  lemma SplitPath(path: Text, query: Text, fragment: Text)
    requires NoMarks(path) && Clean(path) && Clean(query) && Clean(fragment) && '#' !in query
    ensures Split(path + Marked('?', query) + Marked('#', fragment)) == Parts(CorePath(path), query, fragment)
  {
    var q, f, core := Marked('?', query), Marked('#', fragment), CorePath(path);
    assert path + q + f == path + (q + f);
    assert Tail(q + f) && Clean(q + f);
    CorePathTail(path, q + f);
    assert core + (q + f) == (core + q) + f;
    CutPart(core + q, '#', fragment);
    CutPart(core, '?', query);
  }

  /** Joining and splitting again loses nothing but what urlsplit takes off the path. */
  lemma SplitJoin(p: Parts, guard: bool)
    requires NoMarks(p.path) && Clean(p.path) && Clean(p.query) && Clean(p.fragment) && '#' !in p.query
    ensures Split(Join(p, guard)) == Parts(CorePath(Guarded(p.path, guard)), p.query, p.fragment)
  {
    SplitPath(Guarded(p.path, guard), p.query, p.fragment);
  }

  /** An optional part is found again behind its mark. */
  lemma CutPart(before: Text, mark: Octet, part: Text)
    requires mark !in before
    ensures var (a, b) := Cut(before + Marked(mark, part), mark);
            a == before && OrEmpty(b) == part
  {
    if part == [] {
      assert before + [] == before;
      CutNowhere(before, mark);
    } else {
      assert before + ([mark] + part) == before + [mark] + part;
      CutAt(before, mark, part);
    }
  }

  /** Paths that urlsplit leaves as they are. */
  predicate SitePath(p: Text) {
    && p != [] && p[0] > ' ' && !LikeHost(p)
    && !(Cut(p, ':').1.Some? && IsScheme(Cut(p, ':').0))
  }

  /** Paths that survive joining and splitting. */
  predicate Kept(p: Text, guard: bool) { SitePath(p) || (guard && LikeHost(p)) }

  lemma CorePathIsIdentityIff(p: Text)
    requires NoMarks(p) && p != []
    ensures CorePath(p) == p <==> SitePath(p)
    ensures OrSlash(CorePath(p)) == p <==> SitePath(p)
  {
    LStripTail(p, []);
    DropSchemeTail(LStrip(p), []);
    DropNetlocTail(DropScheme(LStrip(p)), []);
    if p == "/" {
      assert LStrip(p) == p && p[0] == '/';
      assert !IsScheme(Cut(p, ':').0) by {
        assert p[1..] == [];
      }
      assert DropScheme(p) == p && CorePath(p) == p;
    }
  }

  lemma GuardWorks(p: Text)
    requires LikeHost(p)
    ensures CorePath("//" + p) == p
  {
    var g: Text := "//" + p;
    var (before, after) := Cut(g, ':');
    assert LStrip(g) == g;
    assert before != [] ==> before[0] == g[0];
    assert DropScheme(g) == g;
    assert g[2..] == p;
  }

  /** A path comes back from joining and splitting exactly if it does not start like a blank or a scheme, nor, without
      the guard, like a host. */
  lemma PathIsKeptIff(p: Text, guard: bool)
    requires NoMarks(p) && p != []
    ensures CorePath(Guarded(p, guard)) == p <==> Kept(p, guard)
    ensures OrSlash(CorePath(Guarded(p, guard))) == p <==> Kept(p, guard)
  {
    if guard && LikeHost(p) {
      GuardWorks(p);
    } else {
      CorePathIsIdentityIff(p);
    }
  }

  lemma CutClean(s: Text, sep: Octet)
    requires Clean(s)
    ensures Clean(Cut(s, sep).0) && Clean(OrEmpty(Cut(s, sep).1))
  {
    var (a, b) := Cut(s, sep);
    assert forall i | 0 <= i < |a| :: a[i] == s[i];
    if b.Some? {
      assert forall i | 0 <= i < |b.value| :: b.value[i] == s[|a| + 1 + i];
    }
  }

  lemma SplitIsClean(url: Text)
    ensures var p := Split(url);
            NoMarks(p.path) && Clean(p.path) && Clean(p.query) && Clean(p.fragment) && '#' !in p.query
  {
    RemovedIsClean(LStrip(url));
    var s := Removed(LStrip(url));
    CutClean(s, ':');
    var core := DropNetloc(DropScheme(s));
    assert Clean(DropScheme(s));
    AfterNetlocClean(DropScheme(s));
    CutClean(core, '#');
    var before := Cut(core, '#').0;
    CutClean(before, '?');
    assert forall i | 0 <= i < |Cut(before, '?').0| :: Cut(before, '?').0[i] == before[i];
    if Cut(before, '?').1.Some? {
      var n := |Cut(before, '?').0|;
      assert forall i | 0 <= i < |Cut(before, '?').1.value| :: Cut(before, '?').1.value[i] == before[n + 1 + i];
    }
  }

  lemma AfterNetlocClean(s: Text)
    requires Clean(s)
    ensures Clean(DropNetloc(s))
  {
    if |s| >= 2 && s[0] == '/' && s[1] == '/' {
      SuffixClean(s[2..]);
    }
  }

  lemma {:induction false} SuffixClean(s: Text)
    requires Clean(s)
    ensures Clean(AfterNetloc(s))
  {
    if s != [] {
      SuffixClean(s[1..]);
    }
  }
}
