/** What links and the cookie do to the locale, link by link and over whole sessions. */
module LocaleSession {
  import opened Locale
  import opened Query
  import opened Wrappers

  // ---------------------------------------------------------------- one link

  /** The dict of parameters a URL carries. */
  function Params(url: Text): seq<Pair> { Dict(Parse(Split(url).query)) }

  lemma SetLangIsDict(d: seq<Pair>, locale: Text)
    requires IsDict(d)
    ensures IsDict(SetLang(d, locale))
    ensures SetLang(SetLang(d, locale), locale) == SetLang(d, locale)
  {
    if Effective(locale) == EN {
      PopIsClean(d, LANG);
      PopAbsent(Pop(d, LANG), LANG);
    } else {
      PutKeepsDict(d, LANG, Effective(locale));
      PutTwice(d, LANG, Effective(locale), Effective(locale));
    }
  }

  lemma {:induction false} PopAbsent(d: seq<Pair>, k: Text)
    requires !HasKey(d, k)
    ensures Pop(d, k) == d
  {
    if d != [] {
      HasKeySplit(d, k);
      PopAbsent(d[1..], k);
    }
  }

  lemma {:induction false} PutTwice(d: seq<Pair>, k: Text, v: Text, w: Text)
    ensures Put(Put(d, k, v), k, w) == Put(d, k, w)
  {
    if d != [] && d[0].0 != k {
      PutTwice(d[1..], k, v, w);
    }
  }

  lemma {:induction false} PopPut(d: seq<Pair>, k: Text, v: Text)
    ensures Pop(Put(d, k, v), k) == Pop(d, k)
  {
    if d != [] && d[0].0 != k {
      PopPut(d[1..], k, v);
    }
  }

  /** The parts of a link, whatever URL it was made from. */
  lemma LinkParts(path: Text, locale: Text, guard: bool)
    ensures var parts := Split(OrSlash(path));
            && Params(OrSlash(path)) == Dict(Parse(parts.query))
            && Split(WithLocale(path, locale, guard)).fragment == parts.fragment
            && Split(WithLocale(path, locale, guard)).path == CorePath(Guarded(OrSlash(parts.path), guard))
            && Params(WithLocale(path, locale, guard)) == SetLang(Params(OrSlash(path)), locale)
            && NoMarks(OrSlash(parts.path))
  {
    var parts := Split(OrSlash(path));
    var d := SetLang(Dict(Parse(parts.query)), locale);
    SplitIsClean(OrSlash(path));
    PrintIsClean(d);
    assert Clean(Print(d)) by {
      assert forall i | 0 <= i < |Print(d)| :: Print(d)[i] > ' ';
    }
    SplitJoin(Parts(OrSlash(parts.path), Print(d), parts.fragment), guard);
    DictIsDict(Parse(parts.query));
    SetLangIsDict(Dict(Parse(parts.query)), locale);
    ParsePrint(d);
    DictOfDict(d);
  }

  /** A link keeps the fragment and the last value of every other parameter, and carries the locale exactly when it is
      not English; its path is the URL's exactly if that is one that survives joining and splitting. */
  lemma LinkKeepsTheRest(path: Text, locale: Text, guard: bool, name: Text)
    ensures var was := Split(OrSlash(path));
            var link := Split(WithLocale(path, locale, guard));
            && link.fragment == was.fragment
            && (link.path == OrSlash(was.path) <==> Kept(OrSlash(was.path), guard))
            && (name != LANG ==> Lookup(Params(WithLocale(path, locale, guard)), name) == Last(Parse(was.query), name))
            && Lookup(Params(WithLocale(path, locale, guard)), LANG)
               == if Effective(locale) == EN then None else Some(Effective(locale))
  {
    var was := Split(OrSlash(path));
    LinkParts(path, locale, guard);
    PathIsKeptIff(OrSlash(was.path), guard);
    LookupDict(Parse(was.query), name);
    LookupPop(Params(OrSlash(path)), LANG, name);
    LookupPop(Params(OrSlash(path)), LANG, LANG);
    LookupPut(Params(OrSlash(path)), LANG, Effective(locale), name);
    LookupPut(Params(OrSlash(path)), LANG, Effective(locale), LANG);
  }

  /** The link of a link, part by part. */
  lemma LinkOfLink(path: Text, a: Text, b: Text, guard: bool)
    ensures var parts := Split(OrSlash(path));
            var p := OrSlash(parts.path);
            var d := Params(OrSlash(path));
            && WithLocale(path, b, guard) == Join(Parts(p, Print(SetLang(d, b)), parts.fragment), guard)
            && WithLocale(WithLocale(path, a, guard), b, guard)
               == Join(Parts(OrSlash(CorePath(Guarded(p, guard))), Print(SetLang(SetLang(d, a), b)), parts.fragment),
                       guard)
            && Params(WithLocale(WithLocale(path, a, guard), b, guard)) == SetLang(SetLang(d, a), b)
            && Split(WithLocale(WithLocale(path, a, guard), b, guard)).fragment == parts.fragment
  {
    var once := WithLocale(path, a, guard);
    LinkParts(path, a, guard);
    LinkParts(path, b, guard);
    LinkParts(once, b, guard);
    assert once != [] && OrSlash(once) == once;
  }

  lemma JoinPathInjective(p: Text, q: Text, query: Text, fragment: Text, guard: bool)
    ensures Join(Parts(p, query, fragment), guard) == Join(Parts(q, query, fragment), guard) <==> p == q
  {
    var a, b := Join(Parts(p, query, fragment), guard), Join(Parts(q, query, fragment), guard);
    if a == b {
      var x, y := Guarded(p, guard), Guarded(q, guard);
      assert |x| == |y| && a[..|x|] == x && b[..|y|] == y;
      assert LikeHost(x) ==> x[2..] == y[2..];
      assert guard && LikeHost(p) ==> x[2..] == p && LikeHost(x[2..]);
      assert guard && LikeHost(q) ==> y[2..] == q && LikeHost(y[2..]);
    }
  }

  /** Making the link of a link changes nothing, exactly if the URL's path survives joining and splitting. */
  lemma WithLocaleIsIdempotentIff(path: Text, locale: Text, guard: bool)
    ensures WithLocale(WithLocale(path, locale, guard), locale, guard) == WithLocale(path, locale, guard)
            <==> Kept(OrSlash(Split(OrSlash(path)).path), guard)
  {
    var parts := Split(OrSlash(path));
    var p := OrSlash(parts.path);
    var d := Params(OrSlash(path));
    LinkParts(path, locale, guard);
    LinkOfLink(path, locale, locale, guard);
    PathIsKeptIff(p, guard);
    DictIsDict(Parse(parts.query));
    SetLangIsDict(d, locale);
    JoinPathInjective(p, OrSlash(CorePath(Guarded(p, guard))), Print(SetLang(d, locale)), parts.fragment, guard);
  }

  /** The second of two locales wins: the link has the parameters and the fragment that it would have with the second
      alone, as a dict ... */
  lemma SecondLocaleWins(path: Text, a: Text, b: Text, guard: bool, name: Text)
    ensures var one, two := WithLocale(path, b, guard), WithLocale(WithLocale(path, a, guard), b, guard);
            Lookup(Params(two), name) == Lookup(Params(one), name) && Split(two).fragment == Split(one).fragment
  {
    var d := Params(OrSlash(path));
    LinkOfLink(path, a, b, guard);
    LinkParts(path, b, guard);
    LookupPop(d, LANG, name);
    LookupPut(d, LANG, Effective(a), name);
    LookupPut(d, LANG, Effective(b), name);
    LookupPop(SetLang(d, a), LANG, name);
    LookupPut(SetLang(d, a), LANG, Effective(b), name);
  }

  /** ... and is the very same link exactly if the path survives, and not both English came first and lang had stood
      before another parameter. */
  lemma SecondLocaleWinsInPlaceIff(path: Text, a: Text, b: Text, guard: bool)
    ensures var d := Params(OrSlash(path));
            WithLocale(WithLocale(path, a, guard), b, guard) == WithLocale(path, b, guard) <==>
            && Kept(OrSlash(Split(OrSlash(path)).path), guard)
            && !(Effective(a) == EN && Effective(b) != EN && HasKey(d, LANG) && !LangLast(d))
  {
    var parts := Split(OrSlash(path));
    var p := OrSlash(parts.path);
    var d := Params(OrSlash(path));
    LinkParts(path, b, guard);
    LinkOfLink(path, a, b, guard);
    PathIsKeptIff(p, guard);
    DictIsDict(Parse(parts.query));
    DictInPlaceIff(d, a, b);
    if SetLang(SetLang(d, a), b) == SetLang(d, b) {
      JoinPathInjective(p, OrSlash(CorePath(Guarded(p, guard))), Print(SetLang(d, b)), parts.fragment, guard);
    }
  }

  predicate LangLast(d: seq<Pair>) { d != [] && d[|d| - 1].0 == LANG }

  /** The items of two settings are those of the second, order included, unless English came first and lang had stood
      before another parameter. */
  lemma DictInPlaceIff(d: seq<Pair>, a: Text, b: Text)
    requires IsDict(d)
    ensures SetLang(SetLang(d, a), b) == SetLang(d, b) <==>
            !(Effective(a) == EN && Effective(b) != EN && HasKey(d, LANG) && !LangLast(d))
  {
    if Effective(b) == EN {
      PopPut(d, LANG, Effective(a));
      PopIsClean(d, LANG);
      PopAbsent(Pop(d, LANG), LANG);
    } else if Effective(a) != EN {
      PutTwice(d, LANG, Effective(a), Effective(b));
    } else {
      PopIsClean(d, LANG);
      PutNew(Pop(d, LANG), LANG, Effective(b));
      MovedToEndIff(d, Effective(b));
    }
  }

  lemma {:induction false} MovedToEndIff(d: seq<Pair>, v: Text)
    requires IsDict(d)
    ensures Pop(d, LANG) + [(LANG, v)] == Put(d, LANG, v) <==> !HasKey(d, LANG) || LangLast(d)
  {
    if d != [] {
      HasKeySplit(d, LANG);
      if d[0].0 == LANG {
        assert !HasKey(d[1..], LANG);
        PopAbsent(d[1..], LANG);
        if |d| > 1 {
          assert (Pop(d, LANG) + [(LANG, v)])[0] == d[1];
          assert Put(d, LANG, v)[0] == (LANG, v);
          assert d[|d| - 1].0 != d[0].0;
        } else {
          assert d[1..] == [];
        }
      } else {
        var rest := d[1..];
        MovedToEndIff(rest, v);
        assert Pop(d, LANG) + [(LANG, v)] == [d[0]] + (Pop(rest, LANG) + [(LANG, v)]);
        assert ([d[0]] + (Pop(rest, LANG) + [(LANG, v)]))[1..] == Pop(rest, LANG) + [(LANG, v)];
        assert Put(d, LANG, v)[1..] == Put(rest, LANG, v);
        assert rest != [] ==> rest[|rest| - 1] == d[|d| - 1];
        assert rest == [] ==> !HasKey(d, LANG) && !LangLast(d);
      }
    }
  }

  // ---------------------------------------------------------------- resolving a request

  predicate IsBlank(c: Octet) { 9 <= c as int <= 13 || 28 <= c as int <= 32 }

  function Lower(c: Octet): Octet { if 'A' <= c <= 'Z' then (c as int + 32) as char else c }

  function Lowered(s: Text): Text { if s == [] then [] else [Lower(s[0])] + Lowered(s[1..]) }

  function Trimmed(s: Text): Text {
    if s != [] && IsBlank(s[0]) then Trimmed(s[1..])
    else if s != [] && IsBlank(s[|s| - 1]) then Trimmed(s[..|s| - 1])
    else s
  }

  /** .strip().lower() of a value or of the empty string. */
  function Norm(s: Option<Text>): Text { Lowered(Trimmed(OrEmpty(s))) }

  /** The lang parameter of a query string; the last one counts. */
  function Asked(query: Text): Text { Norm(Last(Parse(query), LANG)) }

  /** resolve_locale. */
  function Resolve(query: Text, cookie: Option<Text>): Text {
    if Supported(Asked(query)) then Asked(query)
    else if Supported(Norm(cookie)) then Norm(cookie)
    else EN
  }

  /** apply_locale_cookie: the browser's cookie after the response. */
  function CookieAfter(query: Text, cookie: Option<Text>): Option<Text> {
    if Supported(Asked(query)) then Some(Asked(query))
    else if Supported(Norm(cookie)) then Some(Resolve(query, cookie))
    else cookie
  }

  lemma SupportedIsNormal(locale: Text)
    requires Supported(locale)
    ensures Norm(Some(locale)) == locale
  {
    assert Lowered(EN) == EN && Lowered(AR) == AR by {
      assert EN[1..] == "n" && AR[1..] == "r";
      assert Lowered("n") == "n" && Lowered("r") == "r";
    }
    assert Trimmed(EN) == EN && Trimmed(AR) == AR;
  }

  // ---------------------------------------------------------------- whole sessions

  /** The cookie after a series of requests, given by their query strings. */
  function Jar(cookie: Option<Text>, queries: seq<Text>): Option<Text> {
    if queries == [] then cookie
    else CookieAfter(queries[|queries| - 1], Jar(cookie, queries[..|queries| - 1]))
  }

  /** The locale of the last page rendered. */
  function Rendered(cookie: Option<Text>, queries: seq<Text>): Text
    requires queries != []
  {
    Resolve(queries[|queries| - 1], Jar(cookie, queries[..|queries| - 1]))
  }

  /** In every session the stored cookie, if it names a locale at all, names the one just rendered; if it does not,
      English was rendered. */
  lemma CookieIsWhatWasRendered(cookie: Option<Text>, queries: seq<Text>)
    requires queries != []
    ensures Supported(Rendered(cookie, queries))
    ensures Resolve([], Jar(cookie, queries)) == Rendered(cookie, queries)
    ensures Supported(Norm(Jar(cookie, queries))) ==> Norm(Jar(cookie, queries)) == Rendered(cookie, queries)
    ensures !Supported(Norm(Jar(cookie, queries))) ==> Rendered(cookie, queries) == EN
  {
    var query, before := queries[|queries| - 1], Jar(cookie, queries[..|queries| - 1]);
    if Supported(Asked(query)) {
      SupportedIsNormal(Asked(query));
    } else if Supported(Norm(before)) {
      SupportedIsNormal(Norm(before));
    }
    assert Asked([]) == [] by {
      assert Parse([]) == [];
    }
  }

  /** The locale changes only on a request that names a supported one. */
  lemma LocaleChangesOnlyWhenAsked(cookie: Option<Text>, queries: seq<Text>, next: Text)
    requires queries != [] && Rendered(cookie, queries + [next]) != Rendered(cookie, queries)
    ensures Supported(Asked(next)) && Rendered(cookie, queries + [next]) == Asked(next)
  {
    NextRenders(cookie, queries, next);
  }

  /** Following a link made on the page just rendered keeps the locale, English links without lang included. */
  lemma LinkKeepsLocale(cookie: Option<Text>, queries: seq<Text>, path: Text, guard: bool)
    requires queries != []
    ensures var link := WithLocale(path, Rendered(cookie, queries), guard);
            Rendered(cookie, queries + [Split(link).query]) == Rendered(cookie, queries)
  {
    CookieIsWhatWasRendered(cookie, queries);
    LinkAsks(path, Rendered(cookie, queries), guard);
    NextRenders(cookie, queries, Split(WithLocale(path, Rendered(cookie, queries), guard)).query);
  }

  /** The next page is rendered in the locale it asks for, or in that of the last. */
  lemma NextRenders(cookie: Option<Text>, queries: seq<Text>, query: Text)
    requires queries != []
    ensures Rendered(cookie, queries + [query])
            == if Supported(Asked(query)) then Asked(query) else Rendered(cookie, queries)
  {
    assert (queries + [query])[..|queries|] == queries;
    CookieIsWhatWasRendered(cookie, queries);
  }

  /** What a link asks for: its locale, or nothing for English. */
  lemma LinkAsks(path: Text, locale: Text, guard: bool)
    requires Supported(locale)
    ensures Asked(Split(WithLocale(path, locale, guard)).query) == if locale == EN then [] else locale
  {
    var query := Split(WithLocale(path, locale, guard)).query;
    LinkKeepsTheRest(path, locale, guard, LANG);
    LookupDict(Parse(query), LANG);
    SupportedIsNormal(locale);
    assert Last(Parse(query), LANG) == if locale == EN then None else Some(locale);
  }

  /** The queries a browser sends when it follows one link after another. */
  function Follow(cookie: Option<Text>, queries: seq<Text>, paths: seq<Text>, guard: bool): (all: seq<Text>)
    requires queries != []
    ensures all != []
  {
    if paths == [] then queries
    else
      var before := Follow(cookie, queries, paths[..|paths| - 1], guard);
      before + [Split(WithLocale(paths[|paths| - 1], Rendered(cookie, before), guard)).query]
  }

  /** So no chain of links, however long, leaves the locale. */
  lemma {:induction false} ChainsKeepLocale(
    cookie: Option<Text>, queries: seq<Text>, paths: seq<Text>, guard: bool)
    requires queries != []
    ensures Rendered(cookie, Follow(cookie, queries, paths, guard)) == Rendered(cookie, queries)
  {
    if paths != [] {
      ChainsKeepLocale(cookie, queries, paths[..|paths| - 1], guard);
      LinkKeepsLocale(cookie, Follow(cookie, queries, paths[..|paths| - 1], guard), paths[|paths| - 1], guard);
    }
  }

  lemma {:induction false} OthersKeepLast(pairs: seq<Pair>, name: Text)
    requires name != LANG
    ensures Last(Others(pairs), name) == Last(pairs, name)
  {
    if pairs != [] {
      LastFromFront(pairs, name);
      OthersKeepLast(pairs[1..], name);
      if pairs[0].0 != LANG {
        LastFromFront(Others(pairs), name);
        assert Others(pairs)[1..] == Others(pairs[1..]);
      }
    }
  }

  lemma {:induction false} LastFromFront(pairs: seq<Pair>, name: Text)
    requires pairs != []
    ensures Last(pairs, name)
            == if Last(pairs[1..], name).Some? then Last(pairs[1..], name)
               else if pairs[0].0 == name then Some(pairs[0].1) else None
  {
    var last := |pairs| - 1;
    if last > 0 {
      assert pairs[1..][|pairs[1..]| - 1] == pairs[last];
      assert pairs[1..][..last - 1] == pairs[..last][1..];
      LastFromFront(pairs[..last], name);
    }
  }

  /** The language switch sets the locale, whatever the cookie says, and keeps every other parameter; the path is kept
      exactly if urlsplit keeps it. */
  lemma SwitchSetsLocale(path: Text, query: Text, locale: Text, cookie: Option<Text>, name: Text)
    requires NoMarks(path) && Clean(path)
    ensures var href := SwitchHref(path, query, locale);
            && (Split(href).path == OrSlash(path) <==> SitePath(OrSlash(path)))
            && Resolve(Split(href).query, cookie) == Effective(locale)
            && (name != LANG ==> Lookup(Params(href), name) == Last(Parse(query), name))
  {
    var pairs := Others(Parse(query));
    SwitchParts(path, query, locale);
    CorePathIsIdentityIff(OrSlash(path));
    LookupPut(Dict(pairs), LANG, Effective(locale), LANG);
    LookupPut(Dict(pairs), LANG, Effective(locale), name);
    LookupDict(Parse(Split(SwitchHref(path, query, locale)).query), LANG);
    SupportedIsNormal(Effective(locale));
    if name != LANG {
      LookupDict(pairs, name);
      OthersKeepLast(Parse(query), name);
    }
  }

  lemma SwitchParts(path: Text, query: Text, locale: Text)
    requires NoMarks(path) && Clean(path)
    ensures var href := SwitchHref(path, query, locale);
            && Split(href).path == CorePath(OrSlash(path))
            && Params(href) == Put(Dict(Others(Parse(query))), LANG, Effective(locale))
  {
    var others := Dict(Others(Parse(query)));
    DictIsDict(Others(Parse(query)));
    PutKeepsDict(others, LANG, Effective(locale));
    LookupPut(others, LANG, Effective(locale), LANG);
    DictLink(OrSlash(path), Put(others, LANG, Effective(locale)));
  }

  lemma DictLink(path: Text, d: seq<Pair>)
    requires NoMarks(path) && Clean(path) && IsDict(d) && d != []
    ensures Split(path + ['?'] + Print(d)).path == CorePath(path) && Params(path + ['?'] + Print(d)) == d
  {
    PrintIsClean(d);
    assert Clean(Print(d)) by {
      assert forall i | 0 <= i < |Print(d)| :: Print(d)[i] > ' ';
    }
    assert path + ['?'] + Print(d) == path + Marked('?', Print(d)) + Marked('#', []);
    SplitPath(path, Print(d), []);
    ParsePrint(d);
    DictOfDict(d);
  }
}
