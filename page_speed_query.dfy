/** The runPagespeed request URLs of `PSIApiUtil.test` (a lab test of one
    page) and `PSIApiUtil.query` (field data of an origin or a url): both
    validate their options, then interpolate them into the query string. */
module PageSpeedQuery {
  import opened Wrappers
  import opened Js

  const Endpoint := "https://www.googleapis.com/pagespeedonline/v5/runPagespeed"

  const CategoryNames: seq<string> := ["performance", "seo", "best_practices", "accessibility"]
  const StrategyNames: seq<string> := ["desktop", "mobile"]
  const TipoNames: seq<string> := ["origin", "url"]

  const CategoryError := "Category inválido, consulte https://developers.google.com/speed/docs/insights/rest/v5/pagespeedapi/runpagespeed#Category"
  const StrategyError := "Strategy inválido, utilize desktop ou mobile"
  const TipoError := "Tipo inválido, utilize origin ou url"

  /** The options object of `test`; a property left out is `Unset`. */
  datatype TestOptions = TestOptions(category: Arg, locale: Arg, strategy: Arg, utmCampaign: Arg, utmSource: Arg)

  /** The options object of `query`. */
  datatype QueryOptions = QueryOptions(tipo: Arg, locale: Arg, strategy: Arg, utmCampaign: Arg, utmSource: Arg)

  /** `test(url)` and `query(url)` called without options: `= {}`. */
  const NoTestOptions := TestOptions(Unset, Unset, Unset, Unset, Unset)
  const NoQueryOptions := QueryOptions(Unset, Unset, Unset, Unset, Unset)

  /** A GET request URL: the endpoint, '?', then the query parameters
      joined with '&'. */
  datatype Url = Url(endpoint: string, params: seq<string>) {
    function Href(): string {
      endpoint + "?" + Join(params)
    }
  }

  /** The query string: its parameters joined with '&'. */
  function Join(params: seq<string>): string {
    if params == [] then ""
    else if |params| == 1 then params[0]
    else params[0] + "&" + Join(params[1..])
  }

  /** The parameters of a query string: its pieces between '&'s. */
  function Split(s: string): (params: seq<string>)
    ensures |params| >= 1
    decreases |s|
  {
    if s == [] then [""]
    else
      var rest := Split(s[1..]);
      if s[0] == '&' then [""] + rest else [[s[0]] + rest[0]] + rest[1..]
  }

  /** `name=value` */
  function Param(name: string, value: string): string {
    name + "=" + value
  }

  /** `${utm_campaign != null ? '&' + utm_campaign : ''}${utm_source != null ? '&' + utm_source : ''}`
      with both defaulting to null: the loose `!= null` also skips
      undefined, and a value is appended as it is, with no parameter name. */
  function UtmParams(utmCampaign: Arg, utmSource: Arg): seq<string> {
    (if utmCampaign.Text? then [utmCampaign.s] else [])
    + (if utmSource.Text? then [utmSource.s] else [])
  }

  /** `PSIApiUtil.test(url, options)`: `category` is checked before
      `strategy`; `locale` is not checked, and a null one reads "null". */
  function Test(apiKey: string, url: string, options: TestOptions): (r: Result<Url, Error>)
    ensures r.Failure? <==>
              !Includes(CategoryNames, WithDefault(options.category, Text("performance")))
              || !Includes(StrategyNames, WithDefault(options.strategy, Text("desktop")))
    ensures !Includes(CategoryNames, WithDefault(options.category, Text("performance"))) ==>
              r == Failure(Thrown(CategoryError))
    ensures Includes(CategoryNames, WithDefault(options.category, Text("performance")))
            && !Includes(StrategyNames, WithDefault(options.strategy, Text("desktop"))) ==>
              r == Failure(Thrown(StrategyError))
    ensures r.Success? ==>
              r.value == Url(Endpoint, [
                Param("key", apiKey), Param("url", url),
                Param("category", WithDefault(options.category, Text("performance")).s),
                Param("locale", Interpolate(WithDefault(options.locale, Text("pt-BR")))),
                Param("strategy", WithDefault(options.strategy, Text("desktop")).s)]
                + UtmParams(options.utmCampaign, options.utmSource))
  {
    var category := WithDefault(options.category, Text("performance"));
    var locale := WithDefault(options.locale, Text("pt-BR"));
    var strategy := WithDefault(options.strategy, Text("desktop"));
    if !Includes(CategoryNames, category) then Failure(Thrown(CategoryError))
    else if !Includes(StrategyNames, strategy) then Failure(Thrown(StrategyError))
    else
      var params := [Param("key", apiKey), Param("url", url), Param("category", category.s),
                     Param("locale", Interpolate(locale)), Param("strategy", strategy.s)]
                    + UtmParams(options.utmCampaign, options.utmSource);
      Success(Url(Endpoint, params))
  }

  /** `PSIApiUtil.query(url, options)`: `tipo` is checked first and prefixes
      the url; `strategy` is checked next; there is no `category`. */
  function Query(apiKey: string, url: string, options: QueryOptions): (r: Result<Url, Error>)
    ensures r.Failure? <==>
              !Includes(TipoNames, WithDefault(options.tipo, Text("origin")))
              || !Includes(StrategyNames, WithDefault(options.strategy, Text("desktop")))
    ensures !Includes(TipoNames, WithDefault(options.tipo, Text("origin"))) ==>
              r == Failure(Thrown(TipoError))
    ensures Includes(TipoNames, WithDefault(options.tipo, Text("origin")))
            && !Includes(StrategyNames, WithDefault(options.strategy, Text("desktop"))) ==>
              r == Failure(Thrown(StrategyError))
    ensures r.Success? ==>
              r.value == Url(Endpoint, [
                Param("key", apiKey),
                Param("url", WithDefault(options.tipo, Text("origin")).s + ":" + url),
                Param("locale", Interpolate(WithDefault(options.locale, Text("pt-BR")))),
                Param("strategy", WithDefault(options.strategy, Text("desktop")).s)]
                + UtmParams(options.utmCampaign, options.utmSource))
  {
    var tipo := WithDefault(options.tipo, Text("origin"));
    var locale := WithDefault(options.locale, Text("pt-BR"));
    var strategy := WithDefault(options.strategy, Text("desktop"));
    if !Includes(TipoNames, tipo) then Failure(Thrown(TipoError))
    else
      var url := tipo.s + ":" + url;
      if !Includes(StrategyNames, strategy) then Failure(Thrown(StrategyError))
      else
        var params := [Param("key", apiKey), Param("url", url),
                       Param("locale", Interpolate(locale)), Param("strategy", strategy.s)]
                      + UtmParams(options.utmCampaign, options.utmSource);
        Success(Url(Endpoint, params))
  }

  /** Splitting a string that has no '&' leaves it whole. */
  lemma {:induction false} SplitPlain(a: string)
    requires '&' !in a
    ensures Split(a) == [a]
    decreases |a|
  {
    if a != [] {
      assert a[0] in a;
      assert forall c :: c in a[1..] ==> c in a;
      SplitPlain(a[1..]);
      assert [a[0]] + a[1..] == a;
    }
  }

  /** A piece without '&' in front of a string joins the first parameter of the rest. */
  lemma {:induction false} SplitPrefix(a: string, t: string)
    requires '&' !in a
    ensures Split(a + t) == [a + Split(t)[0]] + Split(t)[1..]
    decreases |a|
  {
    if a != [] {
      var s := a + t;
      assert s[0] == a[0] && a[0] in a;
      assert a == [a[0]] + a[1..];
      assert s[1..] == a[1..] + t;
      SplitPrefix(a[1..], t);
      var rest := Split(s[1..]);
      assert Split(s) == [[s[0]] + rest[0]] + rest[1..];
      assert [a[0]] + (a[1..] + Split(t)[0]) == a + Split(t)[0];
    } else {
      assert a + t == t && a + Split(t)[0] == Split(t)[0];
      assert [Split(t)[0]] + Split(t)[1..] == Split(t);
    }
  }

  /** Splitting undoes joining, as long as no parameter holds an '&'. */
  lemma {:induction false} SplitJoin(params: seq<string>)
    requires params != []
    requires forall i :: 0 <= i < |params| ==> '&' !in params[i]
    ensures Split(Join(params)) == params
    decreases |params|
  {
    if |params| == 1 {
      SplitPlain(params[0]);
    } else {
      var t := "&" + Join(params[1..]);
      SplitJoin(params[1..]);
      assert t[1..] == Join(params[1..]);
      assert Split(t) == [""] + params[1..];
      SplitPrefix(params[0], t);
      assert params[0] + t == Join(params);
      assert params[0] + "" == params[0];
      assert [params[0]] + params[1..] == params;
    }
  }

  /** The query string of a URL reads back as its parameters when none of
      them holds an '&'. */
  lemma HrefParameters(u: Url)
    requires u.params != []
    requires forall i :: 0 <= i < |u.params| ==> '&' !in u.params[i]
    ensures u.Href()[..|u.endpoint| + 1] == u.endpoint + "?"
    ensures Split(u.Href()[|u.endpoint| + 1..]) == u.params
  {
    var head := u.endpoint + "?";
    assert u.Href() == head + Join(u.params);
    assert u.Href()[|head|..] == Join(u.params);
    SplitJoin(u.params);
  }

  /** One more parameter lengthens the query string by '&' and that parameter. */
  lemma {:induction false} JoinAppend(ps: seq<string>, p: string)
    requires ps != []
    ensures Join(ps + [p]) == Join(ps) + "&" + p
    decreases |ps|
  {
    if |ps| > 1 {
      JoinAppend(ps[1..], p);
      assert (ps + [p])[1..] == ps[1..] + [p];
    } else {
      assert ps + [p] == [ps[0], p];
      assert Join([p]) == p;
    }
  }

  /** One more parameter lengthens the URL by '&' and that parameter. */
  lemma HrefAppend(u: Url, p: string)
    requires u.params != []
    ensures Url(u.endpoint, u.params + [p]).Href() == u.Href() + "&" + p
  {
    JoinAppend(u.params, p);
  }

  /** `${h}&name=${value}`: a `name=value` parameter behind '&'. */
  lemma ParamAfter(h: string, name: string, value: string)
    ensures h + "&" + Param(name, value) == h + ("&" + name + "=") + value
  {
  }

  /** The URL `test` requests is the string its template literal builds:
      `${endpoint}?key=${key}&url=${url}&category=${category}&locale=${locale}&strategy=${strategy}`
      followed by the UTM values. */
  lemma TestHref(apiKey: string, url: string, options: TestOptions)
    requires Test(apiKey, url, options).Success?
    ensures Test(apiKey, url, options).value.Href()
            == Endpoint + "?key=" + apiKey + "&url=" + url
               + "&category=" + WithDefault(options.category, Text("performance")).s
               + "&locale=" + Interpolate(WithDefault(options.locale, Text("pt-BR")))
               + "&strategy=" + WithDefault(options.strategy, Text("desktop")).s
               + (if options.utmCampaign.Text? then "&" + options.utmCampaign.s else "")
               + (if options.utmSource.Text? then "&" + options.utmSource.s else "")
  {
    var c := WithDefault(options.category, Text("performance")).s;
    var l := Interpolate(WithDefault(options.locale, Text("pt-BR")));
    var st := WithDefault(options.strategy, Text("desktop")).s;
    var u0 := Url(Endpoint, [Param("key", apiKey)]);
    assert "?" + ("key" + "=") == "?key=";
    assert u0.Href() == Endpoint + "?key=" + apiKey;
    var u1 := Url(Endpoint, u0.params + [Param("url", url)]);
    HrefAppend(u0, Param("url", url));
    ParamAfter(u0.Href(), "url", url);
    assert "&" + "url" + "=" == "&url=";
    assert u1.Href() == Endpoint + "?key=" + apiKey + "&url=" + url;
    var u2 := Url(Endpoint, u1.params + [Param("category", c)]);
    HrefAppend(u1, Param("category", c));
    ParamAfter(u1.Href(), "category", c);
    assert "&" + "category" + "=" == "&category=";
    assert u2.Href() == Endpoint + "?key=" + apiKey + "&url=" + url + "&category=" + c;
    var u3 := Url(Endpoint, u2.params + [Param("locale", l)]);
    HrefAppend(u2, Param("locale", l));
    ParamAfter(u2.Href(), "locale", l);
    assert "&" + "locale" + "=" == "&locale=";
    assert u3.Href() == Endpoint + "?key=" + apiKey + "&url=" + url + "&category=" + c + "&locale=" + l;
    var u4 := Url(Endpoint, u3.params + [Param("strategy", st)]);
    HrefAppend(u3, Param("strategy", st));
    ParamAfter(u3.Href(), "strategy", st);
    assert "&" + "strategy" + "=" == "&strategy=";
    assert u4.Href() == Endpoint + "?key=" + apiKey + "&url=" + url + "&category=" + c + "&locale=" + l
                        + "&strategy=" + st;
    assert Test(apiKey, url, options).value
           == Url(Endpoint, u4.params + UtmParams(options.utmCampaign, options.utmSource));
    UtmHref(u4, options.utmCampaign, options.utmSource);
  }

  /** The URL `query` requests is the string its template literal builds:
      `${endpoint}?key=${key}&url=${tipo}:${url}&locale=${locale}&strategy=${strategy}`
      followed by the UTM values. */
  lemma QueryHref(apiKey: string, url: string, options: QueryOptions)
    requires Query(apiKey, url, options).Success?
    ensures Query(apiKey, url, options).value.Href()
            == Endpoint + "?key=" + apiKey + "&url=" + WithDefault(options.tipo, Text("origin")).s + ":" + url
               + "&locale=" + Interpolate(WithDefault(options.locale, Text("pt-BR")))
               + "&strategy=" + WithDefault(options.strategy, Text("desktop")).s
               + (if options.utmCampaign.Text? then "&" + options.utmCampaign.s else "")
               + (if options.utmSource.Text? then "&" + options.utmSource.s else "")
  {
    var t := WithDefault(options.tipo, Text("origin")).s;
    var l := Interpolate(WithDefault(options.locale, Text("pt-BR")));
    var st := WithDefault(options.strategy, Text("desktop")).s;
    var u0 := Url(Endpoint, [Param("key", apiKey)]);
    assert "?" + ("key" + "=") == "?key=";
    assert u0.Href() == Endpoint + "?key=" + apiKey;
    var u1 := Url(Endpoint, u0.params + [Param("url", t + ":" + url)]);
    HrefAppend(u0, Param("url", t + ":" + url));
    ParamAfter(u0.Href(), "url", t + ":" + url);
    assert "&" + "url" + "=" == "&url=";
    assert u1.Href() == Endpoint + "?key=" + apiKey + "&url=" + t + ":" + url;
    var u2 := Url(Endpoint, u1.params + [Param("locale", l)]);
    HrefAppend(u1, Param("locale", l));
    ParamAfter(u1.Href(), "locale", l);
    assert "&" + "locale" + "=" == "&locale=";
    assert u2.Href() == Endpoint + "?key=" + apiKey + "&url=" + t + ":" + url + "&locale=" + l;
    var u3 := Url(Endpoint, u2.params + [Param("strategy", st)]);
    HrefAppend(u2, Param("strategy", st));
    ParamAfter(u2.Href(), "strategy", st);
    assert "&" + "strategy" + "=" == "&strategy=";
    assert u3.Href() == Endpoint + "?key=" + apiKey + "&url=" + t + ":" + url + "&locale=" + l
                        + "&strategy=" + st;
    assert Query(apiKey, url, options).value
           == Url(Endpoint, u3.params + UtmParams(options.utmCampaign, options.utmSource));
    UtmHref(u3, options.utmCampaign, options.utmSource);
  }

  /** The UTM values follow the named parameters, each behind '&'. */
  lemma UtmHref(u: Url, utmCampaign: Arg, utmSource: Arg)
    requires u.params != []
    ensures Url(u.endpoint, u.params + UtmParams(utmCampaign, utmSource)).Href()
            == u.Href() + (if utmCampaign.Text? then "&" + utmCampaign.s else "")
               + (if utmSource.Text? then "&" + utmSource.s else "")
  {
    var utm := UtmParams(utmCampaign, utmSource);
    if utmCampaign.Text? && utmSource.Text? {
      var w := Url(u.endpoint, u.params + [utmCampaign.s]);
      HrefAppend(u, utmCampaign.s);
      HrefAppend(w, utmSource.s);
      assert u.params + utm == w.params + [utmSource.s];
      assert u.Href() + "&" + utmCampaign.s + "&" + utmSource.s
             == u.Href() + ("&" + utmCampaign.s) + ("&" + utmSource.s);
    } else if utmCampaign.Text? {
      HrefAppend(u, utmCampaign.s);
      assert u.params + utm == u.params + [utmCampaign.s];
      assert u.Href() + "&" + utmCampaign.s == u.Href() + ("&" + utmCampaign.s) + "";
    } else if utmSource.Text? {
      HrefAppend(u, utmSource.s);
      assert u.params + utm == u.params + [utmSource.s];
      assert u.Href() + "&" + utmSource.s == u.Href() + "" + ("&" + utmSource.s);
    } else {
      assert u.params + utm == u.params;
      assert u.Href() == u.Href() + "" + "";
    }
  }

  /** `name=value` holds an '&' only where `name` or `value` does. */
  lemma ParamWithoutAmpersand(name: string, value: string)
    requires '&' !in name && '&' !in value
    ensures '&' !in Param(name, value)
  {
  }

  /** The parameter names and every category and strategy are free of '&'. */
  lemma NamesHaveNoAmpersand()
    ensures forall n :: n in ["key", "url", "category", "locale", "strategy"] + CategoryNames + StrategyNames ==> '&' !in n
  {
  }

  /** A server reading the query string of the URL `test` requests gets
      back exactly its parameters — key, url, category, locale, strategy,
      then each UTM value as a parameter of its own — when none of the
      interpolated values holds an '&'. */
  lemma TestParameters(apiKey: string, url: string, options: TestOptions)
    requires Test(apiKey, url, options).Success?
    requires '&' !in apiKey && '&' !in url
    requires '&' !in Interpolate(WithDefault(options.locale, Text("pt-BR")))
    requires options.utmCampaign.Text? ==> '&' !in options.utmCampaign.s
    requires options.utmSource.Text? ==> '&' !in options.utmSource.s
    ensures var u := Test(apiKey, url, options).value;
            && u.Href()[..|Endpoint| + 1] == Endpoint + "?"
            && Split(u.Href()[|Endpoint| + 1..]) == u.params
  {
    var u := Test(apiKey, url, options).value;
    var named := [Param("key", apiKey), Param("url", url),
                  Param("category", WithDefault(options.category, Text("performance")).s),
                  Param("locale", Interpolate(WithDefault(options.locale, Text("pt-BR")))),
                  Param("strategy", WithDefault(options.strategy, Text("desktop")).s)];
    var utm := UtmParams(options.utmCampaign, options.utmSource);
    assert u.params == named + utm;
    NamesHaveNoAmpersand();
    ParamWithoutAmpersand("key", apiKey);
    ParamWithoutAmpersand("url", url);
    ParamWithoutAmpersand("category", WithDefault(options.category, Text("performance")).s);
    ParamWithoutAmpersand("locale", Interpolate(WithDefault(options.locale, Text("pt-BR"))));
    ParamWithoutAmpersand("strategy", WithDefault(options.strategy, Text("desktop")).s);
    assert forall i :: 0 <= i < |utm| ==> '&' !in utm[i];
    forall i | 0 <= i < |u.params|
      ensures '&' !in u.params[i]
    {
      if i >= |named| {
        assert u.params[i] == utm[i - |named|];
      }
    }
    HrefParameters(u);
  }

  /** Called without options, `test` runs the performance category on the
      desktop strategy with the pt-BR locale and no UTM parameters. */
  lemma TestDefaults(apiKey: string, url: string)
    ensures Test(apiKey, url, NoTestOptions)
            == Success(Url(Endpoint, ["key=" + apiKey, "url=" + url, "category=performance",
                                      "locale=pt-BR", "strategy=desktop"]))
  {
    var params := ["key=" + apiKey, "url=" + url, "category=performance", "locale=pt-BR", "strategy=desktop"];
    assert "key" + "=" == "key=" && "url" + "=" == "url=" && "category" + "=" == "category=";
    assert "locale" + "=" == "locale=" && "strategy" + "=" == "strategy=";
    assert params + UtmParams(Unset, Unset) == params;
    assert "category=" + "performance" == "category=performance";
    assert "locale=" + "pt-BR" == "locale=pt-BR" && "strategy=" + "desktop" == "strategy=desktop";
  }

  /** Called without options, `query` asks for the origin's field data on
      the desktop strategy with the pt-BR locale. */
  lemma QueryDefaults(apiKey: string, url: string)
    ensures Query(apiKey, url, NoQueryOptions)
            == Success(Url(Endpoint, ["key=" + apiKey, "url=origin:" + url, "locale=pt-BR", "strategy=desktop"]))
  {
    var params := ["key=" + apiKey, "url=origin:" + url, "locale=pt-BR", "strategy=desktop"];
    assert "key" + "=" == "key=" && "url" + "=" == "url=";
    assert "locale" + "=" == "locale=" && "strategy" + "=" == "strategy=";
    assert params + UtmParams(Unset, Unset) == params;
    assert "url=" + ("origin" + ":" + url) == "url=origin:" + url;
    assert "locale=" + "pt-BR" == "locale=pt-BR" && "strategy=" + "desktop" == "strategy=desktop";
  }

  /** `query` is `test` on the `tipo:`-prefixed url without the category
      parameter: both accept the same strategies and render locale and UTM
      values the same way. */
  lemma QueryIsTestWithoutCategory(apiKey: string, url: string, options: QueryOptions, category: string)
    requires Includes(TipoNames, WithDefault(options.tipo, Text("origin")))
    requires category in CategoryNames
    ensures var prefixed := WithDefault(options.tipo, Text("origin")).s + ":" + url;
            var test := Test(apiKey, prefixed, TestOptions(Text(category), options.locale, options.strategy,
                                                           options.utmCampaign, options.utmSource));
            var query := Query(apiKey, url, options);
            && (query.Success? <==> test.Success?)
            && (query.Failure? ==> query == test)
            && (query.Success? ==>
                  && |query.value.params| >= 4
                  && test.value.endpoint == query.value.endpoint
                  && test.value.params
                     == query.value.params[..2] + ["category=" + category] + query.value.params[2..])
  {
    assert "category" + "=" == "category=";
  }
}
