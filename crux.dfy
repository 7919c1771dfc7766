/** The request of `CrUXApiUtil.query`: a POST to the queryRecord endpoint of
    the Chrome UX Report API whose body names the origin or url to look up
    and, optionally, the form factor. */
module CrUX {
  import opened Wrappers
  import opened Js

  const Endpoint := "https://chromeuxreport.googleapis.com/v1/records:queryRecord"

  const TipoNames: seq<string> := ["origin", "url"]
  const FormFactors: seq<string> := ["DESKTOP", "PHONE", "TABLET"]

  const TipoError := "Tipo inválido, utilize origin ou url"

  /** What is handed to `request`: the URL and the JSON body of the POST. */
  datatype PostRequest = PostRequest(url: string, body: Object<string>)

  /** Whether the form factor goes into the body: `formFactor && [...].includes(formFactor)`.
      An unknown form factor is dropped silently, not rejected. */
  predicate SendsFormFactor(formFactor: Arg) {
    formFactor.Text? && formFactor.s != "" && formFactor.s in FormFactors
  }

  /** `query(site, { tipo = "origin", formFactor = null } = {})`: the body
      starts empty, receives the site under the key `tipo` and, when it is
      one of the three known values, the form factor. */
  method Query(apiKey: string, site: string, tipo: Arg, formFactor: Arg) returns (r: Result<PostRequest, Error>)
    ensures r.Failure? <==> !Includes(TipoNames, WithDefault(tipo, Text("origin")))
    ensures r.Failure? ==> r.error == Thrown(TipoError)
    ensures r.Success? ==>
              var key := WithDefault(tipo, Text("origin")).s;
              && r.value.url == Endpoint + "?key=" + apiKey
              && Keys(r.value.body) == [key] + (if SendsFormFactor(formFactor) then ["formFactor"] else [])
              && Get(r.value.body, key) == Some(site)
              && Get(r.value.body, "formFactor")
                 == (if SendsFormFactor(formFactor) then Some(formFactor.s) else None)
  {
    var body: Object<string> := [];
    var t := WithDefault(tipo, Text("origin"));
    if !Includes(TipoNames, t) {
      return Failure(Thrown(TipoError));
    }
    body := Put(body, t.s, site);
    assert body == [(t.s, site)];
    if formFactor.Text? && formFactor.s != "" && formFactor.s in FormFactors {
      assert "formFactor" != t.s;
      PutKeys(body, "formFactor", formFactor.s);
      GetPut(body, "formFactor", formFactor.s, t.s);
      body := Put(body, "formFactor", formFactor.s);
    }
    var url := Endpoint + "?key=" + apiKey;
    return Success(PostRequest(url, body));
  }
}
