// URL assembly of the REST client (src/api_client.rs): the endpoint URL and
// the query string that `get_with_params` appends to it. Percent-encoding of
// values is a parameter `encode`; the HTTP exchange itself is left out.

module ApiClient {
  import opened QueryParams

  /** The public CIMA REST address. */
  const BaseUrl: string := "https://cima.aemps.es/cima/rest"

  /** `CimaClient`, reduced to the one field URL assembly reads. */
  datatype CimaClient = CimaClient(baseUrl: string)

  /** `CimaClient::new()`: a client for the public address. */
  function New(): (c: CimaClient)
    ensures c.baseUrl == "https://cima.aemps.es/cima/rest"
    ensures c.baseUrl[|c.baseUrl| - 1] != '/'
  {
    CimaClient(BaseUrl)
  }

  /** `build_url`: the base URL, one slash, then the endpoint, both unchanged. */
  function BuildUrl(c: CimaClient, endpoint: string): (url: string)
    ensures |url| == |c.baseUrl| + 1 + |endpoint|
    ensures url[..|c.baseUrl|] == c.baseUrl && url[|c.baseUrl|] == '/'
    ensures url[|c.baseUrl| + 1..] == endpoint
  {
    c.baseUrl + "/" + endpoint
  }

  /** On one client, distinct endpoints give distinct URLs. */
  lemma BuildUrlInjective(c: CimaClient, e1: string, e2: string)
    requires BuildUrl(c, e1) == BuildUrl(c, e2)
    ensures e1 == e2
  {
    assert e1 == BuildUrl(c, e1)[|c.baseUrl| + 1..];
  }

  /** The two URLs of the unit tests. */
  lemma BuildUrlExamples()
    ensures BuildUrl(New(), "medicamento") == "https://cima.aemps.es/cima/rest/medicamento"
    ensures BuildUrl(CimaClient("http://localhost:8080"), "test") == "http://localhost:8080/test"
  {
  }

  /** One `key=value` assignment: the key verbatim, the value encoded. */
  function Assignment(pair: Pair, encode: string -> string): string {
    pair.0 + "=" + encode(pair.1)
  }

  /** The assignments in order, with an `&` before every one but the first. */
  function Joined(params: seq<Pair>, encode: string -> string): (r: string)
    ensures r == "" <==> params == []
  {
    if params == [] then ""
    else if |params| == 1 then Assignment(params[0], encode)
    else Joined(params[..|params| - 1], encode) + "&" + Assignment(params[|params| - 1], encode)
  }

  /** The query string: empty without parameters, otherwise `?` then the assignments. */
  function QueryString(params: seq<Pair>, encode: string -> string): (r: string)
    ensures r == "" <==> params == []
    ensures params != [] ==> r[0] == '?' && r[1..] == Joined(params, encode)
  {
    if params == [] then "" else "?" + Joined(params, encode)
  }

  lemma JoinedSnoc(params: seq<Pair>, pair: Pair, encode: string -> string)
    ensures Joined(params + [pair], encode)
      == (if params == [] then "" else Joined(params, encode) + "&") + Assignment(pair, encode)
  {
    assert (params + [pair])[..|params|] == params;
  }

  /**
   * The URL `get_with_params` requests: the endpoint URL, then `?` and one
   * assignment per parameter, in order, separated by `&`.
   */
  method RequestUrl(c: CimaClient, endpoint: string, params: seq<Pair>, encode: string -> string) returns (url: string)
    ensures url == BuildUrl(c, endpoint) + QueryString(params, encode)
    ensures params == [] ==> url == BuildUrl(c, endpoint)
  {
    url := BuildUrl(c, endpoint);
    ghost var start := url;
    if |params| > 0 {
      url := url + "?";
      var i := 0;
      while i < |params|
        invariant 0 <= i <= |params|
        invariant url == start + "?" + Joined(params[..i], encode)
      {
        ghost var before := url;
        JoinedSnoc(params[..i], params[i], encode);
        assert params[..i + 1] == params[..i] + [params[i]];
        if i > 0 {
          url := url + "&";
        }
        url := url + params[i].0 + "=" + encode(params[i].1);
        assert url == before + (if i > 0 then "&" else "") + Assignment(params[i], encode);
        i := i + 1;
      }
      assert params[..|params|] == params;
    }
  }

  /** Occurrences of a character in a string. */
  function Count(ch: char, s: string): nat {
    multiset(s)[ch]
  }

  /** Keys and encoded values free of `ch`: no occurrence of it in the assignments. */
  predicate Avoids(params: seq<Pair>, encode: string -> string, ch: char) {
    forall i :: 0 <= i < |params| ==> ch !in params[i].0 && ch !in encode(params[i].1)
  }

  /** With keys and encoded values free of `&`, there are exactly n - 1 separators. */
  lemma {:induction false} JoinedSeparators(params: seq<Pair>, encode: string -> string)
    requires params != []
    requires Avoids(params, encode, '&')
    ensures Count('&', Joined(params, encode)) == |params| - 1
  {
    var last := params[|params| - 1];
    assert Count('&', Assignment(last, encode)) == 0 by {
      assert Assignment(last, encode) == last.0 + "=" + encode(last.1);
    }
    if |params| > 1 {
      var init := params[..|params| - 1];
      assert Avoids(init, encode, '&') by {
        forall i | 0 <= i < |init| ensures '&' !in init[i].0 && '&' !in encode(init[i].1) {
          assert init[i] == params[i];
        }
      }
      JoinedSeparators(init, encode);
    }
  }

  /** A character that is neither `=` nor `&` and avoided by the pairs never appears in their assignments. */
  lemma {:induction false} JoinedAvoids(params: seq<Pair>, encode: string -> string, ch: char)
    requires ch != '=' && ch != '&'
    requires Avoids(params, encode, ch)
    ensures Count(ch, Joined(params, encode)) == 0
  {
    if params != [] {
      var last := params[|params| - 1];
      assert Count(ch, Assignment(last, encode)) == 0 by {
        assert Assignment(last, encode) == last.0 + "=" + encode(last.1);
      }
      if |params| > 1 {
        var init := params[..|params| - 1];
        assert Avoids(init, encode, ch) by {
          forall i | 0 <= i < |init| ensures ch !in init[i].0 && ch !in encode(init[i].1) {
            assert init[i] == params[i];
          }
        }
        JoinedAvoids(init, encode, ch);
      }
    }
  }

  /**
   * With no `?` in the base URL, the endpoint, the keys and the encoded
   * values, the request URL has exactly one `?` when there are parameters
   * and none otherwise.
   */
  lemma QuestionMarks(c: CimaClient, endpoint: string, params: seq<Pair>, encode: string -> string)
    requires '?' !in c.baseUrl && '?' !in endpoint
    requires Avoids(params, encode, '?')
    ensures Count('?', BuildUrl(c, endpoint) + QueryString(params, encode)) == if params == [] then 0 else 1
  {
    JoinedAvoids(params, encode, '?');
    assert Count('?', BuildUrl(c, endpoint)) == 0 by {
      assert BuildUrl(c, endpoint) == c.baseUrl + "/" + endpoint;
    }
  }

  /**
   * The query string of the medication search of the unit test, with an
   * encoder that leaves its three values alone.
   */
  lemma SearchUrlExample(encode: string -> string)
    requires encode("Paracetamol") == "Paracetamol" && encode("1") == "1" && encode("2") == "2"
    ensures QueryString([("nombre", "Paracetamol"), ("triangulo", "1"), ("pagina", "2")], encode)
      == "?" + "nombre=Paracetamol" + "&" + "triangulo=1" + "&" + "pagina=2"
  {
    var ps := [("nombre", "Paracetamol"), ("triangulo", "1"), ("pagina", "2")];
    assert Assignment(ps[0], encode) == "nombre=Paracetamol";
    assert Assignment(ps[1], encode) == "triangulo=1";
    assert Assignment(ps[2], encode) == "pagina=2";
    JoinedSnoc([ps[0]], ps[1], encode);
    JoinedSnoc([ps[0], ps[1]], ps[2], encode);
    assert [ps[0]] + [ps[1]] == [ps[0], ps[1]];
    assert [ps[0], ps[1]] + [ps[2]] == ps;
  }
}
