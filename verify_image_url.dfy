/**
 * `frontend/verify_image_url.js`: a copy of `getImageUrl` and the script
 * that runs it over six test vectors, counts the passes and sets the exit
 * code. Console output is not modelled.
 */
module ImageUrlScript {
  import opened Wrappers
  import Image

  /** The script's own copy of `getImageUrl`. */
  function GetImageUrl(path: Option<string>, env: Option<string>, parse: Image.OriginParser): string
  {
    if !Truthy(path) then "/assets/placeholder.png"
    else if StartsWith(path.value, "http://") || StartsWith(path.value, "https://") then path.value
    else
      var apiUrl := OrElse(env, "http://localhost:8000/api");
      var origin := parse(apiUrl);
      if origin.Some? then origin.value + (if StartsWith(path.value, "/") then "" else "/") + path.value
      else "http://localhost:8000" + (if StartsWith(path.value, "/") then "" else "/") + path.value
  }

  /** The copy computes what the utility computes, for every input. */
  lemma CopyAgrees(path: Option<string>, env: Option<string>, parse: Image.OriginParser)
    ensures GetImageUrl(path, env, parse) == Image.GetImageUrl(path, env, parse)
  {
  }

  /** The environment the script sets before running. */
  const MockApiUrl := "http://localhost:8000/api"

  datatype TestCase = TestCase(input: Option<string>, expected: string)

  /** The six vectors; `null` and `undefined` are both `None`. */
  const TestCases: seq<TestCase> := [
    TestCase(Some("/media/products/image.jpg"), "http://localhost:8000/media/products/image.jpg"),
    TestCase(Some("media/products/image.jpg"), "http://localhost:8000/media/products/image.jpg"),
    TestCase(Some("http://example.com/image.jpg"), "http://example.com/image.jpg"),
    TestCase(Some("https://example.com/image.jpg"), "https://example.com/image.jpg"),
    TestCase(None, "/assets/placeholder.png"),
    TestCase(None, "/assets/placeholder.png")
  ]

  predicate Passes(t: TestCase, parse: Image.OriginParser)
  {
    GetImageUrl(t.input, Some(MockApiUrl), parse) == t.expected
  }

  /** How many of `cases` pass. */
  function PassCount(cases: seq<TestCase>, parse: Image.OriginParser): (k: nat)
    ensures k <= |cases|
  {
    if cases == [] then 0
    else PassCount(cases[..|cases| - 1], parse) + (if Passes(cases[|cases| - 1], parse) then 1 else 0)
  }

  /** The `forEach` over the vectors, the `passed` counter and the exit code. */
  method RunTests(parse: Image.OriginParser) returns (passed: nat, exitCode: int)
    ensures passed == PassCount(TestCases, parse)
    ensures exitCode == 0 <==> passed == |TestCases|
    ensures exitCode == 0 || exitCode == 1
    ensures parse(MockApiUrl) == Some("http://localhost:8000") ==> passed == 6 && exitCode == 0
  {
    passed := 0;
    for i := 0 to |TestCases|
      invariant passed == PassCount(TestCases[..i], parse)
    {
      var result := GetImageUrl(TestCases[i].input, Some(MockApiUrl), parse);
      if result == TestCases[i].expected {
        passed := passed + 1;
      }
      assert TestCases[..i + 1][..i] == TestCases[..i];
    }
    assert TestCases[..|TestCases|] == TestCases;
    exitCode := if passed == |TestCases| then 0 else 1;
    if parse(MockApiUrl) == Some("http://localhost:8000") {
      AllVectorsPass(parse);
    }
  }

  lemma {:induction false} PassCountAll(cases: seq<TestCase>, parse: Image.OriginParser)
    requires forall i :: 0 <= i < |cases| ==> Passes(cases[i], parse)
    ensures PassCount(cases, parse) == |cases|
  {
    if cases != [] {
      PassCountAll(cases[..|cases| - 1], parse);
    }
  }

  /** A path that starts with '/' is appended to the mock origin. */
  lemma RootedVector(path: string, parse: Image.OriginParser)
    requires parse(MockApiUrl) == Some("http://localhost:8000")
    requires path != [] && path[0] == '/'
    ensures GetImageUrl(Some(path), Some(MockApiUrl), parse) == "http://localhost:8000" + path
  {
    assert path[..1] == "/";
    assert !StartsWith(path, "http://") by { assert "http://"[0] == 'h'; }
    assert !StartsWith(path, "https://") by { assert "https://"[0] == 'h'; }
  }

  /** A path that starts with neither '/' nor 'h' gets a '/' between the mock origin and itself. */
  lemma BareVector(path: string, parse: Image.OriginParser)
    requires parse(MockApiUrl) == Some("http://localhost:8000")
    requires path != [] && path[0] != '/' && path[0] != 'h'
    ensures GetImageUrl(Some(path), Some(MockApiUrl), parse) == "http://localhost:8000" + "/" + path
  {
    assert path[..1] == [path[0]];
    assert !StartsWith(path, "/");
    assert !StartsWith(path, "http://") by { assert "http://"[0] == 'h'; }
    assert !StartsWith(path, "https://") by { assert "https://"[0] == 'h'; }
  }

  /** "/media/products/image.jpg" resolves to the media URL on the mock origin. */
  lemma FirstVectorPasses(parse: Image.OriginParser)
    requires parse(MockApiUrl) == Some("http://localhost:8000")
    ensures Passes(TestCases[0], parse)
  {
    RootedVector(TestCases[0].input.value, parse);
    RootedMediaUrl();
  }

  lemma RootedMediaUrl()
    ensures "http://localhost:8000" + "/media/products/image.jpg" == "http://localhost:8000/media/products/image.jpg"
  {
  }

  lemma BareMediaUrl()
    ensures "http://localhost:8000" + "/" + "media/products/image.jpg" == "http://localhost:8000/media/products/image.jpg"
  {
  }

  /** "media/products/image.jpg" resolves to the same URL. */
  lemma SecondVectorPasses(parse: Image.OriginParser)
    requires parse(MockApiUrl) == Some("http://localhost:8000")
    ensures Passes(TestCases[1], parse)
  {
    BareVector(TestCases[1].input.value, parse);
    BareMediaUrl();
  }

  /** The two absolute URLs come back unchanged. */
  lemma AbsoluteVectorsPass(parse: Image.OriginParser)
    ensures Passes(TestCases[2], parse) && Passes(TestCases[3], parse)
  {
    assert StartsWith(TestCases[2].input.value, "http://");
    assert StartsWith(TestCases[3].input.value, "https://");
  }

  /** `null` and `undefined` give the placeholder. */
  lemma MissingVectorsPass(parse: Image.OriginParser)
    ensures Passes(TestCases[4], parse) && Passes(TestCases[5], parse)
  {
    assert TestCases[4] == TestCase(None, "/assets/placeholder.png");
    assert TestCases[5] == TestCase(None, "/assets/placeholder.png");
  }

  /** With a URL parser that gives the mock API URL the origin "http://localhost:8000", all six vectors pass. */
  lemma AllVectorsPass(parse: Image.OriginParser)
    requires parse(MockApiUrl) == Some("http://localhost:8000")
    ensures PassCount(TestCases, parse) == |TestCases|
  {
    FirstVectorPasses(parse);
    SecondVectorPasses(parse);
    AbsoluteVectorsPass(parse);
    MissingVectorsPass(parse);
    assert forall i :: 0 <= i < |TestCases| ==> Passes(TestCases[i], parse) by {
      forall i | 0 <= i < |TestCases| ensures Passes(TestCases[i], parse) {
        assert i in {0, 1, 2, 3, 4, 5};
      }
    }
    PassCountAll(TestCases, parse);
  }
}
