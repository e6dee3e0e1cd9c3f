/**
 * `getImageUrl` (`frontend/utils/image.ts`): the URL of a product image
 * path. The environment's `NEXT_PUBLIC_API_URL` and the `URL` parser's
 * origin are parameters; a parser answer of `None` stands for `new URL`
 * throwing.
 */
module Image {
  import opened Wrappers

  const Placeholder := "/assets/placeholder.png"
  const DefaultApiUrl := "http://localhost:8000/api"
  const FallbackOrigin := "http://localhost:8000"

  /** An origin parser: `new URL(u).origin`, or `None` when the constructor throws. */
  type OriginParser = string -> Option<string>

  predicate IsAbsolute(path: string)
  {
    StartsWith(path, "http://") || StartsWith(path, "https://")
  }

  /** `origin + (path starts with '/' ? '' : '/') + path`. */
  function Join(origin: string, path: string): (url: string)
    ensures StartsWith(path, "/") ==> url == origin + path
    ensures !StartsWith(path, "/") ==> url == origin + "/" + path
  {
    origin + (if StartsWith(path, "/") then "" else "/") + path
  }

  /** The origin used: the parsed API URL's, or the fallback when parsing throws. */
  function Origin(env: Option<string>, parse: OriginParser): string
  {
    var apiUrl := OrElse(env, DefaultApiUrl);
    var parsed := parse(apiUrl);
    if parsed.Some? then parsed.value else FallbackOrigin
  }

  function GetImageUrl(path: Option<string>, env: Option<string>, parse: OriginParser): string
  {
    if !Truthy(path) then Placeholder
    else if IsAbsolute(path.value) then path.value
    else Join(Origin(env, parse), path.value)
  }

  /** A missing or empty path gives the placeholder. */
  lemma MissingPathIsPlaceholder(env: Option<string>, parse: OriginParser)
    ensures GetImageUrl(None, env, parse) == Placeholder
    ensures GetImageUrl(Some(""), env, parse) == Placeholder
  {
  }

  /** Absolute http(s) URLs come back unchanged. */
  lemma AbsoluteUnchanged(path: string, env: Option<string>, parse: OriginParser)
    requires IsAbsolute(path)
    ensures GetImageUrl(Some(path), env, parse) == path
  {
  }

  /** Any other path is joined to the origin with exactly one '/' between them. */
  lemma RelativeJoined(path: string, env: Option<string>, parse: OriginParser)
    requires path != "" && !IsAbsolute(path)
    ensures var o := Origin(env, parse);
            GetImageUrl(Some(path), env, parse) == if path[0] == '/' then o + path else o + "/" + path
  {
    assert StartsWith(path, "/") <==> path[0] == '/' by {
      if path[0] == '/' { assert path[..1] == "/"; }
    }
  }

  /** A leading '/' makes no difference for a relative path. */
  lemma LeadingSlashIrrelevant(p: string, env: Option<string>, parse: OriginParser)
    requires p != "" && p[0] != '/' && !IsAbsolute(p)
    ensures GetImageUrl(Some("/" + p), env, parse) == GetImageUrl(Some(p), env, parse)
  {
    var q := "/" + p;
    assert q[..1] == "/";
    assert !StartsWith(q, "http://") && !StartsWith(q, "https://") by {
      assert q[0] == '/';
    }
    assert !StartsWith(p, "/") by {
      if |p| >= 1 { assert p[..1][0] == p[0]; }
    }
    assert Join(Origin(env, parse), q) == Origin(env, parse) + "/" + p;
  }

  /** When the API URL does not parse, the local development origin is used under the same rule. */
  lemma UnparsableUsesFallback(path: string, env: Option<string>, parse: OriginParser)
    requires path != "" && !IsAbsolute(path) && parse(OrElse(env, DefaultApiUrl)).None?
    ensures GetImageUrl(Some(path), env, parse) == Join(FallbackOrigin, path)
  {
  }

  /** Without the environment variable the default API URL is parsed. */
  lemma DefaultApiUrlParsed(path: string, parse: OriginParser, origin: string)
    requires path != "" && !IsAbsolute(path) && parse(DefaultApiUrl) == Some(origin)
    ensures GetImageUrl(Some(path), None, parse) == Join(origin, path)
    ensures GetImageUrl(Some(path), Some(""), parse) == Join(origin, path)
  {
  }
}
