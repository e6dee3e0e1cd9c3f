/**
 * The cookie side of the API client (`frontend/lib/api.ts`): the lookup
 * `getToken`/`getRefreshToken` run over `document.cookie`, and the cookie
 * jar that `setTokens`/`clearTokens` write. The jar holds one cookie per
 * name in creation order; `document.cookie` renders it as
 * `name=value; name=value`. Overwriting a cookie keeps its place, as a
 * browser keeps the creation time of a replaced cookie (section 5.3 of
 * RFC 6265), and a value is stored without the spaces and tabs around it
 * (section 5.2). `decodeURIComponent` is not modelled: values are stored
 * decoded.
 */
module Cookies {
  import opened Wrappers

  /** `s.split(sep)`: at least one part; no part holds `sep`. */
  function Split(s: string, sep: char): (parts: seq<string>)
    ensures |parts| >= 1
    ensures forall i :: 0 <= i < |parts| ==> sep !in parts[i]
  {
    if s == [] then [[]]
    else if s[0] == sep then [[]] + Split(s[1..], sep)
    else
      var rest := Split(s[1..], sep);
      [[s[0]] + rest[0]] + rest[1..]
  }

  /** `parts.join(sep)`. */
  function Join(parts: seq<string>, sep: char): string
    requires |parts| >= 1
  {
    if |parts| == 1 then parts[0] else parts[0] + [sep] + Join(parts[1..], sep)
  }

  lemma {:induction false} SplitJoin(parts: seq<string>, sep: char)
    requires |parts| >= 1
    requires forall i :: 0 <= i < |parts| ==> sep !in parts[i]
    ensures Split(Join(parts, sep), sep) == parts
    decreases |parts|, |parts[0]|
  {
    var p := parts[0];
    if p == [] {
      if |parts| > 1 {
        assert Join(parts, sep) == [sep] + Join(parts[1..], sep);
        assert Join(parts, sep)[1..] == Join(parts[1..], sep);
        SplitJoin(parts[1..], sep);
        assert parts == [[]] + parts[1..];
      }
    } else {
      assert p[0] in p;
      var shorter := [p[1..]] + parts[1..];
      assert shorter[1..] == parts[1..];
      if |parts| == 1 {
        assert Join(parts, sep)[1..] == Join(shorter, sep);
      } else {
        assert Join(parts, sep)[1..] == p[1..] + [sep] + Join(parts[1..], sep) == Join(shorter, sep);
      }
      SplitJoin(shorter, sep);
      assert [p[0]] + p[1..] == p;
      assert parts == [[p[0]] + shorter[0]] + shorter[1..];
    }
  }

  /** The `while (c.charAt(0) === ' ') c = c.substring(1)` of the lookup. */
  function TrimLeadingSpaces(c: string): (t: string)
    ensures |t| <= |c| && t == c[|c| - |t|..]
    ensures t == [] || t[0] != ' '
  {
    if c != [] && c[0] == ' ' then TrimLeadingSpaces(c[1..]) else c
  }

  /** The text after `name` of the first segment that starts with `name` once its leading spaces are gone. */
  function FindValue(segments: seq<string>, name: string): (r: Option<string>)
  {
    if segments == [] then None
    else
      var c := TrimLeadingSpaces(segments[0]);
      if StartsWith(c, name) then Some(c[|name|..]) else FindValue(segments[1..], name)
  }

  /** `getToken` (name "auth_token=") and `getRefreshToken` (name "refresh_token="): the loop over `document.cookie`. */
  method GetCookie(hasWindow: bool, documentCookie: string, name: string) returns (r: Option<string>)
    ensures !hasWindow ==> r == None
    ensures hasWindow ==> r == FindValue(Split(documentCookie, ';'), name)
  {
    if !hasWindow {
      return None;
    }
    var ca := Split(documentCookie, ';');
    for i := 0 to |ca|
      invariant FindValue(ca[i..], name) == FindValue(ca, name)
    {
      var c := ca[i];
      while |c| > 0 && c[0] == ' '
        invariant TrimLeadingSpaces(c) == TrimLeadingSpaces(ca[i])
      {
        c := c[1..];
      }
      assert ca[i..][1..] == ca[i + 1..];
      if StartsWith(c, name) {
        return Some(c[|name|..]);
      }
    }
    return None;
  }

  // ---------- the cookie jar ----------

  datatype Cookie = Cookie(name: string, value: string)

  /** A cookie name is a token: non-empty, without spaces, ';' or '='. */
  predicate ValidName(n: string)
  {
    n != [] && ' ' !in n && ';' !in n && '=' !in n
  }

  /** One cookie per name, valid names, values as a browser stores them. */
  ghost predicate ValidJar(jar: seq<Cookie>)
  {
    && (forall i :: 0 <= i < |jar| ==> ValidName(jar[i].name) && PlainValue(jar[i].value))
    && (forall i, j :: 0 <= i < j < |jar| ==> jar[i].name != jar[j].name)
  }

  /** One segment of `document.cookie`: `name=value`, with a space in front unless it is the first. */
  function Segment(c: Cookie, first: bool): string
  {
    (if first then "" else " ") + c.name + "=" + c.value
  }

  /** The segments of `document.cookie`, one per cookie. */
  function Segments(jar: seq<Cookie>, first: bool): (s: seq<string>)
    ensures |s| == |jar|
  {
    if jar == [] then [] else [Segment(jar[0], first)] + Segments(jar[1..], false)
  }

  /** `document.cookie` of the jar. */
  function DocumentCookie(jar: seq<Cookie>): string
  {
    if jar == [] then "" else Join(Segments(jar, true), ';')
  }

  /** The value of the cookie called `name`. */
  function Lookup(jar: seq<Cookie>, name: string): Option<string>
  {
    if jar == [] then None
    else if jar[0].name == name then Some(jar[0].value)
    else Lookup(jar[1..], name)
  }

  /** The whitespace a cookie parser strips around a value: space and horizontal tab. */
  predicate IsWsp(c: char)
  {
    c == ' ' || c == '\t'
  }

  /** A value a browser can hold: no ';', and no space or tab at either end. */
  predicate PlainValue(v: string)
  {
    ';' !in v && (v == [] || (!IsWsp(v[0]) && !IsWsp(v[|v| - 1])))
  }

  /**
   * The value a cookie string `name=raw; expires=…` stores: `raw` up to
   * its first ';', with leading and trailing spaces and tabs removed
   * (section 5.2 of RFC 6265).
   */
  function StoredValue(raw: string): (v: string)
    ensures PlainValue(v)
  {
    var part := Split(raw, ';')[0];
    StripLacks(part, IsWsp, ';');
    Strip(part, IsWsp)
  }

  /** Spaces and tabs around a value are not stored: `name= abc ` stores "abc". */
  lemma StoredValuePadded(lead: string, v: string, trail: string)
    requires forall i :: 0 <= i < |lead| ==> IsWsp(lead[i])
    requires forall i :: 0 <= i < |trail| ==> IsWsp(trail[i])
    requires v != [] && PlainValue(v)
    ensures StoredValue(lead + v + trail) == v
  {
    var raw := lead + v + trail;
    assert ';' !in raw by {
      assert forall i :: 0 <= i < |raw| ==> raw[i] == (if i < |lead| then lead[i] else if i < |lead| + |v| then v[i - |lead|] else trail[i - |lead| - |v|]);
    }
    SplitJoin([raw], ';');
    StripPadded(lead, v, trail, IsWsp);
  }

  /** Writes `name=value`: replaces the cookie of that name in place, or appends a new one. */
  function Set(jar: seq<Cookie>, name: string, value: string): seq<Cookie>
  {
    if jar == [] then [Cookie(name, value)]
    else if jar[0].name == name then [Cookie(name, value)] + jar[1..]
    else [jar[0]] + Set(jar[1..], name, value)
  }

  /** Writes `name=` with an expiry in the past: the cookie is gone. */
  function Delete(jar: seq<Cookie>, name: string): seq<Cookie>
  {
    if jar == [] then []
    else if jar[0].name == name then Delete(jar[1..], name)
    else [jar[0]] + Delete(jar[1..], name)
  }

  /** The tail of a valid jar is valid and does not hold the head's name. */
  lemma TailValid(jar: seq<Cookie>)
    requires ValidJar(jar) && jar != []
    ensures ValidJar(jar[1..])
    ensures forall c :: c in jar[1..] ==> c.name != jar[0].name
  {
    forall c | c in jar[1..] ensures c.name != jar[0].name {
      var j :| 0 <= j < |jar[1..]| && jar[1..][j] == c;
      assert jar[j + 1] == c;
    }
  }

  /** A valid cookie in front of a valid jar that lacks its name makes a valid jar. */
  lemma ConsValid(h: Cookie, rest: seq<Cookie>)
    requires ValidName(h.name) && PlainValue(h.value) && ValidJar(rest)
    requires forall c :: c in rest ==> c.name != h.name
    ensures ValidJar([h] + rest)
  {
    var jar := [h] + rest;
    forall i, j | 0 <= i < j < |jar| ensures jar[i].name != jar[j].name {
      assert jar[j] == rest[j - 1];
      if i > 0 { assert jar[i] == rest[i - 1]; } else { assert jar[j] in rest; }
    }
  }

  lemma {:induction false} SetLookup(jar: seq<Cookie>, name: string, value: string, other: string)
    ensures Lookup(Set(jar, name, value), name) == Some(value)
    ensures other != name ==> Lookup(Set(jar, name, value), other) == Lookup(jar, other)
  {
    if jar != [] && jar[0].name != name {
      SetLookup(jar[1..], name, value, other);
    }
  }

  lemma {:induction false} SetValid(jar: seq<Cookie>, name: string, value: string)
    requires ValidJar(jar) && ValidName(name) && PlainValue(value)
    ensures ValidJar(Set(jar, name, value))
    ensures forall c :: c in Set(jar, name, value) ==> c in jar || c == Cookie(name, value)
  {
    if jar == [] {
      assert Set(jar, name, value) == [Cookie(name, value)];
    } else {
      TailValid(jar);
      if jar[0].name != name {
        SetValid(jar[1..], name, value);
        ConsValid(jar[0], Set(jar[1..], name, value));
      } else {
        ConsValid(Cookie(name, value), jar[1..]);
      }
    }
  }

  /** Writing a cookie keeps the jar valid; that name then holds the value and every other name is unchanged. */
  lemma SetEffect(jar: seq<Cookie>, name: string, value: string, other: string)
    requires ValidJar(jar) && ValidName(name) && PlainValue(value)
    ensures ValidJar(Set(jar, name, value))
    ensures Lookup(Set(jar, name, value), name) == Some(value)
    ensures other != name ==> Lookup(Set(jar, name, value), other) == Lookup(jar, other)
    ensures forall c :: c in Set(jar, name, value) ==> c in jar || c == Cookie(name, value)
  {
    SetLookup(jar, name, value, other);
    SetValid(jar, name, value);
  }

  lemma {:induction false} DeleteLookup(jar: seq<Cookie>, name: string, other: string)
    ensures Lookup(Delete(jar, name), name) == None
    ensures other != name ==> Lookup(Delete(jar, name), other) == Lookup(jar, other)
  {
    if jar != [] {
      DeleteLookup(jar[1..], name, other);
    }
  }

  lemma {:induction false} DeleteValid(jar: seq<Cookie>, name: string)
    requires ValidJar(jar)
    ensures ValidJar(Delete(jar, name))
    ensures forall c :: c in Delete(jar, name) ==> c in jar
  {
    if jar != [] {
      TailValid(jar);
      DeleteValid(jar[1..], name);
      if jar[0].name != name {
        ConsValid(jar[0], Delete(jar[1..], name));
      }
    }
  }

  /** Expiring a cookie keeps the jar valid; that name then holds nothing and every other name is unchanged. */
  lemma DeleteEffect(jar: seq<Cookie>, name: string, other: string)
    requires ValidJar(jar)
    ensures ValidJar(Delete(jar, name))
    ensures Lookup(Delete(jar, name), name) == None
    ensures other != name ==> Lookup(Delete(jar, name), other) == Lookup(jar, other)
    ensures forall c :: c in Delete(jar, name) ==> c in jar
  {
    DeleteLookup(jar, name, other);
    DeleteValid(jar, name);
  }

  /** A segment `n=v` starts with `q=` exactly when `n` is `q`. */
  lemma PrefixMatch(n: string, v: string, q: string)
    requires '=' !in n && '=' !in q
    ensures StartsWith(n + "=" + v, q + "=") <==> n == q
  {
    var s, p := n + "=" + v, q + "=";
    if n == q {
      assert s[..|p|] == p;
    }
    if |n| < |q| {
      assert s[|n|] == '=' && p[|n|] == q[|n|];
    } else if |n| > |q| {
      assert s[|q|] == n[|q|] && p[|q|] == '=';
    } else {
      assert s[..|q|] == n && p[..|q|] == q;
    }
  }

  /** Trimming stops at a segment that does not start with a space, and skips one space in front. */
  lemma TrimSteps(s: string)
    requires s != [] && s[0] != ' '
    ensures TrimLeadingSpaces(s) == s
    ensures TrimLeadingSpaces(" " + s) == s
  {
    assert (" " + s)[1..] == s;
  }

  /** A segment, once trimmed, is its cookie's `name=value`. */
  lemma TrimSegment(c: Cookie, first: bool)
    requires c.name != [] && c.name[0] != ' '
    ensures TrimLeadingSpaces(Segment(c, first)) == c.name + "=" + c.value
  {
    var pair := c.name + "=" + c.value;
    assert pair[0] == c.name[0];
    TrimSteps(pair);
    if first {
      assert Segment(c, first) == pair;
    } else {
      assert Segment(c, first) == " " + pair;
    }
  }

  lemma {:induction false} FindValueOfSegments(jar: seq<Cookie>, first: bool, q: string)
    requires ValidJar(jar) && ValidName(q)
    ensures FindValue(Segments(jar, first), q + "=") == Lookup(jar, q)
  {
    if jar != [] {
      var c := jar[0];
      TrimSegment(c, first);
      assert Segments(jar, first)[1..] == Segments(jar[1..], false);
      PrefixMatch(c.name, c.value, q);
      if c.name == q {
        assert (c.name + "=" + c.value)[|q + "="|..] == c.value;
      } else {
        FindValueOfSegments(jar[1..], false, q);
      }
    }
  }

  /**
   * Reading a cookie back from `document.cookie` with the lookup loop gives
   * the value the jar holds for that name, and nothing when it holds none.
   */
  lemma ReadBack(jar: seq<Cookie>, q: string)
    requires ValidJar(jar) && ValidName(q)
    ensures FindValue(Split(DocumentCookie(jar), ';'), q + "=") == Lookup(jar, q)
  {
    if jar == [] {
      assert Split("", ';') == [[]];
    } else {
      var segs := Segments(jar, true);
      assert forall i :: 0 <= i < |segs| ==> ';' !in segs[i] by {
        SegmentsFree(jar, true);
      }
      SplitJoin(segs, ';');
      FindValueOfSegments(jar, true, q);
    }
  }

  lemma {:induction false} SegmentsFree(jar: seq<Cookie>, first: bool)
    requires ValidJar(jar)
    ensures forall i :: 0 <= i < |jar| ==> ';' !in Segments(jar, first)[i]
  {
    if jar != [] {
      SegmentsFree(jar[1..], false);
      var s := Segments(jar, first);
      assert s[1..] == Segments(jar[1..], false);
      forall i | 0 <= i < |jar| ensures ';' !in s[i] {
        if i > 0 { assert s[i] == s[1..][i - 1]; }
      }
    }
  }
}
