/** Optional values (JavaScript's `null`/`undefined`, Python's `None`) and the string tests both sides share. */
module Wrappers {

  datatype Option<+T> = None | Some(value: T) {

    /** The wrapped value, or `default` when there is none. */
    function GetOr(default: T): T
    {
      match this
      case Some(v) => v
      case None => default
    }
  }

  /** A value or the error that replaced it. */
  datatype Result<+T, +E> = Ok(value: T) | Err(error: E)

  /** JavaScript truthiness of an optional string: absent and "" are falsy. */
  predicate Truthy(s: Option<string>)
  {
    s.Some? && s.value != ""
  }

  /** `a || b` for optional strings. */
  function OrElse(a: Option<string>, b: string): (r: string)
    ensures Truthy(a) ==> r == a.value
    ensures !Truthy(a) ==> r == b
  {
    if Truthy(a) then a.value else b
  }

  /** `s.startsWith(prefix)`. */
  predicate StartsWith(s: string, prefix: string)
  {
    |prefix| <= |s| && s[..|prefix|] == prefix
  }

  /**
   * `s` with the leading and trailing characters for which `space` holds
   * removed, as Python's `str.strip()` and JavaScript's `trim()` do: the
   * result neither starts nor ends with such a character, and a string
   * already free of them at both ends comes back unchanged. `StripLacks`
   * and `StripEmpty` state what remains.
   */
  function Strip(s: string, space: char -> bool): (r: string)
    ensures |r| <= |s|
    ensures r == [] || (!space(r[0]) && !space(r[|r| - 1]))
    ensures (s == [] || (!space(s[0]) && !space(s[|s| - 1]))) ==> r == s
    decreases |s|
  {
    if s == [] then s
    else if space(s[0]) then Strip(s[1..], space)
    else if space(s[|s| - 1]) then Strip(s[..|s| - 1], space)
    else s
  }

  /** `Strip` only removes characters: one absent from `s` is absent from the result. */
  lemma {:induction false} StripLacks(s: string, space: char -> bool, c: char)
    requires c !in s
    ensures c !in Strip(s, space)
    decreases |s|
  {
    if s != [] && space(s[0]) {
      assert forall i :: 0 <= i < |s| - 1 ==> s[1..][i] == s[i + 1];
      StripLacks(s[1..], space, c);
    } else if s != [] && space(s[|s| - 1]) {
      assert forall i :: 0 <= i < |s| - 1 ==> s[..|s| - 1][i] == s[i];
      StripLacks(s[..|s| - 1], space, c);
    }
  }

  /** `Strip` leaves nothing exactly when every character is one it removes. */
  lemma {:induction false} StripEmpty(s: string, space: char -> bool)
    ensures Strip(s, space) == [] <==> forall i :: 0 <= i < |s| ==> space(s[i])
    decreases |s|
  {
    if s != [] && space(s[0]) {
      StripEmpty(s[1..], space);
      assert forall i :: 1 <= i < |s| ==> s[i] == s[1..][i - 1];
    } else if s != [] && space(s[|s| - 1]) {
      StripEmpty(s[..|s| - 1], space);
      assert forall i :: 0 <= i < |s| - 1 ==> s[i] == s[..|s| - 1][i];
    }
  }

  /** Padding made of `space` characters around a core that neither starts nor ends with one is exactly what `Strip` removes. */
  lemma {:induction false} StripPadded(lead: string, core: string, trail: string, space: char -> bool)
    requires forall i :: 0 <= i < |lead| ==> space(lead[i])
    requires forall i :: 0 <= i < |trail| ==> space(trail[i])
    requires core != [] && !space(core[0]) && !space(core[|core| - 1])
    ensures Strip(lead + core + trail, space) == core
    decreases |lead| + |trail|
  {
    var s := lead + core + trail;
    if lead != [] {
      assert s[0] == lead[0];
      assert s[1..] == lead[1..] + core + trail;
      StripPadded(lead[1..], core, trail, space);
    } else if trail != [] {
      assert s == core + trail;
      assert s[0] == core[0] && s[|s| - 1] == trail[|trail| - 1];
      assert s[..|s| - 1] == [] + core + trail[..|trail| - 1];
      StripPadded([], core, trail[..|trail| - 1], space);
    } else {
      assert s == core;
    }
  }

}
