/**
 * Decimal rendering of counters and the "first free name" loop that
 * `Category.save`, `Product.save` (slugs) and `SignUpSerializer.create`
 * (usernames) share: try `base`, then `base + sep + "1"`, `base + sep + "2"`, …
 */
module Naming {

  function Digit(d: nat): char
    requires d < 10
  {
    "0123456789"[d]
  }

  lemma DigitInjective(a: nat, b: nat)
    requires a < 10 && b < 10 && Digit(a) == Digit(b)
    ensures a == b
  {
  }

  /** `str(n)` in Python, `${n}` in JavaScript, for a natural number. */
  function NatToString(n: nat): (s: string)
    ensures |s| >= 1
    ensures n < 10 <==> |s| == 1
  {
    if n < 10 then [Digit(n)] else NatToString(n / 10) + [Digit(n % 10)]
  }

  lemma {:induction false} NatToStringInjective(a: nat, b: nat)
    requires NatToString(a) == NatToString(b)
    ensures a == b
  {
    if a >= 10 && b >= 10 {
      var sa, sb := NatToString(a), NatToString(b);
      assert sa[|sa| - 1] == Digit(a % 10);
      assert sb[|sb| - 1] == Digit(b % 10);
      DigitInjective(a % 10, b % 10);
      assert sa[..|sa| - 1] == NatToString(a / 10);
      assert sb[..|sb| - 1] == NatToString(b / 10);
      NatToStringInjective(a / 10, b / 10);
    } else if a < 10 && b < 10 {
      DigitInjective(a, b);
    }
  }

  /** The k-th name tried: index 0 is `base`, index k >= 1 is `base + sep + str(k)`. */
  function Name(base: string, sep: string, k: nat): (s: string)
    ensures k == 0 ==> s == base
    ensures k > 0 ==> |s| > |base| && s[..|base|] == base
  {
    if k == 0 then base else base + sep + NatToString(k)
  }

  lemma NameInjective(base: string, sep: string, i: nat, j: nat)
    requires Name(base, sep, i) == Name(base, sep, j)
    ensures i == j
  {
    if i > 0 && j > 0 {
      var n := |base + sep|;
      assert NatToString(i) == Name(base, sep, i)[n..];
      assert NatToString(j) == Name(base, sep, j)[n..];
      NatToStringInjective(i, j);
    }
  }

  /**
   * The loop of `Category.save`/`Product.save` (sep "-") and of
   * `SignUpSerializer.create` (sep ""): the first name, in the order
   * base, base+sep+"1", base+sep+"2", …, that is not in `taken`.
   */
  method FirstFree(base: string, sep: string, taken: set<string>) returns (name: string)
    ensures name !in taken
    ensures exists k: nat :: name == Name(base, sep, k) && forall j :: 0 <= j < k ==> Name(base, sep, j) in taken
  {
    name := base;
    var counter: nat := 1;
    ghost var seen: set<string> := {};
    while name in taken
      invariant name == Name(base, sep, counter - 1)
      invariant seen <= taken
      invariant forall j :: 0 <= j < counter - 1 ==> Name(base, sep, j) in seen
      invariant forall s :: s in seen ==> exists j :: 0 <= j < counter - 1 && s == Name(base, sep, j)
      decreases taken - seen
    {
      forall j | 0 <= j < counter - 1
        ensures Name(base, sep, j) != name
      {
        if Name(base, sep, j) == name { NameInjective(base, sep, j, counter - 1); }
      }
      forall s | s in seen + {name}
        ensures exists j :: 0 <= j < counter && s == Name(base, sep, j)
      {
        if s == name { assert s == Name(base, sep, counter - 1); }
      }
      seen := seen + {name};
      name := Name(base, sep, counter);
      counter := counter + 1;
    }
    assert forall j :: 0 <= j < counter - 1 ==> Name(base, sep, j) in taken;
  }
}
