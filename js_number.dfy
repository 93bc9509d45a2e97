/** JavaScript's `Number(string)` and `String(number)`, restricted to integer values.
    `Number` trims surrounding white space, reads "" (and a string of white space only) as 0,
    accepts an optional sign before decimal digits and gives NaN (here `None`) for everything else. */
module JsNumber {
  import opened Basics
  import opened Text

  function TrimStart(s: string): (r: string)
    ensures |r| <= |s| && r == s[|s| - |r|..]
    ensures r == "" || !IsJsSpace(r[0])
  {
    if |s| > 0 && IsJsSpace(s[0]) then TrimStart(s[1..]) else s
  }

  function TrimEnd(s: string): (r: string)
    ensures |r| <= |s| && r == s[..|r|]
    ensures r == "" || !IsJsSpace(r[|r| - 1])
  {
    if |s| > 0 && IsJsSpace(s[|s| - 1]) then TrimEnd(s[..|s| - 1]) else s
  }

  /** `String.prototype.trim`, which `Number()` applies to its argument first. */
  function Trim(s: string): string {
    TrimEnd(TrimStart(s))
  }

  predicate AllSpace(s: string) {
    forall i :: 0 <= i < |s| ==> IsJsSpace(s[i])
  }

  /** `Number(s)` over integers; `None` is NaN. */
  function StringToNumber(s: string): Option<int> {
    var t := Trim(s);
    if t == "" then Some(0)
    else if t[0] == '+' || t[0] == '-' then
      if |t| >= 2 && AllDigits(t[1..]) then
        var v: int := DigitsValue(t[1..]);
        Some(if t[0] == '-' then -v else v)
      else None
    else if AllDigits(t) then Some(DigitsValue(t))
    else None
  }

  /** `String(n)` for an integer `n` (JavaScript prints -0 as "0", as here). */
  function IntToString(n: int): (s: string)
    ensures |s| >= 1 && !IsJsSpace(s[0]) && !IsJsSpace(s[|s| - 1])
    ensures n >= 0 ==> AllDigits(s)
  {
    if n < 0 then "-" + NatToDigits(-n) else NatToDigits(n)
  }

  lemma {:induction false} TrimStartSpaces(pre: string, x: string)
    requires AllSpace(pre)
    requires x == "" || !IsJsSpace(x[0])
    ensures TrimStart(pre + x) == x
  {
    if pre != [] {
      assert (pre + x)[1..] == pre[1..] + x;
      TrimStartSpaces(pre[1..], x);
    }
  }

  lemma {:induction false} TrimEndSpaces(x: string, post: string)
    requires AllSpace(post)
    requires x == "" || !IsJsSpace(x[|x| - 1])
    ensures TrimEnd(x + post) == x
  {
    if post != [] {
      var s := x + post;
      assert s[..|s| - 1] == x + post[..|post| - 1];
      TrimEndSpaces(x, post[..|post| - 1]);
    } else {
      assert x + post == x;
    }
  }

  /** A string without white space at either end is its own trim. */
  lemma TrimUntouched(t: string)
    requires t == "" || (!IsJsSpace(t[0]) && !IsJsSpace(t[|t| - 1]))
    ensures Trim(t) == t
  {
    TrimStartSpaces([], t);
    assert [] + t == t;
    TrimEndSpaces(t, []);
    assert t + [] == t;
  }

  /** White space around a literal is ignored: `Number(" 3 ")` is 3. */
  lemma TrimSurrounding(pre: string, t: string, post: string)
    requires AllSpace(pre) && AllSpace(post)
    requires t != "" && !IsJsSpace(t[0]) && !IsJsSpace(t[|t| - 1])
    ensures Trim(pre + t + post) == t
  {
    assert pre + t + post == pre + (t + post);
    assert (t + post)[0] == t[0];
    TrimStartSpaces(pre, t + post);
    TrimEndSpaces(t, post);
  }

  lemma NumberIgnoresSpaces(pre: string, t: string, post: string)
    requires AllSpace(pre) && AllSpace(post)
    requires t != "" && !IsJsSpace(t[0]) && !IsJsSpace(t[|t| - 1])
    ensures StringToNumber(pre + t + post) == StringToNumber(t)
  {
    TrimSurrounding(pre, t, post);
    TrimUntouched(t);
  }

  /** A string of white space only (the empty string included) is the number 0. */
  lemma SpacesAreZero(s: string)
    requires AllSpace(s)
    ensures StringToNumber(s) == Some(0)
  {
    TrimStartSpaces(s, "");
    assert s + "" == s;
  }

  /** `Number(String(n)) == n`: printing an integer and reading it back is the identity. */
  lemma NumberOfString(n: int)
    ensures StringToNumber(IntToString(n)) == Some(n)
  {
    var s := IntToString(n);
    TrimUntouched(s);
    if n < 0 {
      assert s[0] == '-' && s[1..] == NatToDigits(-n);
    } else {
      assert s[0] != '+' && s[0] != '-';
    }
  }
}
