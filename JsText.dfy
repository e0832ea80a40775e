/**
 * The two pieces of JavaScript string semantics the validation schemas rely on:
 * `String.prototype.trim` (which zod's `.trim()` applies before any length or
 * regex check) and `String.prototype.length` (which zod's `.min`/`.max` compare).
 *
 * A Dafny `char` is a Unicode scalar value, while a JavaScript string is a
 * sequence of UTF-16 code units, so the length a JavaScript program sees counts
 * every character outside the Basic Multilingual Plane twice.
 */
module JsText {

  /** WhiteSpace and LineTerminator code points of ECMAScript (sections 12.2
      and 12.3 of ECMA-262): exactly what `trim` strips at both ends. */
  predicate IsWhitespace(c: char) {
    var n := c as int;
    // WhiteSpace: TAB, VT, FF, SP, NBSP, ZWNBSP
    || n == 0x09 || n == 0x0B || n == 0x0C || n == 0x20 || n == 0xA0 || n == 0xFEFF
    // LineTerminator: LF, CR, LS, PS
    || n == 0x0A || n == 0x0D || n == 0x2028 || n == 0x2029
    // the remaining members of the Unicode category Zs
    || n == 0x1680 || (0x2000 <= n <= 0x200A) || n == 0x202F || n == 0x205F || n == 0x3000
  }

  /** Every character of `s` is whitespace. */
  predicate AllWhitespace(s: string)
    decreases |s|
  {
    s == [] || (IsWhitespace(s[0]) && AllWhitespace(s[1..]))
  }

  lemma {:induction false} AllWhitespaceAppend(a: string, b: string)
    ensures AllWhitespace(a + b) <==> AllWhitespace(a) && AllWhitespace(b)
    decreases |a|
  {
    if a == [] {
      assert a + b == b;
    } else {
      assert (a + b)[0] == a[0];
      assert (a + b)[1..] == a[1..] + b;
      AllWhitespaceAppend(a[1..], b);
    }
  }

  /** Neither the first nor the last character of `s` is whitespace. */
  predicate NoEdgeWhitespace(s: string) {
    s == [] || (!IsWhitespace(s[0]) && !IsWhitespace(s[|s| - 1]))
  }

  /** `String.prototype.trimStart`: drops the leading whitespace. */
  function TrimStart(s: string): (r: string)
    ensures |r| <= |s|
    decreases |s|
  {
    if |s| > 0 && IsWhitespace(s[0]) then TrimStart(s[1..]) else s
  }

  /** `String.prototype.trimEnd`: drops the trailing whitespace. */
  function TrimEnd(s: string): (r: string)
    ensures |r| <= |s|
    decreases |s|
  {
    if |s| > 0 && IsWhitespace(s[|s| - 1]) then TrimEnd(s[..|s| - 1]) else s
  }

  /** `String.prototype.trim`: it only ever removes characters. What it removes
      and what it keeps are characterised by `TrimShape` and `TrimUnique`. */
  function Trim(s: string): (r: string)
    ensures |r| <= |s|
  {
    TrimEnd(TrimStart(s))
  }

  /** `TrimStart` keeps a suffix that is empty or starts with a non-whitespace
      character, and what it drops is whitespace. */
  lemma {:induction false} TrimStartShape(s: string) returns (lead: string)
    ensures s == lead + TrimStart(s) && AllWhitespace(lead)
    ensures TrimStart(s) == [] || !IsWhitespace(TrimStart(s)[0])
    decreases |s|
  {
    if |s| > 0 && IsWhitespace(s[0]) {
      var rest := TrimStartShape(s[1..]);
      lead := [s[0]] + rest;
      assert lead[0] == s[0] && lead[1..] == rest;
      assert s == [s[0]] + s[1..];
      assert s == lead + TrimStart(s);
    } else {
      lead := [];
      assert s == lead + s;
    }
  }

  /** `TrimEnd` keeps a prefix that is empty or ends with a non-whitespace
      character, and what it drops is whitespace. */
  lemma {:induction false} TrimEndShape(s: string) returns (trail: string)
    ensures s == TrimEnd(s) + trail && AllWhitespace(trail)
    ensures TrimEnd(s) == [] || !IsWhitespace(TrimEnd(s)[|TrimEnd(s)| - 1])
    decreases |s|
  {
    if |s| > 0 && IsWhitespace(s[|s| - 1]) {
      var p := s[..|s| - 1];
      var last := [s[|s| - 1]];
      var rest := TrimEndShape(p);
      trail := rest + last;
      assert AllWhitespace(last) by {
        assert last[1..] == [];
      }
      AllWhitespaceAppend(rest, last);
      assert s == p + last;
      assert s == TrimEnd(p) + (rest + last);
    } else {
      trail := [];
      assert s == s + trail;
    }
  }

  /** `trim` only removes whitespace: `s` is the trimmed string with some
      whitespace before and after it, and the trimmed string has no whitespace
      at either end. */
  lemma TrimShape(s: string) returns (lead: string, trail: string)
    ensures s == lead + Trim(s) + trail
    ensures AllWhitespace(lead) && AllWhitespace(trail)
    ensures NoEdgeWhitespace(Trim(s))
  {
    var u := TrimStart(s);
    var t := TrimEnd(u);
    lead := TrimStartShape(s);
    trail := TrimEndShape(u);
    assert lead + (t + trail) == lead + t + trail;
    if t != [] {
      assert (t + trail)[0] == t[0];
    }
  }

  /** The number of UTF-16 code units that encode `s`, i.e. the JavaScript
      `length` of the string. */
  function Utf16Length(s: string): (n: nat)
    ensures |s| <= n <= 2 * |s|
  {
    if s == [] then 0 else (if s[0] as int > 0xFFFF then 2 else 1) + Utf16Length(s[1..])
  }

  lemma {:induction false} Utf16LengthAppend(a: string, b: string)
    ensures Utf16Length(a + b) == Utf16Length(a) + Utf16Length(b)
    decreases |a|
  {
    if a == [] {
      assert a + b == b;
    } else {
      assert (a + b)[0] == a[0];
      assert (a + b)[1..] == a[1..] + b;
      Utf16LengthAppend(a[1..], b);
    }
  }

  lemma {:induction false} TrimStartDrops(pre: string, rest: string)
    requires AllWhitespace(pre)
    ensures TrimStart(pre + rest) == TrimStart(rest)
    decreases |pre|
  {
    if pre == [] {
      assert pre + rest == rest;
    } else {
      assert (pre + rest)[0] == pre[0];
      assert (pre + rest)[1..] == pre[1..] + rest;
      TrimStartDrops(pre[1..], rest);
    }
  }

  lemma {:induction false} TrimEndDrops(rest: string, post: string)
    requires AllWhitespace(post)
    ensures TrimEnd(rest + post) == TrimEnd(rest)
    decreases |post|
  {
    if post == [] {
      assert rest + post == rest;
    } else {
      var p := post[..|post| - 1];
      var last := [post[|post| - 1]];
      assert post == p + last;
      AllWhitespaceAppend(p, last);
      assert (rest + post)[|rest + post| - 1] == post[|post| - 1];
      assert (rest + post)[..|rest + post| - 1] == rest + p;
      TrimEndDrops(rest, p);
    }
  }

  lemma {:induction false} TrimStartAllWhitespace(s: string)
    requires AllWhitespace(s)
    ensures TrimStart(s) == []
    decreases |s|
  {
    if s != [] {
      TrimStartAllWhitespace(s[1..]);
    }
  }

  /** Whitespace around a string with no whitespace at its edges is exactly
      what `trim` removes: `Trim` is the unique such decomposition. */
  lemma TrimUnique(pre: string, t: string, post: string)
    requires AllWhitespace(pre) && AllWhitespace(post) && NoEdgeWhitespace(t)
    ensures Trim(pre + t + post) == t
  {
    var mid := t + post;
    assert pre + t + post == pre + mid;
    TrimStartDrops(pre, mid);
    if t == [] {
      assert mid == post;
      TrimStartAllWhitespace(post);
    } else {
      assert mid[0] == t[0];
      assert TrimStart(mid) == mid;
      TrimEndDrops(t, post);
      assert TrimEnd(t) == t;
    }
  }

  /** `trim` yields the empty string exactly on whitespace-only input, so a
      name made only of blanks fails `.min(1)`. */
  lemma TrimEmptyIffAllWhitespace(s: string)
    ensures Trim(s) == [] <==> AllWhitespace(s)
  {
    var lead, trail := TrimShape(s);
    var t := Trim(s);
    AllWhitespaceAppend(lead, t);
    AllWhitespaceAppend(lead + t, trail);
    if t != [] {
      assert !IsWhitespace(t[0]);
      assert !AllWhitespace(t);
    } else {
      assert lead + t == lead;
    }
  }

  /** Trimming twice is trimming once. */
  lemma TrimIdempotent(s: string)
    ensures Trim(Trim(s)) == Trim(s)
  {
    var t := Trim(s);
    var _, _ := TrimShape(s);
    assert [] + t + [] == t;
    TrimUnique([], t, []);
  }

  /** Whitespace added around a string does not change what `trim` returns. */
  lemma TrimPadding(pre: string, s: string, post: string)
    requires AllWhitespace(pre) && AllWhitespace(post)
    ensures Trim(pre + s + post) == Trim(s)
  {
    var t := Trim(s);
    var lead, trail := TrimShape(s);
    Regroup(pre, lead, t, trail, post);
    AllWhitespaceAppend(pre, lead);
    AllWhitespaceAppend(trail, post);
    TrimUnique(pre + lead, t, trail + post);
  }

  lemma Regroup(a: string, b: string, c: string, d: string, e: string)
    ensures a + (b + c + d) + e == (a + b) + c + (d + e)
  {
  }
}
