/** String operations of Python and JavaScript that the model needs:
    substring test, `sep.join`, JavaScript `split` on one character,
    `str.replace` of one character, `str.strip` with Python's notion of
    whitespace, Python slicing with negative and out-of-range bounds,
    fixed-width batching as `[t[i:i+n] for i in range(0, len(t), n)]`, and
    `str.format` restricted to named placeholders. */
module Text {
  import opened Wrappers
  import opened Seqs

  // ---------------------------------------------------------------- contains

  /** Python's `sub in s`. */
  predicate Contains(s: string, sub: string)
    decreases |s|
  {
    if |s| < |sub| then false
    else if s[..|sub|] == sub then true
    else |s| > 0 && Contains(s[1..], sub)
  }

  lemma {:induction false} ContainsAt(s: string, sub: string, i: nat)
    requires i + |sub| <= |s| && s[i..i + |sub|] == sub
    ensures Contains(s, sub)
    decreases i
  {
    if i > 0 && s[..|sub|] != sub {
      assert s[1..][i - 1..i - 1 + |sub|] == s[i..i + |sub|];
      ContainsAt(s[1..], sub, i - 1);
    }
  }

  lemma {:induction false} ContainsIndex(s: string, sub: string) returns (i: nat)
    requires Contains(s, sub)
    ensures i + |sub| <= |s| && s[i..i + |sub|] == sub
    decreases |s|
  {
    if s[..|sub|] == sub {
      i := 0;
    } else {
      var j := ContainsIndex(s[1..], sub);
      assert s[1..][j..j + |sub|] == s[j + 1..j + 1 + |sub|];
      i := j + 1;
    }
  }

  lemma ContainsInConcat(a: string, b: string, sub: string)
    requires Contains(a, sub) || Contains(b, sub)
    ensures Contains(a + b, sub)
  {
    if Contains(a, sub) {
      var i := ContainsIndex(a, sub);
      assert (a + b)[i..i + |sub|] == a[i..i + |sub|];
      ContainsAt(a + b, sub, i);
    } else {
      var i := ContainsIndex(b, sub);
      assert (a + b)[|a| + i..|a| + i + |sub|] == b[i..i + |sub|];
      ContainsAt(a + b, sub, |a| + i);
    }
  }

  // ---------------------------------------------------------------- join / split

  /** Python's `sep.join(parts)` (JavaScript's `parts.join(sep)`). */
  function Join(parts: seq<string>, sep: string): string
  {
    if |parts| == 0 then ""
    else if |parts| == 1 then parts[0]
    else parts[0] + sep + Join(parts[1..], sep)
  }

  /** Every part occurs in the joined text. */
  lemma {:induction false} JoinHasPart(parts: seq<string>, sep: string, k: nat)
    requires k < |parts|
    ensures Contains(Join(parts, sep), parts[k])
    decreases |parts|
  {
    if |parts| == 1 {
      ContainsAt(parts[0], parts[0], 0);
    } else if k == 0 {
      ContainsAt(parts[0], parts[0], 0);
      ContainsInConcat(parts[0], sep + Join(parts[1..], sep), parts[0]);
    } else {
      JoinHasPart(parts[1..], sep, k - 1);
      ContainsInConcat(sep, Join(parts[1..], sep), parts[k]);
      ContainsInConcat(parts[0], sep + Join(parts[1..], sep), parts[k]);
      assert parts[0] + sep + Join(parts[1..], sep) == parts[0] + (sep + Join(parts[1..], sep));
    }
  }

  /** JavaScript's `s.split(c)` for a one-character separator: always at
      least one piece, an empty piece for every leading, trailing or
      doubled separator. */
  function Split(s: string, c: char): (r: seq<string>)
    ensures |r| >= 1
    decreases |s|
  {
    if s == [] then [""]
    else
      var rest := Split(s[1..], c);
      if s[0] == c then [""] + rest else [[s[0]] + rest[0]] + rest[1..]
  }

  /** Joining the pieces with the separator gives back the text. */
  lemma {:induction false} JoinSplit(s: string, c: char)
    ensures Join(Split(s, c), [c]) == s
    decreases |s|
  {
    if s != [] {
      var rest := Split(s[1..], c);
      JoinSplit(s[1..], c);
      if s[0] == c {
        assert ([""] + rest)[1..] == rest;
      } else {
        var r := [[s[0]] + rest[0]] + rest[1..];
        if |rest| == 1 {
          assert r == [[s[0]] + rest[0]];
        } else {
          assert r[1..] == rest[1..];
          assert Join(rest, [c]) == rest[0] + [c] + Join(rest[1..], [c]);
        }
      }
    }
  }

  /** No piece contains the separator. */
  lemma {:induction false} SplitPieces(s: string, c: char)
    ensures forall k :: 0 <= k < |Split(s, c)| ==> c !in Split(s, c)[k]
    decreases |s|
  {
    if s != [] {
      SplitPieces(s[1..], c);
      var rest := Split(s[1..], c);
      if s[0] != c {
        assert c !in [s[0]] + rest[0];
      }
    }
  }

  // ---------------------------------------------------------------- replace

  /** Python's `s.replace(a, b)` for one-character strings `a` and `b`. */
  function ReplaceChar(s: string, a: char, b: char): (r: string)
    ensures |r| == |s|
    ensures forall i :: 0 <= i < |s| ==> r[i] == (if s[i] == a then b else s[i])
  {
    if s == [] then [] else [if s[0] == a then b else s[0]] + ReplaceChar(s[1..], a, b)
  }

  // ---------------------------------------------------------------- strip

  /** The characters for which Python's `str.isspace()` holds. */
  const Whitespace: set<char> :=
    {'\U{0009}', '\U{000A}', '\U{000B}', '\U{000C}', '\U{000D}',
     '\U{001C}', '\U{001D}', '\U{001E}', '\U{001F}', '\U{0020}',
     '\U{0085}', '\U{00A0}', '\U{1680}',
     '\U{2000}', '\U{2001}', '\U{2002}', '\U{2003}', '\U{2004}', '\U{2005}',
     '\U{2006}', '\U{2007}', '\U{2008}', '\U{2009}', '\U{200A}',
     '\U{2028}', '\U{2029}', '\U{202F}', '\U{205F}', '\U{3000}'}

  predicate IsSpace(c: char)
  {
    c in Whitespace
  }

  /** The first index at or after `i` that is not whitespace, or `|s|`. */
  function SkipSpaces(s: string, i: nat): (r: nat)
    requires i <= |s|
    ensures i <= r <= |s|
    ensures forall k :: i <= k < r ==> IsSpace(s[k])
    ensures r == |s| || !IsSpace(s[r])
    decreases |s| - i
  {
    if i < |s| && IsSpace(s[i]) then SkipSpaces(s, i + 1) else i
  }

  /** The index just after the last character before `j` that is not
      whitespace, or 0. */
  function BackSpaces(s: string, j: nat): (r: nat)
    requires j <= |s|
    ensures r <= j
    ensures forall k :: r <= k < j ==> IsSpace(s[k])
    ensures r == 0 || !IsSpace(s[r - 1])
  {
    if j > 0 && IsSpace(s[j - 1]) then BackSpaces(s, j - 1) else j
  }

  /** Python's `s.lstrip()`. */
  function StripStart(s: string): (r: string)
    ensures |r| <= |s| && r == s[|s| - |r|..]
    ensures forall k :: 0 <= k < |s| - |r| ==> IsSpace(s[k])
    ensures r == [] || !IsSpace(r[0])
  {
    s[SkipSpaces(s, 0)..]
  }

  /** Python's `s.rstrip()`. */
  function StripEnd(s: string): (r: string)
    ensures |r| <= |s| && r == s[..|r|]
    ensures forall k :: |r| <= k < |s| ==> IsSpace(s[k])
    ensures r == [] || !IsSpace(r[|r| - 1])
  {
    s[..BackSpaces(s, |s|)]
  }

  /** Python's `s.strip()`. */
  function Strip(s: string): string
  {
    StripEnd(StripStart(s))
  }

  /** Neither end of the text is whitespace. */
  predicate Stripped(s: string)
  {
    s == [] || (!IsSpace(s[0]) && !IsSpace(s[|s| - 1]))
  }

  /** `strip` removes only leading and trailing whitespace: the result is a
      contiguous part of the text, everything cut away is whitespace, and
      neither end of the result is whitespace. */
  lemma StripIsTrim(s: string) returns (i: nat, j: nat)
    ensures i <= j <= |s| && Strip(s) == s[i..j]
    ensures forall k :: 0 <= k < i ==> IsSpace(s[k])
    ensures forall k :: j <= k < |s| ==> IsSpace(s[k])
    ensures Stripped(Strip(s))
  {
    var a := StripStart(s);
    var b := StripEnd(a);
    i := |s| - |a|;
    j := i + |b|;
    assert a == s[i..];
    assert b == a[..|b|];
    assert b == s[i..j];
    forall k | j <= k < |s|
      ensures IsSpace(s[k])
    {
      assert s[k] == a[k - i];
    }
    if b != [] {
      assert b[0] == a[0];
    }
  }

  /** Stripping a stripped text changes nothing, so `s.strip().strip()` is
      `s.strip()`. */
  lemma StripIdempotent(s: string)
    ensures Strip(Strip(s)) == Strip(s)
  {
    var t := Strip(s);
    var _, _ := StripIsTrim(s);
    assert StripStart(t) == t;
    assert StripEnd(t) == t;
  }

  // ---------------------------------------------------------------- slicing

  /** How Python normalises a slice bound for a sequence of length `n`:
      negative bounds count from the end, and the result is clamped to
      `[0, n]`. */
  function PyIndex(i: int, n: nat): (r: nat)
    ensures r <= n
  {
    if i < 0 then (if i + n < 0 then 0 else i + n)
    else if i > n then n
    else i
  }

  /** Python's `s[a:b]`. */
  function PySlice(s: string, a: int, b: int): string
  {
    var lo := PyIndex(a, |s|);
    var hi := PyIndex(b, |s|);
    if lo < hi then s[lo..hi] else []
  }

  /** A Python slice is a contiguous part of the text. */
  lemma PySliceWithin(s: string, a: int, b: int) returns (lo: nat, hi: nat)
    ensures lo <= hi <= |s| && PySlice(s, a, b) == s[lo..hi]
  {
    lo := PyIndex(a, |s|);
    hi := PyIndex(b, |s|);
    if hi < lo { hi := lo; }
  }

  // ---------------------------------------------------------------- batches

  /** `[text[i:i + size] for i in range(0, len(text), size)]` for a positive
      `size`. */
  function Batches(text: string, size: nat): seq<string>
    requires size > 0
    decreases |text|
  {
    if |text| == 0 then []
    else if |text| <= size then [text]
    else [text[..size]] + Batches(text[size..], size)
  }

  /** Concatenating the batches gives back the text. */
  lemma {:induction false} BatchesConcat(text: string, size: nat)
    requires size > 0
    ensures Flatten(Batches(text, size)) == text
    decreases |text|
  {
    if |text| == 0 {
    } else if |text| <= size {
      FlattenSingle(text);
    } else {
      BatchesConcat(text[size..], size);
      assert Batches(text, size)[1..] == Batches(text[size..], size);
      assert text == text[..size] + text[size..];
    }
  }

  /** Every batch is non-empty, every batch but the last has exactly
      `size` characters and the last has at most `size`; there are no
      batches exactly when the text is empty. */
  lemma {:induction false} BatchesShape(text: string, size: nat)
    requires size > 0
    ensures Batches(text, size) == [] <==> text == []
    ensures forall k :: 0 <= k < |Batches(text, size)| ==> 0 < |Batches(text, size)[k]| <= size
    ensures forall k :: 0 <= k < |Batches(text, size)| - 1 ==> |Batches(text, size)[k]| == size
    decreases |text|
  {
    if |text| > size {
      BatchesShape(text[size..], size);
      var b := Batches(text, size);
      assert b[1..] == Batches(text[size..], size);
      assert forall k :: 1 <= k < |b| ==> b[k] == b[1..][k - 1];
    }
  }

  /** Appending one batch's worth of text to a text made of `n` full batches
      appends exactly that batch. */
  lemma {:induction false} BatchesSnoc(x: string, y: string, size: nat, n: nat)
    requires size > 0 && |x| == n * size && 0 < |y| <= size
    ensures Batches(x + y, size) == Batches(x, size) + [y]
    decreases n
  {
    if n == 0 {
      assert x + y == y;
    } else {
      assert |x| == size + (n - 1) * size;
      assert (x + y)[..size] == x[..size];
      assert (x + y)[size..] == x[size..] + y;
      BatchesSnoc(x[size..], y, size, n - 1);
      if n == 1 {
        assert x[size..] == [];
        assert x == x[..size];
      }
    }
  }

  // ---------------------------------------------------------------- format

  /** The index of the first `}` at or after `j`. */
  function NextClose(t: string, j: nat): (r: Option<nat>)
    ensures r.Some? ==> j <= r.value < |t| && t[r.value] == '}'
    ensures r.Some? ==> forall k :: j <= k < r.value ==> t[k] != '}'
    ensures r.None? ==> forall k :: j <= k < |t| ==> t[k] != '}'
    decreases |t| - j
  {
    if j >= |t| then None else if t[j] == '}' then Some(j) else NextClose(t, j + 1)
  }

  /** `t.format(**params)` restricted to named placeholders: every `{name}`
      whose name is a key of `params` is replaced by its value, and all
      other text is copied unchanged. */
  function Format(t: string, params: map<string, string>): string
    decreases |t|
  {
    if t == [] then []
    else if t[0] == '{' && NextClose(t, 1).Some? && t[1..NextClose(t, 1).value] in params then
      var e := NextClose(t, 1).value;
      params[t[1..e]] + Format(t[e + 1..], params)
    else
      [t[0]] + Format(t[1..], params)
  }

  /** Text before the first `{` is copied verbatim. */
  lemma {:induction false} FormatLiteralPrefix(lit: string, rest: string, params: map<string, string>)
    requires '{' !in lit
    ensures Format(lit + rest, params) == lit + Format(rest, params)
    decreases |lit|
  {
    if lit != [] {
      assert (lit + rest)[0] == lit[0];
      assert (lit + rest)[1..] == lit[1..] + rest;
      FormatLiteralPrefix(lit[1..], rest, params);
    } else {
      assert lit + rest == rest;
    }
  }

  /** A placeholder at the front is replaced by its value. */
  lemma FormatFieldPrefix(k: string, rest: string, params: map<string, string>)
    requires k in params && '}' !in k
    ensures Format("{" + k + "}" + rest, params) == params[k] + Format(rest, params)
  {
    var t := "{" + k + "}" + rest;
    assert t[1..|k| + 1] == k;
    assert t[|k| + 1] == '}';
    assert forall i :: 1 <= i < |k| + 1 ==> t[i] == k[i - 1];
    assert NextClose(t, 1) == Some(|k| + 1);
    assert t[|k| + 2..] == rest;
  }

  /** Text without `{` formats to itself. */
  lemma FormatLiteral(lit: string, params: map<string, string>)
    requires '{' !in lit
    ensures Format(lit, params) == lit
  {
    FormatLiteralPrefix(lit, [], params);
    assert lit + [] == lit;
  }

  /** A fixed template with one placeholder between brace-free text. */
  lemma FormatOneField(pre: string, k: string, post: string, params: map<string, string>)
    requires '{' !in pre && '{' !in post
    requires k in params && '}' !in k
    ensures Format(pre + "{" + k + "}" + post, params) == pre + params[k] + post
  {
    assert pre + "{" + k + "}" + post == pre + ("{" + k + "}" + post);
    FormatLiteralPrefix(pre, "{" + k + "}" + post, params);
    FormatFieldPrefix(k, post, params);
    FormatLiteral(post, params);
  }

  lemma PlaceholderAt(t: string, k: string, i: nat)
    requires i + |k| + 2 <= |t| && t[i..i + |k| + 2] == "{" + k + "}"
    ensures t[i] == '{' && t[i + 1 + |k|] == '}'
    ensures t[i + 1..i + 1 + |k|] == k
  {
    var ph := "{" + k + "}";
    assert t[i..i + |ph|][0] == ph[0];
    assert t[i..i + |ph|][|k| + 1] == ph[|k| + 1];
    assert forall m :: 0 <= m < |k| ==> t[i + 1..i + 1 + |k|][m] == t[i..i + |ph|][m + 1] == ph[m + 1] == k[m];
  }

  /** An occurrence after the first `d` characters is an occurrence in
      the rest. */
  lemma ContainsAfter(t: string, sub: string, i: nat, d: nat)
    requires d <= i && i + |sub| <= |t| && t[i..i + |sub|] == sub
    ensures Contains(t[d..], sub)
  {
    assert t[d..][i - d..i - d + |sub|] == t[i..i + |sub|];
    ContainsAt(t[d..], sub, i - d);
  }

  /** A template that starts with the placeholder of `k` formats to its
      value followed by the rest. */
  lemma FormatHere(t: string, params: map<string, string>, k: string)
    requires k in params && '}' !in k
    requires |k| + 2 <= |t| && t[..|k| + 2] == "{" + k + "}"
    ensures Contains(Format(t, params), params[k])
  {
    var rest := t[|k| + 2..];
    assert t == "{" + k + "}" + rest;
    FormatFieldPrefix(k, rest, params);
    ContainsAt(params[k] + Format(rest, params), params[k], 0);
  }

  /** A known field at the front of the template closes before any later
      placeholder opens, since no key contains `{`. */
  lemma FieldEndsBefore(t: string, params: map<string, string>, i: nat, e: nat)
    requires forall key :: key in params ==> '{' !in key
    requires 0 < i < |t| && t[i] == '{'
    requires NextClose(t, 1) == Some(e) && t[1..e] in params
    ensures e < i
  {
    var name := t[1..e];
    assert '{' !in name;
    if i < e {
      assert false;
    }
  }

  /** If the template names a key (and no key contains a brace), the
      formatted text contains that key's value: no earlier placeholder can
      swallow it. */
  lemma {:induction false} FormatSubstitutes(t: string, params: map<string, string>, k: string)
    requires k in params && '{' !in k && '}' !in k
    requires forall key :: key in params ==> '{' !in key
    requires Contains(t, "{" + k + "}")
    ensures Contains(Format(t, params), params[k])
    decreases |t|
  {
    var ph := "{" + k + "}";
    var i := ContainsIndex(t, ph);
    PlaceholderAt(t, k, i);
    if i == 0 {
      FormatHere(t, params, k);
    } else if t[0] == '{' && NextClose(t, 1).Some? && t[1..NextClose(t, 1).value] in params {
      var e := NextClose(t, 1).value;
      FieldEndsBefore(t, params, i, e);
      ContainsAfter(t, ph, i, e + 1);
      FormatSubstitutes(t[e + 1..], params, k);
      ContainsInConcat(params[t[1..e]], Format(t[e + 1..], params), params[k]);
    } else {
      ContainsAfter(t, ph, i, 1);
      FormatSubstitutes(t[1..], params, k);
      ContainsInConcat([t[0]], Format(t[1..], params), params[k]);
    }
  }
}
