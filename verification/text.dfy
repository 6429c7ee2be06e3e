// String helpers with Python's meaning: str.endswith, str.join, filter(None, ...),
// str.strip() and the ASCII part of str.lower().

module Text {

  /** `s.endswith(suffix)` */
  predicate EndsWith(s: string, suffix: string)
  {
    |suffix| <= |s| && s[|s| - |suffix|..] == suffix
  }

  /** `sep.join(parts)`: the parts in order with one `sep` between neighbours. */
  function Join(sep: string, parts: seq<string>): string
  {
    if parts == [] then ""
    else if |parts| == 1 then parts[0]
    else parts[0] + sep + Join(sep, parts[1..])
  }

  /** Joining two non-empty lists puts exactly one separator between the two joins. */
  lemma {:induction false} JoinAppend(sep: string, a: seq<string>, b: seq<string>)
    requires a != [] && b != []
    ensures Join(sep, a + b) == Join(sep, a) + sep + Join(sep, b)
  {
    assert (a + b)[0] == a[0];
    if |a| == 1 {
      assert (a + b)[1..] == b;
    } else {
      assert (a + b)[1..] == a[1..] + b;
      JoinAppend(sep, a[1..], b);
    }
  }

  /** Part `i` sits between the join of the parts before it and the join of the parts after it. */
  lemma {:induction false} JoinAt(sep: string, parts: seq<string>, i: nat)
    requires i < |parts|
    ensures Join(sep, parts) ==
      (if i == 0 then "" else Join(sep, parts[..i]) + sep)
      + parts[i]
      + (if i == |parts| - 1 then "" else sep + Join(sep, parts[i + 1..]))
  {
    var tail := parts[i..];
    assert tail[0] == parts[i];
    var after := if i == |parts| - 1 then "" else sep + Join(sep, parts[i + 1..]);
    assert Join(sep, tail) == parts[i] + after by {
      if i < |parts| - 1 {
        assert tail[1..] == parts[i + 1..];
      }
    }
    if i > 0 {
      assert parts == parts[..i] + tail;
      JoinAppend(sep, parts[..i], tail);
    } else {
      assert parts == tail;
    }
  }

  /** `list(filter(None, parts))` over strings: the non-empty parts, in order. */
  function NonEmpty(parts: seq<string>): (r: seq<string>)
    ensures |r| <= |parts|
    ensures forall p :: p in r <==> p in parts && p != ""
  {
    if parts == [] then []
    else (if parts[0] == "" then [] else [parts[0]]) + NonEmpty(parts[1..])
  }

  /** Filtering distributes over concatenation. */
  lemma {:induction false} NonEmptyAppend(a: seq<string>, b: seq<string>)
    ensures NonEmpty(a + b) == NonEmpty(a) + NonEmpty(b)
  {
    if a == [] {
      assert a + b == b;
    } else {
      assert (a + b)[0] == a[0];
      assert (a + b)[1..] == a[1..] + b;
      NonEmptyAppend(a[1..], b);
    }
  }

  /** A list with no empty string passes the filter unchanged. */
  lemma {:induction false} NonEmptyKeepsAll(parts: seq<string>)
    requires forall k :: 0 <= k < |parts| ==> parts[k] != ""
    ensures NonEmpty(parts) == parts
  {
    if parts != [] {
      NonEmptyKeepsAll(parts[1..]);
    }
  }

  /** Python's `str.isspace()` for one character: the characters `str.strip()` removes. */
  predicate IsSpace(c: char)
  {
    c == ' ' || ('\t' <= c <= '\r') || ('\U{1C}' <= c <= '\U{1F}')
    || c == '\U{85}' || c == '\U{A0}' || c == '\U{1680}'
    || ('\U{2000}' <= c <= '\U{200A}') || c == '\U{2028}' || c == '\U{2029}'
    || c == '\U{202F}' || c == '\U{205F}' || c == '\U{3000}'
  }

  /** Every character of `s` is whitespace. */
  predicate AllSpace(s: string)
  {
    forall k :: 0 <= k < |s| ==> IsSpace(s[k])
  }

  /** `s.lstrip()`: the suffix left after dropping leading whitespace. */
  function TrimStart(s: string): (r: string)
    ensures |r| <= |s| && r == s[|s| - |r|..]
    ensures AllSpace(s[..|s| - |r|])
    ensures r != [] ==> !IsSpace(r[0])
  {
    if s != [] && IsSpace(s[0]) then TrimStart(s[1..]) else s
  }

  /** `s.rstrip()`: the prefix left after dropping trailing whitespace. */
  function TrimEnd(s: string): (r: string)
    ensures |r| <= |s| && r == s[..|r|]
    ensures AllSpace(s[|r|..])
    ensures r != [] ==> !IsSpace(r[|r| - 1])
  {
    if s != [] && IsSpace(s[|s| - 1]) then TrimEnd(s[..|s| - 1]) else s
  }

  /** `s.strip()` */
  function Strip(s: string): string
  {
    TrimEnd(TrimStart(s))
  }

  /** Leading whitespace in front of a word that does not start with whitespace is all that lstrip removes. */
  lemma {:induction false} TrimStartPadded(pad: string, w: string)
    requires AllSpace(pad)
    requires w != [] ==> !IsSpace(w[0])
    ensures TrimStart(pad + w) == w
  {
    if pad == [] {
      assert pad + w == w;
    } else {
      assert (pad + w)[0] == pad[0];
      assert (pad + w)[1..] == pad[1..] + w;
      TrimStartPadded(pad[1..], w);
    }
  }

  /** Trailing whitespace after a word that does not end with whitespace is all that rstrip removes. */
  lemma {:induction false} TrimEndPadded(w: string, pad: string)
    requires AllSpace(pad)
    requires w != [] ==> !IsSpace(w[|w| - 1])
    ensures TrimEnd(w + pad) == w
  {
    if pad == [] {
      assert w + pad == w;
    } else {
      var n := |w + pad|;
      assert (w + pad)[n - 1] == pad[|pad| - 1];
      assert (w + pad)[..n - 1] == w + pad[..|pad| - 1];
      TrimEndPadded(w, pad[..|pad| - 1]);
    }
  }

  /** The ASCII upper-case letters map to lower case; everything else is kept. */
  function LowerChar(c: char): char
  {
    if 'A' <= c <= 'Z' then (c as int - 'A' as int + 'a' as int) as char else c
  }

  /** `s.lower()` restricted to ASCII letters. */
  function Lower(s: string): (r: string)
    ensures |r| == |s|
    ensures forall k :: 0 <= k < |s| ==> r[k] == LowerChar(s[k])
  {
    if s == [] then [] else [LowerChar(s[0])] + Lower(s[1..])
  }
}
